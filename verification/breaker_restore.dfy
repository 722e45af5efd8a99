/** Export and restore: a document exported by a registry is accepted, and gives its state back. */
module BreakerRestore {
  import opened Common
  import opened BreakerRoute
  import opened BreakerKeys
  import opened BreakerSpec
  import opened BreakerInvariant

  /** What a restart makes of a route version. */
  function Recovered(rt: Runtime, now: real): Runtime {
    var floor := now + rt.policy.baseCooldown;
    if rt.state != HalfOpen then rt.(leaseId := None)
    else if rt.actionRequired then
      rt.(state := OpenActionRequired, epoch := rt.epoch + 1, leaseId := None)
    else
      rt.(state := OpenTemporary, epoch := rt.epoch + 1, leaseId := None,
          openUntil := Some(RealMax(rt.openUntil.Or(floor), floor)))
  }

  /** The counters fit the document format; reopening HALF_OPEN needs room for one more epoch. */
  predicate Persistable(rt: Runtime) {
    && rt.epoch <= (if rt.state == HalfOpen then MAX_COUNTER - 1 else MAX_COUNTER)
    && rt.failures <= MAX_COUNTER
    && rt.protocolFailures <= MAX_COUNTER
    && rt.successes <= MAX_COUNTER
    && rt.openCount <= MAX_COUNTER
  }

  /** The export of a route is accepted exactly if it fits, and then gives the route back. */
  lemma RestoredRouteIsRecovered(v: VersionKey, rt: Runtime, blank: Runtime, now: real)
    requires RouteOk(rt) && blank.enabled == rt.enabled && blank.policy == rt.policy
    ensures var r := RestoredRoute(blank, ToDoc(v, rt), now);
            if Persistable(rt) then r == Ok(Recovered(rt, now)) else r.Err?
  {
  }

  /** A restart only reopens HALF_OPEN: it raises the epoch and never shortens the cooldown. */
  lemma RecoveryNeverShortens(rt: Runtime, now: real)
    requires RouteOk(rt)
    ensures var r := Recovered(rt, now);
            && RouteOk(r)
            && r.state != HalfOpen
            && (rt.state != HalfOpen ==> r == rt.(leaseId := None))
            && (rt.state == HalfOpen ==>
                  r.epoch == rt.epoch + 1
                  && r.state == (if rt.actionRequired then OpenActionRequired else OpenTemporary))
            && (r.state == OpenTemporary && rt.openUntil.Some? ==> r.openUntil.value >= rt.openUntil.value)
            && (rt.state == HalfOpen && !rt.actionRequired ==> r.openUntil.value >= now + rt.policy.baseCooldown)
            && forall later: real :: Recovered(r, later) == r
  {
  }

  predicate SameConfiguration(source: Reg, target: Reg) {
    && source.WellKeyed() && target.WellKeyed()
    && target.current == source.current
    && forall k <- source.current ::
         var v := VersionKey(k, source.current[k]);
         target.routes[v].enabled == source.routes[v].enabled && target.routes[v].policy == source.routes[v].policy
  }

  /** Bounds of the document format: at most 10,000 routes, counters up to 2^63 - 1. */
  predicate Exportable(reg: Reg) {
    && |reg.current| <= MAX_DOCUMENT_ROUTES
    && forall k <- reg.current :: RouteFits(reg, k)
  }

  predicate RouteFits(reg: Reg, k: RouteKey) {
    && k in reg.current && VersionKey(k, reg.current[k]) in reg.routes
    && reg.current[k].revision <= MAX_COUNTER && Persistable(reg.routes[VersionKey(k, reg.current[k])])
  }

  // --------------------------------------------------------- restoring any document

  /** The document route `d` is about version `v`, as it is configured now. */
  predicate Names(reg: Reg, d: RouteDoc, v: VersionKey) {
    d.key == v.key && v in reg.routes && reg.IsCurrent(v) && Describes(d, v.version, reg.routes[v])
  }

  /** `d` does not stop the restore. */
  predicate Accepts(reg: Reg, d: RouteDoc, now: real)
    requires reg.WellKeyed()
  {
    d.key in reg.current ==>
      var v := VersionKey(d.key, reg.current[d.key]);
      InRange(d.revision, 1) && (Describes(d, v.version, reg.routes[v]) ==> RestoredRoute(reg.routes[v], d, now).Ok?)
  }

  predicate DistinctDocs(docs: seq<RouteDoc>) {
    forall i, j :: 0 <= i < j < |docs| ==> docs[i].key != docs[j].key
  }

  predicate NoneSeen(docs: seq<RouteDoc>, seen: set<RouteKey>) {
    forall d <- docs :: d.key !in seen
  }

  lemma DistinctStep(docs: seq<RouteDoc>, seen: set<RouteKey>)
    requires docs != []
    ensures DistinctDocs(docs) && NoneSeen(docs, seen)
            <==> docs[0].key !in seen && DistinctDocs(docs[1..]) && NoneSeen(docs[1..], seen + {docs[0].key})
  {
    var rest := docs[1..];
    assert forall i :: 0 <= i < |rest| ==> rest[i] == docs[i + 1];
    assert docs[0] in docs && forall d <- rest :: d in docs;
    if DistinctDocs(rest) && NoneSeen(rest, seen + {docs[0].key}) {
      forall i, j | 0 <= i < j < |docs|
        ensures docs[i].key != docs[j].key
      {
        assert docs[j] == rest[j - 1] && rest[j - 1] in rest;
        assert i > 0 ==> docs[i] == rest[i - 1];
      }
    }
  }

  /** The registry after the first document route. */
  function AfterFirst(reg: Reg, d: RouteDoc, now: real): (r: Reg)
    requires reg.WellKeyed() && Accepts(reg, d, now)
    ensures r.WellKeyed()
  {
    if d.key !in reg.current then reg
    else
      var v := VersionKey(d.key, reg.current[d.key]);
      if !Describes(d, v.version, reg.routes[v]) then reg
      else
        var next := RestoredRoute(reg.routes[v], d, now).value;
        reg.(routes := reg.routes[v := next], log := Logged(reg, v, reg.routes[v].state, next, StateRestored))
  }

  predicate Described(reg: Reg, d: RouteDoc)
    requires reg.WellKeyed()
  {
    d.key in reg.current
    && Describes(d, reg.current[d.key], reg.routes[VersionKey(d.key, reg.current[d.key])])
  }

  lemma RestoreOne(reg: Reg, docs: seq<RouteDoc>, seen: set<RouteKey>, now: real, count: nat)
    requires docs != [] && reg.WellKeyed()
    ensures var d := docs[0];
            if d.key !in seen && Accepts(reg, d, now) then
              RestoreRoutes(reg, docs, seen, now, count)
              == RestoreRoutes(AfterFirst(reg, d, now), docs[1..], seen + {d.key}, now,
                               if Described(reg, d) then count + 1 else count)
            else RestoreRoutes(reg, docs, seen, now, count).Err?
  {
    hide RestoredRoute, Describes, Logged;
  }

  /** Routes of other keys are looked at as before. */
  lemma OthersUnmoved(reg: Reg, d: RouteDoc, e: RouteDoc, now: real)
    requires reg.WellKeyed() && Accepts(reg, d, now) && e.key != d.key
    ensures var next := AfterFirst(reg, d, now);
            && next == reg.(routes := next.routes, log := next.log) && next.routes.Keys == reg.routes.Keys
            && (Accepts(next, e, now) <==> Accepts(reg, e, now)) && (Described(next, e) <==> Described(reg, e))
            && forall v <- reg.routes :: v.key == e.key ==> next.routes[v] == reg.routes[v]
  {
    hide RestoredRoute, Describes, Logged;
  }

  predicate AllAccepted(reg: Reg, docs: seq<RouteDoc>, now: real)
    requires reg.WellKeyed()
  {
    forall d <- docs :: Accepts(reg, d, now)
  }

  /** A document is accepted exactly if its keys are distinct and each of its routes is acceptable. */
  lemma {:induction false} RestoreAccepted(reg: Reg, docs: seq<RouteDoc>, seen: set<RouteKey>, now: real, count: nat)
    requires reg.WellKeyed()
    ensures RestoreRoutes(reg, docs, seen, now, count).Ok?
            <==> DistinctDocs(docs) && NoneSeen(docs, seen) && AllAccepted(reg, docs, now)
    decreases |docs|
  {
    if docs != [] {
      hide RestoreRoutes, Accepts, AfterFirst, DistinctDocs, Described;
      var d := docs[0];
      RestoreOne(reg, docs, seen, now, count);
      DistinctStep(docs, seen);
      assert d in docs && forall e <- docs :: e == d || e in docs[1..];
      if d.key !in seen && Accepts(reg, d, now) {
        var next := AfterFirst(reg, d, now);
        RestoreAccepted(next, docs[1..], seen + {d.key}, now, if Described(reg, d) then count + 1 else count);
        if NoneSeen(docs[1..], seen + {d.key}) {
          forall e | e in docs[1..]
            ensures Accepts(next, e, now) <==> Accepts(reg, e, now)
          {
            OthersUnmoved(reg, d, e, now);
          }
        }
      }
    }
  }

  /** What a document does to version `v`: the route that names it is carried over, nothing else is touched. */
  predicate RestoredAs(reg: Reg, docs: seq<RouteDoc>, now: real, v: VersionKey, rt: Runtime)
    requires v in reg.routes
  {
    && (forall d <- docs :: Names(reg, d, v) ==> RestoredRoute(reg.routes[v], d, now) == Ok(rt))
    && ((forall d <- docs :: !Names(reg, d, v)) ==> rt == reg.routes[v])
  }

  lemma OwnRestoredAs(reg: Reg, docs: seq<RouteDoc>, seen: set<RouteKey>, now: real, v: VersionKey, rt: Runtime)
    requires docs != [] && reg.WellKeyed() && v in reg.routes && Accepts(reg, docs[0], now) && v.key == docs[0].key
    requires NoneSeen(docs[1..], seen + {docs[0].key})
    requires var next := AfterFirst(reg, docs[0], now);
             v in next.routes && RestoredAs(next, docs[1..], now, v, rt)
    ensures RestoredAs(reg, docs, now, v, rt)
  {
    hide RestoredRoute, Logged, Describes;
    var d := docs[0];
    var next := AfterFirst(reg, d, now);
    assert forall e <- docs :: e == d || e in docs[1..];
    assert rt == next.routes[v];
    assert d in docs;
  }

  lemma OtherRestoredAs(reg: Reg, docs: seq<RouteDoc>, next: Reg, now: real, v: VersionKey, rt: Runtime)
    requires docs != [] && v in reg.routes && v.key != docs[0].key
    requires v in next.routes && next.routes[v] == reg.routes[v] && next.current == reg.current
    requires RestoredAs(next, docs[1..], now, v, rt)
    ensures RestoredAs(reg, docs, now, v, rt)
  {
    hide RestoredRoute, Describes;
    assert forall e <- docs :: e == docs[0] || e in docs[1..];
    assert forall e <- docs[1..] :: e in docs;
    assert forall e :: Names(next, e, v) == Names(reg, e, v);
  }

  /** The effect of an accepted document, whatever it holds. */
  lemma {:induction false} RestoreEffect(reg: Reg, docs: seq<RouteDoc>, seen: set<RouteKey>, now: real, count: nat)
    requires reg.WellKeyed() && RestoreRoutes(reg, docs, seen, now, count).Ok?
    ensures var r := RestoreRoutes(reg, docs, seen, now, count).value;
            && r.reg == reg.(routes := r.reg.routes, log := r.reg.log) && r.reg.routes.Keys == reg.routes.Keys
            && (forall v <- reg.routes :: RestoredAs(reg, docs, now, v, r.reg.routes[v]))
            && ((forall d <- docs :: Described(reg, d)) ==> r.count == count + |docs|)
    decreases |docs|
  {
    if docs != [] {
      hide RestoreRoutes, Accepts, AfterFirst, RestoredAs, Described;
      RestoreAccepted(reg, docs, seen, now, count);
      RestoreOne(reg, docs, seen, now, count);
      DistinctStep(docs, seen);
      var d := docs[0];
      var next := AfterFirst(reg, d, now);
      var count' := if Described(reg, d) then count + 1 else count;
      RestoreEffect(next, docs[1..], seen + {d.key}, now, count');
      FirstKeeps(reg, d, now);
      var r := RestoreRoutes(next, docs[1..], seen + {d.key}, now, count').value;
      forall v | v in reg.routes
        ensures RestoredAs(reg, docs, now, v, r.reg.routes[v])
      {
        if v.key == d.key {
          OwnRestoredAs(reg, docs, seen, now, v, r.reg.routes[v]);
        } else {
          ElsewhereUnmoved(reg, d, now, v);
          OtherRestoredAs(reg, docs, next, now, v, r.reg.routes[v]);
        }
      }
      forall e | e in docs[1..]
        ensures e in docs && Described(next, e) == Described(reg, e)
      {
        OthersUnmoved(reg, d, e, now);
      }
    }
  }

  lemma ElsewhereUnmoved(reg: Reg, d: RouteDoc, now: real, v: VersionKey)
    requires reg.WellKeyed() && Accepts(reg, d, now) && v in reg.routes && v.key != d.key
    ensures v in AfterFirst(reg, d, now).routes && AfterFirst(reg, d, now).routes[v] == reg.routes[v]
  {
  }

  lemma FirstKeeps(reg: Reg, d: RouteDoc, now: real)
    requires reg.WellKeyed() && Accepts(reg, d, now)
    ensures var next := AfterFirst(reg, d, now);
            next == reg.(routes := next.routes, log := next.log) && next.routes.Keys == reg.routes.Keys
  {
  }

  // -------------------------------------------------------------- what exports hold

  predicate Listed(docs: seq<RouteDoc>, k: RouteKey) {
    exists d <- docs :: d.key == k
  }

  lemma CurrentDocKey(reg: Reg, k: RouteKey)
    requires reg.WellKeyed() && k in reg.current
    ensures CurrentDoc(reg, k).key == k
  {
  }

  lemma ExportAt(reg: Reg)
    requires reg.WellKeyed()
    ensures var keys, docs := SortedKeys(reg.current.Keys), Export(reg).routes;
            && |docs| == |keys| == |reg.current|
            && (forall k :: k in keys <==> k in reg.current)
            && forall i :: 0 <= i < |docs| ==>
                 keys[i] in reg.current && docs[i].key == keys[i] && docs[i] == CurrentDoc(reg, keys[i])
  {
    hide ToDoc, CurrentDoc, KeyLeq, SortedKeys, Reg.WellKeyed;
    assert |reg.current.Keys| == |reg.current|;
    forall k | k in reg.current
      ensures CurrentDoc(reg, k).key == k
    {
      CurrentDocKey(reg, k);
    }
  }

  lemma ExportListsAll(reg: Reg)
    requires reg.WellKeyed()
    ensures forall k <- reg.current :: Listed(Export(reg).routes, k)
  {
    hide Export, CurrentDoc, SortedKeys, KeyLeq, Reg.WellKeyed;
    ExportAt(reg);
    var keys, docs := SortedKeys(reg.current.Keys), Export(reg).routes;
    forall k | k in reg.current
      ensures Listed(docs, k)
    {
      var i :| 0 <= i < |keys| && keys[i] == k;
      assert docs[i].key == k;
    }
  }

  lemma ExportedRoutes(reg: Reg)
    requires reg.WellKeyed()
    ensures var docs := Export(reg).routes;
            && |docs| == |reg.current|
            && DistinctDocs(docs)
            && (forall d <- docs :: d.key in reg.current && d == CurrentDoc(reg, d.key))
  {
    hide Export, CurrentDoc;
    ExportAt(reg);
  }

  lemma ExportedRouteAccepted(source: Reg, target: Reg, k: RouteKey, now: real)
    requires Inv(source) && SameConfiguration(source, target) && k in source.current
    ensures var d, v := CurrentDoc(source, k), VersionKey(k, source.current[k]);
            && (Accepts(target, d, now) <==> RouteFits(source, k))
            && Described(target, d) && Names(target, d, v)
            && (RouteFits(source, k) ==> RestoredRoute(target.routes[v], d, now) == Ok(Recovered(source.routes[v], now)))
  {
    hide RestoredRoute, Recovered, Persistable;
    var v := VersionKey(k, source.current[k]);
    assert RouteOk(source.routes[v]);
    RestoredRouteIsRecovered(v, source.routes[v], target.routes[v], now);
  }

  /** An exported document is accepted by an identically configured registry exactly within the format's bounds. */
  lemma ExportAccepted(source: Reg, target: Reg, now: real)
    requires Inv(source) && SameConfiguration(source, target)
    ensures RestoreDocument(target, Export(source), now).Ok? <==> Exportable(source)
  {
    hide Inv, RestoreRoutes, Export, CurrentDoc, Accepts, RouteFits, SameConfiguration;
    InvKeyed(source);
    ExportedRoutes(source);
    ExportListsAll(source);
    ExportShape(source);
    var docs := Export(source).routes;
    assert target.WellKeyed() by { SameIsKeyed(source, target); }
    RestoreAccepted(target, docs, {}, now, 0);
    forall d | d in docs
      ensures Accepts(target, d, now) <==> RouteFits(source, d.key)
    {
      ExportedRouteAccepted(source, target, d.key, now);
    }
  }

  lemma SameIsKeyed(source: Reg, target: Reg)
    requires SameConfiguration(source, target)
    ensures target.WellKeyed() && target.current == source.current
  {
  }

  /**
   A document exported by any reachable registry is accepted by an identically configured one, within
   the bounds of the format, and reproduces every current route, up to `Recovered`; nothing else changes.
   */
  lemma ExportRestores(source: Reg, target: Reg, now: real)
    requires Inv(source) && SameConfiguration(source, target) && Exportable(source)
    ensures var r := RestoreDocument(target, Export(source), now);
            && r.Ok?
            && r.value.count == |source.current|
            && r.value.reg == target.(routes := r.value.reg.routes, log := r.value.reg.log)
            && r.value.reg.routes.Keys == target.routes.Keys
            && (forall v <- target.routes ::
                  r.value.reg.routes[v] ==
                  if source.IsCurrent(v) then Recovered(source.routes[v], now) else target.routes[v])
  {
    hide Inv, RestoreRoutes, Export, Recovered, CurrentDoc, SameConfiguration, RouteFits, RestoredAs, Described;
    InvKeyed(source);
    SameIsKeyed(source, target);
    ExportAccepted(source, target, now);
    ExportedRoutes(source);
    ExportShape(source);
    var docs := Export(source).routes;
    RestoreEffect(target, docs, {}, now, 0);
    forall d | d in docs
      ensures Described(target, d)
    {
      ExportedRouteAccepted(source, target, d.key, now);
    }
    var r := RestoreDocument(target, Export(source), now).value;
    forall v | v in target.routes
      ensures r.reg.routes[v] == if source.IsCurrent(v) then Recovered(source.routes[v], now) else target.routes[v]
    {
      ExportedRestoredAs(source, target, now, v, r.reg.routes[v]);
    }
  }

  lemma ExportedRestoredAs(source: Reg, target: Reg, now: real, v: VersionKey, rt: Runtime)
    requires Inv(source) && SameConfiguration(source, target) && Exportable(source) && v in target.routes
    requires source.WellKeyed() && RestoredAs(target, Export(source).routes, now, v, rt)
    ensures rt == if source.IsCurrent(v) then Recovered(source.routes[v], now) else target.routes[v]
  {
    hide Inv, Export, Recovered, CurrentDoc, SameConfiguration, RestoredRoute, Describes, RouteFits;
    SameIsKeyed(source, target);
    ExportedRoutes(source);
    ExportListsAll(source);
    if source.IsCurrent(v) {
      var d :| d in Export(source).routes && d.key == v.key;
      ExportedRouteAccepted(source, target, v.key, now);
      assert Names(target, d, v);
    }
  }

  lemma ExportShape(reg: Reg)
    requires reg.WellKeyed()
    ensures ValidShape(Export(reg)) <==> |reg.current| <= MAX_DOCUMENT_ROUTES
  {
    ExportedRoutes(reg);
  }

  // --------------------------------------------------- what an export depends on

  /** An export depends only on the current versions and their persisted fields. */
  lemma ExportFrame(a: Reg, b: Reg)
    requires a.WellKeyed() && b.WellKeyed() && a.current == b.current
    requires forall k <- a.current :: CurrentDoc(a, k) == CurrentDoc(b, k)
    ensures Export(a) == Export(b)
  {
  }

  lemma ExportDetermines(a: Reg, b: Reg, k: RouteKey)
    requires a.WellKeyed() && b.WellKeyed() && a.current == b.current && k in a.current
    requires Export(a) == Export(b)
    ensures CurrentDoc(a, k) == CurrentDoc(b, k)
  {
    var keys := SortedKeys(a.current.Keys);
    var i :| 0 <= i < |keys| && keys[i] == k;
    assert Export(a).routes[i] == CurrentDoc(a, k) && Export(b).routes[i] == CurrentDoc(b, k);
  }

  predicate ProbeInFlight(reg: Reg) {
    exists k <- reg.current ::
      VersionKey(k, reg.current[k]) in reg.routes && reg.routes[VersionKey(k, reg.current[k])].state == HalfOpen
  }

  lemma RecoveryShows(v: VersionKey, rt: Runtime, now: real)
    requires RouteOk(rt)
    ensures ToDoc(v, Recovered(rt, now)) == ToDoc(v, rt) <==> rt.state != HalfOpen
  {
    RecoveryNeverShortens(rt, now);
  }

  /** Restoring a registry's own export changes what it exports exactly when a current route was HALF_OPEN. */
  lemma OwnExportIsFixpoint(reg: Reg, now: real)
    requires Inv(reg) && Exportable(reg)
    ensures var r := RestoreDocument(reg, Export(reg), now);
            r.Ok? && (Export(r.value.reg) == Export(reg) <==> !ProbeInFlight(reg))
  {
    hide RestoreDocument, Export, Recovered, ToDoc, RouteOk, Exportable;
    ExportRestores(reg, reg, now);
    var next := RestoreDocument(reg, Export(reg), now).value.reg;
    forall k | k in reg.current
      ensures CurrentDoc(next, k) == CurrentDoc(reg, k)
         <==> reg.routes[VersionKey(k, reg.current[k])].state != HalfOpen
    {
      var v := VersionKey(k, reg.current[k]);
      assert reg.IsCurrent(v);
      RecoveryShows(v, reg.routes[v], now);
    }
    if ProbeInFlight(reg) {
      var k :| k in reg.current && reg.routes[VersionKey(k, reg.current[k])].state == HalfOpen;
      if Export(next) == Export(reg) {
        ExportDetermines(next, reg, k);
      }
    } else {
      ExportFrame(next, reg);
    }
  }
}
