/** How one step of the registry leaves the runtime of one route version. */
module BreakerEvolution {
  import opened Common
  import opened BreakerRoute
  import opened BreakerKeys
  import opened BreakerSpec
  import opened BreakerInvariant
  import opened BreakerRestore

  /** The route has failed and not recovered since. */
  predicate Failing(s: BreakerState) {
    s == OpenTemporary || s == OpenActionRequired || s == HalfOpen
  }

  /** Admission and cancellation: no evidence gained or lost, and no recovery. */
  predicate Untouched(rt: Runtime, rt': Runtime) {
    && rt'.successes == rt.successes
    && rt'.failures == rt.failures && rt'.protocolFailures == rt.protocolFailures
    && rt'.openCount == rt.openCount
    && rt'.policy == rt.policy
    && rt'.enabled == rt.enabled
    && (rt'.state == Closed ==> rt.state == Closed)
    && (Failing(rt'.state) ==> Failing(rt.state))
  }

  /** The evidence of `rt'` is that of the document route `d`. */
  predicate Taken(d: RouteDoc, rt: Runtime, rt': Runtime) {
    && rt'.successes == d.successes
    && rt'.failures == d.failures && rt'.protocolFailures == d.protocolFailures
    && rt'.openCount == d.openCount
    && rt'.policy == rt.policy
    && rt'.enabled == rt.enabled
    && (rt'.state == Closed ==> d.state == Closed)
    && (Failing(rt'.state) ==> Failing(d.state))
  }

  /** The runtime of a version that a configuration installs. */
  predicate Inherits(reg: Reg, v: VersionKey, rt: Runtime)
    requires reg.WellKeyed()
  {
    if v in reg.routes then rt == reg.routes[v]
    else if v.key in reg.current then
      var cur := reg.current[v.key];
      Reconfigured(reg.routes[VersionKey(v.key, cur)], v.version.fingerprint == cur.fingerprint, rt.policy, rt.enabled)
      == Ok(rt)
    else rt == FreshRuntime(rt.policy, rt.enabled)
  }

  lemma ConfiguredInherits(reg: Reg, r: Registration, v: VersionKey)
    requires reg.WellKeyed() && FreshVersion(reg, r) && Configured(reg, r).Ok?
    requires v in Configured(reg, r).value.routes
    ensures Inherits(reg, v, Configured(reg, r).value.routes[v])
  {
    hide Logged, Reconfigured, FreshRuntime, Reg.Needed;
  }

  lemma InheritsFrame(a: Reg, b: Reg, v: VersionKey, rt: Runtime)
    requires a.WellKeyed() && b.WellKeyed() && Inherits(a, v, rt)
    requires (v in a.routes <==> v in b.routes) && (v in a.routes ==> a.routes[v] == b.routes[v])
    requires (v.key in a.current <==> v.key in b.current)
    requires v.key in a.current ==>
               a.current[v.key] == b.current[v.key]
               && a.routes[VersionKey(v.key, a.current[v.key])] == b.routes[VersionKey(v.key, a.current[v.key])]
    ensures Inherits(b, v, rt)
  {
  }

  lemma {:induction false} ConfiguredAllKeepsOtherKeys(reg: Reg, rs: seq<Registration>, v: VersionKey)
    requires reg.WellKeyed() && ConfiguredAll(reg, rs).Ok? && forall r <- rs :: r.key != v.key
    ensures var next := ConfiguredAll(reg, rs).value;
            && (v in next.routes <==> v in reg.routes)
            && (v in reg.routes ==> next.routes[v] == reg.routes[v])
            && (v.key in next.current <==> v.key in reg.current)
            && (v.key in reg.current ==> next.current[v.key] == reg.current[v.key])
    decreases |rs|
  {
    if rs != [] {
      hide Configured;
      ConfiguredKeepsOtherKeys(reg, rs[0], v);
      ConfiguredAllKeepsOtherKeys(Configured(reg, rs[0]).value, rs[1..], v);
    }
  }

  lemma {:induction false} ConfiguredAllInherits(reg: Reg, rs: seq<Registration>, v: VersionKey)
    requires reg.WellKeyed() && DistinctKeys(rs) && ConfiguredAll(reg, rs).Ok?
    requires forall r <- rs :: FreshVersion(reg, r)
    requires v in ConfiguredAll(reg, rs).value.routes
    ensures Inherits(reg, v, ConfiguredAll(reg, rs).value.routes[v])
    decreases |rs|
  {
    if rs != [] {
      hide Configured, Inherits;
      var next := Configured(reg, rs[0]).value;
      if v.key == rs[0].key {
        ConfiguredAllKeepsOtherKeys(next, rs[1..], v);
        ConfiguredInherits(reg, rs[0], v);
      } else {
        forall r | r in rs[1..]
          ensures FreshVersion(next, r)
        {
          assert FreshVersion(reg, r);
          ConfiguredKeepsOtherKeys(reg, rs[0], VersionKey(r.key, r.version));
        }
        ConfiguredAllInherits(next, rs[1..], v);
        ConfiguredKeepsOtherKeys(reg, rs[0], v);
        if v.key in reg.current {
          ConfiguredKeepsOtherKeys(reg, rs[0], VersionKey(v.key, reg.current[v.key]));
        }
        InheritsFrame(next, reg, v, ConfiguredAll(reg, rs).value.routes[v]);
      }
    } else {
      assert Inherits(reg, v, reg.routes[v]);
    }
  }

  predicate IsConfigure(op: Op) {
    op.OpConfigureRoute? || op.OpConfigureRoutes?
  }

  lemma ConfigureInherits(reg: Reg, op: Op, v: VersionKey)
    requires Inv(reg) && Permitted(reg, op) && IsConfigure(op) && v in Next(reg, op).reg.routes
    ensures Inherits(reg, v, Next(reg, op).reg.routes[v])
  {
    hide Configured, ConfiguredAll, Acquire, RecordSuccess, RecordFailure, RecordCancelled, Abandon, Pin, Release,
         Restore, AttachStore, RestoreFromStore, Inv, Export;
    InvKeyed(reg);
    assert v in reg.routes ==> Inherits(reg, v, reg.routes[v]);
    hide Inherits;
    match op
    case OpConfigureRoute(r, _) =>
      if Configured(reg, r).Ok? && v in Configured(reg, r).value.routes {
        ConfiguredInherits(reg, r, v);
      }
    case OpConfigureRoutes(rs, scope, _) =>
      if rs != [] && DistinctKeys(rs) && ConfiguredAll(reg, rs).Ok? {
        var next := ConfiguredAll(reg, rs).value;
        if v in next.routes {
          ConfiguredAllInherits(reg, rs, v);
        }
      }
  }

  lemma AcquireTouchesNothing(reg: Reg, v: VersionKey, attempt: string, manual: bool, signal: Signal, now: real,
                              leaseOk: bool, save: SaveOutcome, w: VersionKey)
    requires reg.WellKeyed()
    ensures var next := Acquire(reg, v, attempt, manual, signal, now, leaseOk, save).reg;
            next.routes.Keys == reg.routes.Keys && (w in reg.routes ==> Untouched(reg.routes[w], next.routes[w]))
            && next.current == reg.current
  {
    hide Export, EnterHalfOpen, Grant;
    var signal' := if manual then Probe else signal;
    if v in reg.routes {
      GrantTouchesNothing(reg, v, attempt, manual, signal', leaseOk, w);
      if reg.routes[v].state in {OpenTemporary, OpenActionRequired} {
        var reason := if manual then ManualProbeStarted else CooldownElapsed;
        EnterTouchesNothing(reg, v, reason, save, w);
        GrantTouchesNothing(EnterHalfOpen(reg, v, reason, save).reg, v, attempt, manual, signal', leaseOk, w);
      }
    }
  }

  lemma GrantTouchesNothing(reg: Reg, v: VersionKey, attempt: string, manual: bool, signal: Signal, leaseOk: bool,
                            w: VersionKey)
    requires reg.WellKeyed() && v in reg.routes
    ensures var next := Grant(reg, v, attempt, manual, signal, leaseOk).reg;
            next.routes.Keys == reg.routes.Keys && (w in reg.routes ==> Untouched(reg.routes[w], next.routes[w]))
            && next.current == reg.current
  {
    hide Reg.GuardedLeaseActive, Reg.WellKeyed;
  }

  lemma EnterTouchesNothing(reg: Reg, v: VersionKey, reason: Reason, save: SaveOutcome, w: VersionKey)
    requires reg.WellKeyed() && v in reg.routes && reg.routes[v].state in {OpenTemporary, OpenActionRequired}
    ensures var next := EnterHalfOpen(reg, v, reason, save).reg;
            next.routes.Keys == reg.routes.Keys && (w in reg.routes ==> Untouched(reg.routes[w], next.routes[w]))
            && next.current == reg.current
  {
    hide Export, Without, Logged, Reg.WellKeyed;
  }

  /** A step applies an observation to version `v`. */
  predicate Applies(reg: Reg, op: Op, v: VersionKey)
    requires reg.WellKeyed()
  {
    (op.OpSuccess? || op.OpFailure?) && op.ticket.version == v && Next(reg, op).reply == Seen(Applied)
  }

  /** The runtime an applied success or failure leaves. */
  predicate Evidence(reg: Reg, op: Op, rt': Runtime) {
    && (op.OpSuccess? || op.OpFailure?)
    && Matches(reg, op.ticket)
    && var rt := Freed(reg, op.ticket);
       if op.OpSuccess? then OnSuccess(rt, op.ticket.signal, op.now) == Ok(rt')
       else OnFailure(rt, op.ticket.signal, AsFailure(rt, op.kind, op.category, op.status), op.now, op.fraction) == Ok(rt')
  }

  lemma ObserveEvidence(reg: Reg, t: Ticket, seen: Result<Runtime>, reason: Reason, save: SaveOutcome, v: VersionKey)
    requires Inv(reg) && Matches(reg, t)
    ensures var o := Observe(reg, t, seen, reason, save);
            && o.reg.current == reg.current
            && (o.result.Ok? ==> o.result.value == Applied)
            && (v in o.reg.routes ==> v in reg.routes)
            && (v in o.reg.routes && !(o.result.Ok? && v == t.version) ==> o.reg.routes[v] == reg.routes[v])
            && (v in o.reg.routes && o.result.Ok? && v == t.version ==> seen == Ok(o.reg.routes[v]))
  {
    hide Observed, Export, Inv, Reg.WellKeyed;
    InvKeyed(reg);
    LogBounded(reg);
    if seen.Ok? {
      ObservedRoutes(reg, t, seen.value, reason);
    }
  }

  lemma ObservationEvidence(reg: Reg, op: Op, v: VersionKey)
    requires Inv(reg) && IsObservation(op)
    ensures var next := Next(reg, op).reg;
            && next.current == reg.current
            && (v in next.routes ==> v in reg.routes)
            && (v in next.routes ==>
                  if Applies(reg, op, v) then Evidence(reg, op, next.routes[v])
                  else Untouched(reg.routes[v], next.routes[v]))
  {
    hide Next, Inv, Evidence, Untouched;
    InvKeyed(reg);
    if op.OpSuccess? || op.OpFailure? {
      ReportEvidence(reg, op, v);
    } else {
      ReturnUntouched(reg, op, v);
    }
  }

  lemma ReportEvidence(reg: Reg, op: Op, v: VersionKey)
    requires Inv(reg) && (op.OpSuccess? || op.OpFailure?) && reg.WellKeyed()
    ensures var next := Next(reg, op).reg;
            && next.current == reg.current
            && (v in next.routes ==> v in reg.routes)
            && (v in next.routes ==>
                  if Applies(reg, op, v) then Evidence(reg, op, next.routes[v])
                  else Untouched(reg.routes[v], next.routes[v]))
  {
    hide Observe, OnSuccess, OnFailure, AsFailure, ConfigureRoute, ConfigureRoutes, Acquire, Pin, Release, Restore,
         AttachStore, RestoreFromStore, RecordCancelled, Abandon, Inv, Reg.WellKeyed, Freed;
    var t := op.ticket;
    if Matches(reg, t) {
      var rt := Freed(reg, t);
      if op.OpSuccess? {
        ObserveEvidence(reg, t, OnSuccess(rt, t.signal, op.now),
                        if t.signal == Probe then ProbeSucceeded else BusinessSucceeded, op.save, v);
      } else {
        ObserveEvidence(reg, t, OnFailure(rt, t.signal, AsFailure(rt, op.kind, op.category, op.status), op.now, op.fraction),
                        if t.signal == Probe then ProbeFailed else BusinessFailed, op.save, v);
      }
    }
  }

  lemma ReturnUntouched(reg: Reg, op: Op, v: VersionKey)
    requires Inv(reg) && (op.OpCancel? || op.OpAbandon?) && reg.WellKeyed()
    ensures var next := Next(reg, op).reg;
            && next.current == reg.current
            && (v in next.routes ==> v in reg.routes && Untouched(reg.routes[v], next.routes[v]))
  {
    hide Observe, Observed, OnCancel, ConfigureRoute, ConfigureRoutes, Acquire, Pin, Release, Restore, AttachStore,
         RestoreFromStore, RecordSuccess, RecordFailure, Inv, Reg.WellKeyed;
    LogBounded(reg);
    var t := op.ticket;
    if Matches(reg, t) {
      var rt := Freed(reg, t);
      CancelUntouched(rt);
      ObservedRoutes(reg, t, rt, ProbeCancelled);
      if op.OpCancel? {
        ObserveEvidence(reg, t, OnCancel(rt), ProbeCancelled, op.save, v);
      }
    }
  }

  lemma LogBounded(reg: Reg)
    requires Inv(reg)
    ensures |reg.log| <= reg.capacity
  {
  }

  lemma CancelUntouched(rt: Runtime)
    ensures OnCancel(rt).Ok? ==> Untouched(rt, OnCancel(rt).value)
  {
  }

  lemma RestoredIsTaken(rt: Runtime, d: RouteDoc, now: real)
    requires d.enabled == rt.enabled && RestoredRoute(rt, d, now).Ok?
    ensures Taken(d, rt, RestoredRoute(rt, d, now).value)
  {
  }

  predicate IsRestore(op: Op) {
    op.OpRestore? || op.OpRestoreFromStore?
  }

  /** The document a restore reads, if there is one. */
  function Source(reg: Reg, op: Op): Option<Document>
    requires IsRestore(op)
  {
    if op.OpRestore? then Some(op.document) else reg.disk
  }

  /** A restored version takes over the document route that names it, or is left alone. */
  predicate TakenFrom(reg: Reg, doc: Document, v: VersionKey, rt': Runtime)
    requires v in reg.routes
  {
    && (forall d <- doc.routes :: Names(reg, d, v) ==> Taken(d, reg.routes[v], rt'))
    && ((forall d <- doc.routes :: !Names(reg, d, v)) ==> rt' == reg.routes[v])
  }

  lemma RestoredTakes(reg: Reg, doc: Document, now: real, v: VersionKey, rt': Runtime)
    requires v in reg.routes && RestoredAs(reg, doc.routes, now, v, rt')
    ensures TakenFrom(reg, doc, v, rt')
  {
    hide RestoredRoute, Taken;
    forall d | d in doc.routes && Names(reg, d, v)
      ensures Taken(d, reg.routes[v], rt')
    {
      RestoredIsTaken(reg.routes[v], d, now);
    }
  }

  lemma DocumentTakes(reg: Reg, doc: Document, now: real)
    requires reg.WellKeyed() && RestoreDocument(reg, doc, now).Ok?
    ensures var next := RestoreDocument(reg, doc, now).value.reg;
            && next == reg.(routes := next.routes, log := next.log) && next.routes.Keys == reg.routes.Keys
            && forall v <- reg.routes :: TakenFrom(reg, doc, v, next.routes[v])
  {
    hide RestoreRoutes, RestoredAs, TakenFrom;
    RestoreEffect(reg, doc.routes, {}, now, 0);
    var next := RestoreDocument(reg, doc, now).value.reg;
    forall v | v in reg.routes
      ensures TakenFrom(reg, doc, v, next.routes[v])
    {
      RestoredTakes(reg, doc, now, v, next.routes[v]);
    }
  }

  /** A restore leaves memory alone or puts the restored routes in place. */
  lemma RestoreSteps(reg: Reg, op: Op)
    requires reg.WellKeyed() && IsRestore(op)
    ensures var next := Next(reg, op).reg;
            || (next.routes == reg.routes && next.current == reg.current)
            || (Source(reg, op).Some? && RestoreDocument(reg, Source(reg, op).value, op.now).Ok?
                && var r := RestoreDocument(reg, Source(reg, op).value, op.now).value.reg;
                   next.routes == r.routes && next.current == r.current)
  {
    hide ConfigureRoute, ConfigureRoutes, Acquire, RecordSuccess, RecordFailure, RecordCancelled, Abandon, Pin,
         Release, RestoreDocument, Export, Reg.WellKeyed, Restore, RestoreFromStore, AttachStore;
    if op.OpRestore? {
      RestoreOutcome(reg, op.document, op.now, op.save);
    } else {
      RestoreFromStoreOutcome(reg, op.now, op.save);
    }
  }

  lemma RestoreOutcome(reg: Reg, doc: Document, now: real, save: SaveOutcome)
    requires reg.WellKeyed()
    ensures var next := Restore(reg, doc, now, save).reg;
            || (next.routes == reg.routes && next.current == reg.current)
            || (RestoreDocument(reg, doc, now).Ok?
                && next.routes == RestoreDocument(reg, doc, now).value.reg.routes
                && next.current == RestoreDocument(reg, doc, now).value.reg.current)
  {
    hide RestoreDocument, Export, Reg.WellKeyed;
  }

  lemma RestoreFromStoreOutcome(reg: Reg, now: real, save: SaveOutcome)
    requires reg.WellKeyed()
    ensures var next := RestoreFromStore(reg, now, save).reg;
            || (next.routes == reg.routes && next.current == reg.current)
            || (reg.disk.Some? && RestoreDocument(reg, reg.disk.value, now).Ok?
                && next.routes == RestoreDocument(reg, reg.disk.value, now).value.reg.routes
                && next.current == RestoreDocument(reg, reg.disk.value, now).value.reg.current)
  {
    hide RestoreDocument, Export, Reg.WellKeyed;
  }

  /** What a restore, of any document, does to a version: nothing, or what its document says. */
  lemma RestoreTakes(reg: Reg, op: Op, v: VersionKey)
    requires reg.WellKeyed() && IsRestore(op)
    ensures var next := Next(reg, op).reg;
            && next.current == reg.current && next.routes.Keys == reg.routes.Keys
            && (v in next.routes ==>
                  || next.routes[v] == reg.routes[v]
                  || (Source(reg, op).Some? && TakenFrom(reg, Source(reg, op).value, v, next.routes[v])))
  {
    hide RestoreDocument, Export, TakenFrom, Reg.WellKeyed, Next;
    if Source(reg, op).Some? && RestoreDocument(reg, Source(reg, op).value, op.now).Ok? {
      DocumentTakes(reg, Source(reg, op).value, op.now);
    }
    RestoreSteps(reg, op);
  }

  lemma {:induction false} ReleaseTouchesNothing(reg: Reg, vs: seq<VersionKey>, v: VersionKey)
    ensures var next := Release(reg, vs).reg;
            next.current == reg.current && (v in next.routes ==> v in reg.routes && next.routes[v] == reg.routes[v])
    decreases |vs|
  {
    if vs != [] && PinCount(reg.pins, vs[0]) > 0 {
      ReleaseTouchesNothing(Unpinned(reg, vs[0]), vs[1..], v);
    }
  }

  lemma PinTouchesNothing(reg: Reg, vs: seq<VersionKey>)
    ensures Pin(reg, vs).reg.routes == reg.routes && Pin(reg, vs).reg.current == reg.current
  {
  }

  lemma AttachTouchesNothing(reg: Reg, save: SaveOutcome)
    requires reg.WellKeyed()
    ensures AttachStore(reg, save).reg.routes == reg.routes && AttachStore(reg, save).reg.current == reg.current
  {
  }

  /** How any step leaves the runtime of any version that it keeps or installs. */
  lemma RouteEvolution(reg: Reg, op: Op, v: VersionKey)
    requires Inv(reg) && Permitted(reg, op) && v in Next(reg, op).reg.routes
    ensures var rt' := Next(reg, op).reg.routes[v];
            if IsConfigure(op) then Inherits(reg, v, rt')
            else if IsRestore(op) then
              v in reg.routes
              && (rt' == reg.routes[v]
                  || (Source(reg, op).Some? && TakenFrom(reg, Source(reg, op).value, v, rt')))
            else v in reg.routes
                 && if Applies(reg, op, v) then Evidence(reg, op, rt') else Untouched(reg.routes[v], rt')
  {
    if IsConfigure(op) {
      hide Next, Inv, Inherits;
      ConfigureInherits(reg, op, v);
    } else if IsObservation(op) {
      hide Next, Inv, Evidence;
      ObservationEvidence(reg, op, v);
    } else if IsRestore(op) {
      hide Next, Inv, TakenFrom;
      InvKeyed(reg);
      RestoreTakes(reg, op, v);
    } else {
      hide ConfigureRoute, ConfigureRoutes, Acquire, RecordSuccess, RecordFailure, RecordCancelled, Abandon, Pin,
           Release, Restore, AttachStore, RestoreFromStore, Inv;
      InvKeyed(reg);
      match op
      case OpAcquire(w, attempt, manual, signal, now, leaseOk, save) =>
        AcquireTouchesNothing(reg, w, attempt, manual, signal, now, leaseOk, save, v);
      case OpPin(vs) => PinTouchesNothing(reg, vs);
      case OpRelease(vs) => ReleaseTouchesNothing(reg, vs, v);
      case OpAttach(save) => AttachTouchesNothing(reg, save);
    }
  }

  lemma CurrentChangesOnlyByConfigure(reg: Reg, op: Op)
    requires Inv(reg) && !IsConfigure(op)
    ensures Next(reg, op).reg.current == reg.current
  {
    if IsObservation(op) {
      hide Next, Inv;
      ObservationEvidence(reg, op, op.ticket.version);
    } else if IsRestore(op) {
      hide Next, Inv;
      InvKeyed(reg);
      RestoreTakes(reg, op, VersionKey(RouteKey("", "", "", ""), Version(1, "")));
    } else {
      hide ConfigureRoute, ConfigureRoutes, Acquire, RecordSuccess, RecordFailure, RecordCancelled, Abandon, Pin,
           Release, Restore, AttachStore, RestoreFromStore, Inv;
      InvKeyed(reg);
      match op
      case OpAcquire(w, attempt, manual, signal, now, leaseOk, save) =>
        AcquireTouchesNothing(reg, w, attempt, manual, signal, now, leaseOk, save, w);
      case OpPin(vs) => PinTouchesNothing(reg, vs);
      case OpRelease(vs) => ReleaseTouchesNothing(reg, vs, VersionKey(RouteKey("", "", "", ""), Version(1, "")));
      case OpAttach(save) => AttachTouchesNothing(reg, save);
    }
  }

  /** The current version of a key stays, or gives way to one that was not filed. */
  predicate CurrentIsNew(reg: Reg, next: Reg, k: RouteKey) {
    k in next.current ==>
      (k in reg.current && next.current[k] == reg.current[k]) || VersionKey(k, next.current[k]) !in reg.routes
  }

  lemma ConfiguredCurrent(reg: Reg, r: Registration, k: RouteKey)
    requires reg.WellKeyed() && FreshVersion(reg, r) && Configured(reg, r).Ok?
    ensures CurrentIsNew(reg, Configured(reg, r).value, k)
  {
    hide Logged, Reconfigured, FreshRuntime, Reg.Needed;
  }

  lemma {:induction false} ConfiguredAllCurrent(reg: Reg, rs: seq<Registration>, k: RouteKey)
    requires reg.WellKeyed() && DistinctKeys(rs) && ConfiguredAll(reg, rs).Ok?
    requires forall r <- rs :: FreshVersion(reg, r)
    ensures CurrentIsNew(reg, ConfiguredAll(reg, rs).value, k)
    decreases |rs|
  {
    if rs != [] {
      hide Configured;
      var next := Configured(reg, rs[0]).value;
      var last := ConfiguredAll(reg, rs).value;
      if k == rs[0].key {
        ConfiguredCurrent(reg, rs[0], k);
        if k in next.current {
          ConfiguredAllKeepsOtherKeys(next, rs[1..], VersionKey(k, next.current[k]));
        } else if k in last.current {
          ConfiguredAllKeepsOtherKeys(next, rs[1..], VersionKey(k, last.current[k]));
        }
      } else {
        forall r | r in rs[1..]
          ensures FreshVersion(next, r)
        {
          assert FreshVersion(reg, r);
          ConfiguredKeepsOtherKeys(reg, rs[0], VersionKey(r.key, r.version));
        }
        ConfiguredAllCurrent(next, rs[1..], k);
        if k in last.current {
          ConfiguredKeepsOtherKeys(reg, rs[0], VersionKey(k, last.current[k]));
        }
      }
    }
  }

  lemma StaysCurrent(reg: Reg, op: Op, k: RouteKey)
    requires Inv(reg) && Permitted(reg, op) && IsConfigure(op)
    ensures CurrentIsNew(reg, Next(reg, op).reg, k)
  {
    hide Configured, ConfiguredAll, Acquire, RecordSuccess, RecordFailure, RecordCancelled, Abandon, Pin, Release,
         Restore, AttachStore, RestoreFromStore, Inv, Export;
    InvKeyed(reg);
    match op
    case OpConfigureRoute(r, _) =>
      if Configured(reg, r).Ok? {
        ConfiguredCurrent(reg, r, k);
      }
    case OpConfigureRoutes(rs, scope, _) =>
      if rs != [] && DistinctKeys(rs) && ConfiguredAll(reg, rs).Ok? {
        ConfiguredAllCurrent(reg, rs, k);
      }
  }
}
