/** What configuring, retiring, pinning and restoring routes leaves behind, told on the fields a caller can read. */
module BreakerConfiguration {
  import opened Common
  import opened BreakerRoute
  import opened BreakerKeys
  import opened BreakerSpec
  import opened BreakerInvariant
  import opened BreakerEvolution
  import opened BreakerRestore
  import opened BreakerOutcomes

  /** A route nobody has used. */
  predicate Unused(rt: Runtime, policy: Policy, enabled: bool, epoch: nat) {
    && rt.policy == policy && rt.enabled == enabled && rt.state == (if enabled then Unknown else Disabled)
    && rt.epoch == epoch && rt.failures == 0 && rt.protocolFailures == 0 && rt.successes == 0 && rt.outcomes == []
    && rt.openCount == 0 && rt.openUntil == None && rt.firstFailedAt == None && rt.lastFailedAt == None
    && rt.lastSucceededAt == None && rt.lastCategory == None && rt.lastStatus == None && !rt.actionRequired
    && rt.leaseId == None
  }

  /** As many of the newest outcomes as the window holds. */
  predicate Newest(size: int, all: seq<bool>, kept: seq<bool>) {
    |kept| <= |all| && |kept| == (if |all| <= size then |all| else size) && kept == all[|all| - |kept|..]
  }

  lemma LastIsNewest(size: nat, all: seq<bool>)
    ensures Newest(size, all, Last(size, all))
  {
  }

  /** The same route under a new revision: its history stays; switching it off or on ends what it was waiting for. */
  predicate Continued(was: Runtime, rt: Runtime, policy: Policy, enabled: bool) {
    && rt.policy == policy && rt.enabled == enabled && rt.epoch == was.epoch + 1 && rt.leaseId == None
    && rt.failures == was.failures && rt.protocolFailures == was.protocolFailures && rt.successes == was.successes
    && rt.openCount == was.openCount && rt.firstFailedAt == was.firstFailedAt && rt.lastFailedAt == was.lastFailedAt
    && rt.lastSucceededAt == was.lastSucceededAt && rt.lastCategory == was.lastCategory && rt.lastStatus == was.lastStatus
    && Newest(policy.windowSize, was.outcomes, rt.outcomes)
    && if enabled && was.enabled then
         rt.state == was.state && rt.openUntil == was.openUntil && rt.actionRequired == was.actionRequired
       else rt.state == (if enabled then Unknown else Disabled) && rt.openUntil == None && !rt.actionRequired
  }

  lemma ReconfiguredIs(was: Runtime, same: bool, policy: Policy, enabled: bool)
    ensures var r := Reconfigured(was, same, policy, enabled);
            && (r.Ok? <==> was.epoch < MAX_COUNTER) && (r.Err? ==> r.error == CounterExhausted)
            && (r.Ok? ==> if same then Continued(was, r.value, policy, enabled)
                          else Unused(r.value, policy, enabled, was.epoch + 1))
  {
    hide Newest;
    LastIsNewest(policy.windowSize, was.outcomes);
  }

  /** Why a registration is refused, if it is. */
  function Refusal(reg: Reg, r: Registration): Option<BreakerError>
    requires reg.WellKeyed()
  {
    if r.key !in reg.current then None
    else
      var cur := reg.current[r.key];
      var rt := reg.routes[VersionKey(r.key, cur)];
      if r.version.revision < cur.revision then Some(RevisionRegressed)
      else if r.version.revision > cur.revision then (if rt.epoch < MAX_COUNTER then None else Some(CounterExhausted))
      else if r.version.fingerprint != cur.fingerprint then Some(FingerprintChanged)
      else if r.policy != rt.policy || r.enabled != rt.enabled then Some(ConfigurationChanged)
      else None
  }

  /** The version a registration leaves current. */
  predicate BecomesCurrent(reg: Reg, r: Registration, rt: Runtime)
    requires reg.WellKeyed()
  {
    if r.key !in reg.current then Unused(rt, r.policy, r.enabled, 1)
    else
      var cur := reg.current[r.key];
      var was := reg.routes[VersionKey(r.key, cur)];
      if r.version == cur then rt == was
      else if r.version.fingerprint == cur.fingerprint then Continued(was, rt, r.policy, r.enabled)
      else Unused(rt, r.policy, r.enabled, was.epoch + 1)
  }

  /** A version of the key that nobody needs any more: neither current nor pinned nor out with a ticket. */
  predicate Spare(reg: Reg, r: Registration, w: VersionKey) {
    w.key == r.key && w.version != r.version && w !in reg.pins && forall a <- reg.active :: a.version != w
  }

  ghost predicate ConfiguredAs(reg: Reg, r: Registration, next: Reg)
    requires reg.WellKeyed()
  {
    var v := VersionKey(r.key, r.version);
    && next.current == reg.current[r.key := r.version] && v in next.routes && BecomesCurrent(reg, r, next.routes[v])
    && next.active == reg.active && next.pins == reg.pins && next.leaseSeq == reg.leaseSeq
    && forall w: VersionKey :: w != v ==>
         && (w in next.routes <==> w in reg.routes && !Spare(reg, r, w))
         && (w in next.routes ==> next.routes[w] == reg.routes[w])
  }

  lemma InstalledIs(reg: Reg, r: Registration)
    requires reg.WellKeyed()
    ensures var res := Installed(reg, r);
            && (res.Err? <==> Refusal(reg, r).Some?) && (res.Err? ==> Refusal(reg, r) == Some(res.error))
            && (res.Ok? ==>
                  var v, next := VersionKey(r.key, r.version), res.value;
                  && next.current == reg.current[r.key := r.version] && v in next.routes
                  && BecomesCurrent(reg, r, next.routes[v])
                  && next.active == reg.active && next.pins == reg.pins && next.leaseSeq == reg.leaseSeq
                  && forall w: VersionKey :: w != v ==>
                       (w in next.routes <==> w in reg.routes) && (w in next.routes ==> next.routes[w] == reg.routes[w]))
  {
    hide Logged, Reconfigured, Continued;
    if r.key in reg.current {
      var cur := reg.current[r.key];
      ReconfiguredIs(reg.routes[VersionKey(r.key, cur)], r.version.fingerprint == cur.fingerprint, r.policy, r.enabled);
      assert r.version == cur ==> reg.current[r.key := r.version] == reg.current;
    }
  }

  lemma PrunedIs(reg: Reg, r: Registration)
    requires reg.WellKeyed() && r.key in reg.current && reg.current[r.key] == r.version
    ensures var next := PruneKey(reg, r.key);
            && next == reg.(routes := next.routes)
            && forall w: VersionKey ::
                 && (w in next.routes <==> w in reg.routes && !Spare(reg, r, w))
                 && (w in next.routes ==> next.routes[w] == reg.routes[w])
  {
    forall w: VersionKey | w in reg.routes
      ensures (w.key != r.key || reg.Needed(w)) <==> !Spare(reg, r, w)
    {
    }
  }

  lemma ConfiguredIs(reg: Reg, r: Registration)
    requires reg.WellKeyed()
    ensures var res := Configured(reg, r);
            && (res.Err? <==> Refusal(reg, r).Some?) && (res.Err? ==> Refusal(reg, r) == Some(res.error))
            && (res.Ok? ==> ConfiguredAs(reg, r, res.value))
  {
    hide Installed, PruneKey, BecomesCurrent, Refusal, Reg.WellKeyed;
    InstalledIs(reg, r);
    if Installed(reg, r).Ok? {
      PrunedIs(Installed(reg, r).value, r);
      SpareFrame(reg, Installed(reg, r).value, r);
    }
  }

  lemma SpareFrame(a: Reg, b: Reg, r: Registration)
    requires a.active == b.active && a.pins == b.pins
    ensures forall w :: Spare(a, r, w) == Spare(b, r, w)
  {
  }

  /** `configure_route`: which registrations are refused, and what an accepted one leaves. */
  lemma ConfigureOutcome(reg: Reg, op: Op)
    requires Inv(reg) && op.OpConfigureRoute? && reg.WellKeyed()
    ensures var r, next := op.registration, Next(reg, op);
            if Refusal(reg, r).Some? then next == Step(reg, Failed(Refusal(reg, r).value))
            else if Writes(reg, op.save) then next.reply == Done && ConfiguredAs(reg, r, next.reg)
            else next.reply.Failed? && next.reg.routes == reg.routes && next.reg.current == reg.current
  {
    hide Configured, ConfiguredAs, Export, Inv, Refusal;
    ConfiguredIs(reg, op.registration);
    if Configured(reg, op.registration).Ok? {
      var next := Configured(reg, op.registration).value;
      ConfiguredFrame(reg, op.registration, next, Some(Export(next)));
    }
  }

  lemma ConfiguredFrame(reg: Reg, r: Registration, next: Reg, disk: Option<Document>)
    requires reg.WellKeyed() && ConfiguredAs(reg, r, next)
    ensures ConfiguredAs(reg, r, next.(disk := disk))
  {
  }

  // ---------------------------------------------------------------------- retiring

  /** The batch speaks for the key, and does not name it. */
  predicate Omitted(scope: RetireScope, rs: seq<Registration>, k: RouteKey)
    requires rs != []
  {
    && (scope == RetireGroup ==> k.instanceId == rs[0].key.instanceId && k.groupId == rs[0].key.groupId)
    && (scope == RetireInstance ==> k.instanceId == rs[0].key.instanceId)
    && scope != RetireNone && forall r <- rs :: r.key != k
  }

  /** Retiring takes exactly the omitted keys out of use, and files only what is still needed of them. */
  lemma RetireOutcome(reg: Reg, scope: RetireScope, rs: seq<Registration>)
    requires rs != []
    ensures var next := Retired(reg, scope, rs);
            && next.active == reg.active && next.pins == reg.pins
            && (forall k: RouteKey :: k in next.current <==> k in reg.current && !Omitted(scope, rs, k))
            && (forall k <- next.current :: next.current[k] == reg.current[k])
            && (forall v <- next.routes :: v in reg.routes && next.routes[v] == reg.routes[v])
            && (forall v <- reg.routes :: v !in next.routes <==>
                  && v.key in reg.current && Omitted(scope, rs, v.key) && v !in reg.pins
                  && forall a <- reg.active :: a.version != v)
  {
    assert forall k :: Omitted(scope, rs, k) == Retires(scope, rs, k);
    hide Omitted, Retires;
  }

  // ----------------------------------------------------------------------- batches

  /** The versions of one key are the same in both registries. */
  ghost predicate SameOf(a: Reg, b: Reg, k: RouteKey) {
    && (k in a.current <==> k in b.current) && (k in a.current ==> a.current[k] == b.current[k])
    && forall w: VersionKey :: w.key == k ==>
         (w in a.routes <==> w in b.routes) && (w in a.routes ==> a.routes[w] == b.routes[w])
  }

  /** What an accepted registration leaves of its key. */
  ghost predicate Registers(reg: Reg, r: Registration, next: Reg)
    requires reg.WellKeyed()
  {
    var v := VersionKey(r.key, r.version);
    && r.key in next.current && next.current[r.key] == r.version
    && v in next.routes && BecomesCurrent(reg, r, next.routes[v])
    && forall w: VersionKey :: w != v && w.key == r.key ==>
         && (w in next.routes <==> w in reg.routes && !Spare(reg, r, w))
         && (w in next.routes ==> next.routes[w] == reg.routes[w])
  }

  ghost predicate TicketsStay(reg: Reg, next: Reg) {
    next.active == reg.active && next.pins == reg.pins && next.leaseSeq == reg.leaseSeq
  }

  predicate Registered(rs: seq<Registration>, k: RouteKey) {
    exists r <- rs :: r.key == k
  }

  /** Every registration of a batch takes effect, and no other key is touched. */
  ghost predicate Batched(reg: Reg, rs: seq<Registration>, next: Reg)
    requires reg.WellKeyed()
  {
    && TicketsStay(reg, next)
    && (forall r <- rs :: Registers(reg, r, next))
    && (forall k :: !Registered(rs, k) ==> SameOf(reg, next, k))
  }

  lemma ConfiguredParts(reg: Reg, r: Registration, next: Reg)
    requires reg.WellKeyed() && ConfiguredAs(reg, r, next)
    ensures TicketsStay(reg, next) && Registers(reg, r, next)
    ensures forall k :: k != r.key ==> SameOf(reg, next, k)
  {
    hide BecomesCurrent;
  }

  /** A registration looks at its own key only. */
  lemma OtherKeysDoNotMatter(a: Reg, b: Reg, r: Registration, next: Reg)
    requires a.WellKeyed() && b.WellKeyed() && TicketsStay(a, b) && SameOf(a, b, r.key)
    ensures Refusal(a, r) == Refusal(b, r)
    ensures Registers(b, r, next) ==> Registers(a, r, next)
  {
    hide Continued, Unused;
    SpareFrame(a, b, r);
    hide Spare;
  }

  lemma SameRegisters(reg: Reg, r: Registration, a: Reg, b: Reg)
    requires reg.WellKeyed() && Registers(reg, r, a) && SameOf(a, b, r.key)
    ensures Registers(reg, r, b)
  {
    hide BecomesCurrent, Spare;
  }

  lemma BatchStep(reg: Reg, rs: seq<Registration>, mid: Reg, next: Reg)
    requires rs != [] && DistinctKeys(rs) && reg.WellKeyed() && mid.WellKeyed()
    requires ConfiguredAs(reg, rs[0], mid) && Batched(mid, rs[1..], next)
    ensures Batched(reg, rs, next)
  {
    hide ConfiguredAs, Registers, SameOf, Reg.WellKeyed;
    ConfiguredParts(reg, rs[0], mid);
    RestDiffers(rs);
    SameRegisters(reg, rs[0], mid, next);
    forall r | r in rs[1..]
      ensures Registers(reg, r, next)
    {
      OtherKeysDoNotMatter(reg, mid, r, next);
    }
    assert forall r <- rs :: r == rs[0] || r in rs[1..];
    forall k | !Registered(rs, k)
      ensures SameOf(reg, next, k)
    {
      assert rs[0] in rs && k != rs[0].key;
      assert !Registered(rs[1..], k);
      SameThrough(reg, mid, next, k);
    }
  }

  lemma SameThrough(a: Reg, b: Reg, c: Reg, k: RouteKey)
    requires SameOf(a, b, k) && SameOf(b, c, k)
    ensures SameOf(a, c, k)
  {
  }

  lemma RestDiffers(rs: seq<Registration>)
    requires rs != [] && DistinctKeys(rs)
    ensures DistinctKeys(rs[1..]) && !Registered(rs[1..], rs[0].key) && forall r <- rs[1..] :: r.key != rs[0].key
  {
    assert forall i :: 0 <= i < |rs[1..]| ==> rs[1..][i] == rs[i + 1];
  }

  lemma {:induction false} BatchIs(reg: Reg, rs: seq<Registration>)
    requires reg.WellKeyed() && DistinctKeys(rs) && (reg.uncertain ==> rs != [])
    ensures var res := ConfiguredAll(reg, rs);
            && (res.Ok? <==> !reg.uncertain && forall r <- rs :: Refusal(reg, r).None?)
            && (res.Ok? ==> Batched(reg, rs, res.value))
    decreases |rs|
  {
    hide Configured, ConfiguredAs, Batched, Refusal, Reg.WellKeyed;
    if rs == [] {
      assert Batched(reg, rs, reg) by { NothingBatched(reg); }
    } else {
      var r := rs[0];
      ConfiguredIs(reg, r);
      assert r in rs && forall e <- rs :: e == r || e in rs[1..];
      if Configured(reg, r).Ok? && !reg.uncertain {
        var mid := Configured(reg, r).value;
        RestDiffers(rs);
        BatchIs(mid, rs[1..]);
        ConfiguredParts(reg, r, mid);
        forall e | e in rs[1..]
          ensures Refusal(mid, e) == Refusal(reg, e)
        {
          OtherKeysDoNotMatter(reg, mid, e, mid);
        }
        if ConfiguredAll(mid, rs[1..]).Ok? {
          BatchStep(reg, rs, mid, ConfiguredAll(mid, rs[1..]).value);
        }
      }
    }
  }

  lemma NothingBatched(reg: Reg)
    requires reg.WellKeyed()
    ensures Batched(reg, [], reg)
  {
  }

  /** A retired key is no longer current; of its versions those stay that are pinned or out with a ticket. */
  ghost predicate Withdrawn(reg: Reg, next: Reg, k: RouteKey) {
    && k !in next.current
    && forall w: VersionKey :: w.key == k ==>
         && (w in next.routes <==>
               w in reg.routes && (k in reg.current ==> w in reg.pins || exists a <- reg.active :: a.version == w))
         && (w in next.routes ==> next.routes[w] == reg.routes[w])
  }

  /** What a batch leaves of every key. */
  ghost predicate BatchLeaves(reg: Reg, scope: RetireScope, rs: seq<Registration>, next: Reg)
    requires reg.WellKeyed() && rs != []
  {
    && TicketsStay(reg, next)
    && (forall r <- rs :: Registers(reg, r, next))
    && (forall k :: Omitted(scope, rs, k) ==> Withdrawn(reg, next, k))
    && (forall k :: !Omitted(scope, rs, k) && !Registered(rs, k) ==> SameOf(reg, next, k))
  }

  lemma RetiredParts(reg: Reg, scope: RetireScope, rs: seq<Registration>, k: RouteKey)
    requires rs != []
    ensures var next := Retired(reg, scope, rs);
            TicketsStay(reg, next) && if Omitted(scope, rs, k) then Withdrawn(reg, next, k) else SameOf(reg, next, k)
  {
    RetireOutcome(reg, scope, rs);
    RetiredSequence(reg, scope, rs);
    hide Retired, Omitted;
  }

  lemma RetiredSequence(reg: Reg, scope: RetireScope, rs: seq<Registration>)
    requires rs != []
    ensures Retired(reg, scope, rs).leaseSeq == reg.leaseSeq
  {
  }

  lemma WithdrawnThrough(reg: Reg, mid: Reg, next: Reg, k: RouteKey)
    requires TicketsStay(reg, mid) && SameOf(reg, mid, k) && Withdrawn(mid, next, k)
    ensures Withdrawn(reg, next, k)
  {
  }

  lemma RetiredLeaves(reg: Reg, scope: RetireScope, rs: seq<Registration>, mid: Reg)
    requires reg.WellKeyed() && rs != [] && Batched(reg, rs, mid)
    ensures BatchLeaves(reg, scope, rs, Retired(mid, scope, rs))
  {
    hide Retired, Registers, SameOf, Withdrawn, Reg.WellKeyed;
    var next := Retired(mid, scope, rs);
    RetiredParts(mid, scope, rs, rs[0].key);
    forall r | r in rs
      ensures Registers(reg, r, next)
    {
      RetiredParts(mid, scope, rs, r.key);
      SameRegisters(reg, r, mid, next);
    }
    forall k | !Registered(rs, k)
      ensures if Omitted(scope, rs, k) then Withdrawn(reg, next, k) else SameOf(reg, next, k)
    {
      RetiredParts(mid, scope, rs, k);
      if Omitted(scope, rs, k) {
        WithdrawnThrough(reg, mid, next, k);
      } else {
        SameThrough(reg, mid, next, k);
      }
    }
  }

  lemma LeavesFrame(reg: Reg, scope: RetireScope, rs: seq<Registration>, next: Reg, disk: Option<Document>)
    requires reg.WellKeyed() && rs != [] && BatchLeaves(reg, scope, rs, next)
    ensures BatchLeaves(reg, scope, rs, next.(disk := disk))
  {
    hide BecomesCurrent, Spare, Omitted, Reg.WellKeyed;
  }

  /** `configure_routes`: all registrations take effect together, or none. */
  lemma BatchOutcome(reg: Reg, op: Op)
    requires Inv(reg) && op.OpConfigureRoutes? && reg.WellKeyed()
    ensures var rs, next := op.registrations, Next(reg, op);
            if rs == [] || (exists i, j :: 0 <= i < j < |rs| && rs[i].key == rs[j].key) then
              next == Step(reg, Failed(RegistrationInvalid))
            else if exists r <- rs :: Refusal(reg, r).Some? then next.reply.Failed? && next.reg == reg
            else if Writes(reg, op.save) then next.reply == Done && BatchLeaves(reg, op.scope, rs, next.reg)
            else next.reply.Failed? && next.reg.routes == reg.routes && next.reg.current == reg.current
  {
    hide ConfiguredAll, Retired, Export, Inv, Refusal, Batched, BatchLeaves, Reg.WellKeyed;
    var rs := op.registrations;
    if rs != [] && DistinctKeys(rs) {
      BatchIs(reg, rs);
      if ConfiguredAll(reg, rs).Ok? {
        var mid := ConfiguredAll(reg, rs).value;
        RetiredLeaves(reg, op.scope, rs, mid);
        var next := Retired(mid, op.scope, rs);
        LeavesFrame(reg, op.scope, rs, next, Some(Export(next)));
      }
    }
  }

  // ------------------------------------------------------------------------- pins

  function Count(pins: map<VersionKey, nat>, v: VersionKey): nat {
    if v in pins then pins[v] else 0
  }

  lemma {:induction false} PinnedCounts(pins: map<VersionKey, nat>, vs: seq<VersionKey>, v: VersionKey)
    requires Distinct(vs)
    ensures Count(PinnedAll(pins, vs), v) == Count(pins, v) + (if v in vs then 1 else 0)
    decreases |vs|
  {
    if vs != [] {
      assert forall i, j :: 0 <= i < j < |vs[1..]| ==> vs[1..][i] == vs[i + 1] && vs[1..][j] == vs[j + 1];
      PinnedCounts(pins[vs[0] := PinCount(pins, vs[0]) + 1], vs[1..], v);
      assert v in vs <==> v == vs[0] || v in vs[1..];
      if v == vs[0] {
        assert v !in vs[1..];
      }
    }
  }

  /** `pin_versions`: refused without effect, or one more pin for each version and nothing else. */
  lemma PinOutcome(reg: Reg, op: Op, v: VersionKey)
    requires Inv(reg) && op.OpPin? && reg.WellKeyed()
    ensures var vs, next := op.versions, Next(reg, op);
            if vs == [] || (exists i, j :: 0 <= i < j < |vs| && vs[i] == vs[j]) then next == Step(reg, Failed(PinInvalid))
            else if exists w <- vs :: w !in reg.routes then next == Step(reg, Failed(VersionStale))
            else next.reply == Done && next.reg == reg.(pins := next.reg.pins)
                 && Count(next.reg.pins, v) == Count(reg.pins, v) + (if v in vs then 1 else 0)
  {
    hide Inv;
    if Distinct(op.versions) {
      PinnedCounts(reg.pins, op.versions, v);
    }
  }

  /** One pin less; the last one takes with it a version that nobody needs. */
  predicate Released(reg: Reg, v: VersionKey, next: Reg) {
    && next == reg.(pins := next.pins, routes := next.routes)
    && (forall w <- reg.pins.Keys + next.pins.Keys :: Count(next.pins, w) == Count(reg.pins, w) - (if w == v then 1 else 0))
    && (forall w <- next.routes :: w in reg.routes && next.routes[w] == reg.routes[w])
    && (forall w <- reg.routes :: w !in next.routes <==>
          w == v && Count(reg.pins, v) == 1 && !reg.IsCurrent(v) && forall a <- reg.active :: a.version != v)
  }

  lemma UnpinnedIs(reg: Reg, v: VersionKey)
    requires PinsOk(reg) && Count(reg.pins, v) > 0
    ensures Released(reg, v, Unpinned(reg, v))
  {
    hide Prune, Count;
    var rest := Unpinned(reg, v).pins;
    PruneIs(reg.(pins := rest), v);
    PinsDrop(reg, v);
    hide Unpinned;
  }

  lemma PinsDrop(reg: Reg, v: VersionKey)
    requires PinsOk(reg) && Count(reg.pins, v) > 0
    ensures var rest := Unpinned(reg, v).pins;
            && (forall w <- reg.pins.Keys + rest.Keys :: Count(rest, w) == Count(reg.pins, w) - (if w == v then 1 else 0))
            && (v in rest <==> Count(reg.pins, v) != 1)
            && Unpinned(reg, v) == Prune(reg.(pins := rest), v)
  {
    hide Reg.Needed;
  }

  lemma PruneIs(reg: Reg, v: VersionKey)
    ensures var next := Prune(reg, v);
            && next == reg.(routes := next.routes)
            && (forall w <- next.routes :: w in reg.routes && next.routes[w] == reg.routes[w])
            && (forall w <- reg.routes :: w !in next.routes <==>
                  w == v && v !in reg.pins && !reg.IsCurrent(v) && forall a <- reg.active :: a.version != v)
  {
    hide Reg.IsCurrent;
  }

  /** `release_versions` of one version: an underflow is refused without effect. */
  lemma ReleaseOutcome(reg: Reg, v: VersionKey)
    requires Inv(reg) && reg.WellKeyed()
    ensures var next := Next(reg, OpRelease([v]));
            if Count(reg.pins, v) == 0 then next == Step(reg, Failed(PinUnderflow))
            else next.reply == Done && Released(reg, v, next.reg)
  {
    assert PinsOk(reg);
    hide Inv, Unpinned, Released;
    assert [v][1..] == [];
    if Count(reg.pins, v) > 0 {
      UnpinnedIs(reg, v);
      assert Release(Unpinned(reg, v), [v][1..]) == Outcome(Unpinned(reg, v), Ok(()));
    }
  }

  // ------------------------------------------------------------------- restoring

  /** The numbers of a document route are in range. */
  predicate Legible(d: RouteDoc) {
    && 1 <= d.epoch <= MAX_COUNTER && 0 <= d.failures <= MAX_COUNTER && 0 <= d.protocolFailures <= MAX_COUNTER
    && 0 <= d.successes <= MAX_COUNTER && 0 <= d.openCount <= MAX_COUNTER && |d.outcomes| <= 10_000
    && HttpStatus(d.lastStatus)
  }

  /** Its state, its switch and its need for the user go together. */
  predicate Sensible(d: RouteDoc) {
    && (d.enabled ==> d.state != Disabled)
    && (d.enabled && d.state == HalfOpen ==> d.epoch < MAX_COUNTER)
    && (d.actionRequired ==> d.enabled && (d.state == OpenActionRequired || d.state == HalfOpen))
  }

  /** The state a restart gives a document route: nobody owns its probe any more. */
  function StateAfter(d: RouteDoc): BreakerState {
    if !d.enabled then Disabled
    else if d.state == HalfOpen then (if d.actionRequired then OpenActionRequired else OpenTemporary)
    else d.state
  }

  /** Until when it stays open: as written, but at least one pause of the policy where a probe was out. */
  function OpenUntilAfter(d: RouteDoc, floor: real): Option<real> {
    if StateAfter(d) == OpenActionRequired then None
    else if d.enabled && d.openUntil.None? && (d.state == HalfOpen || d.state == OpenTemporary) then Some(floor)
    else if d.enabled && d.state == HalfOpen && d.openUntil.value < floor then Some(floor)
    else d.openUntil
  }

  predicate TakenOver(was: Runtime, d: RouteDoc, now: real, rt: Runtime) {
    && rt.policy == was.policy && rt.enabled == was.enabled && rt.leaseId == None
    && rt.failures == d.failures && rt.protocolFailures == d.protocolFailures && rt.successes == d.successes
    && rt.openCount == d.openCount && rt.firstFailedAt == d.firstFailedAt && rt.lastFailedAt == d.lastFailedAt
    && rt.lastSucceededAt == d.lastSucceededAt && rt.lastCategory == d.lastCategory && rt.lastStatus == d.lastStatus
    && Newest(was.policy.windowSize, d.outcomes, rt.outcomes)
    && rt.state == StateAfter(d) && rt.actionRequired == (rt.state == OpenActionRequired)
    && rt.epoch == (if d.enabled && d.state == HalfOpen then d.epoch + 1 else d.epoch)
    && rt.openUntil == OpenUntilAfter(d, now + was.policy.baseCooldown)
  }

  lemma RouteIsTakenOver(was: Runtime, d: RouteDoc, now: real)
    requires d.enabled == was.enabled
    ensures RestoredRoute(was, d, now).Ok? <==> Legible(d) && Sensible(d)
    ensures RestoredRoute(was, d, now).Ok? ==> TakenOver(was, d, now, RestoredRoute(was, d, now).value)
  {
    assert NumbersInRange(d) <==> Legible(d);
    hide NumbersInRange, Legible, Newest, Last;
    LastIsNewest(was.policy.windowSize, d.outcomes);
  }

  /** The document route is about this version, as it is configured. */
  predicate About(reg: Reg, d: RouteDoc, v: VersionKey) {
    && d.key == v.key && v in reg.routes && v.key in reg.current && reg.current[v.key] == v.version
    && d.revision == v.version.revision && d.fingerprint == v.version.fingerprint && d.enabled == reg.routes[v].enabled
  }

  /** The document route does not stand in the way; one that is about nothing current needs little. */
  predicate Readable(reg: Reg, d: RouteDoc)
    requires reg.WellKeyed()
  {
    d.key in reg.current ==>
      && 1 <= d.revision <= MAX_COUNTER
      && (About(reg, d, VersionKey(d.key, reg.current[d.key])) ==> Legible(d) && Sensible(d))
  }

  /** The document can be restored. */
  predicate WellWritten(reg: Reg, doc: Document)
    requires reg.WellKeyed()
  {
    && (doc.schema == 2 || (doc.schema == 1 && forall d <- doc.routes :: d.lastStatus == None))
    && |doc.routes| <= 10_000
    && (forall i, j :: 0 <= i < j < |doc.routes| ==> doc.routes[i].key != doc.routes[j].key)
    && forall d <- doc.routes :: Readable(reg, d)
  }

  /** The version is taken over from the route about it, and left alone if there is none. */
  predicate FollowsDocument(reg: Reg, doc: Document, now: real, v: VersionKey, rt: Runtime)
    requires v in reg.routes
  {
    && (forall d <- doc.routes :: About(reg, d, v) ==> TakenOver(reg.routes[v], d, now, rt))
    && ((forall d <- doc.routes :: !About(reg, d, v)) ==> rt == reg.routes[v])
  }

  lemma ReadableIs(reg: Reg, d: RouteDoc, now: real)
    requires reg.WellKeyed()
    ensures Accepts(reg, d, now) <==> Readable(reg, d)
  {
    hide RestoredRoute, Legible, Sensible, TakenOver;
    if d.key in reg.current {
      var rt := reg.routes[VersionKey(d.key, reg.current[d.key])];
      if rt.enabled == d.enabled {
        RouteIsTakenOver(rt, d, now);
      }
    }
  }

  lemma WellWrittenIs(reg: Reg, doc: Document, now: real)
    requires reg.WellKeyed()
    ensures RestoreDocument(reg, doc, now).Ok? <==> WellWritten(reg, doc)
  {
    hide RestoreRoutes, Accepts, Readable, Reg.WellKeyed;
    RestoreAccepted(reg, doc.routes, {}, now, 0);
    forall d | d in doc.routes
      ensures Accepts(reg, d, now) <==> Readable(reg, d)
    {
      ReadableIs(reg, d, now);
    }
  }

  lemma FollowsIs(reg: Reg, doc: Document, now: real, v: VersionKey, rt: Runtime)
    requires v in reg.routes && RestoredAs(reg, doc.routes, now, v, rt)
    ensures FollowsDocument(reg, doc, now, v, rt)
  {
    hide RestoredRoute, TakenOver, Legible, Sensible;
    forall d | d in doc.routes
      ensures About(reg, d, v) == Names(reg, d, v)
      ensures About(reg, d, v) ==> TakenOver(reg.routes[v], d, now, rt)
    {
      if About(reg, d, v) {
        RouteIsTakenOver(reg.routes[v], d, now);
      }
    }
  }

  /** `restore`: which documents are refused, and what an accepted one leaves of every version. */
  lemma RestoreOutcome(reg: Reg, op: Op)
    requires Inv(reg) && op.OpRestore? && reg.WellKeyed()
    ensures var doc, next := op.document, Next(reg, op);
            if reg.active != map[] then next == Step(reg, Failed(AttemptsActive))
            else if !WellWritten(reg, doc) then next == Step(reg, next.reply) && next.reply.Failed?
            else if !Writes(reg, op.save) then
              next.reply.Failed? && next.reg.routes == reg.routes && next.reg.current == reg.current
            else
              && next.reply == Done && next.reg.routes.Keys == reg.routes.Keys
              && next.reg == reg.(routes := next.reg.routes, log := next.reg.log, disk := next.reg.disk)
              && forall v <- reg.routes :: FollowsDocument(reg, doc, op.now, v, next.reg.routes[v])
  {
    hide Inv, Export, RestoreRoutes, WellWritten, FollowsDocument, RestoredAs, Reg.WellKeyed, ValidShape;
    var doc := op.document;
    WellWrittenIs(reg, doc, op.now);
    if reg.active == map[] && RestoreDocument(reg, doc, op.now).Ok? {
      RestoreEffect(reg, doc.routes, {}, op.now, 0);
      var res := RestoreDocument(reg, doc, op.now).value.reg;
      forall v | v in reg.routes
        ensures FollowsDocument(reg, doc, op.now, v, res.routes[v])
      {
        FollowsIs(reg, doc, op.now, v, res.routes[v]);
      }
    }
  }
}
