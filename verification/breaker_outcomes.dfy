/**
 What an observation or an admission leaves behind, told on the fields a caller can read: when a
 failure opens a route, when a success closes it, who is admitted.
 */
module BreakerOutcomes {
  import opened Common
  import opened BreakerRoute
  import opened BreakerKeys
  import opened BreakerSpec
  import opened BreakerInvariant
  import opened BreakerEvolution
  import opened BreakerRuns

  // --------------------------------------------------------------------- cooldown

  function TwoTo(k: nat): real {
    if k == 0 then 1.0 else TwoTo(k - 1) + TwoTo(k - 1)
  }

  lemma {:induction false} DoubledIsPower(x: real, k: nat)
    ensures Doubled(x, k) == x * TwoTo(k)
  {
    if k > 0 {
      DoubledIsPower(x, k - 1);
    }
  }

  /** The pause of the n-th open in a row: base * 2^(n-1), with jitter, at least retry-after, at most the maximum. */
  function Pause(p: Policy, n: nat, fraction: real, retryAfter: Option<real>): real
    requires n >= 1
  {
    var power := p.baseCooldown * TwoTo(if n <= 63 then n - 1 else 62);
    var backoff := if power <= p.maxCooldown then power else p.maxCooldown;
    var jittered := backoff + backoff * p.jitterRatio * fraction;
    var wanted := if retryAfter.Some? && retryAfter.value > jittered then retryAfter.value else jittered;
    if wanted <= p.maxCooldown then wanted else p.maxCooldown
  }

  lemma CooldownIsPause(p: Policy, n: nat, fraction: real, retryAfter: Option<real>)
    requires n >= 1
    ensures Cooldown(p, n, fraction, retryAfter) == Pause(p, n, fraction, retryAfter)
  {
    DoubledIsPower(p.baseCooldown, Min(n - 1, 62));
  }

  /** Each open doubles the pause of the one before it, up to the maximum. */
  lemma PauseDoubles(p: Policy, n: nat)
    requires 1 <= n < 63
    ensures Pause(p, 1, 0.0, None) == p.baseCooldown
    ensures var twice := Pause(p, n, 0.0, None) + Pause(p, n, 0.0, None);
            Pause(p, n + 1, 0.0, None) == if twice <= p.maxCooldown then twice else p.maxCooldown
  {
    NoJitter(p, n);
    NoJitter(p, n + 1);
    NoJitter(p, 1);
    PowerDoubles(p.baseCooldown, n - 1);
    PowerPositive(p.baseCooldown, n - 1);
  }

  lemma PowerDoubles(x: real, k: nat)
    ensures x * TwoTo(k + 1) == x * TwoTo(k) + x * TwoTo(k)
  {
  }

  lemma {:induction false} PowerPositive(x: real, k: nat)
    requires x > 0.0
    ensures x * TwoTo(k) > 0.0
  {
    if k > 0 {
      PowerPositive(x, k - 1);
      PowerDoubles(x, k - 1);
    }
  }

  lemma NoJitter(p: Policy, n: nat)
    requires 1 <= n <= 63
    ensures var power := p.baseCooldown * TwoTo(n - 1);
            Pause(p, n, 0.0, None) == if power <= p.maxCooldown then power else p.maxCooldown
  {
    var power := p.baseCooldown * TwoTo(n - 1);
    var backoff := if power <= p.maxCooldown then power else p.maxCooldown;
    assert backoff * p.jitterRatio * 0.0 == 0.0;
  }

  // --------------------------------------------------------------------- failures

  /** The window keeps the newest outcomes, as many as the policy says. */
  predicate Slides(size: int, before: seq<bool>, outcome: bool, after: seq<bool>) {
    var all := before + [outcome];
    |after| <= |all| && |after| == (if |all| <= size then |all| else size) && after == all[|all| - |after|..]
  }

  /** Enough samples, and as large a share of failures among them as the policy tolerates. */
  predicate RateReached(p: Policy, window: seq<bool>) {
    && p.errorRate.Some? && |window| >= p.minimumSamples
    && multiset(window)[true] as real >= p.errorRate.value * |window| as real
  }

  /** The failure asks for the user: by its kind, as the last of too many protocol failures, or by the route. */
  predicate NeedsAction(rt: Runtime, kind: FailureKind) {
    || kind.ActionRequired?
    || (kind.Protocol? && rt.protocolFailures + 1 >= rt.policy.protocolThreshold)
    || (rt.state == HalfOpen && rt.actionRequired)
  }

  /** The failure opens the route; `window` is the window after it. */
  predicate Opens(rt: Runtime, signal: Signal, kind: FailureKind, window: seq<bool>) {
    if signal == Probe then rt.state == Unknown || rt.state == HalfOpen
    else
      || kind.RateLimit?
      || rt.state == HalfOpen
      || rt.failures + 1 >= rt.policy.failureThreshold
      || RateReached(rt.policy, window)
  }

  function RetryAfter(kind: FailureKind): Option<real> {
    if kind.RateLimit? then kind.retryAfter else None
  }

  /** The state after a failure, and what goes with it. */
  predicate Reacted(rt: Runtime, rt': Runtime, signal: Signal, kind: FailureKind, now: real, fraction: real) {
    if NeedsAction(rt, kind) then
      rt'.state == OpenActionRequired && rt'.actionRequired && rt'.openUntil == None && rt'.openCount == rt.openCount
    else if Opens(rt, signal, kind, rt'.outcomes) then
      && rt'.state == OpenTemporary && rt'.actionRequired == rt.actionRequired
      && rt'.openCount == (if rt.openCount < 63 then rt.openCount + 1 else 63)
      && rt'.openUntil == Some(now + Pause(rt.policy, rt'.openCount, fraction, RetryAfter(kind)))
    else
      && rt'.state == rt.state && rt'.actionRequired == rt.actionRequired
      && rt'.openUntil == rt.openUntil && rt'.openCount == rt.openCount
  }

  /** What a failure records. */
  predicate Recorded(rt: Runtime, rt': Runtime, signal: Signal, kind: FailureKind, category: Category,
                     status: Option<int>, now: real) {
    && rt'.successes == 0
    && rt'.firstFailedAt == (if rt.firstFailedAt.Some? then rt.firstFailedAt else Some(now))
    && rt'.lastFailedAt == Some(now) && rt'.lastSucceededAt == rt.lastSucceededAt
    && rt'.lastCategory == Some(category) && rt'.lastStatus == status
    && if signal == Probe then
         rt'.failures == rt.failures && rt'.protocolFailures == rt.protocolFailures && rt'.outcomes == rt.outcomes
       else
         && rt'.failures == rt.failures + 1
         && rt'.protocolFailures == (if kind.Protocol? then rt.protocolFailures + 1 else 0)
         && Slides(rt.policy.windowSize, rt.outcomes, true, rt'.outcomes)
  }

  /** Policy and switch stay; the epoch counts changes of state. */
  predicate Turned(rt: Runtime, rt': Runtime) {
    && rt'.policy == rt.policy && rt'.enabled == rt.enabled
    && rt'.epoch == (if rt'.state == rt.state then rt.epoch else rt.epoch + 1)
  }

  lemma {:induction false} CountIsMultiplicity(window: seq<bool>)
    ensures CountTrue(window) == multiset(window)[true]
  {
    if window != [] {
      CountIsMultiplicity(window[1..]);
      assert window == [window[0]] + window[1..];
    }
  }

  lemma ShareIsProduct(a: real, b: real, r: real)
    requires b > 0.0
    ensures a / b >= r <==> a >= r * b
  {
    assert a == (a / b) * b;
    if a / b >= r {
      ScaleKeeps(r, a / b, b);
    } else {
      ScaleRaises(a / b, r, b);
    }
  }

  lemma ScaleKeeps(x: real, y: real, b: real)
    requires x <= y && b > 0.0
    ensures x * b <= y * b
  {
  }

  lemma ScaleRaises(x: real, y: real, b: real)
    requires x < y && b > 0.0
    ensures x * b < y * b
  {
  }

  lemma RateIsReached(rt: Runtime)
    ensures ErrorRateOpens(rt) <==> RateReached(rt.policy, rt.outcomes)
  {
    CountIsMultiplicity(rt.outcomes);
    hide CountTrue;
    if rt.policy.errorRate.Some? && |rt.outcomes| >= rt.policy.minimumSamples {
      ShareIsProduct(CountTrue(rt.outcomes) as real, |rt.outcomes| as real, rt.policy.errorRate.value);
    }
  }

  lemma WindowSlides(size: nat, before: seq<bool>, outcome: bool)
    ensures Slides(size, before, outcome, Last(size, before + [outcome]))
  {
  }

  lemma OpeningIs(rt: Runtime, now: real, fraction: real, retryAfter: Option<real>)
    requires OpenTemporarily(rt, now, fraction, retryAfter).Ok?
    ensures var r := OpenTemporarily(rt, now, fraction, retryAfter).value;
            && r == rt.(state := OpenTemporary, epoch := r.epoch, openCount := r.openCount, openUntil := r.openUntil,
                        leaseId := r.leaseId)
            && r.openCount == (if rt.openCount < 63 then rt.openCount + 1 else 63)
            && r.openUntil == Some(now + Pause(rt.policy, r.openCount, fraction, retryAfter))
            && r.epoch == (if rt.state == OpenTemporary then rt.epoch else rt.epoch + 1)
  {
    hide Cooldown, Pause;
    CooldownIsPause(rt.policy, NextOpenCount(rt.openCount), fraction, retryAfter);
  }

  lemma ActionIs(rt: Runtime)
    requires RequireAction(rt).Ok?
    ensures var r := RequireAction(rt).value;
            && r == rt.(state := OpenActionRequired, epoch := r.epoch, actionRequired := true, openUntil := None,
                        leaseId := r.leaseId)
            && r.epoch == (if rt.state == OpenActionRequired then rt.epoch else rt.epoch + 1)
  {
  }

  /** The failure of a runtime whose lease has been returned. */
  lemma FailureIs(rt: Runtime, signal: Signal, kind: FailureKind, category: Category, status: Option<int>, now: real,
                  fraction: real)
    requires RouteOk(rt) && Ticketable(rt.state)
    requires OnFailure(rt, signal, AsFailure(rt, kind, category, status), now, fraction).Ok?
    ensures var rt' := OnFailure(rt, signal, AsFailure(rt, kind, category, status), now, fraction).value;
            && Recorded(rt, rt', signal, kind, category, status, now)
            && Reacted(rt, rt', signal, kind, now, fraction) && Turned(rt, rt')
  {
    var f := AsFailure(rt, kind, category, status);
    var noted := Note(rt, f, now);
    if signal == Probe {
      ProbeFailureIs(rt, noted, kind, category, status, now, fraction);
    } else {
      BusinessFailureIs(rt, noted, kind, category, status, now, fraction);
    }
  }

  lemma ProbeFailureIs(rt: Runtime, noted: Runtime, kind: FailureKind, category: Category, status: Option<int>, now: real,
                       fraction: real)
    requires RouteOk(rt) && Ticketable(rt.state)
    requires noted == Note(rt, AsFailure(rt, kind, category, status), now)
    requires OnProbeFailure(noted, AsFailure(rt, kind, category, status), now, fraction).Ok?
    ensures var rt' := OnProbeFailure(noted, AsFailure(rt, kind, category, status), now, fraction).value;
            && Recorded(rt, rt', Probe, kind, category, status, now)
            && Reacted(rt, rt', Probe, kind, now, fraction) && Turned(rt, rt')
  {
    hide OpenTemporarily, RequireAction, Pause;
    var f := AsFailure(rt, kind, category, status);
    if f.actionRequired || (rt.state == HalfOpen && rt.actionRequired) {
      ActionIs(noted);
    } else if Guarded(rt.state) {
      OpeningIs(noted, now, fraction, f.retryAfter);
    }
  }

  lemma BusinessFailureIs(rt: Runtime, noted: Runtime, kind: FailureKind, category: Category, status: Option<int>,
                          now: real, fraction: real)
    requires RouteOk(rt) && Ticketable(rt.state)
    requires noted == Note(rt, AsFailure(rt, kind, category, status), now)
    requires OnBusinessFailure(noted, AsFailure(rt, kind, category, status), now, fraction).Ok?
    ensures var rt' := OnBusinessFailure(noted, AsFailure(rt, kind, category, status), now, fraction).value;
            && Recorded(rt, rt', Business, kind, category, status, now)
            && Reacted(rt, rt', Business, kind, now, fraction) && Turned(rt, rt')
  {
    hide OpenTemporarily, RequireAction, Pause, ErrorRateOpens, RateReached, Slides, Last;
    var f := AsFailure(rt, kind, category, status);
    var counted := noted.(
      outcomes := Last(rt.policy.windowSize, rt.outcomes + [true]),
      failures := rt.failures + 1,
      protocolFailures := if f.protocol then rt.protocolFailures + 1 else 0);
    WindowSlides(rt.policy.windowSize, rt.outcomes, true);
    RateIsReached(counted);
    if f.actionRequired || (rt.state == HalfOpen && rt.actionRequired) {
      ActionIs(counted);
    } else if f.immediateOpen || rt.state == HalfOpen || counted.failures >= rt.policy.failureThreshold
              || ErrorRateOpens(counted) {
      OpeningIs(counted, now, fraction, f.retryAfter);
    }
  }

  // -------------------------------------------------------------------- successes

  /** One more success, counted up to what recovery asks for. */
  function OneMore(rt: Runtime): nat {
    if rt.successes < rt.policy.recoveryThreshold then rt.successes + 1 else rt.policy.recoveryThreshold
  }

  predicate Closes(rt: Runtime) {
    rt.state == Unknown || (rt.state == HalfOpen && rt.successes + 1 >= rt.policy.recoveryThreshold)
  }

  /** What a success of a probe leaves; on a closed route it leaves everything. */
  predicate Probed(rt: Runtime, rt': Runtime, now: real) {
    && rt'.failures == rt.failures && rt'.protocolFailures == rt.protocolFailures && rt'.outcomes == rt.outcomes
    && rt'.successes == (if rt.state == HalfOpen then OneMore(rt) else rt.successes)
    && rt'.lastSucceededAt == (if rt.state == Unknown || rt.state == HalfOpen then Some(now) else rt.lastSucceededAt)
    && if Closes(rt) then rt'.state == Closed && rt'.openCount == 0 && rt'.openUntil == None && !rt'.actionRequired
       else rt'.state == rt.state && rt'.openCount == rt.openCount && rt'.openUntil == rt.openUntil
            && rt'.actionRequired == rt.actionRequired
  }

  /** n successes, or as many as the window holds. */
  predicate CleanWindow(size: int, n: int, window: seq<bool>) {
    |window| == (if n <= size then n else size) && forall o <- window :: !o
  }

  /** What a success of real traffic leaves; a recovered route starts with a window of its successes. */
  predicate Served(rt: Runtime, rt': Runtime, now: real) {
    && rt'.failures == 0 && rt'.protocolFailures == 0 && rt'.successes == OneMore(rt) && rt'.lastSucceededAt == Some(now)
    && (if rt.state == HalfOpen && Closes(rt)
        then CleanWindow(rt.policy.windowSize, OneMore(rt), rt'.outcomes)
        else Slides(rt.policy.windowSize, rt.outcomes, false, rt'.outcomes))
    && if Closes(rt) then rt'.state == Closed && rt'.openCount == 0 && !rt'.actionRequired
            && rt'.openUntil == (if rt.state == HalfOpen then None else rt.openUntil)
       else rt'.state == rt.state && rt'.openCount == rt.openCount && rt'.openUntil == rt.openUntil
            && rt'.actionRequired == rt.actionRequired
  }

  predicate FailuresStay(rt: Runtime, rt': Runtime) {
    && rt'.firstFailedAt == rt.firstFailedAt && rt'.lastFailedAt == rt.lastFailedAt
    && rt'.lastCategory == rt.lastCategory && rt'.lastStatus == rt.lastStatus
  }

  lemma SuccessIs(rt: Runtime, signal: Signal, now: real)
    requires RouteOk(rt) && Ticketable(rt.state) && OnSuccess(rt, signal, now).Ok?
    ensures var rt' := OnSuccess(rt, signal, now).value;
            && (if signal == Probe then Probed(rt, rt', now) else Served(rt, rt', now))
            && FailuresStay(rt, rt') && Turned(rt, rt')
  {
    if signal == Probe {
      hide RouteOk;
      ProbeSuccessIs(rt, now);
    } else {
      hide RouteOk;
      BusinessSuccessIs(rt, now);
    }
  }

  lemma ProbeSuccessIs(rt: Runtime, now: real)
    requires Ticketable(rt.state) && OnProbeSuccess(rt, now).Ok?
    ensures var rt' := OnProbeSuccess(rt, now).value;
            Probed(rt, rt', now) && FailuresStay(rt, rt') && Turned(rt, rt')
  {
  }

  lemma BusinessSuccessIs(rt: Runtime, now: real)
    requires Ticketable(rt.state) && OnBusinessSuccess(rt, now).Ok?
    ensures var rt' := OnBusinessSuccess(rt, now).value;
            Served(rt, rt', now) && FailuresStay(rt, rt') && Turned(rt, rt')
  {
    hide Slides, Last, CleanWindow;
    WindowSlides(rt.policy.windowSize, rt.outcomes, false);
    if rt.state == HalfOpen {
      NewWindow(rt.policy.windowSize, CountSuccess(rt));
    }
  }

  lemma NewWindow(size: nat, n: nat)
    ensures var w := Last(size, seq(n, _ => false));
            CleanWindow(size, n, w)
  {
  }

  // ------------------------------------------------------------- on the registry

  /** The ticket is one of those that are out. */
  predicate Live(reg: Reg, t: Ticket) {
    KeyOf(t) in reg.active && reg.active[KeyOf(t)] == t
  }

  lemma LiveMatches(reg: Reg, t: Ticket)
    requires Inv(reg)
    ensures Matches(reg, t) <==> Live(reg, t)
    ensures Live(reg, t) ==> t.version in reg.routes && Ticketable(reg.routes[t.version].state) && RouteOk(reg.routes[t.version])
  {
    if Live(reg, t) {
      assert TicketOk(KeyOf(t), t, reg.routes[t.version], reg.leaseSeq);
    }
  }

  /** The write that would go with the step is made: nothing to write to, or a store that saves. */
  predicate Writes(reg: Reg, save: SaveOutcome) {
    !reg.uncertain && (reg.attached ==> save == Saved)
  }

  /** Everything an observation of `t` leaves alone, and the tickets it takes back. */
  predicate OthersStay(reg: Reg, next: Reg, t: Ticket) {
    && next.current == reg.current && next.pins == reg.pins && next.leaseSeq == reg.leaseSeq
    && KeyOf(t) !in next.active
    && (forall w <- reg.routes :: w != t.version ==> w in next.routes && next.routes[w] == reg.routes[w])
    && (forall w <- next.routes :: w in reg.routes)
    && (reg.IsCurrent(t.version) || t.version in reg.pins ==> t.version in next.routes)
    && (forall a <- next.active :: a in reg.active && next.active[a] == reg.active[a])
    && (forall a <- reg.active :: a.version != t.version ==> a in next.active)
  }

  /** The other tickets of the version survive exactly if it has not changed its state. */
  predicate TicketsFollow(reg: Reg, next: Reg, t: Ticket) {
    t.version in next.routes && t.version in reg.routes ==>
      forall a <- reg.active :: a != KeyOf(t) && a.version == t.version ==>
        (a in next.active <==> next.routes[t.version].state == reg.routes[t.version].state)
  }

  /** A change of state is told, once, at the end of the log; the log keeps the newest events. */
  predicate Tells(reg: Reg, next: Reg, v: VersionKey, reason: Reason) {
    next.capacity == reg.capacity
    && (v in reg.routes && v in next.routes ==>
          var rt, rt' := reg.routes[v], next.routes[v];
          var told := reg.log + (if rt'.state == rt.state then [] else [Event(v, rt'.epoch, rt.state, rt'.state, reason)]);
          next.log == told[if |told| <= reg.capacity then 0 else |told| - reg.capacity..])
  }

  lemma LogTells(reg: Reg, v: VersionKey, was: BreakerState, rt: Runtime, reason: Reason)
    requires |reg.log| <= reg.capacity
    ensures var told := reg.log + (if rt.state == was then [] else [Event(v, rt.epoch, was, rt.state, reason)]);
            Logged(reg, v, was, rt, reason) == told[if |told| <= reg.capacity then 0 else |told| - reg.capacity..]
  {
  }

  lemma ObservedTells(reg: Reg, t: Ticket, rt: Runtime, reason: Reason)
    requires Matches(reg, t) && reg.WellKeyed() && |reg.log| <= reg.capacity
    ensures Tells(reg, Observed(reg, t, rt, reason), t.version, reason)
  {
    ObservedRoutes(reg, t, rt, reason);
    LogTells(reg, t.version, reg.routes[t.version].state, rt, reason);
    assert Observed(reg, t, rt, reason).log == Logged(reg, t.version, reg.routes[t.version].state, rt, reason);
    hide Observed, Logged;
  }

  lemma ObservedOthers(reg: Reg, t: Ticket, rt: Runtime, reason: Reason)
    requires Inv(reg) && Matches(reg, t) && Moves(reg.routes[t.version].(leaseId := None), rt.(leaseId := None))
    ensures OthersStay(reg, Observed(reg, t, rt, reason), t) && TicketsFollow(reg, Observed(reg, t, rt, reason), t)
  {
    hide Observed, Inv, Matches, Reg.IsCurrent;
    InvKeyed(reg);
    LogIsBounded(reg);
    ObservedRoutes(reg, t, rt, reason);
    ObservedActive(reg, t, rt, reason);
    assert t.version in reg.routes by { MatchIsFiled(reg, t); }
  }

  lemma MatchIsFiled(reg: Reg, t: Ticket)
    requires Matches(reg, t)
    ensures t.version in reg.routes
  {
  }

  lemma ObservedActive(reg: Reg, t: Ticket, rt: Runtime, reason: Reason)
    requires Matches(reg, t) && reg.WellKeyed()
    ensures Observed(reg, t, rt, reason).active
            == map a | a in reg.active && a != KeyOf(t)
                       && (rt.epoch == reg.routes[t.version].epoch || a.version != t.version) :: reg.active[a]
  {
    MatchIsFiled(reg, t);
    hide Without, Logged, Prune, KeyOf, Matches, Reg.WellKeyed;
    PruneKeepsTickets(reg.(active := reg.active - {KeyOf(t)}), t.version);
    TicketsLeft(reg.active, KeyOf(t), t.version, rt.epoch == reg.routes[t.version].epoch);
  }

  lemma PruneKeepsTickets(reg: Reg, v: VersionKey)
    ensures Prune(reg, v).active == reg.active
  {
    hide Reg.Needed;
  }

  lemma TicketsLeft(active: map<ActiveKey, Ticket>, used: ActiveKey, v: VersionKey, same: bool)
    ensures (if same then active - {used} else Without(active - {used}, v))
            == map a | a in active && a != used && (same || a.version != v) :: active[a]
  {
  }

  lemma DiskIsNoPart(reg: Reg, next: Reg, disk: Option<Document>, t: Ticket, reason: Reason)
    requires OthersStay(reg, next, t) && TicketsFollow(reg, next, t) && Tells(reg, next, t.version, reason)
    ensures var saved := next.(disk := disk);
            OthersStay(reg, saved, t) && TicketsFollow(reg, saved, t) && Tells(reg, saved, t.version, reason)
  {
  }

  lemma ObserveOthers(reg: Reg, t: Ticket, seen: Result<Runtime>, reason: Reason, save: SaveOutcome)
    requires Inv(reg) && Matches(reg, t)
    requires seen.Ok? ==> Moves(reg.routes[t.version].(leaseId := None), seen.value.(leaseId := None))
    ensures var o := Observe(reg, t, seen, reason, save);
            && (o.result.Ok? <==> seen.Ok? && Writes(reg, save))
            && (o.result.Ok? ==> o.result.value == Applied && OthersStay(reg, o.reg, t) && TicketsFollow(reg, o.reg, t)
                                 && Tells(reg, o.reg, t.version, reason)
                                 && (t.version in o.reg.routes ==> o.reg.routes[t.version] == seen.value))
  {
    hide Observed, Export, Inv, OthersStay, TicketsFollow, Tells;
    InvKeyed(reg);
    LogIsBounded(reg);
    if seen.Ok? {
      ObservedRoutes(reg, t, seen.value, reason);
      ObservedOthers(reg, t, seen.value, reason);
      ObservedTells(reg, t, seen.value, reason);
      var next := Observed(reg, t, seen.value, reason);
      DiskIsNoPart(reg, next, Some(Export(next)), t, reason);
    }
  }

  lemma LogIsBounded(reg: Reg)
    requires Inv(reg)
    ensures |reg.log| <= reg.capacity
  {
  }

  /** A lease plays no part in what a route does. */
  lemma FreedIsSame(reg: Reg, t: Ticket)
    requires Matches(reg, t)
    ensures Freed(reg, t) == reg.routes[t.version].(leaseId := Freed(reg, t).leaseId)
  {
  }

  lemma TurnedMoves(rt: Runtime, rt': Runtime, lease: Option<nat>)
    requires Turned(rt.(leaseId := lease), rt')
    ensures Moves(rt.(leaseId := None), rt'.(leaseId := None))
  {
  }

  /** A status that HTTP knows. */
  predicate HttpStatus(status: Option<int>) {
    status.None? || 100 <= status.value < 600
  }

  /** The random fraction, the retry-after of the failure and the epoch are in range. */
  predicate InOrder(reg: Reg, op: Op)
    requires op.OpFailure?
  {
    && 0.0 <= op.fraction <= 1.0
    && (op.kind.RateLimit? && op.kind.retryAfter.Some? ==> op.kind.retryAfter.value > 0.0)
    && (op.ticket.version in reg.routes ==> reg.routes[op.ticket.version].epoch < MAX_COUNTER)
  }

  /** What an applied failure of `op.ticket` leaves. */
  predicate FailureLeaves(reg: Reg, op: Op, next: Reg)
    requires op.OpFailure?
  {
    var t := op.ticket;
    && OthersStay(reg, next, t) && TicketsFollow(reg, next, t)
    && Tells(reg, next, t.version, if t.signal == Probe then ProbeFailed else BusinessFailed)
    && (t.version in next.routes ==>
          && t.version in reg.routes
          && var rt, rt' := reg.routes[t.version], next.routes[t.version];
             && Recorded(rt, rt', t.signal, op.kind, op.category, op.status, op.now)
             && Reacted(rt, rt', t.signal, op.kind, op.now, op.fraction) && Turned(rt, rt'))
  }

  /**
   `record_temporary_failure`, `record_rate_limited`, `record_action_required`, `record_protocol_failure`:
   when the failure is taken, what is recorded, and when the route opens.
   */
  lemma FailureOutcome(reg: Reg, op: Op)
    requires Inv(reg) && op.OpFailure? && reg.WellKeyed()
    ensures var t, next := op.ticket, Next(reg, op);
            && (next.reply == Seen(Ignored) <==> !Live(reg, t) && (op.kind.Protocol? || HttpStatus(op.status)))
            && (next.reply == Seen(Applied) ==> Live(reg, t) && HttpStatus(op.status) && Writes(reg, op.save))
            && (Live(reg, t) && HttpStatus(op.status) && Writes(reg, op.save) && InOrder(reg, op) ==>
                  next.reply == Seen(Applied))
            && (next.reply == Seen(Applied) ==> FailureLeaves(reg, op, next.reg))
  {
    hide Observe, OnFailure, Freed, Inv, FailureLeaves, Matches, Live, InOrder;
    var t := op.ticket;
    LiveMatches(reg, t);
    assert HttpStatus(op.status) <==> ValidStatus(op.status);
    if Live(reg, t) && HttpStatus(op.status) {
      TakenFailure(reg, op);
    }
  }

  lemma FailureAccepted(rt: Runtime, signal: Signal, kind: FailureKind, category: Category, status: Option<int>,
                        now: real, fraction: real)
    requires 0.0 <= fraction <= 1.0 && rt.epoch < MAX_COUNTER
    requires kind.RateLimit? && kind.retryAfter.Some? ==> kind.retryAfter.value > 0.0
    ensures OnFailure(rt, signal, AsFailure(rt, kind, category, status), now, fraction).Ok?
  {
    hide Cooldown, ErrorRateOpens;
  }

  lemma TakenFailure(reg: Reg, op: Op)
    requires Inv(reg) && op.OpFailure? && reg.WellKeyed() && Matches(reg, op.ticket)
    ensures var t := op.ticket;
            var rt := Freed(reg, t);
            var seen := OnFailure(rt, t.signal, AsFailure(rt, op.kind, op.category, op.status), op.now, op.fraction);
            var o := Observe(reg, t, seen, if t.signal == Probe then ProbeFailed else BusinessFailed, op.save);
            && (o.result.Ok? ==> Writes(reg, op.save)) && (Writes(reg, op.save) && InOrder(reg, op) ==> o.result.Ok?)
            && (o.result.Ok? ==> o.result.value == Applied && FailureLeaves(reg, op, o.reg))
  {
    var t := op.ticket;
    var rt := Freed(reg, t);
    var seen := OnFailure(rt, t.signal, AsFailure(rt, op.kind, op.category, op.status), op.now, op.fraction);
    LiveMatches(reg, t);
    FreedIsSame(reg, t);
    hide Observe, OnFailure, Freed, Inv, Matches, OthersStay, TicketsFollow, Tells, Live;
    if InOrder(reg, op) {
      FailureAccepted(rt, t.signal, op.kind, op.category, op.status, op.now, op.fraction);
    }
    if seen.Ok? {
      FailureIs(rt, t.signal, op.kind, op.category, op.status, op.now, op.fraction);
      TurnedMoves(reg.routes[t.version], seen.value, rt.leaseId);
      LeaseIsNoPart(reg.routes[t.version], rt.leaseId, seen.value, op);
    }
    hide Recorded, Reacted;
    ObserveOthers(reg, t, seen, if t.signal == Probe then ProbeFailed else BusinessFailed, op.save);
  }

  lemma LeaseIsNoPart(rt: Runtime, lease: Option<nat>, rt': Runtime, op: Op)
    requires op.OpFailure?
    requires var freed := rt.(leaseId := lease);
             && Recorded(freed, rt', op.ticket.signal, op.kind, op.category, op.status, op.now)
             && Reacted(freed, rt', op.ticket.signal, op.kind, op.now, op.fraction) && Turned(freed, rt')
    ensures Recorded(rt, rt', op.ticket.signal, op.kind, op.category, op.status, op.now)
    ensures Reacted(rt, rt', op.ticket.signal, op.kind, op.now, op.fraction) && Turned(rt, rt')
  {
    hide Pause, RateReached, Slides;
  }

  predicate SuccessLeaves(reg: Reg, op: Op, next: Reg)
    requires op.OpSuccess?
  {
    var t := op.ticket;
    && OthersStay(reg, next, t) && TicketsFollow(reg, next, t)
    && Tells(reg, next, t.version, if t.signal == Probe then ProbeSucceeded else BusinessSucceeded)
    && (t.version in next.routes ==>
          && t.version in reg.routes
          && var rt, rt' := reg.routes[t.version], next.routes[t.version];
             && (if t.signal == Probe then Probed(rt, rt', op.now) else Served(rt, rt', op.now))
             && FailuresStay(rt, rt') && Turned(rt, rt'))
  }

  /** `record_success`: when the success is taken, what is recorded, and when the route closes. */
  lemma SuccessOutcome(reg: Reg, op: Op)
    requires Inv(reg) && op.OpSuccess? && reg.WellKeyed()
    ensures var t, next := op.ticket, Next(reg, op);
            && (next.reply == Seen(Ignored) <==> !Live(reg, t))
            && (next.reply == Seen(Applied) ==> Live(reg, t) && Writes(reg, op.save))
            && (Live(reg, t) && Writes(reg, op.save) && reg.routes[t.version].epoch < MAX_COUNTER ==>
                  next.reply == Seen(Applied))
            && (next.reply == Seen(Applied) ==> SuccessLeaves(reg, op, next.reg))
  {
    hide Observe, OnSuccess, Freed, Inv, SuccessLeaves, Matches, Live;
    LiveMatches(reg, op.ticket);
    if Live(reg, op.ticket) {
      TakenSuccess(reg, op);
    }
  }

  lemma SuccessAccepted(rt: Runtime, signal: Signal, now: real)
    requires rt.epoch < MAX_COUNTER
    ensures OnSuccess(rt, signal, now).Ok?
  {
  }

  lemma TakenSuccess(reg: Reg, op: Op)
    requires Inv(reg) && op.OpSuccess? && reg.WellKeyed() && Matches(reg, op.ticket)
    ensures var t := op.ticket;
            var seen := OnSuccess(Freed(reg, t), t.signal, op.now);
            var o := Observe(reg, t, seen, if t.signal == Probe then ProbeSucceeded else BusinessSucceeded, op.save);
            && (o.result.Ok? ==> Writes(reg, op.save))
            && (Writes(reg, op.save) && reg.routes[t.version].epoch < MAX_COUNTER ==> o.result.Ok?)
            && (o.result.Ok? ==> o.result.value == Applied && SuccessLeaves(reg, op, o.reg))
  {
    var t := op.ticket;
    var rt := Freed(reg, t);
    var seen := OnSuccess(rt, t.signal, op.now);
    LiveMatches(reg, t);
    FreedIsSame(reg, t);
    hide Observe, OnSuccess, Freed, Inv, Matches, OthersStay, TicketsFollow, Tells, Live;
    if rt.epoch < MAX_COUNTER {
      SuccessAccepted(rt, t.signal, op.now);
    }
    if seen.Ok? {
      SuccessIs(rt, t.signal, op.now);
      TurnedMoves(reg.routes[t.version], seen.value, rt.leaseId);
      LeaseIsNoPartOfSuccess(reg.routes[t.version], rt.leaseId, seen.value, op);
    }
    hide Probed, Served;
    ObserveOthers(reg, t, seen, if t.signal == Probe then ProbeSucceeded else BusinessSucceeded, op.save);
  }

  lemma LeaseIsNoPartOfSuccess(rt: Runtime, lease: Option<nat>, rt': Runtime, op: Op)
    requires op.OpSuccess?
    requires var freed := rt.(leaseId := lease);
             && (if op.ticket.signal == Probe then Probed(freed, rt', op.now) else Served(freed, rt', op.now))
             && FailuresStay(freed, rt') && Turned(freed, rt')
    ensures if op.ticket.signal == Probe then Probed(rt, rt', op.now) else Served(rt, rt', op.now)
    ensures FailuresStay(rt, rt') && Turned(rt, rt')
  {
    hide Slides;
  }

  /** Nothing is observed: the version is as before, but for its lease. */
  predicate OnlyReturned(rt: Runtime, rt': Runtime) {
    rt' == rt.(leaseId := rt'.leaseId)
  }

  /** The version goes back to asking for the user. */
  predicate AsksAgain(rt: Runtime, rt': Runtime) {
    rt' == rt.(state := OpenActionRequired, epoch := rt.epoch + 1, leaseId := None)
  }

  /** `record_cancelled` and `abandon`: the ticket comes back; a cancelled probe that the user started asks again. */
  lemma ReturnOutcome(reg: Reg, op: Op)
    requires Inv(reg) && (op.OpCancel? || op.OpAbandon?) && reg.WellKeyed()
    ensures var t, next := op.ticket, Next(reg, op);
            && (next.reply == Seen(Ignored) <==> !Live(reg, t))
            && (op.OpAbandon? && Live(reg, t) ==> next.reply == Seen(Applied))
            && (next.reply == Seen(Applied) ==>
                  && Live(reg, t) && OthersStay(reg, next.reg, t) && TicketsFollow(reg, next.reg, t)
                  && (t.version in next.reg.routes ==>
                        && t.version in reg.routes
                        && var rt, rt' := reg.routes[t.version], next.reg.routes[t.version];
                           if op.OpCancel? && rt.state == HalfOpen && rt.actionRequired then AsksAgain(rt, rt')
                           else OnlyReturned(rt, rt')))
  {
    hide Observe, Observed, Inv, OthersStay, TicketsFollow, Live;
    var t := op.ticket;
    LiveMatches(reg, t);
    if Live(reg, t) {
      var rt := Freed(reg, t);
      FreedIsSame(reg, t);
      LogIsBounded(reg);
      TurnedMoves(reg.routes[t.version], rt, rt.leaseId);
      ObservedOthers(reg, t, rt, ProbeCancelled);
      ObservedRoutes(reg, t, rt, ProbeCancelled);
      if op.OpCancel? && rt.state == HalfOpen && rt.actionRequired {
        if OnCancel(rt).Ok? {
          TurnedMoves(reg.routes[t.version], OnCancel(rt).value, rt.leaseId);
        }
        ObserveOthers(reg, t, OnCancel(rt), ProbeCancelled, op.save);
      }
    }
  }

  // ------------------------------------------------------------------- in a run

  /** An applied failure of real traffic. */
  predicate Strikes(reg: Reg, op: Op, v: VersionKey)
    requires reg.WellKeyed()
  {
    op.OpFailure? && op.ticket.version == v && op.ticket.signal == Business && Next(reg, op).reply == Seen(Applied)
  }

  /** An applied success of real traffic. */
  predicate Relieves(reg: Reg, op: Op, v: VersionKey)
    requires reg.WellKeyed()
  {
    op.OpSuccess? && op.ticket.version == v && op.ticket.signal == Business && Next(reg, op).reply == Seen(Applied)
  }

  /** The step is part of a losing streak of the version: it stays filed, nothing relieves it, nothing is restored. */
  predicate LosesAt(regs: seq<Reg>, ops: seq<Op>, v: VersionKey, m: nat) {
    && m < |ops| && m + 1 < |regs| && regs[m].WellKeyed() && v in regs[m].routes && v in regs[m + 1].routes
    && !Relieves(regs[m], ops[m], v) && !IsRestore(ops[m])
  }

  /** How many of the steps from i up to j strike the version. */
  function StrikeCount(regs: seq<Reg>, ops: seq<Op>, v: VersionKey, i: nat, j: nat): nat
    requires i <= j && forall m :: i <= m < j ==> LosesAt(regs, ops, v, m)
    decreases j
  {
    if i == j then 0
    else
      assert LosesAt(regs, ops, v, j - 1);
      StrikeCount(regs, ops, v, i, j - 1) + (if Strikes(regs[j - 1], ops[j - 1], v) then 1 else 0)
  }

  /** One step of a losing streak. */
  lemma StepCounts(reg: Reg, op: Op, v: VersionKey)
    requires Inv(reg) && reg.WellKeyed() && Permitted(reg, op) && v in reg.routes && v in Next(reg, op).reg.routes
    requires !Relieves(reg, op, v) && !IsRestore(op)
    ensures Next(reg, op).reg.routes[v].failures == reg.routes[v].failures + (if Strikes(reg, op, v) then 1 else 0)
  {
    hide Next, Inv, Permitted, Evidence, OthersStay, TicketsFollow, Tells, Reacted;
    RouteEvolution(reg, op, v);
    if !IsConfigure(op) && Applies(reg, op, v) {
      if op.OpFailure? {
        FailureOutcome(reg, op);
      } else {
        SuccessOutcome(reg, op);
      }
    }
  }

  /** The failure counter counts the strikes of a losing streak. */
  lemma {:induction false} FailuresAddUp(regs: seq<Reg>, ops: seq<Op>, v: VersionKey, i: nat, j: nat)
    requires IsRun(regs, ops) && i <= j < |regs| && v in regs[i].routes
    requires forall m :: i <= m < j ==> LosesAt(regs, ops, v, m)
    ensures v in regs[j].routes
    ensures regs[j].routes[v].failures == regs[i].routes[v].failures + StrikeCount(regs, ops, v, i, j)
    decreases j
  {
    hide Next, Inv, Permitted, Relieves, Strikes;
    if i < j {
      assert LosesAt(regs, ops, v, j - 1);
      FailuresAddUp(regs, ops, v, i, j - 1);
      RunInvariant(regs, ops, j - 1);
      assert Steps(regs[j - 1], ops[j - 1], regs[j - 1 + 1]);
      StepCounts(regs[j - 1], ops[j - 1], v);
    }
  }

  /** In every run: the strike that makes a losing streak as long as the threshold leaves the version open. */
  lemma ThresholdOpens(regs: seq<Reg>, ops: seq<Op>, v: VersionKey, i: nat, j: nat)
    requires IsRun(regs, ops) && i <= j < |ops| && v in regs[i].routes
    requires forall m :: i <= m <= j ==> LosesAt(regs, ops, v, m)
    requires regs[j].WellKeyed() && Strikes(regs[j], ops[j], v)
    requires v in regs[j].routes && StrikeCount(regs, ops, v, i, j) + 1 >= regs[j].routes[v].policy.failureThreshold
    ensures v in regs[j + 1].routes
    ensures regs[j + 1].routes[v].state == OpenTemporary || regs[j + 1].routes[v].state == OpenActionRequired
  {
    hide Next, Inv, Permitted, Recorded, OthersStay, TicketsFollow, Tells, RateReached, Pause;
    assert LosesAt(regs, ops, v, j);
    FailuresAddUp(regs, ops, v, i, j);
    RunInvariant(regs, ops, j);
    assert Steps(regs[j], ops[j], regs[j + 1]);
    FailureOutcome(regs[j], ops[j]);
  }

  // -------------------------------------------------------------------- admission

  /** A guarded ticket of the same route and fingerprint is out, under whatever revision. */
  predicate Busy(reg: Reg, v: VersionKey) {
    exists a <- reg.active ::
      reg.active[a].guarded && a.version.key == v.key && a.version.version.fingerprint == v.version.fingerprint
  }

  /** Open routes are entered through HALF_OPEN. */
  predicate IsOpen(rt: Runtime) {
    rt.state == OpenTemporary || rt.state == OpenActionRequired
  }

  predicate Probes(rt: Runtime) {
    rt.state == Unknown || rt.state == HalfOpen || IsOpen(rt)
  }

  /** The route is shut to this attempt, by what it says itself. */
  predicate Shut(rt: Runtime, manual: bool, now: real) {
    || rt.state == Disabled
    || (rt.state == OpenActionRequired && !manual)
    || (rt.state == HalfOpen && rt.actionRequired && !manual)
    || (rt.state == OpenTemporary && (rt.openUntil.None? || now < rt.openUntil.value))
  }

  /** Why it is shut, and until when. */
  function WhyShut(rt: Runtime): Admission {
    if rt.state == Disabled then Denied(Disabled, RouteDisabled, None)
    else if rt.state == OpenTemporary then Denied(OpenTemporary, RouteOpenTemporary, rt.openUntil)
    else Denied(rt.state, RouteOpenActionRequired, None)
  }

  /** The version an admitted attempt, or one that finds another probe out, works with. */
  function Entered(rt: Runtime): Runtime {
    if IsOpen(rt) then rt.(state := HalfOpen, epoch := rt.epoch + 1, leaseId := None) else rt
  }

  predicate Attempt(reg: Reg, op: Op) {
    && op.OpAcquire? && ActiveKey(op.version, op.attempt) !in reg.active && Writes(reg, op.save) && op.leaseOk
    && reg.leaseSeq < MAX_COUNTER && (op.version in reg.routes ==> reg.routes[op.version].epoch < MAX_COUNTER)
  }

  lemma BusyIs(reg: Reg, other: Reg, v: VersionKey)
    requires Inv(reg) && other.active == reg.active
    ensures other.GuardedLeaseActive(v.key, v.version.fingerprint) <==> Busy(reg, v)
  {
    forall a | a in reg.active
      ensures reg.active[a].version == a.version
    {
      assert TicketOk(a, reg.active[a], reg.routes[a.version], reg.leaseSeq);
    }
  }

  lemma EnteredIs(reg: Reg, v: VersionKey, reason: Reason, save: SaveOutcome)
    requires Inv(reg) && v in reg.routes && IsOpen(reg.routes[v]) && Writes(reg, save) && reg.routes[v].epoch < MAX_COUNTER
    ensures var o := EnterHalfOpen(reg, v, reason, save);
            && o.result.Ok? && o.reg.active == reg.active && o.reg.leaseSeq == reg.leaseSeq
            && o.reg.routes == reg.routes[v := Entered(reg.routes[v])] && o.reg.current == reg.current
            && !o.reg.uncertain && o.reg.pins == reg.pins
  {
    OpenHoldsNoTicket(reg, v);
    hide Inv, Export, Logged;
  }

  /** The ticket a fresh attempt is given. */
  function Issued(reg: Reg, op: Op): Ticket
    requires op.OpAcquire? && op.version in reg.routes
  {
    var rt := Entered(reg.routes[op.version]);
    Ticket(op.version, rt.epoch, reg.leaseSeq + 1, op.attempt, rt.state == Unknown || rt.state == HalfOpen,
           if op.manual then Probe else op.signal)
  }

  lemma GrantIs(reg: Reg, v: VersionKey, attempt: string, manual: bool, signal: Signal)
    requires reg.WellKeyed() && v in reg.routes && reg.leaseSeq < MAX_COUNTER
    requires !(reg.routes[v].state == HalfOpen && reg.routes[v].actionRequired && !manual)
    ensures var rt := reg.routes[v];
            var o := Grant(reg, v, attempt, manual, signal, true);
            var t := Ticket(v, rt.epoch, reg.leaseSeq + 1, attempt, rt.state == Unknown || rt.state == HalfOpen, signal);
            if (rt.state == Unknown || rt.state == HalfOpen) && reg.GuardedLeaseActive(v.key, v.version.fingerprint) then
              o == Outcome(reg, Ok(Denied(rt.state, HalfOpenBusy, rt.openUntil)))
            else
              && o.result == Ok(Allowed(rt.state, t)) && o.reg.active == reg.active[ActiveKey(v, attempt) := t]
              && o.reg.leaseSeq == reg.leaseSeq + 1 && o.reg.current == reg.current && o.reg.pins == reg.pins
              && o.reg.routes == reg.routes[v := rt.(leaseId := if t.guarded then Some(t.lease) else rt.leaseId)]
  {
    hide Reg.GuardedLeaseActive, Reg.WellKeyed;
    assert reg.routes[v := reg.routes[v]] == reg.routes;
  }

  /**
   `acquire` for an attempt that is not out, with a store that saves: who is admitted, with which ticket
   and into which state; who is refused, why, and until when.
   */
  lemma AdmissionOutcome(reg: Reg, op: Op)
    requires Inv(reg) && reg.WellKeyed() && Attempt(reg, op) && op.version in reg.routes
    ensures var v, next := op.version, Next(reg, op);
            var rt := reg.routes[v];
            if Shut(rt, op.manual, op.now) then next.reply == Granted(WhyShut(rt)) && next.reg == reg
            else if Probes(rt) && Busy(reg, v) then
              && next.reply == Granted(Denied(Entered(rt).state, HalfOpenBusy, rt.openUntil))
              && next.reg.active == reg.active && next.reg.routes == reg.routes[v := Entered(rt)]
            else
              var t := Issued(reg, op);
              && next.reply == Granted(Allowed(Entered(rt).state, t))
              && next.reg.active == reg.active[ActiveKey(v, op.attempt) := t] && next.reg.leaseSeq == t.lease
              && next.reg.current == reg.current && next.reg.pins == reg.pins
              && next.reg.routes
                 == reg.routes[v := Entered(rt).(leaseId := if t.guarded then Some(t.lease) else Entered(rt).leaseId)]
  {
    hide Inv, EnterHalfOpen, Grant, Busy, Reg.WellKeyed;
    var v := op.version;
    var rt := reg.routes[v];
    RouteIsOk(reg, v);
    BusyIs(reg, reg, v);
    var signal := if op.manual then Probe else op.signal;
    if Shut(rt, op.manual, op.now) {
      ShutOutcome(reg, op);
    } else {
      if IsOpen(rt) {
        var reason := if op.manual then ManualProbeStarted else CooldownElapsed;
        EnteredIs(reg, v, reason, op.save);
        var entered := EnterHalfOpen(reg, v, reason, op.save).reg;
        BusyIs(reg, entered, v);
        GrantIs(entered, v, op.attempt, op.manual, signal);
      } else {
        GrantIs(reg, v, op.attempt, op.manual, signal);
      }
    }
  }

  lemma ShutOutcome(reg: Reg, op: Op)
    requires reg.WellKeyed() && Attempt(reg, op) && op.version in reg.routes && RouteOk(reg.routes[op.version])
    requires Shut(reg.routes[op.version], op.manual, op.now)
    ensures Next(reg, op) == Step(reg, Granted(WhyShut(reg.routes[op.version])))
  {
    hide EnterHalfOpen, Reg.GuardedLeaseActive, Reg.WellKeyed;
  }

  lemma RouteIsOk(reg: Reg, v: VersionKey)
    requires Inv(reg) && v in reg.routes
    ensures RouteOk(reg.routes[v])
  {
  }

  /** The attempts that are turned away before the route is looked at. */
  lemma RefusedAtOnce(reg: Reg, op: Op)
    requires Inv(reg) && reg.WellKeyed() && op.OpAcquire?
    requires reg.uncertain || op.version !in reg.routes || ActiveKey(op.version, op.attempt) in reg.active
    ensures var next := Next(reg, op);
            && next.reg == reg
            && next.reply ==
               if reg.uncertain then Failed(CommitUncertain)
               else if op.version in reg.routes then
                 Granted(Denied(reg.routes[op.version].state, AttemptAlreadyActive, None))
               else if op.version.key in reg.current then
                 Granted(Denied(reg.routes[VersionKey(op.version.key, reg.current[op.version.key])].state,
                                StaleConfiguration, None))
               else Granted(Denied(Unknown, UnknownRoute, None))
  {
    hide Inv, EnterHalfOpen, Grant;
  }
}
