/**
 One route version of the circuit breaker (gateway/breaker.py): its policy, its
 runtime record, and what one observation does to that record.
 */
module BreakerRoute {
  import opened Common

  /** Largest value of a persisted counter, 2^63 - 1. */
  const MAX_COUNTER: int := 0x7FFF_FFFF_FFFF_FFFF
  const MAX_COOLDOWN: real := 31536000.0
  const MAX_OPEN_COUNT: nat := 63

  type Revision = n: int | 0 < n witness 1

  datatype BreakerState =
    | Unknown
    | Closed
    | OpenTemporary
    | HalfOpen
    | OpenActionRequired
    | Disabled

  datatype Signal = Business | Probe

  datatype Category =
    | AuthRejected
    | NetworkError
    | ProtocolError
    | ProtocolOrLocalError
    | RateLimited
    | Upstream5xx
    | UpstreamHttpError
    | UpstreamTimeout
    | UpstreamTransportError

  datatype BreakerError =
    | CommitUncertain
    | SaveRejected
    | CounterExhausted
    | RngInvalid
    | RetryAfterInvalid
    | HttpStatusInvalid
    | LeaseInvalid
    | RegistrationInvalid
    | RevisionRegressed
    | FingerprintChanged
    | ConfigurationChanged
    | PinInvalid
    | VersionStale
    | PinUnderflow
    | AttemptsActive
    | DocumentInvalid

  datatype Result<+T> = Ok(value: T) | Err(error: BreakerError) {
    predicate IsFailure() { Err? }
    function PropagateFailure<U>(): Result<U> requires Err? { Err(error) }
    function Extract(): T requires Ok? { value }
  }

  datatype PolicyFields = PolicyFields(
    failureThreshold: int,
    protocolThreshold: int,
    errorRate: Option<real>,
    minimumSamples: int,
    windowSize: int,
    recoveryThreshold: int,
    baseCooldown: real,
    maxCooldown: real,
    jitterRatio: real)
  {
    predicate Valid() {
      && failureThreshold > 0
      && protocolThreshold > 0
      && 0 < windowSize <= 10_000
      && 0 < minimumSamples <= windowSize
      && (errorRate.Some? ==> 0.0 < errorRate.value <= 1.0)
      && recoveryThreshold > 0
      && 0.0 < baseCooldown <= maxCooldown <= MAX_COOLDOWN
      && 0.0 <= jitterRatio <= 1.0
    }
  }

  type Policy = p: PolicyFields | p.Valid()
    witness PolicyFields(3, 3, Some(0.5), 10, 20, 2, 30.0, 300.0, 0.1)

  /** `_RouteRuntime`; its key, revision and fingerprint are the key it is filed under. */
  datatype Runtime = Runtime(
    policy: Policy,
    enabled: bool,
    state: BreakerState,
    epoch: nat,
    failures: nat,
    protocolFailures: nat,
    successes: nat,
    outcomes: seq<bool>,
    openCount: nat,
    openUntil: Option<real>,
    firstFailedAt: Option<real>,
    lastFailedAt: Option<real>,
    lastSucceededAt: Option<real>,
    lastCategory: Option<Category>,
    lastStatus: Option<int>,
    actionRequired: bool,
    leaseId: Option<nat>)

  predicate ValidStatus(status: Option<int>) {
    status.Some? ==> 100 <= status.value <= 599
  }

  /** What every runtime filed in the registry satisfies. */
  predicate RouteOk(rt: Runtime) {
    && rt.epoch >= 1
    && |rt.outcomes| <= rt.policy.windowSize
    && (rt.enabled <==> rt.state != Disabled)
    && (rt.actionRequired ==> rt.state in {OpenActionRequired, HalfOpen} && rt.openUntil == None)
    && (rt.state == OpenActionRequired ==> rt.actionRequired)
    && (rt.state == OpenTemporary ==> rt.openUntil.Some?)
    && ValidStatus(rt.lastStatus)
  }

  /** UNKNOWN and HALF_OPEN admit a single guarded probe at a time. */
  predicate Guarded(s: BreakerState) {
    s == Unknown || s == HalfOpen
  }

  function CountTrue(s: seq<bool>): nat {
    if s == [] then 0 else (if s[0] then 1 else 0) + CountTrue(s[1..])
  }

  // ---------------------------------------------------------------- transitions

  /** `_transition_locked`: a change of state raises the epoch and frees the lease. */
  function Transition(rt: Runtime, s: BreakerState): Result<Runtime> {
    if rt.state == s then Ok(rt)
    else if rt.epoch < MAX_COUNTER then Ok(rt.(state := s, epoch := rt.epoch + 1, leaseId := None))
    else Err(CounterExhausted)
  }

  /** x * 2^k, written as k doublings. */
  function Doubled(x: real, k: nat): real {
    if k == 0 then x else 2.0 * Doubled(x, k - 1)
  }

  /** The floor of the cooldown set by the n-th consecutive temporary open. */
  function Backoff(p: Policy, n: nat): real
    requires n >= 1
  {
    RealMin(Doubled(p.baseCooldown, Min(n - 1, 62)), p.maxCooldown)
  }

  function Cooldown(p: Policy, n: nat, fraction: real, retryAfter: Option<real>): real
    requires n >= 1
  {
    var backoff := Backoff(p, n);
    var jitter := backoff * p.jitterRatio * fraction;
    var cooldown := RealMin(backoff + jitter, p.maxCooldown);
    if retryAfter.None? then cooldown
    else RealMin(RealMax(cooldown, retryAfter.value), p.maxCooldown)
  }

  function NextOpenCount(n: nat): nat {
    Min(n + 1, MAX_OPEN_COUNT)
  }

  /** `_open_temporary_locked`. */
  function OpenTemporarily(rt: Runtime, now: real, fraction: real, retryAfter: Option<real>): Result<Runtime> {
    var n := NextOpenCount(rt.openCount);
    if !(0.0 <= fraction <= 1.0) then Err(RngInvalid)
    else if retryAfter.Some? && retryAfter.value <= 0.0 then Err(RetryAfterInvalid)
    else
      Transition(
        rt.(openCount := n, openUntil := Some(now + Cooldown(rt.policy, n, fraction, retryAfter))),
        OpenTemporary)
  }

  function RequireAction(rt: Runtime): Result<Runtime> {
    Transition(rt.(actionRequired := true, openUntil := None), OpenActionRequired)
  }

  function Close(rt: Runtime): Result<Runtime> {
    var closed :- Transition(rt, Closed);
    Ok(closed.(openCount := 0, openUntil := None, actionRequired := false))
  }

  // --------------------------------------------------------------- observations

  function CountSuccess(rt: Runtime): nat {
    Min(rt.successes + 1, rt.policy.recoveryThreshold)
  }

  /** `record_success` on the runtime whose ticket has just been consumed. */
  function OnSuccess(rt: Runtime, signal: Signal, now: real): Result<Runtime> {
    if signal == Probe then OnProbeSuccess(rt, now) else OnBusinessSuccess(rt, now)
  }

  function OnProbeSuccess(rt: Runtime, now: real): Result<Runtime> {
    if rt.state == Unknown then
      Close(rt.(lastSucceededAt := Some(now)))
    else if rt.state == HalfOpen then
      var counted := rt.(successes := CountSuccess(rt), lastSucceededAt := Some(now));
      if counted.successes >= rt.policy.recoveryThreshold then Close(counted) else Ok(counted)
    else
      Ok(rt)
  }

  function OnBusinessSuccess(rt: Runtime, now: real): Result<Runtime> {
    var counted := rt.(
      outcomes := Last(rt.policy.windowSize, rt.outcomes + [false]),
      failures := 0,
      protocolFailures := 0,
      successes := CountSuccess(rt),
      lastSucceededAt := Some(now));
    if rt.state == Unknown then
      var closed :- Transition(counted, Closed);
      Ok(closed.(openCount := 0, actionRequired := false))
    else if rt.state == HalfOpen && counted.successes >= rt.policy.recoveryThreshold then
      Close(counted.(outcomes := Last(rt.policy.windowSize, seq(counted.successes, _ => false))))
    else
      Ok(counted)
  }

  /** The arguments of `_record_failure`. */
  datatype Failure = Failure(
    category: Category,
    status: Option<int>,
    immediateOpen: bool,
    retryAfter: Option<real>,
    actionRequired: bool,
    protocol: bool)

  function Note(rt: Runtime, f: Failure, now: real): Runtime {
    rt.(successes := 0,
        firstFailedAt := Some(rt.firstFailedAt.Or(now)),
        lastFailedAt := Some(now),
        lastCategory := Some(f.category),
        lastStatus := f.status)
  }

  function OnFailure(rt: Runtime, signal: Signal, f: Failure, now: real, fraction: real): Result<Runtime> {
    if signal == Probe then OnProbeFailure(Note(rt, f, now), f, now, fraction)
    else OnBusinessFailure(Note(rt, f, now), f, now, fraction)
  }

  function OnProbeFailure(rt: Runtime, f: Failure, now: real, fraction: real): Result<Runtime> {
    if f.actionRequired || (rt.state == HalfOpen && rt.actionRequired) then RequireAction(rt)
    else if Guarded(rt.state) then OpenTemporarily(rt, now, fraction, f.retryAfter)
    else Ok(rt)
  }

  predicate ErrorRateOpens(rt: Runtime) {
    && rt.policy.errorRate.Some?
    && |rt.outcomes| >= rt.policy.minimumSamples
    && CountTrue(rt.outcomes) as real / |rt.outcomes| as real >= rt.policy.errorRate.value
  }

  function OnBusinessFailure(rt: Runtime, f: Failure, now: real, fraction: real): Result<Runtime> {
    var counted := rt.(
      outcomes := Last(rt.policy.windowSize, rt.outcomes + [true]),
      failures := rt.failures + 1,
      protocolFailures := if f.protocol then rt.protocolFailures + 1 else 0);
    if f.actionRequired || (rt.state == HalfOpen && rt.actionRequired) then
      RequireAction(counted)
    else if || f.immediateOpen
            || rt.state == HalfOpen
            || counted.failures >= rt.policy.failureThreshold
            || ErrorRateOpens(counted)
    then OpenTemporarily(counted, now, fraction, f.retryAfter)
    else Ok(counted)
  }

  /** `record_cancelled`: only an action-required probe changes state. */
  function OnCancel(rt: Runtime): Result<Runtime> {
    if rt.state == HalfOpen && rt.actionRequired then Transition(rt, OpenActionRequired) else Ok(rt)
  }

  // -------------------------------------------------------------- configuration

  function FreshRuntime(policy: Policy, enabled: bool): (rt: Runtime)
    ensures RouteOk(rt) && rt.policy == policy && rt.enabled == enabled
  {
    Runtime(policy, enabled, if enabled then Unknown else Disabled, 1, 0, 0, 0, [], 0,
            None, None, None, None, None, None, false, None)
  }

  /** The clone of the current version that a higher revision installs. */
  function Reconfigured(rt: Runtime, sameRoute: bool, policy: Policy, enabled: bool): (r: Result<Runtime>)
    ensures r.Ok? && RouteOk(rt) ==> RouteOk(r.value)
    ensures r.Ok? ==> r.value.policy == policy && r.value.enabled == enabled
    ensures r.Ok? ==> r.value.epoch == rt.epoch + 1 && r.value.leaseId == None
    ensures r.Ok? && !sameRoute ==> r.value == FreshRuntime(policy, enabled).(epoch := rt.epoch + 1)
  {
    if rt.epoch >= MAX_COUNTER then Err(CounterExhausted)
    else if sameRoute then
      var next := rt.(policy := policy, enabled := enabled, epoch := rt.epoch + 1, leaseId := None,
                      outcomes := Last(policy.windowSize, rt.outcomes));
      Ok(if !enabled then next.(state := Disabled, openUntil := None, actionRequired := false)
         else if !rt.enabled then next.(state := Unknown, openUntil := None, actionRequired := false)
         else next)
    else
      Ok(FreshRuntime(policy, enabled).(epoch := rt.epoch + 1))
  }

  // ----------------------------------------------- what an observation preserves

  /** A step either keeps state and epoch, or changes the state, raises the epoch and frees the lease. */
  predicate Moves(rt: Runtime, rt': Runtime) {
    && rt'.policy == rt.policy
    && rt'.enabled == rt.enabled
    && (if rt'.state == rt.state then rt'.epoch == rt.epoch && rt'.leaseId == rt.leaseId
        else rt'.epoch == rt.epoch + 1 && rt'.leaseId == None)
  }

  /** Tickets exist only in these states. */
  predicate Ticketable(s: BreakerState) {
    s == Closed || Guarded(s)
  }

  lemma SuccessKeepsRouteOk(rt: Runtime, signal: Signal, now: real)
    requires RouteOk(rt) && Ticketable(rt.state) && OnSuccess(rt, signal, now).Ok?
    ensures RouteOk(OnSuccess(rt, signal, now).value) && Moves(rt, OnSuccess(rt, signal, now).value)
  {
    hide RouteOk, Moves;
    if signal == Probe {
      ProbeSuccessKeepsRouteOk(rt, now);
    } else {
      BusinessSuccessKeepsRouteOk(rt, now);
    }
  }

  lemma ProbeSuccessKeepsRouteOk(rt: Runtime, now: real)
    requires RouteOk(rt) && Ticketable(rt.state) && OnProbeSuccess(rt, now).Ok?
    ensures RouteOk(OnProbeSuccess(rt, now).value) && Moves(rt, OnProbeSuccess(rt, now).value)
  {
  }

  lemma BusinessSuccessKeepsRouteOk(rt: Runtime, now: real)
    requires RouteOk(rt) && Ticketable(rt.state) && OnBusinessSuccess(rt, now).Ok?
    ensures RouteOk(OnBusinessSuccess(rt, now).value) && Moves(rt, OnBusinessSuccess(rt, now).value)
  {
  }

  lemma FailureKeepsRouteOk(rt: Runtime, signal: Signal, f: Failure, now: real, fraction: real)
    requires RouteOk(rt) && Ticketable(rt.state) && ValidStatus(f.status)
    requires OnFailure(rt, signal, f, now, fraction).Ok?
    ensures RouteOk(OnFailure(rt, signal, f, now, fraction).value)
    ensures Moves(rt, OnFailure(rt, signal, f, now, fraction).value)
  {
    var noted := Note(rt, f, now);
    hide RouteOk;
    assert RouteOk(noted) by { NoteKeepsRouteOk(rt, f, now); }
    if signal == Probe {
      ProbeFailureKeepsRouteOk(noted, f, now, fraction);
    } else {
      BusinessFailureKeepsRouteOk(noted, f, now, fraction);
    }
  }

  lemma NoteKeepsRouteOk(rt: Runtime, f: Failure, now: real)
    requires RouteOk(rt) && ValidStatus(f.status)
    ensures RouteOk(Note(rt, f, now))
  {
  }

  lemma ProbeFailureKeepsRouteOk(rt: Runtime, f: Failure, now: real, fraction: real)
    requires RouteOk(rt) && Ticketable(rt.state) && OnProbeFailure(rt, f, now, fraction).Ok?
    ensures RouteOk(OnProbeFailure(rt, f, now, fraction).value) && Moves(rt, OnProbeFailure(rt, f, now, fraction).value)
  {
    hide Cooldown;
  }

  lemma BusinessFailureKeepsRouteOk(rt: Runtime, f: Failure, now: real, fraction: real)
    requires RouteOk(rt) && Ticketable(rt.state) && OnBusinessFailure(rt, f, now, fraction).Ok?
    ensures RouteOk(OnBusinessFailure(rt, f, now, fraction).value)
    ensures Moves(rt, OnBusinessFailure(rt, f, now, fraction).value)
  {
    hide Cooldown, ErrorRateOpens;
  }

  lemma CancelKeepsRouteOk(rt: Runtime)
    requires RouteOk(rt) && OnCancel(rt).Ok?
    ensures RouteOk(OnCancel(rt).value) && Moves(rt, OnCancel(rt).value)
  {
  }

  // ------------------------------------------------------------------- cooldown

  lemma {:induction false} DoubledMonotone(x: real, m: nat, n: nat)
    requires x > 0.0 && m <= n
    ensures x <= Doubled(x, m) <= Doubled(x, n)
    decreases n
  {
    if m < n {
      DoubledMonotone(x, m, n - 1);
    } else if n > 0 {
      DoubledMonotone(x, n - 1, n - 1);
    }
  }

  /** The backoff floor lies in [base, max] and never falls as opens accumulate. */
  lemma BackoffMonotone(p: Policy, m: nat, n: nat)
    requires 1 <= m <= n
    ensures p.baseCooldown <= Backoff(p, m) <= Backoff(p, n) <= p.maxCooldown
  {
    DoubledMonotone(p.baseCooldown, Min(m - 1, 62), Min(n - 1, 62));
  }

  /** The exponent saturates: every open from the 63rd on has the same floor. */
  lemma BackoffSaturates(p: Policy, n: nat)
    requires n >= MAX_OPEN_COUNT
    ensures Backoff(p, n) == Backoff(p, MAX_OPEN_COUNT)
  {
  }

  lemma ProductNonnegative(x: real, y: real)
    requires x >= 0.0 && y >= 0.0
    ensures x * y >= 0.0
  {
  }

  lemma CooldownBounds(p: Policy, n: nat, fraction: real, retryAfter: Option<real>)
    requires n >= 1 && 0.0 <= fraction <= 1.0
    ensures p.baseCooldown <= Backoff(p, n) <= Cooldown(p, n, fraction, retryAfter) <= p.maxCooldown
    ensures retryAfter.Some? ==> Cooldown(p, n, fraction, retryAfter) >= RealMin(retryAfter.value, p.maxCooldown)
  {
    BackoffMonotone(p, n, n);
    ProductNonnegative(Backoff(p, n), p.jitterRatio);
    ProductNonnegative(Backoff(p, n) * p.jitterRatio, fraction);
  }

  /** Every temporary open: the cooldown it sets, the counter it raises, the state it enters. */
  lemma TemporaryOpenCooldown(rt: Runtime, now: real, fraction: real, retryAfter: Option<real>)
    requires OpenTemporarily(rt, now, fraction, retryAfter).Ok?
    ensures var r := OpenTemporarily(rt, now, fraction, retryAfter).value;
            && r.state == OpenTemporary
            && r.openCount >= 1
            && r.openUntil.Some?
            && rt.policy.baseCooldown <= Backoff(rt.policy, r.openCount) <= r.openUntil.value - now
            && r.openUntil.value - now <= rt.policy.maxCooldown
            && (retryAfter.Some? ==> r.openUntil.value - now >= RealMin(retryAfter.value, rt.policy.maxCooldown))
            && (rt.openCount >= 1 ==> Backoff(rt.policy, r.openCount) >= Backoff(rt.policy, rt.openCount))
  {
    var n := NextOpenCount(rt.openCount);
    CooldownBounds(rt.policy, n, fraction, retryAfter);
    if 1 <= rt.openCount <= n {
      BackoffMonotone(rt.policy, rt.openCount, n);
    } else if rt.openCount > n {
      BackoffSaturates(rt.policy, rt.openCount);
    }
  }
}
