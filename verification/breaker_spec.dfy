/**
 The state of the circuit-breaker registry as a value, and what each of its
 operations does to that state when it is looked at as one atomic step. The
 class in breaker_registry.dfy carries the steps out by mutation and rollback.
 */
module BreakerSpec {
  import opened Common
  import opened BreakerRoute
  import opened BreakerKeys

  datatype Ticket = Ticket(
    version: VersionKey,
    epoch: nat,
    lease: nat,
    attempt: string,
    guarded: bool,
    signal: Signal)

  datatype ActiveKey = ActiveKey(version: VersionKey, attempt: string)

  function KeyOf(t: Ticket): ActiveKey { ActiveKey(t.version, t.attempt) }

  datatype Denial =
    | UnknownRoute
    | StaleConfiguration
    | RouteDisabled
    | RouteOpenTemporary
    | RouteOpenActionRequired
    | HalfOpenBusy
    | AttemptAlreadyActive

  datatype Admission =
    | Allowed(state: BreakerState, ticket: Ticket)
    | Denied(state: BreakerState, reason: Denial, retryAt: Option<real>)

  datatype Observation = Applied | Ignored

  datatype Reason =
    | BusinessFailed
    | BusinessSucceeded
    | ConfigurationDisabled
    | ConfigurationEnabled
    | ConfigurationReplaced
    | CooldownElapsed
    | ManualProbeStarted
    | ProbeCancelled
    | ProbeFailed
    | ProbeSucceeded
    | StateRestored

  datatype Event = Event(version: VersionKey, epoch: nat, oldState: BreakerState, newState: BreakerState, reason: Reason)

  datatype Registration = Registration(key: RouteKey, version: Version, policy: Policy, enabled: bool)

  datatype RetireScope = RetireNone | RetireGroup | RetireInstance

  /** How the attached store answers one `save`. */
  datatype SaveOutcome = Saved | Rejected | Uncertain(written: bool)

  /** One route of an exported document; field types are those a validated JSON value has. */
  datatype RouteDoc = RouteDoc(
    key: RouteKey,
    revision: int,
    fingerprint: string,
    enabled: bool,
    state: BreakerState,
    epoch: int,
    failures: int,
    protocolFailures: int,
    successes: int,
    outcomes: seq<bool>,
    openCount: int,
    openUntil: Option<real>,
    firstFailedAt: Option<real>,
    lastFailedAt: Option<real>,
    lastSucceededAt: Option<real>,
    lastCategory: Option<Category>,
    lastStatus: Option<int>,
    actionRequired: bool)

  datatype Document = Document(schema: int, routes: seq<RouteDoc>)

  datatype Reg = Reg(
    routes: map<VersionKey, Runtime>,
    current: map<RouteKey, Version>,
    active: map<ActiveKey, Ticket>,
    pins: map<VersionKey, nat>,
    leaseSeq: nat,
    attached: bool,
    disk: Option<Document>,
    uncertain: bool,
    log: seq<Event>,
    capacity: nat)
  {
    /** Every current version is filed. */
    predicate WellKeyed() {
      forall k <- current :: VersionKey(k, current[k]) in routes
    }

    predicate IsCurrent(v: VersionKey) {
      v.key in current && current[v.key] == v.version
    }

    predicate Ticketed(v: VersionKey) {
      exists a <- active :: a.version == v
    }

    predicate Needed(v: VersionKey) {
      IsCurrent(v) || v in pins || Ticketed(v)
    }

    predicate GuardedLeaseActive(key: RouteKey, fingerprint: string) {
      exists a <- active ::
        active[a].guarded && active[a].version.key == key && active[a].version.version.fingerprint == fingerprint
    }
  }

  const EMPTY: Reg := Reg(map[], map[], map[], map[], 0, false, None, false, [], 1024)

  predicate SameStore(a: Reg, b: Reg) {
    a.attached == b.attached && a.uncertain == b.uncertain && a.disk == b.disk
  }

  datatype Outcome<T> = Outcome(reg: Reg, result: Result<T>)

  // -------------------------------------------------------------------- helpers

  function Without(active: map<ActiveKey, Ticket>, v: VersionKey): map<ActiveKey, Ticket> {
    map a | a in active && a.version != v :: active[a]
  }

  function ToDoc(v: VersionKey, rt: Runtime): RouteDoc {
    RouteDoc(v.key, v.version.revision, v.version.fingerprint, rt.enabled, rt.state, rt.epoch, rt.failures,
             rt.protocolFailures, rt.successes, rt.outcomes, rt.openCount, rt.openUntil, rt.firstFailedAt,
             rt.lastFailedAt, rt.lastSucceededAt, rt.lastCategory, rt.lastStatus, rt.actionRequired)
  }

  function CurrentDoc(reg: Reg, k: RouteKey): RouteDoc
    requires reg.WellKeyed() && k in reg.current
  {
    var v := VersionKey(k, reg.current[k]);
    ToDoc(v, reg.routes[v])
  }

  /** `_export_state_locked`. */
  function Export(reg: Reg): Document
    requires reg.WellKeyed()
  {
    var keys := SortedKeys(reg.current.Keys);
    Document(2, seq(|keys|, i requires 0 <= i < |keys| => CurrentDoc(reg, keys[i])))
  }

  function Logged(reg: Reg, v: VersionKey, was: BreakerState, rt: Runtime, reason: Reason): seq<Event> {
    if was == rt.state then reg.log
    else Last(reg.capacity, reg.log + [Event(v, rt.epoch, was, rt.state, reason)])
  }

  /** `_persist_locked` followed by success, or by the caller's rollback to `reg`. */
  function Commit<T>(reg: Reg, next: Reg, value: T, save: SaveOutcome): Outcome<T>
    requires next.WellKeyed()
  {
    if reg.uncertain then Outcome(reg, Err(CommitUncertain))
    else if !reg.attached then Outcome(next, Ok(value))
    else match save
      case Saved => Outcome(next.(disk := Some(Export(next))), Ok(value))
      case Rejected => Outcome(reg, Err(SaveRejected))
      case Uncertain(written) =>
        Outcome(reg.(uncertain := true, disk := if written then Some(Export(next)) else reg.disk),
                Err(CommitUncertain))
  }

  /** `_prune_version_locked`. */
  function Prune(reg: Reg, v: VersionKey): (r: Reg)
    ensures (reg.WellKeyed() ==> r.WellKeyed()) && SameStore(reg, r)
  {
    if reg.Needed(v) then reg else reg.(routes := reg.routes - {v})
  }

  /** `_prune_noncurrent_versions_locked`. */
  function PruneKey(reg: Reg, key: RouteKey): (r: Reg)
    ensures (reg.WellKeyed() ==> r.WellKeyed()) && SameStore(reg, r)
  {
    reg.(routes := map v | v in reg.routes && (v.key != key || reg.Needed(v)) :: reg.routes[v])
  }

  // -------------------------------------------------------------- configuration

  function ConfigurationReason(was: BreakerState, rt: Runtime): Reason {
    if rt.state == Disabled then ConfigurationDisabled
    else if was == Disabled then ConfigurationEnabled
    else ConfigurationReplaced
  }

  /** The version `configure_route` installs, or the current one when nothing is new. */
  function Installed(reg: Reg, r: Registration): (res: Result<Reg>)
    requires reg.WellKeyed()
    ensures res.Ok? ==> res.value.WellKeyed() && SameStore(reg, res.value)
  {
    var v := VersionKey(r.key, r.version);
    if r.key !in reg.current then
      Ok(reg.(routes := reg.routes[v := FreshRuntime(r.policy, r.enabled)],
              current := reg.current[r.key := r.version]))
    else
      var cur := reg.current[r.key];
      var rt := reg.routes[VersionKey(r.key, cur)];
      if r.version.revision < cur.revision then Err(RevisionRegressed)
      else if r.version.revision == cur.revision && r.version.fingerprint != cur.fingerprint then
        Err(FingerprintChanged)
      else if r.version.revision == cur.revision then
        if r.policy != rt.policy || r.enabled != rt.enabled then Err(ConfigurationChanged) else Ok(reg)
      else
        var next :- Reconfigured(rt, r.version.fingerprint == cur.fingerprint, r.policy, r.enabled);
        Ok(reg.(routes := reg.routes[v := next],
                current := reg.current[r.key := r.version],
                log := Logged(reg, v, rt.state, next, ConfigurationReason(rt.state, next))))
  }

  /** `configure_route` without the save. */
  function Configured(reg: Reg, r: Registration): (res: Result<Reg>)
    requires reg.WellKeyed()
    ensures res.Ok? ==> res.value.WellKeyed() && SameStore(reg, res.value)
  {
    var next :- Installed(reg, r);
    Ok(PruneKey(next, r.key))
  }

  function ConfigureRoute(reg: Reg, r: Registration, save: SaveOutcome): (o: Outcome<()>)
    requires reg.WellKeyed()
    ensures o.reg.WellKeyed()
  {
    match Configured(reg, r)
    case Err(e) => Outcome(reg, Err(e))
    case Ok(next) => Commit(reg, next, (), save)
  }

  /** The registrations of one `configure_routes` call, in order, with the store detached. */
  function ConfiguredAll(reg: Reg, rs: seq<Registration>): (res: Result<Reg>)
    requires reg.WellKeyed()
    ensures res.Ok? ==> res.value.WellKeyed() && SameStore(reg, res.value)
    decreases |rs|
  {
    if rs == [] then Ok(reg)
    else
      var next :- Configured(reg, rs[0]);
      if reg.uncertain then Err(CommitUncertain) else ConfiguredAll(next, rs[1..])
  }

  predicate Retires(scope: RetireScope, rs: seq<Registration>, k: RouteKey)
    requires rs != []
  {
    && scope != RetireNone
    && k.instanceId == rs[0].key.instanceId
    && (scope == RetireGroup ==> k.groupId == rs[0].key.groupId)
    && forall r <- rs :: r.key != k
  }

  /** `_retire_unregistered_group_routes_locked` / `..._instance_routes_locked`. */
  function Retired(reg: Reg, scope: RetireScope, rs: seq<Registration>): (r: Reg)
    requires rs != []
    ensures (reg.WellKeyed() ==> r.WellKeyed()) && SameStore(reg, r)
  {
    var next := reg.(current := map k | k in reg.current && !Retires(scope, rs, k) :: reg.current[k]);
    next.(routes := map v | v in reg.routes && (next.Needed(v) || !(v.key in reg.current && Retires(scope, rs, v.key)))
                    :: reg.routes[v])
  }

  predicate DistinctKeys(rs: seq<Registration>) {
    forall i, j :: 0 <= i < j < |rs| ==> rs[i].key != rs[j].key
  }

  function ConfigureRoutes(reg: Reg, rs: seq<Registration>, scope: RetireScope, save: SaveOutcome): (o: Outcome<()>)
    requires reg.WellKeyed()
    ensures o.reg.WellKeyed()
  {
    if rs == [] || !DistinctKeys(rs) then Outcome(reg, Err(RegistrationInvalid))
    else
      match ConfiguredAll(reg, rs)
      case Err(e) => Outcome(reg, Err(e))
      case Ok(next) => Commit(reg, Retired(next, scope, rs), (), save)
  }

  // ------------------------------------------------------------------ admission

  function NoSuchVersion(reg: Reg, key: RouteKey): Admission
    requires reg.WellKeyed()
  {
    if key !in reg.current then Denied(Unknown, UnknownRoute, None)
    else Denied(reg.routes[VersionKey(key, reg.current[key])].state, StaleConfiguration, None)
  }

  /** `_transition_and_persist_locked` into HALF_OPEN. */
  function EnterHalfOpen(reg: Reg, v: VersionKey, reason: Reason, save: SaveOutcome): (o: Outcome<()>)
    requires reg.WellKeyed() && v in reg.routes
    ensures o.reg.WellKeyed() && v in o.reg.routes
  {
    var rt := reg.routes[v];
    match Transition(rt, HalfOpen)
    case Err(e) => Outcome(reg, Err(e))
    case Ok(next) =>
      Commit(reg,
             reg.(routes := reg.routes[v := next],
                  active := if next.epoch == rt.epoch then reg.active else Without(reg.active, v),
                  log := Logged(reg, v, rt.state, next, reason)),
             (), save)
  }

  /** The second half of `acquire`, on a version that is not open. */
  function Grant(reg: Reg, v: VersionKey, attempt: string, manual: bool, signal: Signal, leaseOk: bool)
    : (o: Outcome<Admission>)
    requires reg.WellKeyed() && v in reg.routes
    ensures o.reg.WellKeyed()
  {
    var rt := reg.routes[v];
    if rt.state == HalfOpen && rt.actionRequired && !manual then
      Outcome(reg, Ok(Denied(rt.state, RouteOpenActionRequired, None)))
    else if Guarded(rt.state) && reg.GuardedLeaseActive(v.key, v.version.fingerprint) then
      Outcome(reg, Ok(Denied(rt.state, HalfOpenBusy, rt.openUntil)))
    else if !leaseOk then Outcome(reg, Err(LeaseInvalid))
    else if reg.leaseSeq >= MAX_COUNTER then Outcome(reg, Err(CounterExhausted))
    else
      var lease := reg.leaseSeq + 1;
      var ticket := Ticket(v, rt.epoch, lease, attempt, Guarded(rt.state), signal);
      Outcome(reg.(active := reg.active[ActiveKey(v, attempt) := ticket],
                   leaseSeq := lease,
                   routes := if Guarded(rt.state) then reg.routes[v := rt.(leaseId := Some(lease))] else reg.routes),
              Ok(Allowed(rt.state, ticket)))
  }

  predicate CoolingDown(rt: Runtime, now: real) {
    rt.openUntil.None? || now < rt.openUntil.value
  }

  function Acquire(reg: Reg, v: VersionKey, attempt: string, manual: bool, signal: Signal, now: real,
                   leaseOk: bool, save: SaveOutcome): (o: Outcome<Admission>)
    requires reg.WellKeyed()
    ensures o.reg.WellKeyed()
  {
    var signal := if manual then Probe else signal;
    if reg.uncertain then Outcome(reg, Err(CommitUncertain))
    else if v !in reg.routes then Outcome(reg, Ok(NoSuchVersion(reg, v.key)))
    else
      var rt := reg.routes[v];
      if ActiveKey(v, attempt) in reg.active then
        Outcome(reg, Ok(Denied(rt.state, AttemptAlreadyActive, None)))
      else if rt.state == Disabled || !rt.enabled then
        Outcome(reg, Ok(Denied(Disabled, RouteDisabled, None)))
      else if rt.state == OpenActionRequired && !manual then
        Outcome(reg, Ok(Denied(rt.state, RouteOpenActionRequired, None)))
      else if rt.state == OpenTemporary && CoolingDown(rt, now) then
        Outcome(reg, Ok(Denied(rt.state, RouteOpenTemporary, rt.openUntil)))
      else if rt.state == OpenActionRequired || rt.state == OpenTemporary then
        var entered := EnterHalfOpen(reg, v, if manual then ManualProbeStarted else CooldownElapsed, save);
        if entered.result.Err? then Outcome(entered.reg, Err(entered.result.error))
        else Grant(entered.reg, v, attempt, manual, signal, leaseOk)
      else
        Grant(reg, v, attempt, manual, signal, leaseOk)
  }

  /** What `preview_admission` answers; an allowed preview carries no ticket. */
  datatype Preview =
    | MayEnter(state: BreakerState)
    | Refused(state: BreakerState, reason: Denial, retryAt: Option<real>)

  function PreviewAdmission(reg: Reg, v: VersionKey, manual: bool, now: real): Result<Preview>
    requires reg.WellKeyed()
  {
    if reg.uncertain then Err(CommitUncertain)
    else if v !in reg.routes then
      var d := NoSuchVersion(reg, v.key);
      Ok(Refused(d.state, d.reason, d.retryAt))
    else
      var rt := reg.routes[v];
      if rt.state == Disabled || !rt.enabled then Ok(Refused(Disabled, RouteDisabled, None))
      else if rt.state == OpenActionRequired && !manual then Ok(Refused(rt.state, RouteOpenActionRequired, None))
      else if rt.state == OpenTemporary && CoolingDown(rt, now) then
        Ok(Refused(rt.state, RouteOpenTemporary, rt.openUntil))
      else
        var prospective := if rt.state == OpenActionRequired || rt.state == OpenTemporary then HalfOpen else rt.state;
        if prospective == HalfOpen && rt.actionRequired && !manual then
          Ok(Refused(prospective, RouteOpenActionRequired, None))
        else if Guarded(prospective) && reg.GuardedLeaseActive(v.key, v.version.fingerprint) then
          Ok(Refused(prospective, HalfOpenBusy, rt.openUntil))
        else Ok(MayEnter(prospective))
  }

  // --------------------------------------------------------------- observations

  /** `_matching_runtime_locked`. */
  predicate Matches(reg: Reg, t: Ticket) {
    && t.version in reg.routes
    && KeyOf(t) in reg.active
    && reg.active[KeyOf(t)] == t
    && reg.routes[t.version].epoch == t.epoch
    && (t.guarded ==> reg.routes[t.version].leaseId == Some(t.lease))
  }

  /** The matching runtime once its ticket's lease is returned. */
  function Freed(reg: Reg, t: Ticket): Runtime
    requires Matches(reg, t)
  {
    var rt := reg.routes[t.version];
    if rt.leaseId == Some(t.lease) then rt.(leaseId := None) else rt
  }

  /**
   `_begin_observation_locked`, then the observation `rt` filed where the version
   is still kept; a change of state also drops the version's other tickets.
   */
  function Observed(reg: Reg, t: Ticket, rt: Runtime, reason: Reason): (r: Reg)
    requires Matches(reg, t) && reg.WellKeyed()
    ensures r.WellKeyed() && SameStore(reg, r)
  {
    var v := t.version;
    var before := reg.routes[v];
    var begun := Prune(reg.(active := reg.active - {KeyOf(t)}), v);
    begun.(
      routes := if v in begun.routes then begun.routes[v := rt] else begun.routes,
      active := if rt.epoch == before.epoch then begun.active else Without(begun.active, v),
      log := Logged(reg, v, before.state, rt, reason))
  }

  function Observe(reg: Reg, t: Ticket, seen: Result<Runtime>, reason: Reason, save: SaveOutcome)
    : (o: Outcome<Observation>)
    requires Matches(reg, t) && reg.WellKeyed()
    ensures o.reg.WellKeyed()
  {
    match seen
    case Err(e) => Outcome(reg, Err(e))
    case Ok(rt) => Commit(reg, Observed(reg, t, rt, reason), Applied, save)
  }

  function RecordSuccess(reg: Reg, t: Ticket, now: real, save: SaveOutcome): (o: Outcome<Observation>)
    requires reg.WellKeyed()
    ensures o.reg.WellKeyed()
  {
    if !Matches(reg, t) then Outcome(reg, Ok(Ignored))
    else Observe(reg, t, OnSuccess(Freed(reg, t), t.signal, now),
                 if t.signal == Probe then ProbeSucceeded else BusinessSucceeded, save)
  }

  /** The public `record_*` failure calls. */
  datatype FailureKind = Temporary | RateLimit(retryAfter: Option<real>) | ActionRequired | Protocol

  function AsFailure(rt: Runtime, kind: FailureKind, category: Category, status: Option<int>): Failure {
    match kind
    case Temporary => Failure(category, status, false, None, false, false)
    case RateLimit(retryAfter) => Failure(category, status, true, retryAfter, false, false)
    case ActionRequired => Failure(category, status, true, None, true, false)
    case Protocol =>
      Failure(category, status, false, None, rt.protocolFailures + 1 >= rt.policy.protocolThreshold, true)
  }

  function RecordFailure(reg: Reg, t: Ticket, kind: FailureKind, category: Category, status: Option<int>,
                         now: real, fraction: real, save: SaveOutcome): (o: Outcome<Observation>)
    requires reg.WellKeyed()
    ensures o.reg.WellKeyed()
  {
    if kind.Protocol? && !Matches(reg, t) then Outcome(reg, Ok(Ignored))
    else if !ValidStatus(status) then Outcome(reg, Err(HttpStatusInvalid))
    else if !Matches(reg, t) then Outcome(reg, Ok(Ignored))
    else
      var rt := Freed(reg, t);
      Observe(reg, t, OnFailure(rt, t.signal, AsFailure(rt, kind, category, status), now, fraction),
              if t.signal == Probe then ProbeFailed else BusinessFailed, save)
  }

  function RecordCancelled(reg: Reg, t: Ticket, save: SaveOutcome): (o: Outcome<Observation>)
    requires reg.WellKeyed()
    ensures o.reg.WellKeyed()
  {
    if !Matches(reg, t) then Outcome(reg, Ok(Ignored))
    else
      var rt := Freed(reg, t);
      if rt.state == HalfOpen && rt.actionRequired then Observe(reg, t, OnCancel(rt), ProbeCancelled, save)
      else Outcome(Observed(reg, t, rt, ProbeCancelled), Ok(Applied))
  }

  function Abandon(reg: Reg, t: Ticket): (o: Outcome<Observation>)
    requires reg.WellKeyed()
    ensures o.reg.WellKeyed()
  {
    if !Matches(reg, t) then Outcome(reg, Ok(Ignored))
    else Outcome(Observed(reg, t, Freed(reg, t), ProbeCancelled), Ok(Applied))
  }

  // ----------------------------------------------------------------------- pins

  function PinCount(pins: map<VersionKey, nat>, v: VersionKey): nat {
    if v in pins then pins[v] else 0
  }

  predicate Distinct(vs: seq<VersionKey>) {
    forall i, j :: 0 <= i < j < |vs| ==> vs[i] != vs[j]
  }

  function PinnedAll(pins: map<VersionKey, nat>, vs: seq<VersionKey>): map<VersionKey, nat>
    decreases |vs|
  {
    if vs == [] then pins else PinnedAll(pins[vs[0] := PinCount(pins, vs[0]) + 1], vs[1..])
  }

  function Pin(reg: Reg, vs: seq<VersionKey>): (o: Outcome<()>)
    ensures reg.WellKeyed() ==> o.reg.WellKeyed()
  {
    if vs == [] || !Distinct(vs) then Outcome(reg, Err(PinInvalid))
    else if exists v <- vs :: v !in reg.routes then Outcome(reg, Err(VersionStale))
    else Outcome(reg.(pins := PinnedAll(reg.pins, vs)), Ok(()))
  }

  function Unpinned(reg: Reg, v: VersionKey): Reg {
    Prune(reg.(pins := if PinCount(reg.pins, v) <= 1 then reg.pins - {v} else reg.pins[v := reg.pins[v] - 1]), v)
  }

  /** `release_versions`: an underflow stops the loop and keeps the releases already made. */
  function Release(reg: Reg, vs: seq<VersionKey>): (o: Outcome<()>)
    ensures reg.WellKeyed() ==> o.reg.WellKeyed()
    decreases |vs|
  {
    if vs == [] then Outcome(reg, Ok(()))
    else if PinCount(reg.pins, vs[0]) == 0 then Outcome(reg, Err(PinUnderflow))
    else Release(Unpinned(reg, vs[0]), vs[1..])
  }

  // -------------------------------------------------------------------- restore

  const MAX_DOCUMENT_ROUTES: nat := 10_000

  predicate InRange(n: int, minimum: int) {
    minimum <= n <= MAX_COUNTER
  }

  predicate NumbersInRange(d: RouteDoc) {
    && InRange(d.epoch, 1)
    && InRange(d.failures, 0)
    && InRange(d.protocolFailures, 0)
    && InRange(d.successes, 0)
    && InRange(d.openCount, 0)
    && |d.outcomes| <= 10_000
    && ValidStatus(d.lastStatus)
  }

  /** The fields of a document route carried over unchanged. */
  function Carried(rt: Runtime, d: RouteDoc): Runtime
    requires NumbersInRange(d)
  {
    rt.(state := d.state,
        epoch := d.epoch,
        failures := d.failures,
        protocolFailures := d.protocolFailures,
        successes := d.successes,
        outcomes := Last(rt.policy.windowSize, d.outcomes),
        openCount := d.openCount,
        openUntil := d.openUntil,
        firstFailedAt := d.firstFailedAt,
        lastFailedAt := d.lastFailedAt,
        lastSucceededAt := d.lastSucceededAt,
        lastCategory := d.lastCategory,
        lastStatus := d.lastStatus,
        actionRequired := d.actionRequired,
        leaseId := None)
  }

  /** A restarted process owns no probe: HALF_OPEN goes back to an open state. */
  function Reopened(c: Runtime, now: real): Result<Runtime> {
    var floor := now + c.policy.baseCooldown;
    if !c.enabled then Ok(c.(state := Disabled))
    else if c.state == Disabled then Err(DocumentInvalid)
    else if c.state == HalfOpen then
      if c.epoch >= MAX_COUNTER then Err(CounterExhausted)
      else if c.actionRequired then Ok(c.(state := OpenActionRequired, epoch := c.epoch + 1, openUntil := None))
      else Ok(c.(state := OpenTemporary, epoch := c.epoch + 1, openUntil := Some(RealMax(c.openUntil.Or(floor), floor))))
    else if c.state == OpenTemporary && c.openUntil.None? then Ok(c.(openUntil := Some(floor)))
    else Ok(c)
  }

  /** One iteration of `_restore_locked` on the runtime that a document route names. */
  function RestoredRoute(rt: Runtime, d: RouteDoc, now: real): (r: Result<Runtime>)
    ensures r.Ok? ==> RouteOk(r.value) && r.value.policy == rt.policy && r.value.leaseId == None
    requires d.enabled == rt.enabled
  {
    if !NumbersInRange(d) then Err(DocumentInvalid)
    else
      var reopened :- Reopened(Carried(rt, d), now);
      if reopened.state == OpenActionRequired then Ok(reopened.(actionRequired := true, openUntil := None))
      else if reopened.actionRequired then Err(DocumentInvalid)
      else Ok(reopened)
  }

  predicate Describes(d: RouteDoc, version: Version, rt: Runtime) {
    d.revision == version.revision && d.fingerprint == version.fingerprint && d.enabled == rt.enabled
  }

  datatype Restoration = Restoration(reg: Reg, count: nat)

  /** `_restore_locked` from one document route on. */
  function RestoreRoutes(reg: Reg, docs: seq<RouteDoc>, seen: set<RouteKey>, now: real, count: nat)
    : (r: Result<Restoration>)
    requires reg.WellKeyed()
    ensures r.Ok? ==> r.value.reg.WellKeyed() && SameStore(reg, r.value.reg)
    decreases |docs|
  {
    if docs == [] then Ok(Restoration(reg, count))
    else
      var d := docs[0];
      if d.key in seen then Err(DocumentInvalid)
      else if d.key !in reg.current then RestoreRoutes(reg, docs[1..], seen + {d.key}, now, count)
      else
        var v := VersionKey(d.key, reg.current[d.key]);
        var rt := reg.routes[v];
        if !InRange(d.revision, 1) then Err(DocumentInvalid)
        else if !Describes(d, v.version, rt) then RestoreRoutes(reg, docs[1..], seen + {d.key}, now, count)
        else
          var next :- RestoredRoute(rt, d, now);
          RestoreRoutes(reg.(routes := reg.routes[v := next], log := Logged(reg, v, rt.state, next, StateRestored)),
                        docs[1..], seen + {d.key}, now, count + 1)
  }

  predicate ValidShape(doc: Document) {
    && doc.schema in {1, 2}
    && |doc.routes| <= MAX_DOCUMENT_ROUTES
    && (doc.schema == 1 ==> forall d <- doc.routes :: d.lastStatus == None)
  }

  function RestoreDocument(reg: Reg, doc: Document, now: real): (r: Result<Restoration>)
    requires reg.WellKeyed()
    ensures r.Ok? ==> r.value.reg.WellKeyed() && SameStore(reg, r.value.reg)
  {
    if !ValidShape(doc) then Err(DocumentInvalid) else RestoreRoutes(reg, doc.routes, {}, now, 0)
  }

  function Restore(reg: Reg, doc: Document, now: real, save: SaveOutcome): (o: Outcome<nat>)
    requires reg.WellKeyed()
    ensures o.reg.WellKeyed()
  {
    if reg.active != map[] then Outcome(reg, Err(AttemptsActive))
    else
      match RestoreDocument(reg, doc, now)
      case Err(e) => Outcome(reg, Err(e))
      case Ok(res) => Commit(reg, res.reg, res.count, save)
  }

  /** A `save` made directly on a store, outside `_persist_locked`: the registry latches nothing. */
  function SaveAndAttach<T>(reg: Reg, next: Reg, value: T, save: SaveOutcome): (o: Outcome<T>)
    requires reg.WellKeyed() && next.WellKeyed()
    ensures o.reg.WellKeyed()
  {
    match save
    case Saved => Outcome(next.(disk := Some(Export(next)), attached := true), Ok(value))
    case Rejected => Outcome(reg, Err(SaveRejected))
    case Uncertain(written) =>
      Outcome(reg.(disk := if written then Some(Export(next)) else reg.disk), Err(CommitUncertain))
  }

  function AttachStore(reg: Reg, save: SaveOutcome): (o: Outcome<()>)
    requires reg.WellKeyed()
    ensures o.reg.WellKeyed()
  {
    if reg.uncertain then Outcome(reg, Err(CommitUncertain)) else SaveAndAttach(reg, reg, (), save)
  }

  function RestoreFromStore(reg: Reg, now: real, save: SaveOutcome): (o: Outcome<nat>)
    requires reg.WellKeyed()
    ensures o.reg.WellKeyed()
  {
    if reg.uncertain then Outcome(reg, Err(CommitUncertain))
    else if reg.active != map[] then Outcome(reg, Err(AttemptsActive))
    else if reg.disk.None? then SaveAndAttach(reg, reg, 0, save)
    else
      match RestoreDocument(reg, reg.disk.value, now)
      case Err(e) => Outcome(reg, Err(e))
      case Ok(res) => SaveAndAttach(reg, res.reg, res.count, save)
  }

  // ---------------------------------------------------------------------- steps

  datatype Op =
    | OpConfigureRoute(registration: Registration, save: SaveOutcome)
    | OpConfigureRoutes(registrations: seq<Registration>, scope: RetireScope, save: SaveOutcome)
    | OpAcquire(version: VersionKey, attempt: string, manual: bool, signal: Signal, now: real, leaseOk: bool,
                save: SaveOutcome)
    | OpSuccess(ticket: Ticket, now: real, save: SaveOutcome)
    | OpFailure(ticket: Ticket, kind: FailureKind, category: Category, status: Option<int>, now: real,
                fraction: real, save: SaveOutcome)
    | OpCancel(ticket: Ticket, save: SaveOutcome)
    | OpAbandon(ticket: Ticket)
    | OpPin(versions: seq<VersionKey>)
    | OpRelease(versions: seq<VersionKey>)
    | OpRestore(document: Document, now: real, save: SaveOutcome)
    | OpAttach(save: SaveOutcome)
    | OpRestoreFromStore(now: real, save: SaveOutcome)

  datatype Reply =
    | Granted(admission: Admission)
    | Seen(observation: Observation)
    | Done
    | Failed(error: BreakerError)

  datatype Step = Step(reg: Reg, reply: Reply)

  function Plain<T>(o: Outcome<T>): Step {
    Step(o.reg, if o.result.Ok? then Done else Failed(o.result.error))
  }

  function Observing(o: Outcome<Observation>): Step {
    Step(o.reg, if o.result.Ok? then Seen(o.result.value) else Failed(o.result.error))
  }

  function Admitting(o: Outcome<Admission>): Step {
    Step(o.reg, if o.result.Ok? then Granted(o.result.value) else Failed(o.result.error))
  }

  function Next(reg: Reg, op: Op): (s: Step)
    requires reg.WellKeyed()
    ensures s.reg.WellKeyed()
  {
    match op
    case OpConfigureRoute(r, save) => Plain(ConfigureRoute(reg, r, save))
    case OpConfigureRoutes(rs, scope, save) => Plain(ConfigureRoutes(reg, rs, scope, save))
    case OpAcquire(v, attempt, manual, signal, now, leaseOk, save) =>
      Admitting(Acquire(reg, v, attempt, manual, signal, now, leaseOk, save))
    case OpSuccess(t, now, save) => Observing(RecordSuccess(reg, t, now, save))
    case OpFailure(t, kind, category, status, now, fraction, save) =>
      Observing(RecordFailure(reg, t, kind, category, status, now, fraction, save))
    case OpCancel(t, save) => Observing(RecordCancelled(reg, t, save))
    case OpAbandon(t) => Observing(Abandon(reg, t))
    case OpPin(vs) => Plain(Pin(reg, vs))
    case OpRelease(vs) => Plain(Release(reg, vs))
    case OpRestore(doc, now, save) => Plain(Restore(reg, doc, now, save))
    case OpAttach(save) => Plain(AttachStore(reg, save))
    case OpRestoreFromStore(now, save) => Plain(RestoreFromStore(reg, now, save))
  }

  /** The registration would file a version: its key has none, or one of a lower revision. */
  predicate Installs(reg: Reg, r: Registration) {
    r.key in reg.current ==> reg.current[r.key].revision < r.version.revision
  }

  /**
   What callers guarantee: a version that would be installed is not filed already. Revisions of
   activated configurations strictly rise, so a retained version never comes back.
   */
  predicate FreshVersion(reg: Reg, r: Registration) {
    Installs(reg, r) ==> VersionKey(r.key, r.version) !in reg.routes
  }

  predicate Permitted(reg: Reg, op: Op) {
    match op
    case OpConfigureRoute(r, _) => FreshVersion(reg, r)
    case OpConfigureRoutes(rs, _, _) => forall r <- rs :: FreshVersion(reg, r)
    case _ => true
  }
}
