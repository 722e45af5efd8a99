/**
 `CircuitBreakerRegistry` as the source runs it: fields mutated step by step, a
 save in the middle, and an explicit rollback when the save fails. Each method
 is proved to end in exactly the state of the atomic step in breaker_spec.dfy;
 in particular every rollback restores routes, current versions, tickets, pins
 and the transition log as they were.
 */
module BreakerRegistry {
  import opened Common
  import opened BreakerRoute
  import opened BreakerKeys
  import opened S = BreakerSpec
  import opened BreakerRestore

  /** A save made from `mid` settles the step from `start` to `last` when both export the same document. */
  lemma PersistIsCommit<T>(start: Reg, mid: Reg, last: Reg, value: T, save: SaveOutcome)
    requires mid.WellKeyed() && last.WellKeyed() && Export(mid) == Export(last)
    requires SameStore(start, mid) && SameStore(start, last)
    ensures var saved := S.Commit(mid, mid, (), save);
            S.Commit(start, last, value, save)
            == if saved.result.Ok? then Outcome(last.(disk := saved.reg.disk), Ok(value))
               else Outcome(start.(disk := saved.reg.disk, uncertain := saved.reg.uncertain), Err(saved.result.error))
  {
  }

  lemma PruneKeyExportsSame(mid: Reg, last: Reg, key: RouteKey)
    requires mid.WellKeyed() && last == PruneKey(mid, key).(log := last.log)
    ensures last.WellKeyed() && Export(mid) == Export(last)
  {
    forall k | k in mid.current ensures k in last.current && VersionKey(k, mid.current[k]) in last.routes
                                        && CurrentDoc(mid, k) == CurrentDoc(last, k) {
      assert mid.Needed(VersionKey(k, mid.current[k]));
    }
    ExportFrame(mid, last);
  }

  lemma LogExportsSame(mid: Reg, last: Reg)
    requires mid.WellKeyed() && last == mid.(log := last.log)
    ensures last.WellKeyed() && Export(mid) == Export(last)
  {
    assert forall k <- mid.current :: VersionKey(k, mid.current[k]) in last.routes;
    ExportFrame(mid, last);
  }

  lemma PruneKeyIs(before: Reg, routes: map<VersionKey, Runtime>, key: RouteKey)
    requires forall v <- routes :: v in before.routes && routes[v] == before.routes[v]
    requires forall v <- before.routes :: v in routes <==> v.key != key || before.Needed(v)
    ensures PruneKey(before, key) == before.(routes := routes)
  {
  }

  lemma NeededFrame(a: Reg, b: Reg, v: VersionKey)
    requires a == b.(routes := a.routes)
    ensures a.Needed(v) == b.Needed(v)
  {
  }

  function VersionsOf(routes: map<VersionKey, Runtime>, key: RouteKey): map<VersionKey, Runtime> {
    map v | v in routes && v.key == key :: routes[v]
  }

  function CurrentOf(current: map<RouteKey, Version>, key: RouteKey): Option<Version> {
    if key in current then Some(current[key]) else None
  }

  /** `_active_for_route_locked`. */
  function TicketsOf(active: map<ActiveKey, Ticket>, key: RouteKey): map<ActiveKey, Ticket> {
    map a | a in active && a.version.key == key :: active[a]
  }

  /** Tickets and runtimes differ from `start` at most in those of version `v`. */
  ghost predicate AgreeOffVersion(active: map<ActiveKey, Ticket>, routes: map<VersionKey, Runtime>, start: Reg, v: VersionKey) {
    && (forall a: ActiveKey :: a.version != v ==>
          (a in active <==> a in start.active) && (a in active ==> active[a] == start.active[a]))
    && (forall a <- active :: a in start.active && active[a] == start.active[a])
    && (forall w: VersionKey :: w != v ==>
          (w in routes <==> w in start.routes) && (w in routes ==> routes[w] == start.routes[w]))
  }

  lemma TicketsReturn(active: map<ActiveKey, Ticket>, before: map<ActiveKey, Ticket>, routes: map<VersionKey, Runtime>,
                      start: Reg, v: VersionKey)
    requires AgreeOffVersion(active, routes, start, v) && before == TicketsOf(start.active, v.key)
    ensures Without(active, v) + before == start.active
  {
    var left := Without(active, v);
    forall a: ActiveKey
      ensures a in left || a in before <==> a in start.active
      ensures a in left ==> a in start.active && left[a] == start.active[a]
    {
    }
  }

  lemma RuntimeReturns(active: map<ActiveKey, Ticket>, routes: map<VersionKey, Runtime>, start: Reg, v: VersionKey)
    requires AgreeOffVersion(active, routes, start, v) && v in start.routes
    ensures routes[v := start.routes[v]] == start.routes
  {
  }

  /** Two route tables differ at most in the versions of one key. */
  ghost predicate AgreeOff(routes: map<VersionKey, Runtime>, current: map<RouteKey, Version>, start: Reg, key: RouteKey) {
    && (forall v: VersionKey :: v.key != key ==>
          (v in routes <==> v in start.routes) && (v in routes ==> routes[v] == start.routes[v]))
    && (forall k: RouteKey :: k != key ==>
          (k in current <==> k in start.current) && (k in current ==> current[k] == start.current[k]))
  }

  lemma VersionsReturn(routes: map<VersionKey, Runtime>, current: map<RouteKey, Version>, start: Reg, key: RouteKey)
    requires AgreeOff(routes, current, start, key)
    ensures (map v | v in routes && v.key != key :: routes[v]) + VersionsOf(start.routes, key) == start.routes
  {
    var kept := map v | v in routes && v.key != key :: routes[v];
    assert (kept + VersionsOf(start.routes, key)).Keys == start.routes.Keys;
  }

  lemma CurrentReturns(routes: map<VersionKey, Runtime>, current: map<RouteKey, Version>, start: Reg, key: RouteKey)
    requires AgreeOff(routes, current, start, key)
    ensures start.current == match CurrentOf(start.current, key)
                             case Some(version) => current[key := version]
                             case None => current - {key}
  {
  }

  class CircuitBreakerRegistry {
    var routes: map<VersionKey, Runtime>
    var current: map<RouteKey, Version>
    var active: map<ActiveKey, Ticket>
    var pins: map<VersionKey, nat>
    var leaseSeq: nat
    var attached: bool
    var disk: Option<Document>
    var uncertain: bool
    var log: seq<Event>
    const capacity: nat

    function State(): Reg
      reads this
    {
      Reg(routes, current, active, pins, leaseSeq, attached, disk, uncertain, log, capacity)
    }

    constructor (transitionCapacity: nat, stored: Option<Document>)
      ensures State() == EMPTY.(disk := stored, capacity := transitionCapacity)
    {
      routes, current, active, pins := map[], map[], map[], map[];
      leaseSeq, attached, disk, uncertain, log := 0, false, stored, false, [];
      capacity := transitionCapacity;
    }

    // ------------------------------------------------------------ locked helpers

    /** `_persist_locked`. */
    method Persist(save: SaveOutcome) returns (ok: Result<()>)
      requires State().WellKeyed()
      modifies this`disk, this`uncertain
      ensures S.Commit(old(State()), old(State()), (), save) == Outcome(State(), ok)
      ensures ok.Ok? ==> uncertain == old(uncertain)
    {
      if uncertain {
        return Err(CommitUncertain);
      }
      if attached {
        match save {
          case Saved =>
            disk := Some(Export(State()));
          case Rejected =>
            return Err(SaveRejected);
          case Uncertain(written) =>
            if written { disk := Some(Export(State())); }
            uncertain := true;
            return Err(CommitUncertain);
        }
      }
      ok := Ok(());
    }

    /** The save that settles the step from `start` to `last`. */
    method PersistAs(ghost start: Reg, ghost last: Reg, save: SaveOutcome) returns (ok: Result<()>)
      requires State().WellKeyed() && last.WellKeyed() && Export(State()) == Export(last)
      requires SameStore(start, State()) && SameStore(start, last)
      modifies this`disk, this`uncertain
      ensures ok.Ok? ==> uncertain == old(uncertain)
      ensures S.Commit(start, last, (), save)
           == Outcome(if ok.Ok? then last.(disk := disk) else start.(disk := disk, uncertain := uncertain), ok)
    {
      PersistIsCommit(start, State(), last, (), save);
      ok := Persist(save);
    }

    /** `_invalidate_active_locked` for one version. */
    method Invalidate(v: VersionKey)
      modifies this`active
      ensures active == Without(old(active), v)
    {
      var left := active.Keys;
      while left != {}
        invariant left <= old(active).Keys
        invariant active == map a | a in old(active) && (a in left || a.version != v) :: old(active)[a]
        decreases left
      {
        var a :| a in left;
        left := left - {a};
        if a.version == v {
          active := active - {a};
        }
      }
    }

    /** `_prune_version_locked`. */
    method PruneVersion(v: VersionKey)
      modifies this`routes
      ensures State() == Prune(old(State()), v)
      ensures routes == if old(State()).Needed(v) then old(routes) else old(routes) - {v}
    {
      if v.key in current && current[v.key] == v.version {
        return;
      }
      if v in pins {
        return;
      }
      if exists a <- active :: a.version == v {
        return;
      }
      routes := routes - {v};
    }

    /** `_prune_noncurrent_versions_locked`. */
    method PruneNoncurrent(key: RouteKey)
      modifies this`routes
      ensures State() == PruneKey(old(State()), key)
    {
      hide Reg.Needed, Reg.WellKeyed, Prune, PruneKey;
      ghost var before := State();
      var left := routes.Keys;
      while left != {}
        invariant left <= before.routes.Keys
        invariant forall v <- routes :: v in before.routes && routes[v] == before.routes[v]
        invariant forall v <- before.routes :: v in routes <==> v in left || v.key != key || before.Needed(v)
        decreases left
      {
        var v :| v in left;
        left := left - {v};
        if v.key == key {
          NeededFrame(State(), before, v);
          PruneVersion(v);
        }
      }
      PruneKeyIs(before, routes, key);
    }

    /** `_record_transition_locked`. */
    method RecordTransition(v: VersionKey, was: BreakerState, rt: Runtime, reason: Reason)
      modifies this`log
      ensures log == Logged(old(State()), v, was, rt, reason)
    {
      if was != rt.state {
        log := Last(capacity, log + [Event(v, rt.epoch, was, rt.state, reason)]);
      }
    }

    /** `_restore_runtime_locked`. */
    method RestoreRuntime(v: VersionKey, before: Runtime, activeBefore: map<ActiveKey, Ticket>, ghost start: Reg)
      requires AgreeOffVersion(active, routes, start, v)
      requires v in start.routes && before == start.routes[v] && activeBefore == TicketsOf(start.active, v.key)
      modifies this`active, this`routes
      ensures active == start.active && routes == start.routes
    {
      hide AgreeOffVersion, TicketsOf, Without;
      TicketsReturn(active, activeBefore, routes, start, v);
      RuntimeReturns(active, routes, start, v);
      Invalidate(v);
      active := active + activeBefore;
      routes := routes[v := before];
    }

    // ------------------------------------------------------------- configuration

    method DropVersions(key: RouteKey)
      modifies this`routes
      ensures routes == map v | v in old(routes) && v.key != key :: old(routes)[v]
    {
      var left := routes.Keys;
      while left != {}
        invariant left <= old(routes).Keys
        invariant routes == map v | v in old(routes) && (v in left || v.key != key) :: old(routes)[v]
        decreases left
      {
        var v :| v in left;
        left := left - {v};
        if v.key == key {
          routes := routes - {v};
        }
      }
    }

    /** `_restore_configure_locked`. */
    method RestoreConfigure(key: RouteKey, currentBefore: Option<Version>, versionsBefore: map<VersionKey, Runtime>,
                            ghost start: Reg)
      requires AgreeOff(routes, current, start, key)
      requires versionsBefore == VersionsOf(start.routes, key) && currentBefore == CurrentOf(start.current, key)
      modifies this`routes, this`current
      ensures routes == start.routes && current == start.current
    {
      hide AgreeOff, VersionsOf;
      VersionsReturn(routes, current, start, key);
      CurrentReturns(routes, current, start, key);
      DropVersions(key);
      routes := routes + versionsBefore;
      current := if currentBefore.Some? then current[key := currentBefore.value] else current - {key};
    }

    /** Files the new version; the transition is logged only after the save. */
    method Install(r: Registration) returns (was: Result<Option<BreakerState>>)
      requires State().WellKeyed()
      modifies this`routes, this`current
      ensures was.Err? ==> State() == old(State()) && Installed(old(State()), r) == Err(was.error)
      ensures was.Ok? ==>
                var installed := Installed(old(State()), r);
                var v := VersionKey(r.key, r.version);
                && installed.Ok? && State().WellKeyed()
                && State() == installed.value.(log := log)
                && v in routes
                && installed.value.log == if was.value.None? then log
                                          else Logged(State(), v, was.value.value, routes[v],
                                                      ConfigurationReason(was.value.value, routes[v]))
      ensures AgreeOff(routes, current, old(State()), r.key)
    {
      var v := VersionKey(r.key, r.version);
      if r.key !in current {
        routes := routes[v := FreshRuntime(r.policy, r.enabled)];
        current := current[r.key := r.version];
        return Ok(None);
      }
      var cur := current[r.key];
      var rt := routes[VersionKey(r.key, cur)];
      if r.version.revision < cur.revision {
        return Err(RevisionRegressed);
      }
      if r.version.revision == cur.revision && r.version.fingerprint != cur.fingerprint {
        return Err(FingerprintChanged);
      }
      if r.version.revision == cur.revision {
        if r.policy != rt.policy || r.enabled != rt.enabled {
          return Err(ConfigurationChanged);
        }
      } else {
        var next := Reconfigured(rt, r.version.fingerprint == cur.fingerprint, r.policy, r.enabled);
        if next.Err? {
          return Err(next.error);
        }
        routes := routes[v := next.value];
        current := current[r.key := r.version];
      }
      was := Ok(Some(rt.state));
    }

    method ConfigureRoute(r: Registration, save: SaveOutcome) returns (result: Result<()>)
      requires State().WellKeyed()
      modifies this
      ensures S.ConfigureRoute(old(State()), r, save) == Outcome(State(), result)
    {
      hide Installed, S.Commit, PruneKey, AgreeOff, Logged;
      var currentBefore := CurrentOf(current, r.key);
      var versionsBefore := VersionsOf(routes, r.key);
      ghost var start := State();
      var was := Install(r);
      if was.Err? {
        return Err(was.error);
      }
      result := SettleConfigure(r, was.value, currentBefore, versionsBefore, start, save);
    }

    /** The save, and what follows it either way. */
    method SettleConfigure(r: Registration, was: Option<BreakerState>, currentBefore: Option<Version>,
                           versionsBefore: map<VersionKey, Runtime>, ghost start: Reg, save: SaveOutcome)
      returns (result: Result<()>)
      requires start.WellKeyed() && State().WellKeyed() && Installed(start, r).Ok?
      requires State() == Installed(start, r).value.(log := start.log)
      requires VersionKey(r.key, r.version) in routes && AgreeOff(routes, current, start, r.key)
      requires currentBefore == CurrentOf(start.current, r.key) && versionsBefore == VersionsOf(start.routes, r.key)
      requires State() == start.(routes := routes, current := current)
      requires var v := VersionKey(r.key, r.version);
               Installed(start, r).value.log == if was.None? then log
                                                else Logged(State(), v, was.value, routes[v],
                                                            ConfigurationReason(was.value, routes[v]))
      modifies this
      ensures S.Commit(start, PruneKey(Installed(start, r).value, r.key), (), save) == Outcome(State(), result)
    {
      hide Installed, PruneKey, Export, Logged, S.Commit, AgreeOff, VersionsOf, CurrentOf, Reg.WellKeyed, ConfigurationReason;
      ghost var mid := State();
      ghost var last := PruneKey(Installed(start, r).value, r.key);
      PruneKeyKeepsLog(Installed(start, r).value, mid, r.key);
      PruneKeyExportsSame(mid, last, r.key);
      result := PersistAs(start, last, save);
      if result.Err? {
        RestoreConfigure(r.key, currentBefore, versionsBefore, start);
        assert State() == start.(disk := disk, uncertain := uncertain);
      } else {
        ConfigureDone(r, was, mid);
        assert State() == last.(disk := disk);
      }
    }

    /** Logs the transition and prunes, once the save has succeeded. */
    method ConfigureDone(r: Registration, was: Option<BreakerState>, ghost mid: Reg)
      requires VersionKey(r.key, r.version) in routes && State() == mid.(disk := disk)
      modifies this`routes, this`log
      ensures State() ==
              var v := VersionKey(r.key, r.version);
              var entry := if was.None? then mid.log
                           else Logged(mid, v, was.value, mid.routes[v], ConfigurationReason(was.value, mid.routes[v]));
              PruneKey(mid, r.key).(log := entry, disk := disk)
    {
      var v := VersionKey(r.key, r.version);
      if was.Some? {
        RecordTransition(v, was.value, routes[v], ConfigurationReason(was.value, routes[v]));
      }
      PruneKeyFrame(State(), mid, r.key);
      PruneNoncurrent(r.key);
    }

    /** The registrations in order, with no store to save to. */
    method ApplyAll(rs: seq<Registration>) returns (applied: Result<()>)
      requires State().WellKeyed() && !attached
      modifies this
      ensures applied.Ok? ==> ConfiguredAll(old(State()), rs) == Ok(State())
      ensures applied.Err? ==> ConfiguredAll(old(State()), rs) == Err(applied.error)
      ensures !attached && disk == old(disk) && uncertain == old(uncertain)
      ensures State().WellKeyed() && leaseSeq == old(leaseSeq)
    {
      hide Configured, Reg.WellKeyed, Export;
      for i := 0 to |rs|
        invariant State().WellKeyed() && !attached && disk == old(disk) && uncertain == old(uncertain)
        invariant leaseSeq == old(leaseSeq)
        invariant ConfiguredAll(State(), rs[i..]) == ConfiguredAll(old(State()), rs)
      {
        ghost var before := State();
        ConfiguredKeepsLeases(before, rs[i]);
        assert rs[i..][0] == rs[i] && rs[i..][1..] == rs[i + 1..];
        var one := ConfigureRoute(rs[i], Saved);
        if one.Err? {
          return Err(one.error);
        }
      }
      assert rs[|rs|..] == [];
      applied := Ok(());
    }

    /** `_retire_unregistered_group_routes_locked` and `..._instance_routes_locked`. */
    method Retire(scope: RetireScope, rs: seq<Registration>)
      requires rs != []
      modifies this`routes, this`current
      ensures State() == Retired(old(State()), scope, rs)
    {
      ghost var start := State();
      var left := current.Keys;
      ghost var done: set<RouteKey> := {};
      while left != {}
        invariant left + done == start.current.Keys && left !! done
        invariant State() == RetiredAmong(start, scope, rs, done)
        decreases left
      {
        hide Reg.Needed, PruneKey, RetiredAmong, Retires;
        var k :| k in left;
        left := left - {k};
        if Retires(scope, rs, k) {
          RetireOne(start, State(), scope, rs, done, k);
          current := current - {k};
          PruneNoncurrent(k);
        } else {
          RetireKeeps(start, scope, rs, done, k);
        }
        done := done + {k};
      }
      RetiredAll(start, scope, rs, done);
    }

    /** `configure_routes`: the store is detached while the registrations are applied one by one. */
    method ConfigureRoutes(rs: seq<Registration>, scope: RetireScope, save: SaveOutcome) returns (result: Result<()>)
      requires State().WellKeyed()
      modifies this
      ensures S.ConfigureRoutes(old(State()), rs, scope, save) == Outcome(State(), result)
    {
      hide ConfiguredAll, Retired, S.Commit, Export, Reg.WellKeyed, DistinctKeys;
      if rs == [] || !DistinctKeys(rs) {
        return Err(RegistrationInvalid);
      }
      var routesBefore, currentBefore, activeBefore, pinsBefore, logBefore := routes, current, active, pins, log;
      var store := attached;
      result := ApplyBatch(rs, scope, save);
      if result.Err? {
        routes, current, active, pins, log := routesBefore, currentBefore, activeBefore, pinsBefore, logBefore;
        attached := store;
      }
    }

    /** The protected block of `configure_routes`. */
    method ApplyBatch(rs: seq<Registration>, scope: RetireScope, save: SaveOutcome) returns (applied: Result<()>)
      requires State().WellKeyed() && rs != []
      modifies this
      ensures match ConfiguredAll(old(State()), rs)
              case Err(e) => applied == Err(e) && disk == old(disk) && uncertain == old(uncertain) && leaseSeq == old(leaseSeq)
              case Ok(next) =>
                S.Commit(old(State()), Retired(next, scope, rs), (), save)
                == Outcome(if applied.Ok? then State() else old(State()).(disk := disk, uncertain := uncertain), applied)
                && leaseSeq == old(leaseSeq)
    {
      hide ConfiguredAll, Retired, S.Commit, Export, Reg.WellKeyed;
      ghost var start := State();
      DetachedAll(start, rs);
      var store := attached;
      attached := false;
      applied := ApplyAll(rs);
      if applied.Err? {
        return;
      }
      attached := store;
      assert State() == ConfiguredAll(start, rs).value;
      Retire(scope, rs);
      applied := PersistAs(start, State(), save);
    }

    // ----------------------------------------------------------------- admission

    /** `_transition_and_persist_locked` into HALF_OPEN. */
    method EnterHalfOpen(v: VersionKey, reason: Reason, save: SaveOutcome) returns (result: Result<()>)
      requires State().WellKeyed() && v in routes
      modifies this
      ensures S.EnterHalfOpen(old(State()), v, reason, save) == Outcome(State(), result)
    {
      hide S.Commit, Export, Reg.WellKeyed, Logged, AgreeOffVersion, TicketsOf, Without, S.EnterHalfOpen;
      ghost var start := State();
      var before := routes[v];
      var activeBefore := TicketsOf(active, v.key);
      var next := Transition(before, HalfOpen);
      if next.Err? {
        EnterFails(start, v, reason, save);
        return Err(next.error);
      }
      SelfAgrees(start, v);
      FileRuntime(v, before, next.value, start);
      ghost var last := State().(log := Logged(start, v, before.state, next.value, reason));
      EnterIs(start, v, reason, save, State(), last);
      result := SaveOrRestore(v, before, next.value, activeBefore, reason, save, start, last);
    }

    /** Saves a rewritten runtime, then logs its transition or rolls it back. */
    method SaveOrRestore(v: VersionKey, before: Runtime, rt: Runtime, activeBefore: map<ActiveKey, Ticket>,
                         reason: Reason, save: SaveOutcome, ghost start: Reg, ghost last: Reg)
      returns (result: Result<()>)
      requires State().WellKeyed() && State() == start.(active := active, routes := routes)
      requires AgreeOffVersion(active, routes, start, v)
      requires v in start.routes && before == start.routes[v] && activeBefore == TicketsOf(start.active, v.key)
      requires last == State().(log := Logged(start, v, before.state, rt, reason))
      modifies this
      ensures last.WellKeyed() && S.Commit(start, last, (), save) == Outcome(State(), result)
    {
      hide S.Commit, Export, Reg.WellKeyed, Logged, AgreeOffVersion, TicketsOf;
      LogExportsSame(State(), last);
      result := PersistAs(start, last, save);
      if result.Err? {
        RestoreRuntime(v, before, activeBefore, start);
        assert State() == start.(disk := disk, uncertain := uncertain);
      } else {
        LoggedFrame(start, State(), v, before.state, rt, reason);
        RecordTransition(v, before.state, rt, reason);
        assert State() == last.(disk := disk);
      }
    }

    /** Writes a runtime back where its version is still filed; a change of state drops the version's tickets. */
    method FileRuntime(v: VersionKey, before: Runtime, rt: Runtime, ghost start: Reg)
      requires AgreeOffVersion(active, routes, start, v)
      modifies this`routes, this`active
      ensures routes == if v in old(routes) then old(routes)[v := rt] else old(routes)
      ensures active == if rt.epoch == before.epoch then old(active) else Without(old(active), v)
      ensures AgreeOffVersion(active, routes, start, v)
    {
      if v in routes {
        routes := routes[v := rt];
      }
      if rt.epoch != before.epoch {
        Invalidate(v);
      }
    }

    method Acquire(v: VersionKey, attempt: string, manual: bool, signal: Signal, now: real, leaseOk: bool,
                   save: SaveOutcome) returns (result: Result<Admission>)
      requires State().WellKeyed()
      modifies this
      ensures S.Acquire(old(State()), v, attempt, manual, signal, now, leaseOk, save) == Outcome(State(), result)
    {
      hide S.EnterHalfOpen, S.Grant;
      var effective := if manual then Probe else signal;
      if uncertain {
        return Err(CommitUncertain);
      }
      if v !in routes {
        return Ok(NoSuchVersion(State(), v.key));
      }
      var rt := routes[v];
      if ActiveKey(v, attempt) in active {
        return Ok(Denied(rt.state, AttemptAlreadyActive, None));
      }
      if rt.state == Disabled || !rt.enabled {
        return Ok(Denied(Disabled, RouteDisabled, None));
      }
      if rt.state == OpenActionRequired {
        if !manual {
          return Ok(Denied(rt.state, RouteOpenActionRequired, None));
        }
        var entered := EnterHalfOpen(v, ManualProbeStarted, save);
        if entered.Err? {
          return Err(entered.error);
        }
      } else if rt.state == OpenTemporary {
        if CoolingDown(rt, now) {
          return Ok(Denied(rt.state, RouteOpenTemporary, rt.openUntil));
        }
        var entered := EnterHalfOpen(v, if manual then ManualProbeStarted else CooldownElapsed, save);
        if entered.Err? {
          return Err(entered.error);
        }
      }
      result := Grant(v, attempt, manual, effective, leaseOk);
    }

    /** The lease check and the ticket. */
    method Grant(v: VersionKey, attempt: string, manual: bool, signal: Signal, leaseOk: bool)
      returns (result: Result<Admission>)
      requires State().WellKeyed() && v in routes
      modifies this`active, this`leaseSeq, this`routes
      ensures S.Grant(old(State()), v, attempt, manual, signal, leaseOk) == Outcome(State(), result)
    {
      var rt := routes[v];
      if rt.state == HalfOpen && rt.actionRequired && !manual {
        return Ok(Denied(rt.state, RouteOpenActionRequired, None));
      }
      var guarded := Guarded(rt.state);
      if guarded && State().GuardedLeaseActive(v.key, v.version.fingerprint) {
        return Ok(Denied(rt.state, HalfOpenBusy, rt.openUntil));
      }
      if !leaseOk {
        return Err(LeaseInvalid);
      }
      if leaseSeq >= MAX_COUNTER {
        return Err(CounterExhausted);
      }
      leaseSeq := leaseSeq + 1;
      var ticket := Ticket(v, rt.epoch, leaseSeq, attempt, guarded, signal);
      active := active[ActiveKey(v, attempt) := ticket];
      if guarded {
        routes := routes[v := rt.(leaseId := Some(leaseSeq))];
      }
      result := Ok(Allowed(rt.state, ticket));
    }

    // -------------------------------------------------------------- observations

    /** `_begin_observation_locked`: the runtime with its lease returned, and what a rollback needs. */
    method BeginObservation(t: Ticket) returns (rt: Runtime, before: Runtime, activeBefore: map<ActiveKey, Ticket>)
      requires Matches(State(), t)
      modifies this`active, this`routes
      ensures before == old(routes)[t.version] && rt == Freed(old(State()), t)
      ensures activeBefore == TicketsOf(old(active), t.version.key)
      ensures State() == Prune(old(State()).(active := old(active) - {KeyOf(t)}), t.version)
      ensures AgreeOffVersion(active, routes, old(State()), t.version)
    {
      before := routes[t.version];
      activeBefore := TicketsOf(active, t.version.key);
      active := active - {KeyOf(t)};
      rt := if before.leaseId == Some(t.lease) then before.(leaseId := None) else before;
      PruneVersion(t.version);
    }

    /** The protected block of every `record_*`: file, save, and log or roll back. */
    method Settle(t: Ticket, before: Runtime, activeBefore: map<ActiveKey, Ticket>, seen: Result<Runtime>,
                  reason: Reason, save: SaveOutcome, ghost start: Reg) returns (result: Result<Observation>)
      requires start.WellKeyed() && Matches(start, t) && before == start.routes[t.version]
      requires activeBefore == TicketsOf(start.active, t.version.key)
      requires State() == Prune(start.(active := start.active - {KeyOf(t)}), t.version)
      requires AgreeOffVersion(active, routes, start, t.version)
      modifies this
      ensures S.Observe(start, t, seen, reason, save) == Outcome(State(), result)
    {
      hide S.Commit, Export, Reg.WellKeyed, Logged, AgreeOffVersion, TicketsOf, Without, Prune, Observed;
      PruneFrame(start.(active := start.active - {KeyOf(t)}), t.version);
      if seen.Err? {
        RestoreRuntime(t.version, before, activeBefore, start);
        return Err(seen.error);
      }
      ghost var begun := State();
      FileRuntime(t.version, before, seen.value, start);
      ghost var last := Observed(start, t, seen.value, reason);
      ObservedIs(start, t, seen.value, reason, begun, State());
      var saved := SaveOrRestore(t.version, before, seen.value, activeBefore, reason, save, start, last);
      CommitValue(start, last, Applied, save);
      result := if saved.Ok? then Ok(Applied) else Err(saved.error);
    }

    method RecordSuccess(t: Ticket, now: real, save: SaveOutcome) returns (result: Result<Observation>)
      requires State().WellKeyed()
      modifies this
      ensures S.RecordSuccess(old(State()), t, now, save) == Outcome(State(), result)
    {
      hide S.Observe, OnSuccess, Prune, Freed, AgreeOffVersion, TicketsOf, Reg.WellKeyed;
      if !Matches(State(), t) {
        return Ok(Ignored);
      }
      ghost var start := State();
      var rt, before, activeBefore := BeginObservation(t);
      result := Settle(t, before, activeBefore, OnSuccess(rt, t.signal, now),
                       if t.signal == Probe then ProbeSucceeded else BusinessSucceeded, save, start);
    }

    /** The four public failure calls, which differ in `kind`. */
    method RecordFailure(t: Ticket, kind: FailureKind, category: Category, status: Option<int>, now: real,
                         fraction: real, save: SaveOutcome) returns (result: Result<Observation>)
      requires State().WellKeyed()
      modifies this
      ensures S.RecordFailure(old(State()), t, kind, category, status, now, fraction, save) == Outcome(State(), result)
    {
      hide S.Observe, OnFailure, AsFailure, Freed, Reg.WellKeyed, Matches, ValidStatus;
      if kind.Protocol? && !Matches(State(), t) {
        return Ok(Ignored);
      }
      if !ValidStatus(status) {
        return Err(HttpStatusInvalid);
      }
      if !Matches(State(), t) {
        return Ok(Ignored);
      }
      result := ObserveFailure(t, kind, category, status, now, fraction, save);
    }

    method ObserveFailure(t: Ticket, kind: FailureKind, category: Category, status: Option<int>, now: real,
                          fraction: real, save: SaveOutcome) returns (result: Result<Observation>)
      requires State().WellKeyed() && Matches(State(), t)
      modifies this
      ensures var rt := Freed(old(State()), t);
              S.Observe(old(State()), t, OnFailure(rt, t.signal, AsFailure(rt, kind, category, status), now, fraction),
                        if t.signal == Probe then ProbeFailed else BusinessFailed, save)
              == Outcome(State(), result)
    {
      hide S.Observe, OnFailure, AsFailure, Prune, Freed, AgreeOffVersion, TicketsOf, Reg.WellKeyed;
      ghost var start := State();
      var rt, before, activeBefore := BeginObservation(t);
      var failure := AsFailure(rt, kind, category, status);
      result := Settle(t, before, activeBefore, OnFailure(rt, t.signal, failure, now, fraction),
                       if t.signal == Probe then ProbeFailed else BusinessFailed, save, start);
    }

    method RecordCancelled(t: Ticket, save: SaveOutcome) returns (result: Result<Observation>)
      requires State().WellKeyed()
      modifies this
      ensures S.RecordCancelled(old(State()), t, save) == Outcome(State(), result)
    {
      hide S.Observe, OnCancel, Prune, Freed, AgreeOffVersion, TicketsOf, Reg.WellKeyed, Observed;
      if !Matches(State(), t) {
        return Ok(Ignored);
      }
      ghost var start := State();
      var rt, before, activeBefore := BeginObservation(t);
      if rt.state == HalfOpen && rt.actionRequired {
        result := Settle(t, before, activeBefore, OnCancel(rt), ProbeCancelled, save, start);
      } else {
        ReturnLease(t, rt, start);
        result := Ok(Applied);
      }
    }

    /** A cancelled or abandoned attempt only gives back its lease. */
    method ReturnLease(t: Ticket, rt: Runtime, ghost start: Reg)
      requires start.WellKeyed() && Matches(start, t) && rt == Freed(start, t)
      requires State() == Prune(start.(active := start.active - {KeyOf(t)}), t.version)
      modifies this`routes
      ensures State() == Observed(start, t, rt, ProbeCancelled)
    {
      if t.version in routes {
        routes := routes[t.version := rt];
      }
    }

    method Abandon(t: Ticket) returns (result: Result<Observation>)
      requires State().WellKeyed()
      modifies this
      ensures S.Abandon(old(State()), t) == Outcome(State(), result)
    {
      hide Prune, Freed, AgreeOffVersion, TicketsOf, Reg.WellKeyed, Observed;
      if !Matches(State(), t) {
        return Ok(Ignored);
      }
      ghost var start := State();
      var rt, _, _ := BeginObservation(t);
      ReturnLease(t, rt, start);
      result := Ok(Applied);
    }

    // ---------------------------------------------------------------------- pins

    method PinVersions(vs: seq<VersionKey>) returns (result: Result<()>)
      modifies this`pins
      ensures S.Pin(old(State()), vs) == Outcome(State(), result)
    {
      if vs == [] || !Distinct(vs) {
        return Err(PinInvalid);
      }
      if exists v <- vs :: v !in routes {
        return Err(VersionStale);
      }
      for i := 0 to |vs|
        invariant PinnedAll(pins, vs[i..]) == PinnedAll(old(pins), vs)
      {
        pins := pins[vs[i] := PinCount(pins, vs[i]) + 1];
        assert vs[i..][1..] == vs[i + 1..];
      }
      result := Ok(());
    }

    method ReleaseVersions(vs: seq<VersionKey>) returns (result: Result<()>)
      modifies this`pins, this`routes
      ensures S.Release(old(State()), vs) == Outcome(State(), result)
    {
      for i := 0 to |vs|
        invariant S.Release(State(), vs[i..]) == S.Release(old(State()), vs)
      {
        hide Prune;
        var v := vs[i];
        var count := PinCount(pins, v);
        assert vs[i..][0] == v && vs[i..][1..] == vs[i + 1..];
        if count == 0 {
          return Err(PinUnderflow);
        }
        if count == 1 {
          pins := pins - {v};
        } else {
          pins := pins[v := count - 1];
        }
        PruneVersion(v);
      }
      result := Ok(());
    }

    // ------------------------------------------------------------------- restore

    /** `_restore_locked`; the caller rolls back when it fails. */
    method RestoreLocked(document: Document, now: real) returns (result: Result<nat>)
      requires State().WellKeyed()
      modifies this`routes, this`log
      ensures result.Ok? ==> S.RestoreDocument(old(State()), document, now) == Ok(Restoration(State(), result.value))
      ensures result.Err? ==> S.RestoreDocument(old(State()), document, now) == Err(result.error)
    {
      if !ValidShape(document) {
        return Err(DocumentInvalid);
      }
      var docs := document.routes;
      var seen: set<RouteKey> := {};
      var count: nat := 0;
      for i := 0 to |docs|
        invariant State().WellKeyed()
        invariant S.RestoreRoutes(State(), docs[i..], seen, now, count) == S.RestoreRoutes(old(State()), docs, {}, now, 0)
      {
        hide RestoredRoute, Logged, Describes;
        var d := docs[i];
        assert docs[i..][0] == d && docs[i..][1..] == docs[i + 1..];
        if d.key in seen {
          return Err(DocumentInvalid);
        }
        seen := seen + {d.key};
        if d.key in current {
          var v := VersionKey(d.key, current[d.key]);
          var rt := routes[v];
          if !InRange(d.revision, 1) {
            return Err(DocumentInvalid);
          }
          if Describes(d, v.version, rt) {
            DescribesEnabled(d, v.version, rt);
            var next := RestoredRoute(rt, d, now);
            if next.Err? {
              return Err(next.error);
            }
            RecordTransition(v, rt.state, next.value, StateRestored);
            routes := routes[v := next.value];
            count := count + 1;
          }
        }
      }
      result := Ok(count);
    }

    method Restore(document: Document, now: real, save: SaveOutcome) returns (result: Result<nat>)
      requires State().WellKeyed()
      modifies this
      ensures S.Restore(old(State()), document, now, save) == Outcome(State(), result)
    {
      hide S.RestoreDocument, S.Commit, Export, Reg.WellKeyed;
      if active != map[] {
        return Err(AttemptsActive);
      }
      ghost var start := State();
      var routesBefore, logBefore := routes, log;
      result := RestoreLocked(document, now);
      if result.Ok? {
        ghost var last := State();
        var saved := PersistAs(start, last, save);
        CommitValue(start, last, result.value, save);
        if saved.Err? {
          result := Err(saved.error);
        }
      }
      if result.Err? {
        routes, log := routesBefore, logBefore;
      }
    }

    method AttachStore(save: SaveOutcome) returns (result: Result<()>)
      requires State().WellKeyed()
      modifies this`attached, this`disk
      ensures S.AttachStore(old(State()), save) == Outcome(State(), result)
    {
      if uncertain {
        return Err(CommitUncertain);
      }
      match save {
        case Saved =>
          disk, attached := Some(Export(State())), true;
          result := Ok(());
        case Rejected =>
          result := Err(SaveRejected);
        case Uncertain(written) =>
          if written { disk := Some(Export(State())); }
          result := Err(CommitUncertain);
      }
    }

    method RestoreFromStore(now: real, save: SaveOutcome) returns (result: Result<nat>)
      requires State().WellKeyed()
      modifies this
      ensures S.RestoreFromStore(old(State()), now, save) == Outcome(State(), result)
    {
      hide S.RestoreDocument, Export, Reg.WellKeyed;
      if uncertain {
        return Err(CommitUncertain);
      }
      if active != map[] {
        return Err(AttemptsActive);
      }
      var routesBefore, logBefore := routes, log;
      result := Ok(0);
      if disk.Some? {
        result := RestoreLocked(disk.value, now);
      }
      if result.Ok? {
        match save {
          case Saved =>
            disk, attached := Some(Export(State())), true;
          case Rejected =>
            result := Err(SaveRejected);
          case Uncertain(written) =>
            if written { disk := Some(Export(State())); }
            result := Err(CommitUncertain);
        }
      }
      if result.Err? {
        routes, log := routesBefore, logBefore;
      }
    }
  }

  /** Only the value of a commit depends on what it carries. */
  lemma CommitValue<T>(start: Reg, last: Reg, value: T, save: SaveOutcome)
    requires last.WellKeyed()
    ensures var unit := S.Commit(start, last, (), save);
            S.Commit(start, last, value, save)
            == Outcome(unit.reg, if unit.result.Ok? then Ok(value) else Err(unit.result.error))
  {
  }

  lemma EnterFails(start: Reg, v: VersionKey, reason: Reason, save: SaveOutcome)
    requires start.WellKeyed() && v in start.routes && Transition(start.routes[v], HalfOpen).Err?
    ensures S.EnterHalfOpen(start, v, reason, save) == Outcome(start, Err(Transition(start.routes[v], HalfOpen).error))
  {
  }

  lemma EnterIs(start: Reg, v: VersionKey, reason: Reason, save: SaveOutcome, mid: Reg, last: Reg)
    requires start.WellKeyed() && v in start.routes && Transition(start.routes[v], HalfOpen).Ok?
    requires var rt := Transition(start.routes[v], HalfOpen).value;
             && mid == start.(routes := start.routes[v := rt],
                              active := if rt.epoch == start.routes[v].epoch then start.active else Without(start.active, v))
             && last == mid.(log := Logged(start, v, start.routes[v].state, rt, reason))
    ensures mid.WellKeyed() && last.WellKeyed()
    ensures S.EnterHalfOpen(start, v, reason, save) == S.Commit(start, last, (), save)
  {
    hide S.Commit, Without, Logged;
  }

  lemma SelfAgrees(start: Reg, v: VersionKey)
    ensures AgreeOffVersion(start.active, start.routes, start, v)
  {
  }

  lemma PruneFrame(reg: Reg, v: VersionKey)
    ensures Prune(reg, v) == reg.(routes := Prune(reg, v).routes)
  {
  }

  lemma DescribesEnabled(d: RouteDoc, version: Version, rt: Runtime)
    requires Describes(d, version, rt)
    ensures d.enabled == rt.enabled
  {
  }

  lemma ObservedIs(start: Reg, t: Ticket, rt: Runtime, reason: Reason, begun: Reg, mid: Reg)
    requires start.WellKeyed() && Matches(start, t)
    requires begun == Prune(start.(active := start.active - {KeyOf(t)}), t.version)
    requires mid == begun.(active := mid.active, routes := mid.routes)
    requires mid.routes == if t.version in begun.routes then begun.routes[t.version := rt] else begun.routes
    requires mid.active == if rt.epoch == start.routes[t.version].epoch then begun.active else Without(begun.active, t.version)
    ensures mid.WellKeyed()
    ensures mid == start.(active := mid.active, routes := mid.routes)
    ensures Observed(start, t, rt, reason)
         == mid.(log := Logged(start, t.version, start.routes[t.version].state, rt, reason))
  {
    hide Logged, Without;
  }

  /** Retirement restricted to the keys already visited. */
  ghost function RetiredAmong(reg: Reg, scope: RetireScope, rs: seq<Registration>, done: set<RouteKey>): Reg
    requires rs != []
  {
    reg.(current := map k | k in reg.current && !(k in done && Retires(scope, rs, k)) :: reg.current[k],
         routes := map v | v in reg.routes
                           && (v.key in done && Retires(scope, rs, v.key) ==> v in reg.pins || reg.Ticketed(v)) :: reg.routes[v])
  }

  lemma RetireOne(start: Reg, now: Reg, scope: RetireScope, rs: seq<Registration>, done: set<RouteKey>, k: RouteKey)
    requires rs != [] && k !in done && Retires(scope, rs, k) && now == RetiredAmong(start, scope, rs, done)
    ensures PruneKey(now.(current := now.current - {k}), k) == RetiredAmong(start, scope, rs, done + {k})
  {
    hide Retires, Reg.Needed, Reg.Ticketed;
    var dropped := now.(current := now.current - {k});
    forall v: VersionKey | v.key == k
      ensures dropped.Needed(v) <==> v in start.pins || start.Ticketed(v)
    {
      UncurrentNeeded(start, dropped, v);
    }
    var next := RetiredAmong(start, scope, rs, done + {k});
    assert dropped.current == next.current;
    PruneKeyIs(dropped, next.routes, k);
  }

  lemma UncurrentNeeded(a: Reg, b: Reg, v: VersionKey)
    requires v.key !in b.current && a.pins == b.pins && a.active == b.active
    ensures b.Needed(v) <==> v in a.pins || a.Ticketed(v)
  {
  }

  lemma RetireKeeps(start: Reg, scope: RetireScope, rs: seq<Registration>, done: set<RouteKey>, k: RouteKey)
    requires rs != [] && !Retires(scope, rs, k)
    ensures RetiredAmong(start, scope, rs, done + {k}) == RetiredAmong(start, scope, rs, done)
  {
  }

  lemma RetiredAll(start: Reg, scope: RetireScope, rs: seq<Registration>, done: set<RouteKey>)
    requires rs != [] && done == start.current.Keys
    ensures RetiredAmong(start, scope, rs, done) == Retired(start, scope, rs)
  {
    hide Retires;
    var a, b := RetiredAmong(start, scope, rs, done), Retired(start, scope, rs);
    assert a.current == b.current;
    assert a.routes == b.routes;
  }

  lemma ConfiguredKeepsLeases(reg: Reg, r: Registration)
    requires reg.WellKeyed()
    ensures Configured(reg, r).Ok? ==> Configured(reg, r).value.leaseSeq == reg.leaseSeq
  {
  }

  lemma Detached(reg: Reg, r: Registration)
    requires reg.WellKeyed()
    ensures var bare := reg.(attached := false);
            && bare.WellKeyed()
            && match Configured(reg, r)
               case Err(e) => Configured(bare, r) == Err(e)
               case Ok(next) => Configured(bare, r) == Ok(next.(attached := false))
  {
    hide PruneKey, Reconfigured, FreshRuntime;
    var bare := reg.(attached := false);
    assert bare.WellKeyed();
    if Installed(reg, r).Ok? {
      var next := Installed(reg, r).value;
      assert Installed(bare, r) == Ok(next.(attached := false));
      PruneKeyDetached(next, r.key);
    }
  }

  lemma PruneKeyDetached(reg: Reg, key: RouteKey)
    ensures PruneKey(reg.(attached := false), key) == PruneKey(reg, key).(attached := false)
  {
    assert forall v :: reg.(attached := false).Needed(v) == reg.Needed(v);
  }

  lemma {:induction false} DetachedAll(reg: Reg, rs: seq<Registration>)
    requires reg.WellKeyed()
    ensures var bare := reg.(attached := false);
            && bare.WellKeyed()
            && match ConfiguredAll(reg, rs)
               case Err(e) => ConfiguredAll(bare, rs) == Err(e)
               case Ok(next) => ConfiguredAll(bare, rs) == Ok(next.(attached := false))
    decreases |rs|
  {
    hide Configured;
    assert reg.(attached := false).WellKeyed();
    if rs != [] {
      Detached(reg, rs[0]);
      if Configured(reg, rs[0]).Ok? {
        DetachedAll(Configured(reg, rs[0]).value, rs[1..]);
      }
    }
  }

  lemma LoggedFrame(a: Reg, b: Reg, v: VersionKey, was: BreakerState, rt: Runtime, reason: Reason)
    requires a.log == b.log && a.capacity == b.capacity
    ensures Logged(a, v, was, rt, reason) == Logged(b, v, was, rt, reason)
  {
  }

  lemma PruneKeyKeepsLog(a: Reg, b: Reg, key: RouteKey)
    requires a == b.(log := a.log)
    ensures PruneKey(a, key) == PruneKey(b, key).(log := a.log)
  {
    assert forall v :: a.Needed(v) == b.Needed(v);
  }

  lemma PruneKeyFrame(a: Reg, b: Reg, key: RouteKey)
    requires a == b.(log := a.log, disk := a.disk)
    ensures PruneKey(a, key) == PruneKey(b, key).(log := a.log, disk := a.disk)
  {
    assert forall v :: a.Needed(v) == b.Needed(v);
  }
}
