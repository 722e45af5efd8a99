/** What the registry guarantees at its interface: admission and durability. */
module BreakerTheorems {
  import opened Common
  import opened BreakerRoute
  import opened BreakerKeys
  import opened BreakerSpec
  import opened BreakerInvariant
  import opened BreakerRestore

  // ------------------------------------------------------------------ admission

  /** The preview `p` foretells the admission `a`. */
  predicate Foretells(p: Result<Preview>, a: Result<Admission>) {
    match p
    case Err(e) => a == Err(e)
    case Ok(MayEnter(state)) => a.Ok? && a.value.Allowed? && a.value.state == state
    case Ok(Refused(state, reason, retryAt)) => a == Ok(Denied(state, reason, retryAt))
  }

  /** Entering HALF_OPEN drops no guarded ticket, so it changes no later answer. */
  lemma EntryKeepsGuards(reg: Reg, v: VersionKey, reason: Reason)
    requires Inv(reg) && v in reg.routes && reg.routes[v].state in {OpenTemporary, OpenActionRequired}
    requires reg.routes[v].epoch < MAX_COUNTER && !reg.uncertain
    ensures var o := EnterHalfOpen(reg, v, reason, Saved);
            && o.result.Ok?
            && o.reg.active == reg.active && o.reg.leaseSeq == reg.leaseSeq
            && o.reg.routes[v] == reg.routes[v].(state := HalfOpen, epoch := reg.routes[v].epoch + 1, leaseId := None)
  {
    OpenHoldsNoTicket(reg, v);
  }

  lemma GrantAnswers(reg: Reg, v: VersionKey, attempt: string, manual: bool, signal: Signal)
    requires reg.WellKeyed() && v in reg.routes && reg.leaseSeq < MAX_COUNTER
    ensures var rt := reg.routes[v];
            var answer := Grant(reg, v, attempt, manual, signal, true).result;
            if rt.state == HalfOpen && rt.actionRequired && !manual then
              answer == Ok(Denied(rt.state, RouteOpenActionRequired, None))
            else if Guarded(rt.state) && reg.GuardedLeaseActive(v.key, v.version.fingerprint) then
              answer == Ok(Denied(rt.state, HalfOpenBusy, rt.openUntil))
            else answer.Ok? && answer.value.Allowed? && answer.value.state == rt.state
  {
  }

  /**
   `preview_admission` foretells `acquire` at the same instant, for a fresh attempt, a store that
   saves and counters that are not exhausted, although `acquire` may first leave an open state.
   */
  lemma PreviewForetellsAcquire(reg: Reg, v: VersionKey, attempt: string, manual: bool, signal: Signal, now: real)
    requires Inv(reg) && ActiveKey(v, attempt) !in reg.active && reg.leaseSeq < MAX_COUNTER
    requires v in reg.routes ==> reg.routes[v].epoch < MAX_COUNTER
    ensures Foretells(PreviewAdmission(reg, v, manual, now),
                      Acquire(reg, v, attempt, manual, signal, now, true, Saved).result)
  {
    hide Inv, EnterHalfOpen, Grant, Reg.GuardedLeaseActive;
    InvKeyed(reg);
    var signal' := if manual then Probe else signal;
    if !reg.uncertain && v in reg.routes {
      var rt := reg.routes[v];
      if rt.state in {OpenTemporary, OpenActionRequired} {
        var reason := if manual then ManualProbeStarted else CooldownElapsed;
        EntryKeepsGuards(reg, v, reason);
        var entered := EnterHalfOpen(reg, v, reason, Saved).reg;
        GuardsDependOnTickets(reg, entered, v);
        GrantAnswers(entered, v, attempt, manual, signal');
      } else {
        GrantAnswers(reg, v, attempt, manual, signal');
      }
    }
  }

  lemma GuardsDependOnTickets(a: Reg, b: Reg, v: VersionKey)
    requires a.active == b.active
    ensures a.GuardedLeaseActive(v.key, v.version.fingerprint) == b.GuardedLeaseActive(v.key, v.version.fingerprint)
  {
  }

  /** While a version requires action, only a manual probe is admitted, whatever the store answers. */
  lemma ActionRequiredAdmitsManualOnly(reg: Reg, v: VersionKey, attempt: string, signal: Signal, now: real,
                                       leaseOk: bool, save: SaveOutcome)
    requires Inv(reg) && v in reg.routes && reg.routes[v].actionRequired
    ensures var o := Acquire(reg, v, attempt, false, signal, now, leaseOk, save);
            o.reg == reg && !(o.result.Ok? && o.result.value.Allowed?)
  {
    assert RouteOk(reg.routes[v]);
  }

  // ----------------------------------------------------------------- durability

  /** With a store attached and persistence certain, the saved document is the export of memory. */
  predicate Synced(reg: Reg)
    requires reg.WellKeyed()
  {
    reg.attached && !reg.uncertain ==> reg.disk == Some(Export(reg))
  }

  lemma CommitSynced<T>(reg: Reg, next: Reg, value: T, save: SaveOutcome)
    requires reg.WellKeyed() && next.WellKeyed() && Synced(reg) && SameStore(reg, next)
    ensures var o := Commit(reg, next, value, save);
            o.reg.WellKeyed() && Synced(o.reg) && (o.result.Err? ==> SameMemory(reg, o.reg))
  {
    var saved := next.(disk := Some(Export(next)));
    forall k | k in next.current ensures CurrentDoc(saved, k) == CurrentDoc(next, k) {}
    ExportFrame(next, saved);
    if reg.attached && save.Uncertain? {
      var torn := reg.(uncertain := true, disk := if save.written then Some(Export(next)) else reg.disk);
      assert torn.WellKeyed();
    }
  }

  /** Everything the caller can see, besides the store and the latch. */
  predicate SameMemory(a: Reg, b: Reg) {
    b == a.(disk := b.disk, uncertain := b.uncertain)
  }

  /** Steps that save nothing touch nothing that is exported. */
  predicate Quiet(a: Reg, b: Reg)
    requires a.WellKeyed() && b.WellKeyed()
  {
    SameStore(a, b) && a.current == b.current && forall k <- a.current :: CurrentDoc(a, k) == CurrentDoc(b, k)
  }

  lemma QuietSynced(a: Reg, b: Reg)
    requires a.WellKeyed() && b.WellKeyed() && Quiet(a, b) && Synced(a)
    ensures Synced(b)
  {
    ExportFrame(a, b);
  }

  lemma GrantQuiet(reg: Reg, v: VersionKey, attempt: string, manual: bool, signal: Signal, leaseOk: bool)
    requires reg.WellKeyed() && v in reg.routes
    ensures Quiet(reg, Grant(reg, v, attempt, manual, signal, leaseOk).reg)
  {
    hide Reg.GuardedLeaseActive, Guarded, Quiet, Reg.WellKeyed;
    var next := Grant(reg, v, attempt, manual, signal, leaseOk).reg;
    if next.routes == reg.routes {
      SameRoutesQuiet(reg, next);
    } else {
      LeaseIsQuiet(reg, next, v, Some(next.leaseSeq));
    }
  }

  lemma SameRoutesQuiet(a: Reg, b: Reg)
    requires a.WellKeyed() && b.WellKeyed() && SameStore(a, b) && a.current == b.current && a.routes == b.routes
    ensures Quiet(a, b)
  {
  }

  /** A lease is not exported. */
  lemma LeaseIsQuiet(a: Reg, b: Reg, v: VersionKey, lease: Option<nat>)
    requires a.WellKeyed() && b.WellKeyed() && SameStore(a, b) && a.current == b.current && v in a.routes
    requires b.routes == a.routes[v := a.routes[v].(leaseId := lease)]
    ensures Quiet(a, b)
  {
  }

  lemma FreedQuiet(reg: Reg, t: Ticket, reason: Reason)
    requires reg.WellKeyed() && Matches(reg, t) && |reg.log| <= reg.capacity
    ensures Quiet(reg, Observed(reg, t, Freed(reg, t), reason))
  {
    ObservedRoutes(reg, t, Freed(reg, t), reason);
    var next := Observed(reg, t, Freed(reg, t), reason);
    hide Observed;
    forall k | k in reg.current
      ensures CurrentDoc(reg, k) == CurrentDoc(next, k)
    {
      assert VersionKey(k, next.current[k]) in next.routes;
    }
  }

  lemma PruneQuiet(reg: Reg, v: VersionKey)
    requires reg.WellKeyed()
    ensures Quiet(reg, Prune(reg, v))
  {
  }

  lemma {:induction false} ReleaseQuiet(reg: Reg, vs: seq<VersionKey>)
    requires reg.WellKeyed()
    ensures Quiet(reg, Release(reg, vs).reg)
    decreases |vs|
  {
    if vs != [] && PinCount(reg.pins, vs[0]) > 0 {
      var v := vs[0];
      var pins := if PinCount(reg.pins, v) <= 1 then reg.pins - {v} else reg.pins[v := reg.pins[v] - 1];
      var lowered := reg.(pins := pins);
      assert Quiet(reg, lowered);
      PruneQuiet(lowered, v);
      hide Prune;
      ReleaseQuiet(Prune(lowered, v), vs[1..]);
    }
  }

  lemma ObserveSynced(reg: Reg, t: Ticket, seen: Result<Runtime>, reason: Reason, save: SaveOutcome)
    requires reg.WellKeyed() && Synced(reg) && Matches(reg, t)
    ensures Synced(Observe(reg, t, seen, reason, save).reg)
  {
    if seen.Ok? {
      var next := Observed(reg, t, seen.value, reason);
      hide Observed, Commit;
      CommitSynced(reg, next, Applied, save);
    }
  }

  lemma AcquireSynced(reg: Reg, v: VersionKey, attempt: string, manual: bool, signal: Signal, now: real,
                      leaseOk: bool, save: SaveOutcome)
    requires reg.WellKeyed() && Synced(reg)
    ensures Synced(Acquire(reg, v, attempt, manual, signal, now, leaseOk, save).reg)
  {
    hide Grant, Commit, EnterHalfOpen, Export, Synced, Quiet;
    var signal' := if manual then Probe else signal;
    if v in reg.routes {
      GrantQuiet(reg, v, attempt, manual, signal', leaseOk);
      QuietSynced(reg, Grant(reg, v, attempt, manual, signal', leaseOk).reg);
      var reason := if manual then ManualProbeStarted else CooldownElapsed;
      EnterSynced(reg, v, reason, save);
      var entered := EnterHalfOpen(reg, v, reason, save).reg;
      GrantQuiet(entered, v, attempt, manual, signal', leaseOk);
      QuietSynced(entered, Grant(entered, v, attempt, manual, signal', leaseOk).reg);
    }
  }

  lemma EnterSynced(reg: Reg, v: VersionKey, reason: Reason, save: SaveOutcome)
    requires reg.WellKeyed() && Synced(reg) && v in reg.routes
    ensures Synced(EnterHalfOpen(reg, v, reason, save).reg)
  {
    var rt := reg.routes[v];
    if Transition(rt, HalfOpen).Ok? {
      var next := Transition(rt, HalfOpen).value;
      CommitSynced(reg,
                   reg.(routes := reg.routes[v := next],
                        active := if next.epoch == rt.epoch then reg.active else Without(reg.active, v),
                        log := Logged(reg, v, rt.state, next, reason)),
                   (), save);
    }
  }

  /**
   The one operation that can part memory from disk without latching: a repeated
   `restore_from_store` whose save commits and then reports an uncertain outcome, while the
   restore itself was accepted and reopened a HALF_OPEN route.
   */
  predicate UnlatchedCommit(reg: Reg, op: Op) {
    && op.OpRestoreFromStore?
    && op.save == Uncertain(true)
    && reg.attached && !reg.uncertain && reg.active == map[]
    && Exportable(reg) && ProbeInFlight(reg)
  }

  lemma AttachSynced<T>(reg: Reg, next: Reg, value: T, save: SaveOutcome)
    requires reg.WellKeyed() && next.WellKeyed() && Synced(reg) && SameStore(reg, next) && !reg.uncertain
    ensures Synced(SaveAndAttach(reg, next, value, save).reg)
       <==> !(save == Uncertain(true) && reg.attached && Export(next) != Export(reg))
  {
    hide Export;
    var saved := next.(disk := Some(Export(next)), attached := true);
    forall k | k in next.current ensures CurrentDoc(saved, k) == CurrentDoc(next, k) {}
    ExportFrame(next, saved);
    if save.Uncertain? {
      var torn := reg.(disk := if save.written then Some(Export(next)) else reg.disk);
      forall k | k in reg.current ensures CurrentDoc(torn, k) == CurrentDoc(reg, k) {}
      ExportFrame(reg, torn);
    }
  }

  lemma RestoreFromStoreSynced(reg: Reg, now: real, save: SaveOutcome)
    requires Inv(reg) && Synced(reg)
    ensures Synced(RestoreFromStore(reg, now, save).reg) <==> !UnlatchedCommit(reg, OpRestoreFromStore(now, save))
  {
    hide Export, RestoreDocument, SaveAndAttach, Inv, ProbeInFlight, Exportable;
    InvKeyed(reg);
    if !reg.uncertain && reg.active == map[] {
      AttachSynced<nat>(reg, reg, 0, save);
      if reg.disk.Some? && RestoreDocument(reg, reg.disk.value, now).Ok? {
        var res := RestoreDocument(reg, reg.disk.value, now).value;
        AttachSynced(reg, res.reg, res.count, save);
      }
      ExportAccepted(reg, reg, now);
      if reg.attached && Exportable(reg) {
        OwnExportIsFixpoint(reg, now);
      }
    }
  }

  /**
   Durability of one step: the saved document stays the export of memory, except after exactly
   the steps `UnlatchedCommit` names.
   */
  lemma StepSynced(reg: Reg, op: Op)
    requires Inv(reg) && Permitted(reg, op) && Synced(reg)
    ensures Synced(Next(reg, op).reg) <==> !UnlatchedCommit(reg, op)
  {
    hide ConfigureRoute, ConfigureRoutes, Acquire, RecordSuccess, RecordFailure, RecordCancelled, Abandon, Pin,
         Release, Restore, AttachStore, RestoreFromStore, Inv, Synced, Exportable;
    InvKeyed(reg);
    match op
    case OpConfigureRoute(r, save) => ConfigureRouteSynced(reg, r, save);
    case OpConfigureRoutes(rs, scope, save) => ConfigureRoutesSynced(reg, rs, scope, save);
    case OpAcquire(v, attempt, manual, signal, now, leaseOk, save) =>
      AcquireSynced(reg, v, attempt, manual, signal, now, leaseOk, save);
    case OpSuccess(t, now, save) => SuccessSynced(reg, t, now, save);
    case OpFailure(t, kind, category, status, now, fraction, save) =>
      FailureSynced(reg, t, kind, category, status, now, fraction, save);
    case OpCancel(t, save) => CancelSynced(reg, t, save);
    case OpAbandon(t) => AbandonSynced(reg, t);
    case OpPin(vs) => PinSynced(reg, vs);
    case OpRelease(vs) =>
      ReleaseQuiet(reg, vs);
      QuietSynced(reg, Release(reg, vs).reg);
    case OpRestore(doc, now, save) => RestoreSynced(reg, doc, now, save);
    case OpAttach(save) => AttachStoreSynced(reg, save);
    case OpRestoreFromStore(now, save) => RestoreFromStoreSynced(reg, now, save);
  }

  lemma ConfigureRouteSynced(reg: Reg, r: Registration, save: SaveOutcome)
    requires reg.WellKeyed() && Synced(reg)
    ensures Synced(ConfigureRoute(reg, r, save).reg)
  {
    hide Configured, Commit, Export;
    if Configured(reg, r).Ok? {
      CommitSynced(reg, Configured(reg, r).value, (), save);
    }
  }

  lemma ConfigureRoutesSynced(reg: Reg, rs: seq<Registration>, scope: RetireScope, save: SaveOutcome)
    requires reg.WellKeyed() && Synced(reg)
    ensures Synced(ConfigureRoutes(reg, rs, scope, save).reg)
  {
    hide ConfiguredAll, Retired, Commit, Export;
    if rs != [] && DistinctKeys(rs) && ConfiguredAll(reg, rs).Ok? {
      CommitSynced(reg, Retired(ConfiguredAll(reg, rs).value, scope, rs), (), save);
    }
  }

  lemma SuccessSynced(reg: Reg, t: Ticket, now: real, save: SaveOutcome)
    requires reg.WellKeyed() && Synced(reg)
    ensures Synced(RecordSuccess(reg, t, now, save).reg)
  {
    hide Observe, OnSuccess, Freed, Synced;
    if Matches(reg, t) {
      ObserveSynced(reg, t, OnSuccess(Freed(reg, t), t.signal, now),
                    if t.signal == Probe then ProbeSucceeded else BusinessSucceeded, save);
    }
  }

  lemma FailureSynced(reg: Reg, t: Ticket, kind: FailureKind, category: Category, status: Option<int>,
                      now: real, fraction: real, save: SaveOutcome)
    requires reg.WellKeyed() && Synced(reg)
    ensures Synced(RecordFailure(reg, t, kind, category, status, now, fraction, save).reg)
  {
    hide Observe, OnFailure, AsFailure, Freed, Synced;
    if Matches(reg, t) {
      var rt := Freed(reg, t);
      ObserveSynced(reg, t, OnFailure(rt, t.signal, AsFailure(rt, kind, category, status), now, fraction),
                    if t.signal == Probe then ProbeFailed else BusinessFailed, save);
    }
  }

  lemma CancelSynced(reg: Reg, t: Ticket, save: SaveOutcome)
    requires Inv(reg) && Synced(reg)
    ensures Synced(RecordCancelled(reg, t, save).reg)
  {
    if Matches(reg, t) {
      hide Observe, Observed, OnCancel, Synced;
      ObserveSynced(reg, t, OnCancel(Freed(reg, t)), ProbeCancelled, save);
      FreedQuiet(reg, t, ProbeCancelled);
      QuietSynced(reg, Observed(reg, t, Freed(reg, t), ProbeCancelled));
    }
  }

  lemma AbandonSynced(reg: Reg, t: Ticket)
    requires Inv(reg) && Synced(reg)
    ensures Synced(Abandon(reg, t).reg)
  {
    if Matches(reg, t) {
      hide Observed, Synced;
      FreedQuiet(reg, t, ProbeCancelled);
      QuietSynced(reg, Observed(reg, t, Freed(reg, t), ProbeCancelled));
    }
  }

  lemma PinSynced(reg: Reg, vs: seq<VersionKey>)
    requires reg.WellKeyed() && Synced(reg)
    ensures Pin(reg, vs).reg.WellKeyed() && Synced(Pin(reg, vs).reg)
  {
    if Pin(reg, vs).result.Ok? {
      assert Quiet(reg, Pin(reg, vs).reg);
      QuietSynced(reg, Pin(reg, vs).reg);
    }
  }

  lemma RestoreSynced(reg: Reg, doc: Document, now: real, save: SaveOutcome)
    requires reg.WellKeyed() && Synced(reg)
    ensures Synced(Restore(reg, doc, now, save).reg)
  {
    hide RestoreDocument, Commit, Export;
    if reg.active == map[] && RestoreDocument(reg, doc, now).Ok? {
      var res := RestoreDocument(reg, doc, now).value;
      CommitSynced(reg, res.reg, res.count, save);
    }
  }

  lemma AttachStoreSynced(reg: Reg, save: SaveOutcome)
    requires reg.WellKeyed() && Synced(reg)
    ensures Synced(AttachStore(reg, save).reg)
  {
    hide SaveAndAttach, Export;
    if !reg.uncertain {
      AttachSynced(reg, reg, (), save);
    }
  }

  // ------------------------------------------------------------- failed saves

  predicate SaveFailure(e: BreakerError) {
    e == SaveRejected || e == CommitUncertain
  }

  lemma AcquireFailedSave(reg: Reg, v: VersionKey, attempt: string, manual: bool, signal: Signal, now: real,
                          leaseOk: bool, save: SaveOutcome)
    requires reg.WellKeyed()
    ensures var o := Acquire(reg, v, attempt, manual, signal, now, leaseOk, save);
            o.result.Err? && SaveFailure(o.result.error) ==> SameMemory(reg, o.reg)
  {
    hide Grant, EnterHalfOpen;
    var signal' := if manual then Probe else signal;
    if v in reg.routes {
      var reason := if manual then ManualProbeStarted else CooldownElapsed;
      EnterFailedSave(reg, v, reason, save);
      GrantNeverSaves(EnterHalfOpen(reg, v, reason, save).reg, v, attempt, manual, signal', leaseOk);
      GrantNeverSaves(reg, v, attempt, manual, signal', leaseOk);
    }
  }

  lemma EnterFailedSave(reg: Reg, v: VersionKey, reason: Reason, save: SaveOutcome)
    requires reg.WellKeyed() && v in reg.routes
    ensures var o := EnterHalfOpen(reg, v, reason, save);
            o.result.Err? ==> SameMemory(reg, o.reg)
  {
  }

  lemma GrantNeverSaves(reg: Reg, v: VersionKey, attempt: string, manual: bool, signal: Signal, leaseOk: bool)
    requires reg.WellKeyed() && v in reg.routes
    ensures var o := Grant(reg, v, attempt, manual, signal, leaseOk);
            o.result.Err? ==> !SaveFailure(o.result.error)
  {
  }

  lemma ObserveFailedSave(reg: Reg, t: Ticket, seen: Result<Runtime>, reason: Reason, save: SaveOutcome)
    requires reg.WellKeyed() && Matches(reg, t)
    ensures var o := Observe(reg, t, seen, reason, save);
            o.result.Err? ==> SameMemory(reg, o.reg)
  {
    hide Observed;
  }

  lemma {:induction false} ReleaseNeverSaves(reg: Reg, vs: seq<VersionKey>)
    ensures Release(reg, vs).result.Err? ==> !SaveFailure(Release(reg, vs).result.error)
    decreases |vs|
  {
    if vs != [] && PinCount(reg.pins, vs[0]) > 0 {
      ReleaseNeverSaves(Unpinned(reg, vs[0]), vs[1..]);
    }
  }

  lemma ConfigureFailedSave(reg: Reg, op: Op)
    requires reg.WellKeyed() && (op.OpConfigureRoute? || op.OpConfigureRoutes? || op.OpRestore? || op.OpRestoreFromStore?)
    ensures Next(reg, op).reply.Failed? ==> SameMemory(reg, Next(reg, op).reg)
  {
    hide Acquire, RecordSuccess, RecordFailure, RecordCancelled, Abandon, Pin, Release, AttachStore, Configured,
         ConfiguredAll, Retired, RestoreDocument, Export, Reg.WellKeyed;
  }

  lemma ObservationFailedSave(reg: Reg, op: Op)
    requires reg.WellKeyed() && IsObservation(op)
    ensures Next(reg, op).reply.Failed? ==> SameMemory(reg, Next(reg, op).reg)
  {
    hide Acquire, ConfigureRoute, ConfigureRoutes, Pin, Release, AttachStore, Restore, RestoreFromStore,
         Observe, Observed, OnSuccess, OnFailure, OnCancel, AsFailure, Reg.WellKeyed, Freed;
    var t := op.ticket;
    if Matches(reg, t) {
      var rt := Freed(reg, t);
      match op
      case OpSuccess(_, now, save) =>
        ObserveFailedSave(reg, t, OnSuccess(rt, t.signal, now),
                          if t.signal == Probe then ProbeSucceeded else BusinessSucceeded, save);
      case OpFailure(_, kind, category, status, now, fraction, save) =>
        ObserveFailedSave(reg, t, OnFailure(rt, t.signal, AsFailure(rt, kind, category, status), now, fraction),
                          if t.signal == Probe then ProbeFailed else BusinessFailed, save);
      case OpCancel(_, save) => ObserveFailedSave(reg, t, OnCancel(rt), ProbeCancelled, save);
      case OpAbandon(_) =>
    }
  }

  /** An operation whose save fails leaves routes, current versions, tickets, pins and log as they were. */
  lemma FailedSaveKeepsMemory(reg: Reg, op: Op)
    requires reg.WellKeyed()
    requires Next(reg, op).reply.Failed? && SaveFailure(Next(reg, op).reply.error)
    ensures SameMemory(reg, Next(reg, op).reg)
  {
    if IsObservation(op) {
      hide Next;
      ObservationFailedSave(reg, op);
    } else if op.OpConfigureRoute? || op.OpConfigureRoutes? || op.OpRestore? || op.OpRestoreFromStore? {
      hide Next;
      ConfigureFailedSave(reg, op);
    } else {
      hide ConfigureRoute, ConfigureRoutes, Acquire, RecordSuccess, RecordFailure, RecordCancelled, Abandon,
           Release, Restore, RestoreFromStore, Export, Reg.WellKeyed;
      match op
      case OpAcquire(v, attempt, manual, signal, now, leaseOk, save) =>
        AcquireFailedSave(reg, v, attempt, manual, signal, now, leaseOk, save);
      case OpRelease(vs) => ReleaseNeverSaves(reg, vs);
      case OpPin(_) =>
      case OpAttach(_) =>
    }
  }
}
