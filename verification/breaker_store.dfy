/** What one step of the registry leaves in the store, and what it would leave in memory. */
module BreakerStore {
  import opened Common
  import opened BreakerRoute
  import opened BreakerKeys
  import opened BreakerSpec
  import opened BreakerInvariant
  import opened BreakerRestore
  import opened BreakerTheorems
  import opened BreakerEvolution

  /** A save that was written counts as made, also when the store could not say so. */
  function LandedSave(save: SaveOutcome): SaveOutcome {
    if save == Uncertain(true) then Saved else save
  }

  predicate Saves(op: Op) {
    !(op.OpAbandon? || op.OpPin? || op.OpRelease?)
  }

  /** The operation as it reached the store. */
  function Landed(op: Op): Op {
    if Saves(op) then op.(save := LandedSave(op.save)) else op
  }

  /** The registry that the store knows of after the operation. */
  function Land(reg: Reg, op: Op): (l: Reg)
    requires reg.WellKeyed()
    ensures l.WellKeyed()
  {
    Next(reg, Landed(op)).reg
  }

  predicate IsAttach(op: Op) {
    op.OpAttach? || op.OpRestoreFromStore?
  }

  /**
   From `reg` to `n`, while the store sees `l`: the document is the old one or the export of `l`;
   memory is that of `l`, or latched and unchanged.
   */
  predicate Stored(reg: Reg, n: Reg, l: Reg)
    requires l.WellKeyed()
  {
    && n.attached == reg.attached
    && (n.disk == reg.disk || (reg.attached && !reg.uncertain && n.disk == Some(Export(l))))
    && (reg.uncertain ==> n.uncertain)
    && (n.uncertain && !reg.uncertain ==> reg.attached && n.routes == reg.routes && n.current == reg.current)
    && (!n.uncertain ==> n.routes == l.routes && n.current == l.current)
  }

  predicate SameRoutes(a: Reg, b: Reg) {
    a.routes == b.routes && a.current == b.current
  }

  lemma ExportIgnoresStore(a: Reg, b: Reg)
    requires a.WellKeyed() && b.WellKeyed() && SameRoutes(a, b)
    ensures Export(a) == Export(b)
  {
    hide Export;
    ExportFrame(a, b);
  }

  lemma CommitStored<T>(reg: Reg, next: Reg, value: T, save: SaveOutcome)
    requires reg.WellKeyed() && next.WellKeyed() && SameStore(reg, next)
    ensures var n, l := Commit(reg, next, value, save), Commit(reg, next, value, LandedSave(save));
            && l.reg.WellKeyed() && Stored(reg, n.reg, l.reg)
            && (l.result.Err? ==> SameRoutes(reg, l.reg))
            && (l.result.Ok? ==> !reg.uncertain && SameRoutes(next, l.reg))
            && (l.result.Ok? && reg.attached ==> n.reg.disk == Some(Export(l.reg)))
  {
    hide Export, Reg.WellKeyed;
    var l := Commit(reg, next, value, LandedSave(save)).reg;
    CommitKeyed(reg, next, value, LandedSave(save));
    if reg.attached && !reg.uncertain && LandedSave(save) == Saved {
      ExportIgnoresStore(next, l);
    }
  }

  lemma CommitKeyed<T>(reg: Reg, next: Reg, value: T, save: SaveOutcome)
    requires reg.WellKeyed() && next.WellKeyed()
    ensures Commit(reg, next, value, save).reg.WellKeyed()
  {
    hide Export;
  }

  lemma QuietStored(reg: Reg, n: Reg)
    requires n.WellKeyed() && SameStore(reg, n) && !(reg.uncertain && n.disk != reg.disk)
    ensures Stored(reg, n, n)
  {
  }

  // ------------------------------------------------------------ operation by operation

  lemma ConfigureStored(reg: Reg, op: Op)
    requires reg.WellKeyed() && IsConfigure(op)
    ensures var n, l := Next(reg, op).reg, Land(reg, op);
            && Stored(reg, n, l)
            && (SameRoutes(reg, l) || (!reg.uncertain && (reg.attached ==> n.disk == Some(Export(l)))))
  {
    hide Configured, ConfiguredAll, Retired, Commit, Export, Stored, Reg.WellKeyed;
    NothingStored(reg);
    match op
    case OpConfigureRoute(r, save) =>
      if Configured(reg, r).Ok? {
        CommitStored(reg, Configured(reg, r).value, (), save);
      }
    case OpConfigureRoutes(rs, scope, save) =>
      if rs != [] && DistinctKeys(rs) && ConfiguredAll(reg, rs).Ok? {
        CommitStored(reg, Retired(ConfiguredAll(reg, rs).value, scope, rs), (), save);
      }
  }

  lemma NothingStored(reg: Reg)
    requires reg.WellKeyed()
    ensures Stored(reg, reg, reg)
  {
    hide Export;
  }

  lemma ObserveStored(reg: Reg, t: Ticket, seen: Result<Runtime>, reason: Reason, save: SaveOutcome)
    requires reg.WellKeyed() && Matches(reg, t)
    ensures var n, l := Observe(reg, t, seen, reason, save), Observe(reg, t, seen, reason, LandedSave(save));
            && Stored(reg, n.reg, l.reg)
            && (l.result.Ok? ==> !reg.uncertain && (reg.attached ==> n.reg.disk == Some(Export(l.reg))))
  {
    hide Observed, Commit, Export, Stored, Reg.WellKeyed;
    NothingStored(reg);
    if seen.Ok? {
      CommitStored(reg, Observed(reg, t, seen.value, reason), Applied, save);
    }
  }

  lemma SuccessStored(reg: Reg, op: Op)
    requires reg.WellKeyed() && op.OpSuccess?
    ensures var n, l := Next(reg, op).reg, Next(reg, Landed(op));
            && Stored(reg, n, l.reg)
            && (l.reply == Seen(Applied) ==> !reg.uncertain && (reg.attached ==> n.disk == Some(Export(l.reg))))
  {
    hide Observe, OnSuccess, Freed, Export, Stored, Reg.WellKeyed;
    NothingStored(reg);
    var t := op.ticket;
    if Matches(reg, t) {
      ObserveStored(reg, t, OnSuccess(Freed(reg, t), t.signal, op.now),
                    if t.signal == Probe then ProbeSucceeded else BusinessSucceeded, op.save);
    }
  }

  lemma FailureStored(reg: Reg, op: Op)
    requires reg.WellKeyed() && op.OpFailure?
    ensures var n, l := Next(reg, op).reg, Next(reg, Landed(op));
            && Stored(reg, n, l.reg)
            && (l.reply == Seen(Applied) ==> !reg.uncertain && (reg.attached ==> n.disk == Some(Export(l.reg))))
  {
    hide Observe, OnFailure, AsFailure, Freed, Export, Stored, Reg.WellKeyed;
    NothingStored(reg);
    var t := op.ticket;
    if Matches(reg, t) && ValidStatus(op.status) {
      var rt := Freed(reg, t);
      ObserveStored(reg, t, OnFailure(rt, t.signal, AsFailure(rt, op.kind, op.category, op.status), op.now, op.fraction),
                    if t.signal == Probe then ProbeFailed else BusinessFailed, op.save);
    }
  }

  lemma CancelStored(reg: Reg, op: Op)
    requires Inv(reg) && op.OpCancel?
    ensures Stored(reg, Next(reg, op).reg, Land(reg, op))
  {
    hide Observe, Observed, OnCancel, Freed, Export, Stored, Inv, Reg.WellKeyed;
    InvKeyed(reg);
    NothingStored(reg);
    var t := op.ticket;
    if Matches(reg, t) {
      ObserveStored(reg, t, OnCancel(Freed(reg, t)), ProbeCancelled, op.save);
      QuietStored(reg, Observed(reg, t, Freed(reg, t), ProbeCancelled));
    }
  }

  lemma EnterStored(reg: Reg, v: VersionKey, reason: Reason, save: SaveOutcome)
    requires reg.WellKeyed() && v in reg.routes
    ensures var n, l := EnterHalfOpen(reg, v, reason, save), EnterHalfOpen(reg, v, reason, LandedSave(save));
            && Stored(reg, n.reg, l.reg)
            && (n.result.Ok? ==> l == n && !n.reg.uncertain)
            && (n.result.Err? && !n.reg.uncertain ==> l == n)
  {
    hide Without, Logged, Export, Stored;
    NothingStored(reg);
    var rt := reg.routes[v];
    if Transition(rt, HalfOpen).Ok? {
      var next := Transition(rt, HalfOpen).value;
      var entered := reg.(routes := reg.routes[v := next],
                          active := if next.epoch == rt.epoch then reg.active else Without(reg.active, v),
                          log := Logged(reg, v, rt.state, next, reason));
      CommitStored(reg, entered, (), save);
    }
  }

  /** A grant after it changes nothing that is exported. */
  lemma GrantedStored(reg: Reg, n: Reg, l: Reg, l': Reg)
    requires l.WellKeyed() && l'.WellKeyed() && Stored(reg, n, l) && Quiet(l, l') && n.uncertain
    ensures Stored(reg, n, l')
  {
    hide Export;
    ExportFrame(l, l');
  }

  lemma BothGrantedStored(reg: Reg, n: Reg, l: Reg, n': Reg)
    requires l.WellKeyed() && n'.WellKeyed() && n.WellKeyed() && Stored(reg, n, l) && n == l && Quiet(n, n') && !n.uncertain
    ensures Stored(reg, n', n')
  {
    hide Export;
    ExportFrame(n, n');
  }

  lemma AcquireStored(reg: Reg, op: Op)
    requires reg.WellKeyed() && op.OpAcquire?
    ensures Stored(reg, Next(reg, op).reg, Land(reg, op))
  {
    hide Grant, EnterHalfOpen, Export, Stored, Quiet, CoolingDown;
    NothingStored(reg);
    var v := op.version;
    var signal := if op.manual then Probe else op.signal;
    if v in reg.routes {
      var direct := Grant(reg, v, op.attempt, op.manual, signal, op.leaseOk).reg;
      GrantQuiet(reg, v, op.attempt, op.manual, signal, op.leaseOk);
      QuietIsStored(reg, direct);
      var reason := if op.manual then ManualProbeStarted else CooldownElapsed;
      var n, l := EnterHalfOpen(reg, v, reason, op.save), EnterHalfOpen(reg, v, reason, LandedSave(op.save));
      EnterStored(reg, v, reason, op.save);
      var granted := Grant(l.reg, v, op.attempt, op.manual, signal, op.leaseOk).reg;
      GrantQuiet(l.reg, v, op.attempt, op.manual, signal, op.leaseOk);
      if n.result.Ok? {
        BothGrantedStored(reg, n.reg, l.reg, granted);
      } else if n.reg.uncertain {
        GrantedStored(reg, n.reg, l.reg, granted);
      }
    }
  }

  lemma QuietIsStored(reg: Reg, n: Reg)
    requires reg.WellKeyed() && n.WellKeyed() && Quiet(reg, n)
    ensures Stored(reg, n, n)
  {
    hide Export;
  }

  lemma RestoreStored(reg: Reg, op: Op)
    requires reg.WellKeyed() && op.OpRestore?
    ensures Stored(reg, Next(reg, op).reg, Land(reg, op))
    ensures reg.uncertain ==> SameRoutes(reg, Land(reg, op))
  {
    hide RestoreDocument, Commit, Export, Stored, Reg.WellKeyed;
    NothingStored(reg);
    if reg.active == map[] && RestoreDocument(reg, op.document, op.now).Ok? {
      var res := RestoreDocument(reg, op.document, op.now).value;
      CommitStored(reg, res.reg, res.count, op.save);
    }
  }

  lemma RestStored(reg: Reg, op: Op)
    requires reg.WellKeyed() && (op.OpPin? || op.OpRelease? || op.OpAbandon?)
    ensures Stored(reg, Next(reg, op).reg, Land(reg, op))
  {
    hide Observed, Export, Stored, Reg.WellKeyed, Freed, Prune;
    NothingStored(reg);
    match op
    case OpAbandon(t) =>
      if Matches(reg, t) {
        QuietStored(reg, Observed(reg, t, Freed(reg, t), ProbeCancelled));
      }
    case OpPin(vs) => QuietStored(reg, Pin(reg, vs).reg);
    case OpRelease(vs) =>
      ReleaseQuiet(reg, vs);
      QuietIsStored(reg, Release(reg, vs).reg);
  }

  /** Every operation that does not attach a store. */
  lemma StepStored(reg: Reg, op: Op)
    requires Inv(reg) && !IsAttach(op)
    ensures reg.WellKeyed() && Stored(reg, Next(reg, op).reg, Land(reg, op))
  {
    hide Next, Stored, Inv;
    InvKeyed(reg);
    match op
    case OpConfigureRoute(_, _) => ConfigureStored(reg, op);
    case OpConfigureRoutes(_, _, _) => ConfigureStored(reg, op);
    case OpAcquire(_, _, _, _, _, _, _) => AcquireStored(reg, op);
    case OpSuccess(_, _, _) => SuccessStored(reg, op);
    case OpFailure(_, _, _, _, _, _, _) => FailureStored(reg, op);
    case OpCancel(_, _) => CancelStored(reg, op);
    case OpRestore(_, _, _) => RestoreStored(reg, op);
    case OpAbandon(_) => RestStored(reg, op);
    case OpPin(_) => RestStored(reg, op);
    case OpRelease(_) => RestStored(reg, op);
  }

  /** Attaching, with or without a restore: memory and document, from the four answers of the store. */
  predicate AttachedTo(reg: Reg, n: Reg, l: Reg)
    requires l.WellKeyed()
  {
    && n.uncertain == reg.uncertain
    && (reg.attached ==> n.attached)
    && (n.disk == reg.disk || n.disk == Some(Export(l)))
    && (n.attached && !reg.attached ==> n.disk == Some(Export(l)) && SameRoutes(n, l))
    && (SameRoutes(n, reg) || (SameRoutes(n, l) && n.attached && n.disk == Some(Export(l))))
    && (reg.uncertain ==> n.disk == reg.disk && SameRoutes(reg, l))
  }

  lemma SaveAndAttachStored<T>(reg: Reg, next: Reg, value: T, save: SaveOutcome)
    requires reg.WellKeyed() && next.WellKeyed() && SameStore(reg, next) && !reg.uncertain
    ensures var n, l := SaveAndAttach(reg, next, value, save).reg, SaveAndAttach(reg, next, value, LandedSave(save)).reg;
            AttachedTo(reg, n, l)
  {
    hide Export;
    var l := SaveAndAttach(reg, next, value, LandedSave(save)).reg;
    if LandedSave(save) == Saved {
      ExportIgnoresStore(next, l);
    }
  }

  lemma AttachStepStored(reg: Reg, op: Op)
    requires reg.WellKeyed() && IsAttach(op)
    ensures AttachedTo(reg, Next(reg, op).reg, Land(reg, op))
  {
    hide RestoreDocument, SaveAndAttach, Export, AttachedTo, Reg.WellKeyed;
    NothingAttached(reg);
    if !reg.uncertain {
      match op
      case OpAttach(save) => SaveAndAttachStored(reg, reg, (), save);
      case OpRestoreFromStore(now, save) =>
        SaveAndAttachStored<nat>(reg, reg, 0, save);
        if reg.disk.Some? && RestoreDocument(reg, reg.disk.value, now).Ok? {
          var res := RestoreDocument(reg, reg.disk.value, now).value;
          SaveAndAttachStored(reg, res.reg, res.count, save);
        }
    }
  }

  lemma NothingAttached(reg: Reg)
    requires reg.WellKeyed()
    ensures AttachedTo(reg, reg, reg)
  {
    hide Export;
  }
}
