/**
 The registry over the life of an installation: processes that start, configure their routes, take
 over what the store holds, work, and stop at any point.
 */
module BreakerLife {
  import opened Common
  import opened BreakerRoute
  import opened BreakerKeys
  import opened BreakerSpec
  import opened BreakerInvariant
  import opened BreakerRestore
  import opened BreakerEvolution
  import opened BreakerStore

  datatype Happening = Act(op: Op) | Restart

  /** A new process: nothing in memory, the document as the last one left it. */
  function Reborn(reg: Reg): Reg {
    EMPTY.(disk := reg.disk, capacity := reg.capacity)
  }

  function After(reg: Reg, e: Happening): (r: Reg)
    requires reg.WellKeyed()
    ensures r.WellKeyed()
  {
    match e
    case Act(op) => Next(reg, op).reg
    case Restart => Reborn(reg)
  }

  /** The step applies no observation and replaces no version by a newer one. */
  predicate Still(reg: Reg, op: Op)
    requires reg.WellKeyed()
  {
    forall v <- Land(reg, op).routes :: !Applies(reg, Landed(op), v) && (v in reg.routes || v.key !in reg.current)
  }

  /**
   What a process keeps to: versions are fresh; while the document it found is not attached it only
   configures; and what it restores, other than that document, is what it now exports.
   */
  predicate Orderly(reg: Reg, e: Happening)
    requires reg.WellKeyed()
  {
    e.Act? ==>
      && Permitted(reg, e.op)
      && (!reg.attached && reg.disk.Some? ==> Still(reg, e.op))
      && (e.op.OpRestore? ==> e.op.document == Export(reg))
  }

  /** The start of a process is orderly: it configures its routes and takes over the document, whatever that is. */
  lemma StartIsOrderly(reg: Reg, configure: Op, now: real, save: SaveOutcome)
    requires IsConfigure(configure) && Inv(reg) && reg.WellKeyed()
    ensures Reborn(reg).WellKeyed() && Orderly(Reborn(reg), Act(configure))
    ensures Orderly(reg, Act(OpRestoreFromStore(now, save)))
  {
    hide Next, Inv;
    AttachIsStill(reg, OpRestoreFromStore(now, save));
    NotAnObservation(configure);
  }

  lemma NotAnObservation(op: Op)
    requires IsConfigure(op)
    ensures !(Landed(op).OpSuccess? || Landed(op).OpFailure?)
  {
  }

  // ------------------------------------------------------------------ the account

  type Tally = map<VersionKey, nat>

  function Read(tally: Tally, v: VersionKey): nat {
    if v in tally then tally[v] else 0
  }

  /**
   For each version, the successes applied since the last applied failure. A new revision of the same
   route carries the account of the version it replaces.
   */
  function Account(reg: Reg, op: Op, tally: Tally, v: VersionKey): nat
    requires reg.WellKeyed()
  {
    if Applies(reg, op, v) then (if op.OpSuccess? then Read(tally, v) + 1 else 0)
    else if v !in reg.routes && v.key in reg.current && reg.current[v.key].fingerprint == v.version.fingerprint then
      Read(tally, VersionKey(v.key, reg.current[v.key]))
    else Read(tally, v)
  }

  /** The account after an event; it outlives processes, and counts what was applied or written. */
  function TallyAfter(reg: Reg, e: Happening, tally: Tally): Tally
    requires reg.WellKeyed()
  {
    match e
    case Act(op) => tally + (map v | v in Land(reg, op).routes :: Account(reg, Landed(op), tally, v))
    case Restart => tally
  }

  // ---------------------------------------------------------------- the invariant

  /** The document route is about this version. */
  predicate IsAbout(d: RouteDoc, v: VersionKey) {
    d.key == v.key && d.revision == v.version.revision && d.fingerprint == v.version.fingerprint
  }

  /** No version is credited with more successes than were counted. */
  predicate Backed(reg: Reg, tally: Tally) {
    forall v <- reg.routes :: reg.routes[v].successes <= Read(tally, v)
  }

  ghost predicate DocumentBacked(disk: Option<Document>, tally: Tally) {
    disk.Some? ==> forall d <- disk.value.routes, v: VersionKey :: IsAbout(d, v) ==> d.successes <= Read(tally, v)
  }

  /** The document route shows the version as it is configured, with its counters. */
  predicate Marks(d: RouteDoc, version: Version, rt: Runtime) {
    Describes(d, version, rt) && d.successes == rt.successes && d.openCount == rt.openCount
  }

  predicate AnchoredAt(reg: Reg, d: RouteDoc)
    requires reg.WellKeyed()
  {
    d.key in reg.current ==>
      var rt := reg.routes[VersionKey(d.key, reg.current[d.key])];
      && (reg.attached ==> Marks(d, reg.current[d.key], rt))
      && (Describes(d, reg.current[d.key], rt) && Failing(rt.state) ==> d.state != Closed)
  }

  /** The document never claims a recovery that memory does not know of; attached, it has memory's counters. */
  predicate Anchored(reg: Reg)
    requires reg.WellKeyed()
  {
    !reg.uncertain ==>
      && (reg.attached ==> reg.disk.Some?)
      && (reg.disk.Some? ==> forall d <- reg.disk.value.routes :: AnchoredAt(reg, d))
  }

  ghost predicate LifeInv(reg: Reg, tally: Tally) {
    && Inv(reg)
    && (!reg.uncertain ==> Backed(reg, tally)) && DocumentBacked(reg.disk, tally)
    && Anchored(reg)
    && (reg.disk.Some? ==> DistinctDocs(reg.disk.value.routes))
  }

  // ----------------------------------------------------------------- observations

  lemma SuccessEarned(rt: Runtime, signal: Signal, now: real)
    requires OnSuccess(rt, signal, now).Ok?
    ensures var r := OnSuccess(rt, signal, now).value;
            && r.successes <= rt.successes + 1
            && r.policy == rt.policy
            && (rt.state == HalfOpen && r.state == Closed ==> r.successes >= rt.policy.recoveryThreshold)
            && (r.openCount == rt.openCount || r.state == Closed)
  {
  }

  lemma FailureForfeits(rt: Runtime, signal: Signal, f: Failure, now: real, fraction: real)
    requires OnFailure(rt, signal, f, now, fraction).Ok?
    ensures var r := OnFailure(rt, signal, f, now, fraction).value;
            && r.successes == 0
            && r.policy == rt.policy
            && (r.state == Closed ==> rt.state == Closed)
            && (r.openCount == rt.openCount || r.openCount == NextOpenCount(rt.openCount))
  {
  }

  /** The counters an applied observation leaves. */
  lemma EvidenceCounts(reg: Reg, op: Op, v: VersionKey, rt': Runtime)
    requires (op.OpSuccess? || op.OpFailure?) && op.ticket.version == v && Matches(reg, op.ticket) && Evidence(reg, op, rt')
    ensures var rt := reg.routes[v];
            && (if op.OpSuccess? then rt'.successes <= rt.successes + 1 else rt'.successes == 0)
            && (rt.state == HalfOpen && rt'.state == Closed ==> op.OpSuccess? && rt'.successes >= rt.policy.recoveryThreshold)
            && (rt'.openCount == rt.openCount || rt'.openCount == NextOpenCount(rt.openCount) || rt'.state == Closed)
  {
    hide OnSuccess, OnFailure, AsFailure;
    var rt := Freed(reg, op.ticket);
    if op.OpSuccess? {
      SuccessEarned(rt, op.ticket.signal, op.now);
    } else {
      FailureForfeits(rt, op.ticket.signal, AsFailure(rt, op.kind, op.category, op.status), op.now, op.fraction);
    }
  }

  /** Reading back one's own export touches no evidence. */
  lemma OwnExportUntouched(reg: Reg, v: VersionKey, rt': Runtime)
    requires reg.WellKeyed() && v in reg.routes && TakenFrom(reg, Export(reg), v, rt')
    ensures Untouched(reg.routes[v], rt')
  {
    hide Export, Describes;
    ExportedRoutes(reg);
    ExportListsAll(reg);
    if reg.IsCurrent(v) {
      var d :| d in Export(reg).routes && d.key == v.key;
      assert d == CurrentDoc(reg, v.key);
      OwnDocNames(reg, v);
    } else {
      assert forall d <- Export(reg).routes :: !Names(reg, d, v);
    }
  }

  lemma OwnDocNames(reg: Reg, v: VersionKey)
    requires reg.WellKeyed() && v in reg.routes && reg.IsCurrent(v)
    ensures Names(reg, CurrentDoc(reg, v.key), v)
  {
  }

  // -------------------------------------------------------------- backed, step by step

  /** Whatever lands, no version gets more credit than its account. */
  lemma StepBacked(reg: Reg, op: Op, tally: Tally, v: VersionKey)
    requires Inv(reg) && Permitted(reg, op) && Backed(reg, tally) && DocumentBacked(reg.disk, tally)
    requires reg.WellKeyed() && (op.OpRestore? ==> op.document == Export(reg)) && v in Next(reg, op).reg.routes
    ensures Next(reg, op).reg.routes[v].successes <= Account(reg, op, tally, v)
  {
    hide Next, Inv, Permitted, Export, Backed, DocumentBacked, Taken;
    RouteEvolution(reg, op, v);
    var rt' := Next(reg, op).reg.routes[v];
    if IsConfigure(op) {
      InstallBacked(reg, op, tally, v, rt');
    } else {
      IsBacked(reg, tally, v);
      if IsRestore(op) {
        RestoreBacked(reg, op, tally, v, rt');
      } else if Applies(reg, op, v) {
        hide Evidence;
        EvidenceMatches(reg, op, rt');
        EvidenceCounts(reg, op, v, rt');
      }
    }
  }

  lemma EvidenceMatches(reg: Reg, op: Op, rt': Runtime)
    requires Evidence(reg, op, rt')
    ensures (op.OpSuccess? || op.OpFailure?) && Matches(reg, op.ticket)
  {
  }

  lemma IsBacked(reg: Reg, tally: Tally, v: VersionKey)
    requires Backed(reg, tally) && v in reg.routes
    ensures reg.routes[v].successes <= Read(tally, v)
  {
  }

  lemma InstallBacked(reg: Reg, op: Op, tally: Tally, v: VersionKey, rt': Runtime)
    requires reg.WellKeyed() && IsConfigure(op) && Backed(reg, tally) && Inherits(reg, v, rt')
    ensures rt'.successes <= Account(reg, op, tally, v)
  {
    hide Next;
    if v in reg.routes {
      IsBacked(reg, tally, v);
    } else if v.key in reg.current {
      IsBacked(reg, tally, VersionKey(v.key, reg.current[v.key]));
    }
  }

  lemma RestoreBacked(reg: Reg, op: Op, tally: Tally, v: VersionKey, rt': Runtime)
    requires reg.WellKeyed() && IsRestore(op) && v in reg.routes && reg.routes[v].successes <= Read(tally, v)
    requires DocumentBacked(reg.disk, tally) && (op.OpRestore? ==> op.document == Export(reg))
    requires rt' == reg.routes[v] || (Source(reg, op).Some? && TakenFrom(reg, Source(reg, op).value, v, rt'))
    ensures rt'.successes <= Account(reg, op, tally, v)
  {
    hide Next, Export;
    if rt' != reg.routes[v] {
      if op.OpRestore? {
        OwnExportUntouched(reg, v, rt');
      } else {
        var d :| d in reg.disk.value.routes && Names(reg, d, v);
        assert IsAbout(d, v);
      }
    }
  }

  /** The account of a version that the step keeps still. */
  lemma StillAccount(reg: Reg, op: Op, tally: Tally, v: VersionKey)
    requires reg.WellKeyed() && !Applies(reg, op, v) && (v in reg.routes || v.key !in reg.current)
    ensures Account(reg, op, tally, v) == Read(tally, v)
  {
  }

  lemma StillTally(reg: Reg, op: Op, tally: Tally, v: VersionKey)
    requires reg.WellKeyed() && Still(reg, op)
    ensures Read(TallyAfter(reg, Act(op), tally), v) == Read(tally, v)
  {
    hide Next, Applies, Account, Land;
    if v in Land(reg, op).routes {
      StillAccount(reg, Landed(op), tally, v);
    }
  }

  lemma LandedPermitted(reg: Reg, op: Op)
    requires Permitted(reg, op)
    ensures Permitted(reg, Landed(op)) && IsConfigure(Landed(op)) == IsConfigure(op)
    ensures Landed(op).OpRestore? == op.OpRestore? && (op.OpRestore? ==> Landed(op).document == op.document)
  {
  }

  /** Of an attached registry that is certain, a step that leaves the document alone was still. */
  lemma UnsavedIsStill(reg: Reg, op: Op)
    requires Inv(reg) && Permitted(reg, op) && reg.WellKeyed()
    requires reg.uncertain || reg.attached
    ensures Still(reg, op) || (!reg.uncertain && Next(reg, op).reg.disk == Some(Export(Land(reg, op))))
  {
    hide Next, Inv, Export, Permitted, Stored;
    LandedPermitted(reg, op);
    if IsConfigure(op) {
      ConfigureStored(reg, op);
    } else if op.OpSuccess? {
      SuccessStored(reg, op);
    } else if op.OpFailure? {
      FailureStored(reg, op);
    }
    if SameRoutes(reg, Land(reg, op)) || !IsConfigure(op) {
      forall v | v in Land(reg, op).routes
        ensures v in reg.routes
      {
        if !IsConfigure(op) {
          RouteEvolution(reg, Landed(op), v);
        }
      }
    }
  }

  /** The export of what landed is backed by the new account. */
  lemma LandedBacked(reg: Reg, op: Op, tally: Tally)
    requires LifeInv(reg, tally) && reg.WellKeyed() && Orderly(reg, Act(op)) && !reg.uncertain
    ensures Backed(Land(reg, op), TallyAfter(reg, Act(op), tally))
    ensures DocumentBacked(Some(Export(Land(reg, op))), TallyAfter(reg, Act(op), tally))
  {
    hide Next, Inv, Permitted, Export, Account, Anchored;
    LandedPermitted(reg, op);
    var l, tally' := Land(reg, op), TallyAfter(reg, Act(op), tally);
    forall v | v in l.routes
      ensures l.routes[v].successes <= Read(tally', v)
    {
      StepBacked(reg, Landed(op), tally, v);
    }
    ExportBacked(l, tally');
  }

  lemma ExportBacked(reg: Reg, tally: Tally)
    requires reg.WellKeyed() && Backed(reg, tally)
    ensures DocumentBacked(Some(Export(reg)), tally)
  {
    hide Export;
    ExportedRoutes(reg);
    forall d, v: VersionKey | d in Export(reg).routes && IsAbout(d, v)
      ensures d.successes <= Read(tally, v)
    {
      assert v == VersionKey(d.key, reg.current[d.key]);
      IsBacked(reg, tally, v);
    }
  }

  lemma TallyFrame(disk: Option<Document>, reg: Reg, tally: Tally, tally': Tally)
    requires forall v :: Read(tally', v) == Read(tally, v)
    ensures DocumentBacked(disk, tally) ==> DocumentBacked(disk, tally')
    ensures Backed(reg, tally) ==> Backed(reg, tally')
  {
  }

  lemma EventBacked(reg: Reg, op: Op, tally: Tally)
    requires LifeInv(reg, tally) && reg.WellKeyed() && Orderly(reg, Act(op))
    ensures var n, tally' := Next(reg, op).reg, TallyAfter(reg, Act(op), tally);
            (!n.uncertain ==> Backed(n, tally')) && DocumentBacked(n.disk, tally')
  {
    hide Next, Inv, Permitted, Export, Anchored, Backed, DocumentBacked, Still, Land, TallyAfter, DistinctDocs;
    var n, l, tally' := Next(reg, op).reg, Land(reg, op), TallyAfter(reg, Act(op), tally);
    if IsAttach(op) { AttachStepStored(reg, op); } else { StepStored(reg, op); }
    if !reg.uncertain {
      LandedBacked(reg, op, tally);
    }
    if reg.uncertain || reg.attached {
      UnsavedIsStill(reg, op);
    }
    if IsAttach(op) {
      AttachIsStill(reg, op);
    }
    if Still(reg, op) {
      forall v ensures Read(tally', v) == Read(tally, v) { StillTally(reg, op, tally, v); }
      TallyFrame(reg.disk, reg, tally, tally');
    }
    if !n.uncertain {
      if SameRoutes(n, l) {
        BackedFrame(l, n, tally');
      } else {
        BackedFrame(reg, n, tally');
      }
    }
    if reg.disk.None? && n.disk == reg.disk {
      NoDocument(tally');
    }
  }

  lemma NoDocument(tally: Tally)
    ensures DocumentBacked(None, tally)
  {
  }

  lemma BackedFrame(a: Reg, b: Reg, tally: Tally)
    requires Backed(a, tally) && a.routes == b.routes
    ensures Backed(b, tally)
  {
  }

  lemma AttachIsStill(reg: Reg, op: Op)
    requires Inv(reg) && reg.WellKeyed() && IsAttach(op)
    ensures Still(reg, op)
  {
    hide Next, Inv;
    assert Permitted(reg, Landed(op));
    forall v | v in Land(reg, op).routes
      ensures v in reg.routes
    {
      RouteEvolution(reg, Landed(op), v);
    }
  }

  // ------------------------------------------------------------ anchored, step by step

  /** A document exported from the routes in memory is anchored in them. */
  lemma ExportAnchors(n: Reg, l: Reg)
    requires n.WellKeyed() && l.WellKeyed() && SameRoutes(n, l) && n.disk == Some(Export(l))
    ensures Anchored(n) && DistinctDocs(n.disk.value.routes)
  {
    hide Export;
    ExportedRoutes(l);
    forall d | d in n.disk.value.routes
      ensures AnchoredAt(n, d)
    {
      assert d == CurrentDoc(l, d.key);
    }
  }

  lemma ExportIsDistinct(l: Reg)
    requires l.WellKeyed()
    ensures DistinctDocs(Export(l).routes)
  {
    hide Export;
    ExportedRoutes(l);
  }

  /** What a still step leaves of a version: the evidence it had, or a fresh route. */
  predicate Calm(reg: Reg, v: VersionKey, rt': Runtime)
    requires reg.WellKeyed()
  {
    if v in reg.routes then Untouched(reg.routes[v], rt')
    else v.key !in reg.current && !Failing(rt'.state)
  }

  lemma StillIsCalm(reg: Reg, op: Op, v: VersionKey)
    requires Inv(reg) && reg.WellKeyed() && Permitted(reg, op) && Still(reg, op) && !IsAttach(op)
    requires (op.OpRestore? ==> op.document == Export(reg)) && v in Land(reg, op).routes
    ensures Calm(reg, v, Land(reg, op).routes[v])
  {
    hide Next, Inv, Permitted, Export, Evidence, Taken, Reconfigured;
    LandedPermitted(reg, op);
    RouteEvolution(reg, Landed(op), v);
    var rt' := Land(reg, op).routes[v];
    if op.OpRestore? && rt' != reg.routes[v] {
      hide TakenFrom;
      OwnExportUntouched(reg, v, rt');
    }
  }

  /** The same version is current after a still step, or a key has just got its first. */
  lemma StillCurrent(reg: Reg, op: Op, k: RouteKey)
    requires Inv(reg) && reg.WellKeyed() && Permitted(reg, op) && Still(reg, op) && k in Land(reg, op).current
    ensures if k in reg.current then Land(reg, op).current[k] == reg.current[k]
            else VersionKey(k, Land(reg, op).current[k]) !in reg.routes
  {
    hide Next, Inv, Permitted;
    LandedPermitted(reg, op);
    var l := Land(reg, op);
    assert VersionKey(k, l.current[k]) in l.routes;
    if IsConfigure(op) {
      StaysCurrent(reg, Landed(op), k);
    } else {
      CurrentChangesOnlyByConfigure(reg, Landed(op));
    }
  }

  /** A still step that leaves the document alone keeps it anchored. */
  lemma StillAnchored(reg: Reg, n: Reg, op: Op, d: RouteDoc)
    requires Inv(reg) && reg.WellKeyed() && n.WellKeyed() && Permitted(reg, op) && Still(reg, op) && !IsAttach(op)
    requires op.OpRestore? ==> op.document == Export(reg)
    requires n.attached == reg.attached && SameRoutes(n, Land(reg, op)) && AnchoredAt(reg, d)
    requires reg.attached ==> forall v <- Land(reg, op).routes :: v in reg.routes
    ensures AnchoredAt(n, d)
  {
    hide Next, Inv, Permitted, Export, Still;
    if d.key in n.current {
      var v := VersionKey(d.key, n.current[d.key]);
      assert v in n.routes;
      StillCurrent(reg, op, d.key);
      StillIsCalm(reg, op, v);
    }
  }

  /** The routes an attaching restore would put in place, seen from the routes that stay. */
  lemma RestoredAnchored(reg: Reg, n: Reg, op: Op)
    requires Inv(reg) && reg.WellKeyed() && n.WellKeyed() && Anchored(reg) && !reg.uncertain && IsAttach(op)
    requires SameRoutes(n, reg) && n.attached == reg.attached && n.disk == Some(Export(Land(reg, op)))
    ensures Anchored(n)
  {
    hide Next, Inv, Export, Taken;
    var l := Land(reg, op);
    ExportedRoutes(l);
    CurrentChangesOnlyByConfigure(reg, Landed(op));
    forall d | d in n.disk.value.routes
      ensures AnchoredAt(n, d)
    {
      var v := VersionKey(d.key, reg.current[d.key]);
      assert d == CurrentDoc(l, d.key) && v in l.routes;
      assert Permitted(reg, Landed(op));
      RouteEvolution(reg, Landed(op), v);
      RestoredShows(reg, op, v, l.routes[v], d);
    }
  }

  lemma RestoredShows(reg: Reg, op: Op, v: VersionKey, rt': Runtime, d: RouteDoc)
    requires reg.WellKeyed() && Anchored(reg) && !reg.uncertain && IsAttach(op)
    requires v in reg.routes && reg.IsCurrent(v) && d == ToDoc(v, rt')
    requires || Untouched(reg.routes[v], rt')
             || (op.OpRestoreFromStore? && reg.disk.Some? && TakenFrom(reg, reg.disk.value, v, rt'))
             || rt' == reg.routes[v]
    ensures AnchoredAt(reg, d)
  {
    if !Untouched(reg.routes[v], rt') && rt' != reg.routes[v] {
      var e :| e in reg.disk.value.routes && Names(reg, e, v);
      assert AnchoredAt(reg, e) && Taken(e, reg.routes[v], rt');
    }
  }

  lemma EventAnchored(reg: Reg, op: Op, tally: Tally)
    requires LifeInv(reg, tally) && reg.WellKeyed() && Orderly(reg, Act(op))
    ensures var n := Next(reg, op).reg;
            Anchored(n) && (n.disk.Some? ==> DistinctDocs(n.disk.value.routes))
  {
    hide Inv, Permitted, Export, Backed, DocumentBacked, AnchoredAt, DistinctDocs, Still, Next;
    var n, l := Next(reg, op).reg, Land(reg, op);
    ExportIsDistinct(l);
    if IsAttach(op) { AttachStepStored(reg, op); } else { StepStored(reg, op); }
    if !n.uncertain {
      if SameRoutes(n, l) && n.disk == Some(Export(l)) {
        ExportAnchors(n, l);
      } else if IsAttach(op) {
        if n.disk == reg.disk {
          SameAnchored(reg, n);
        } else {
          RestoredAnchored(reg, n, op);
        }
      } else {
        StepStaysAnchored(reg, op, tally);
      }
    }
  }

  lemma SameAnchored(reg: Reg, n: Reg)
    requires reg.WellKeyed() && n.WellKeyed() && Anchored(reg) && SameRoutes(reg, n)
    requires n.disk == reg.disk && n.attached == reg.attached && n.uncertain == reg.uncertain
    ensures Anchored(n)
  {
    if n.disk.Some? && !n.uncertain {
      forall d | d in n.disk.value.routes ensures AnchoredAt(n, d) { assert AnchoredAt(reg, d); }
    }
  }

  lemma StepStaysAnchored(reg: Reg, op: Op, tally: Tally)
    requires LifeInv(reg, tally) && reg.WellKeyed() && Orderly(reg, Act(op)) && !IsAttach(op)
    requires var n, l := Next(reg, op).reg, Land(reg, op);
             !n.uncertain && !reg.uncertain && SameRoutes(n, l) && n.attached == reg.attached && n.disk == reg.disk
             && n.disk != Some(Export(l))
    ensures Anchored(Next(reg, op).reg)
  {
    hide Inv, Permitted, Export, Backed, DocumentBacked, AnchoredAt, DistinctDocs, Still, Next;
    var n := Next(reg, op).reg;
    if reg.disk.Some? {
      if reg.attached {
        UnsavedIsStill(reg, op);
        AttachedStill(reg, op);
      }
      forall d | d in n.disk.value.routes
        ensures AnchoredAt(n, d)
      {
        StillAnchored(reg, n, op, d);
      }
    }
  }

  /** Of an attached registry, an unsaved step keeps the versions it has. */
  lemma AttachedStill(reg: Reg, op: Op)
    requires Inv(reg) && reg.WellKeyed() && Permitted(reg, op) && reg.attached && !IsAttach(op)
    requires Next(reg, op).reg.disk != Some(Export(Land(reg, op)))
    ensures forall v <- Land(reg, op).routes :: v in reg.routes
  {
    hide Next, Inv, Export, Permitted, Stored;
    LandedPermitted(reg, op);
    if IsConfigure(op) {
      ConfigureStored(reg, op);
    } else {
      forall v | v in Land(reg, op).routes
        ensures v in reg.routes
      {
        RouteEvolution(reg, Landed(op), v);
      }
    }
  }

  // ------------------------------------------------------------------------ lives

  lemma EventKeepsLife(reg: Reg, e: Happening, tally: Tally)
    requires LifeInv(reg, tally) && reg.WellKeyed() && Orderly(reg, e)
    ensures LifeInv(After(reg, e), TallyAfter(reg, e, tally))
  {
    match e
    case Act(op) =>
      hide Next, TallyAfter, Still, Backed, DocumentBacked, Anchored, DistinctDocs;
      EventBacked(reg, op, tally);
      EventAnchored(reg, op, tally);
      hide Inv;
      StepKeepsInv(reg, op);
    case Restart =>
  }

  /** An installation, from its first process on, with the account kept beside it. */
  ghost predicate IsLife(regs: seq<Reg>, events: seq<Happening>, tallies: seq<Tally>) {
    && |regs| == |tallies| == |events| + 1
    && regs[0] == EMPTY.(capacity := regs[0].capacity) && tallies[0] == map[]
    && forall i :: 0 <= i < |events| ==> Lives(regs[i], events[i], tallies[i], regs[i + 1], tallies[i + 1])
  }

  predicate Lives(reg: Reg, e: Happening, tally: Tally, reg': Reg, tally': Tally) {
    reg.WellKeyed() && Orderly(reg, e) && reg' == After(reg, e) && tally' == TallyAfter(reg, e, tally)
  }

  /** In every state of every life: the invariant, and no credit beyond the account, in memory or on disk. */
  lemma {:induction false} LifeBacked(regs: seq<Reg>, events: seq<Happening>, tallies: seq<Tally>, i: nat)
    requires IsLife(regs, events, tallies) && i < |regs|
    ensures LifeInv(regs[i], tallies[i])
  {
    hide LifeInv, After, TallyAfter, Orderly;
    if i == 0 {
      BirthKeepsLife(regs[0], tallies[0]);
    } else {
      LifeBacked(regs, events, tallies, i - 1);
      assert Lives(regs[i - 1], events[i - 1], tallies[i - 1], regs[i - 1 + 1], tallies[i - 1 + 1]);
      EventKeepsLife(regs[i - 1], events[i - 1], tallies[i - 1]);
    }
  }

  lemma BirthKeepsLife(reg: Reg, tally: Tally)
    requires reg == EMPTY.(capacity := reg.capacity)
    ensures LifeInv(reg, tally)
  {
  }

  // --------------------------------------------------------------------- recovery

  /** A version leaves HALF_OPEN for CLOSED only by an applied success that reaches the threshold. */
  lemma ClosingIsEvidence(reg: Reg, op: Op, v: VersionKey)
    requires Inv(reg) && reg.WellKeyed() && Anchored(reg) && Permitted(reg, op) && !reg.uncertain
    requires op.OpRestore? ==> op.document == Export(reg)
    requires v in reg.routes && reg.routes[v].state == HalfOpen
    requires v in Next(reg, op).reg.routes && Next(reg, op).reg.routes[v].state == Closed
    ensures Next(reg, op).reg.routes[v].successes >= reg.routes[v].policy.recoveryThreshold
  {
    hide Next, Inv, Permitted, Export, Evidence;
    RouteEvolution(reg, op, v);
    var rt' := Next(reg, op).reg.routes[v];
    if IsRestore(op) {
      RestoreCloses(reg, op, v, rt');
    } else if !IsConfigure(op) && Applies(reg, op, v) {
      EvidenceMatches(reg, op, rt');
      EvidenceCounts(reg, op, v, rt');
    }
  }

  lemma RestoreCloses(reg: Reg, op: Op, v: VersionKey, rt': Runtime)
    requires reg.WellKeyed() && Anchored(reg) && !reg.uncertain && IsRestore(op)
    requires (op.OpRestore? ==> op.document == Export(reg)) && v in reg.routes && reg.routes[v].state == HalfOpen
    requires rt' == reg.routes[v] || (Source(reg, op).Some? && TakenFrom(reg, Source(reg, op).value, v, rt'))
    ensures rt'.state != Closed
  {
    hide Export;
    if rt' != reg.routes[v] {
      if op.OpRestore? {
        OwnExportUntouched(reg, v, rt');
      } else {
        var d :| d in reg.disk.value.routes && Names(reg, d, v);
        assert AnchoredAt(reg, d);
      }
    }
  }

  lemma LatchedCloses(reg: Reg, op: Op, v: VersionKey)
    requires Inv(reg) && reg.WellKeyed() && Permitted(reg, op) && reg.uncertain && v in reg.routes
    requires v in Next(reg, op).reg.routes && reg.routes[v].state == HalfOpen
    ensures Next(reg, op).reg.routes[v].state != Closed
  {
    hide Next, Inv, Export, Permitted, Stored;
    RouteEvolution(reg, op, v);
    LatchedApplies(reg, op, v);
  }

  lemma LatchedObserve(reg: Reg, t: Ticket, seen: Result<Runtime>, reason: Reason, save: SaveOutcome)
    requires reg.WellKeyed() && reg.uncertain && Matches(reg, t)
    ensures Observe(reg, t, seen, reason, save).result.Err?
  {
    hide Observed, Export;
  }

  /** Once latched, nothing is applied and nothing restored. */
  lemma LatchedApplies(reg: Reg, op: Op, v: VersionKey)
    requires reg.WellKeyed() && reg.uncertain
    ensures !Applies(reg, op, v)
    ensures IsRestore(op) ==> Next(reg, op).reg.routes == reg.routes
  {
    hide Observe, OnSuccess, OnFailure, AsFailure, ConfigureRoute, ConfigureRoutes, Acquire, RecordCancelled, Abandon,
         Pin, Release, RestoreDocument, Export, Reg.WellKeyed, Freed;
    if (op.OpSuccess? || op.OpFailure?) && Matches(reg, op.ticket) {
      var t := op.ticket;
      var rt := Freed(reg, t);
      if op.OpSuccess? {
        LatchedObserve(reg, t, OnSuccess(rt, t.signal, op.now),
                       if t.signal == Probe then ProbeSucceeded else BusinessSucceeded, op.save);
      } else {
        LatchedObserve(reg, t, OnFailure(rt, t.signal, AsFailure(rt, op.kind, op.category, op.status), op.now, op.fraction),
                       if t.signal == Probe then ProbeFailed else BusinessFailed, op.save);
      }
    }
  }

  /**
   A half-open version closes, in memory or in what was written, only after at least
   `recovery_success_threshold` successes applied or written since its last failure that was, across
   cancels, revisions, policy changes and restarts.
   */
  lemma RecoveryIsEarned(regs: seq<Reg>, events: seq<Happening>, tallies: seq<Tally>, i: nat, v: VersionKey)
    requires IsLife(regs, events, tallies) && i < |events| && events[i].Act? && regs[i].WellKeyed()
    requires v in regs[i].routes && regs[i].routes[v].state == HalfOpen
    requires ClosedIn(regs[i + 1], v) || ClosedIn(Land(regs[i], events[i].op), v)
    ensures Read(tallies[i + 1], v) >= regs[i].routes[v].policy.recoveryThreshold
  {
    hide LifeInv, After, TallyAfter, Orderly, Land, Next;
    LifeBacked(regs, events, tallies, i);
    assert Lives(regs[i], events[i], tallies[i], regs[i + 1], tallies[i + 1]);
    RecoveryStep(regs[i], events[i].op, tallies[i], v);
    assert regs[i + 1] == Next(regs[i], events[i].op).reg by { ActsNext(regs[i], events[i]); }
  }

  lemma ActsNext(reg: Reg, e: Happening)
    requires reg.WellKeyed() && e.Act?
    ensures After(reg, e) == Next(reg, e.op).reg
  {
  }

  predicate ClosedIn(reg: Reg, v: VersionKey) {
    v in reg.routes && reg.routes[v].state == Closed
  }

  lemma RecoveryStep(reg: Reg, op: Op, tally: Tally, v: VersionKey)
    requires LifeInv(reg, tally) && reg.WellKeyed() && Orderly(reg, Act(op))
    requires v in reg.routes && reg.routes[v].state == HalfOpen
    ensures ClosedIn(Next(reg, op).reg, v) || ClosedIn(Land(reg, op), v) ==>
              Read(TallyAfter(reg, Act(op), tally), v) >= reg.routes[v].policy.recoveryThreshold
  {
    hide Next, Inv, Permitted, Export, Backed, DocumentBacked, Anchored, DistinctDocs, Still, TallyAfter, Stored, AttachedTo;
    LandedPermitted(reg, op);
    var n, l := Next(reg, op).reg, Land(reg, op);
    if reg.uncertain {
      if v in n.routes { LatchedCloses(reg, op, v); }
      if v in l.routes { LatchedCloses(reg, Landed(op), v); }
    } else {
      LandedBacked(reg, op, tally);
      StepRoutes(reg, op);
      if ClosedIn(l, v) {
        ClosingIsEvidence(reg, Landed(op), v);
        IsBacked(l, TallyAfter(reg, Act(op), tally), v);
      }
    }
  }

  /** Memory after a step is as before it, or what landed. */
  lemma StepRoutes(reg: Reg, op: Op)
    requires Inv(reg) && reg.WellKeyed() && !reg.uncertain
    ensures SameRoutes(Next(reg, op).reg, reg) || SameRoutes(Next(reg, op).reg, Land(reg, op))
  {
    hide Next, Inv, Export;
    if IsAttach(op) { AttachStepStored(reg, op); } else { StepStored(reg, op); }
  }
}
