/** The backoff of a failing route over the life of an installation. */
module BreakerBackoff {
  import opened Common
  import opened BreakerRoute
  import opened BreakerKeys
  import opened BreakerSpec
  import opened BreakerInvariant
  import opened BreakerRestore
  import opened BreakerEvolution
  import opened BreakerStore
  import opened BreakerLife

  /** Memory decides what a route's record is; otherwise the document does. */
  predicate MemoryRules(reg: Reg) {
    !reg.uncertain && (reg.attached || reg.disk.None?)
  }

  predicate Recorded(reg: Reg, k: RouteKey) {
    if MemoryRules(reg) then k in reg.current else reg.disk.Some? && Listed(reg.disk.value.routes, k)
  }

  function DocFor(docs: seq<RouteDoc>, k: RouteKey): (d: RouteDoc)
    requires Listed(docs, k)
    ensures d in docs && d.key == k
  {
    if docs[0].key == k then docs[0] else DocFor(docs[1..], k)
  }

  /** The record of a route: what the process that works knows, or the next one will find. */
  function Standing(reg: Reg, k: RouteKey): RouteDoc
    requires reg.WellKeyed() && Recorded(reg, k)
  {
    if MemoryRules(reg) then CurrentDoc(reg, k) else DocFor(reg.disk.value.routes, k)
  }

  /** The process runs the route exactly as the document shows it. */
  predicate Adopts(reg: Reg, k: RouteKey)
    requires reg.WellKeyed() && Recorded(reg, k)
  {
    k in reg.current
    && Describes(Standing(reg, k), reg.current[k], reg.routes[VersionKey(k, reg.current[k])])
  }

  /** A new process attaches the store without taking over what it holds of the route. */
  predicate Overwrites(reg: Reg, e: Happening, k: RouteKey)
    requires reg.WellKeyed() && Recorded(reg, k)
  {
    e.Act? && IsAttach(e.op) && !reg.attached && reg.disk.Some? && !(e.op.OpRestoreFromStore? && Adopts(reg, k))
  }

  /** The route keeps its fingerprint, stays on record and does not close. */
  predicate StillFailing(reg: Reg, e: Happening, k: RouteKey)
    requires reg.WellKeyed()
  {
    && Recorded(reg, k) && Recorded(After(reg, e), k) && !Overwrites(reg, e, k)
    && Standing(After(reg, e), k).fingerprint == Standing(reg, k).fingerprint
    && Standing(After(reg, e), k).state != Closed
  }

  /** The open counter has not fallen, as far as the backoff can tell. */
  predicate AtLeast(n': int, n: int) {
    n' >= n || n' >= MAX_OPEN_COUNT
  }

  function Floor(p: Policy, openCount: int): real {
    Backoff(p, if openCount <= 0 then 1 else openCount)
  }

  lemma FloorMonotone(p: Policy, n: int, n': int)
    requires AtLeast(n', n)
    ensures Floor(p, n) <= Floor(p, n')
  {
    var m, m' := if n <= 0 then 1 else n, if n' <= 0 then 1 else n';
    if m <= m' {
      BackoffMonotone(p, m, m');
    } else {
      BackoffSaturates(p, m);
      BackoffSaturates(p, m');
    }
  }

  lemma DocForExport(l: Reg, k: RouteKey)
    requires l.WellKeyed() && Listed(Export(l).routes, k)
    ensures k in l.current && DocFor(Export(l).routes, k) == CurrentDoc(l, k)
  {
    hide Export;
    ExportedRoutes(l);
  }

  // ------------------------------------------------------------------- what landed

  /** What lands of a step does not lower the counter of a route that memory decides about. */
  lemma LandLevel(reg: Reg, op: Op, tally: Tally, k: RouteKey)
    requires LifeInv(reg, tally) && reg.WellKeyed() && Orderly(reg, Act(op)) && MemoryRules(reg)
    requires k in reg.current && k in Land(reg, op).current
    requires CurrentDoc(Land(reg, op), k).fingerprint == CurrentDoc(reg, k).fingerprint
    requires CurrentDoc(Land(reg, op), k).state != Closed
    ensures AtLeast(CurrentDoc(Land(reg, op), k).openCount, CurrentDoc(reg, k).openCount)
  {
    hide Next, Inv, Permitted, Export, Backed, DocumentBacked, DistinctDocs, Evidence, Still;
    LandedPermitted(reg, op);
    var l := Land(reg, op);
    var v := VersionKey(k, l.current[k]);
    assert v in l.routes;
    RouteEvolution(reg, Landed(op), v);
    if IsConfigure(op) {
      StaysCurrent(reg, Landed(op), k);
    } else {
      CurrentChangesOnlyByConfigure(reg, Landed(op));
      if IsRestore(op) {
        RestoreLevel(reg, op, v, l.routes[v]);
      } else if Applies(reg, Landed(op), v) {
        EvidenceMatches(reg, Landed(op), l.routes[v]);
        EvidenceCounts(reg, Landed(op), v, l.routes[v]);
      }
    }
  }

  lemma RestoreLevel(reg: Reg, op: Op, v: VersionKey, rt': Runtime)
    requires reg.WellKeyed() && Anchored(reg) && MemoryRules(reg) && IsRestore(op)
    requires (op.OpRestore? ==> op.document == Export(reg)) && v in reg.routes
    requires rt' == reg.routes[v] || (Source(reg, op).Some? && TakenFrom(reg, Source(reg, op).value, v, rt'))
    ensures rt'.openCount == reg.routes[v].openCount
  {
    hide Export;
    if rt' != reg.routes[v] {
      if op.OpRestore? {
        OwnExportUntouched(reg, v, rt');
      } else {
        var d :| d in reg.disk.value.routes && Names(reg, d, v);
        assert AnchoredAt(reg, d);
      }
    }
  }

  /** The document of an attached registry shows the counter that memory has. */
  lemma DocumentLevel(reg: Reg, k: RouteKey)
    requires reg.WellKeyed() && Anchored(reg) && MemoryRules(reg) && reg.disk.Some? && k in reg.current
    requires Listed(reg.disk.value.routes, k)
    ensures DocFor(reg.disk.value.routes, k).openCount == CurrentDoc(reg, k).openCount
  {
    assert AnchoredAt(reg, DocFor(reg.disk.value.routes, k));
  }

  // ----------------------------------------------------------------- taking over

  /** A process that attaches by a restore has taken over every route that is described. */
  lemma AdoptTakes(reg: Reg, op: Op, v: VersionKey)
    requires reg.WellKeyed() && op.OpRestoreFromStore? && !reg.attached && reg.disk.Some?
    requires Next(reg, op).reg.attached && v in reg.routes
    ensures var n := Next(reg, op).reg;
            n.current == reg.current && v in n.routes && TakenFrom(reg, reg.disk.value, v, n.routes[v])
  {
    hide RestoreDocument, Export, TakenFrom, Reg.WellKeyed;
    if RestoreDocument(reg, reg.disk.value, op.now).Ok? {
      DocumentTakes(reg, reg.disk.value, op.now);
    }
  }

  lemma AdoptedLevel(reg: Reg, op: Op, k: RouteKey)
    requires reg.WellKeyed() && op.OpRestoreFromStore? && !reg.attached && reg.disk.Some? && Recorded(reg, k)
    requires Adopts(reg, k) && Next(reg, op).reg.attached
    ensures var n := Next(reg, op).reg;
            k in n.current && CurrentDoc(n, k).openCount == Standing(reg, k).openCount
  {
    hide Next, Describes;
    var v := VersionKey(k, reg.current[k]);
    AdoptTakes(reg, op, v);
    assert Names(reg, Standing(reg, k), v);
  }

  // ------------------------------------------------------------------ step by step

  lemma RestartLevel(reg: Reg, tally: Tally, k: RouteKey)
    requires LifeInv(reg, tally) && reg.WellKeyed() && StillFailing(reg, Restart, k)
    ensures Standing(Reborn(reg), k).openCount == Standing(reg, k).openCount
  {
    if MemoryRules(reg) {
      DocumentLevel(reg, k);
    }
  }

  /** The document decides: it stays, or the process takes the route over. */
  lemma WaitingLevel(reg: Reg, op: Op, k: RouteKey)
    requires Inv(reg) && reg.WellKeyed() && !MemoryRules(reg) && StillFailing(reg, Act(op), k)
    ensures Standing(Next(reg, op).reg, k).openCount == Standing(reg, k).openCount
  {
    hide Next, Inv, Export, Adopts;
    var n := Next(reg, op).reg;
    if IsAttach(op) {
      AttachStepStored(reg, op);
      if !reg.uncertain {
        if n.attached {
          AdoptedLevel(reg, op, k);
        } else if n.disk != reg.disk {
          WrittenAttaches(reg, op);
          AdoptedLevel(reg, Landed(op), k);
          DocForExport(Land(reg, op), k);
        }
      }
    } else {
      StepStored(reg, op);
    }
  }

  lemma WrittenAttaches(reg: Reg, op: Op)
    requires reg.WellKeyed() && IsAttach(op) && Next(reg, op).reg.disk != reg.disk
    ensures Land(reg, op).attached
  {
    hide RestoreDocument, Export, Reg.WellKeyed;
  }

  /** Memory decides: it moves on, or its last record is in the document. */
  lemma WorkingLevel(reg: Reg, op: Op, tally: Tally, k: RouteKey)
    requires LifeInv(reg, tally) && reg.WellKeyed() && Orderly(reg, Act(op)) && MemoryRules(reg)
    requires StillFailing(reg, Act(op), k)
    ensures AtLeast(Standing(Next(reg, op).reg, k).openCount, Standing(reg, k).openCount)
  {
    hide Next, Inv, Export, Orderly, Backed, DocumentBacked, DistinctDocs, Anchored;
    var n, l := Next(reg, op).reg, Land(reg, op);
    if IsAttach(op) { AttachStepStored(reg, op); } else { StepStored(reg, op); }
    if MemoryRules(n) {
      if SameRoutes(n, l) {
        LandLevel(reg, op, tally, k);
      }
    } else if n.disk == reg.disk {
      DocumentLevel(reg, k);
    } else {
      DocForExport(l, k);
      LandLevel(reg, op, tally, k);
    }
  }

  lemma StepLevel(reg: Reg, e: Happening, tally: Tally, k: RouteKey)
    requires LifeInv(reg, tally) && reg.WellKeyed() && Orderly(reg, e) && StillFailing(reg, e, k)
    ensures AtLeast(Standing(After(reg, e), k).openCount, Standing(reg, k).openCount)
  {
    hide Next, Inv, Export, Orderly, Backed, DocumentBacked, DistinctDocs, Anchored, Standing;
    match e
    case Restart => RestartLevel(reg, tally, k);
    case Act(op) =>
      if MemoryRules(reg) {
        WorkingLevel(reg, op, tally, k);
      } else {
        WaitingLevel(reg, op, k);
      }
  }

  predicate FailsAt(regs: seq<Reg>, events: seq<Happening>, k: RouteKey, m: nat) {
    m < |regs| && m < |events| && regs[m].WellKeyed() && StillFailing(regs[m], events[m], k)
  }

  lemma {:induction false} LevelNeverFalls(
    regs: seq<Reg>, events: seq<Happening>, tallies: seq<Tally>, k: RouteKey, i: nat, j: nat)
    requires IsLife(regs, events, tallies) && i <= j < |regs| && regs[i].WellKeyed() && Recorded(regs[i], k)
    requires forall m :: i <= m < j ==> FailsAt(regs, events, k, m)
    ensures regs[j].WellKeyed() && Recorded(regs[j], k)
    ensures AtLeast(Standing(regs[j], k).openCount, Standing(regs[i], k).openCount)
    decreases j
  {
    hide LifeInv, Orderly, TallyAfter, Standing, After, Recorded;
    if i < j {
      LevelNeverFalls(regs, events, tallies, k, i, j - 1);
      assert FailsAt(regs, events, k, j - 1);
      LifeBacked(regs, events, tallies, j - 1);
      assert Lives(regs[j - 1], events[j - 1], tallies[j - 1], regs[j - 1 + 1], tallies[j - 1 + 1]);
      StepLevel(regs[j - 1], events[j - 1], tallies[j - 1], k);
    }
  }

  /**
   Over a stretch in which a route keeps its fingerprint and never closes, its backoff floor under any
   fixed policy never falls, whatever processes come and go.
   */
  lemma BackoffNeverFalls(
    regs: seq<Reg>, events: seq<Happening>, tallies: seq<Tally>, k: RouteKey, i: nat, j: nat, policy: Policy)
    requires IsLife(regs, events, tallies) && i <= j < |regs| && regs[i].WellKeyed() && Recorded(regs[i], k)
    requires forall m :: i <= m < j ==> FailsAt(regs, events, k, m)
    ensures regs[j].WellKeyed() && Recorded(regs[j], k)
    ensures Floor(policy, Standing(regs[i], k).openCount) <= Floor(policy, Standing(regs[j], k).openCount)
  {
    hide IsLife, FailsAt, Standing, Recorded, Floor;
    LevelNeverFalls(regs, events, tallies, k, i, j);
    FloorMonotone(policy, Standing(regs[i], k).openCount, Standing(regs[j], k).openCount);
  }
}
