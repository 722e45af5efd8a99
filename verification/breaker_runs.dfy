/** What holds over every run of the registry, from an empty one on. */
module BreakerRuns {
  import opened Common
  import opened BreakerRoute
  import opened BreakerKeys
  import opened BreakerSpec
  import opened BreakerInvariant
  import opened BreakerRestore
  import opened BreakerTheorems

  /** A new process: no routes yet, whatever an earlier one left on disk. */
  predicate Start(reg: Reg) {
    reg == EMPTY.(disk := reg.disk, capacity := reg.capacity)
  }

  /** A run: each state is the permitted next step of the one before, for any store answers. */
  predicate IsRun(regs: seq<Reg>, ops: seq<Op>) {
    && |regs| == |ops| + 1
    && Start(regs[0])
    && forall i :: 0 <= i < |ops| ==> Steps(regs[i], ops[i], regs[i + 1])
  }

  predicate Steps(reg: Reg, op: Op, reg': Reg) {
    reg.WellKeyed() && Permitted(reg, op) && reg' == Next(reg, op).reg
  }

  lemma {:induction false} RunInvariant(regs: seq<Reg>, ops: seq<Op>, i: nat)
    requires IsRun(regs, ops) && i < |regs|
    ensures Inv(regs[i])
  {
    if i > 0 {
      RunInvariant(regs, ops, i - 1);
      hide Inv, Next;
      assert Steps(regs[i - 1], ops[i - 1], regs[i - 1 + 1]);
      StepKeepsInv(regs[i - 1], ops[i - 1]);
    }
  }

  /**
   The safety of every reachable state, in full: no current, pinned or ticketed version is dropped;
   each active ticket carries its runtime's epoch and, if guarded, its lease; and one route key and
   fingerprint has at most one guarded ticket across all its revisions.
   */
  lemma RunSafety(regs: seq<Reg>, ops: seq<Op>, i: nat)
    requires IsRun(regs, ops) && i < |regs|
    ensures forall k <- regs[i].current :: VersionKey(k, regs[i].current[k]) in regs[i].routes
    ensures forall v <- regs[i].pins :: v in regs[i].routes
    ensures forall a <- regs[i].active ::
              && a.version in regs[i].routes
              && regs[i].active[a].epoch == regs[i].routes[a.version].epoch
              && (regs[i].active[a].guarded ==> regs[i].routes[a.version].leaseId == Some(regs[i].active[a].lease))
    ensures forall a <- regs[i].active, b <- regs[i].active ::
              regs[i].active[a].guarded && regs[i].active[b].guarded
              && a.version.key == b.version.key && a.version.version.fingerprint == b.version.version.fingerprint
              ==> a == b
  {
    RunInvariant(regs, ops, i);
    var reg := regs[i];
    forall a | a in reg.active
      ensures a.version in reg.routes && TicketOk(a, reg.active[a], reg.routes[a.version], reg.leaseSeq)
    {
    }
  }

  /** Durability over a run that avoids the exceptional step. */
  lemma {:induction false} RunDurable(regs: seq<Reg>, ops: seq<Op>, i: nat)
    requires IsRun(regs, ops) && i < |regs|
    requires forall j :: 0 <= j < i ==> !UnlatchedCommit(regs[j], ops[j])
    ensures regs[i].WellKeyed() && Synced(regs[i])
  {
    if i == 0 {
      assert !regs[0].attached;
    } else {
      RunDurable(regs, ops, i - 1);
      RunInvariant(regs, ops, i - 1);
      hide Inv, Next, Synced, UnlatchedCommit;
      assert Steps(regs[i - 1], ops[i - 1], regs[i - 1 + 1]);
      StepSynced(regs[i - 1], ops[i - 1]);
    }
  }

  // --------------------------------------------------------------- applied once

  /** The lease was issued and no active ticket carries it any more. */
  predicate Spent(reg: Reg, lease: nat) {
    lease <= reg.leaseSeq && forall a <- reg.active :: reg.active[a].lease != lease
  }

  lemma SpentStays(reg: Reg, reg': Reg, lease: nat)
    requires Spent(reg, lease) && Evolves(reg, reg')
    ensures Spent(reg', lease)
  {
  }

  lemma ApplyingSpends(reg: Reg, op: Op)
    requires Inv(reg) && IsObservation(op) && Next(reg, op).reply == Seen(Applied)
    ensures Spent(Next(reg, op).reg, op.ticket.lease)
  {
    hide Next;
    ObservationKeepsInv(reg, op);
    var next := Next(reg, op).reg;
    var t := op.ticket;
    assert TicketOk(KeyOf(t), t, reg.routes[t.version], reg.leaseSeq);
  }

  lemma {:induction false} SpentForever(regs: seq<Reg>, ops: seq<Op>, i: nat, j: nat, lease: nat)
    requires IsRun(regs, ops) && i <= j < |regs| && Spent(regs[i], lease)
    ensures Spent(regs[j], lease)
  {
    hide Inv, Next, Spent, Evolves;
    if i < j {
      SpentForever(regs, ops, i, j - 1, lease);
      RunInvariant(regs, ops, j - 1);
      assert Steps(regs[j - 1], ops[j - 1], regs[j - 1 + 1]);
      StepKeepsInv(regs[j - 1], ops[j - 1]);
      SpentStays(regs[j - 1], regs[j], lease);
    }
  }

  /** No ticket is applied twice, whichever observations report it. */
  lemma AppliedAtMostOnce(regs: seq<Reg>, ops: seq<Op>, i: nat, j: nat)
    requires IsRun(regs, ops) && i < j < |ops|
    requires IsObservation(ops[i]) && IsObservation(ops[j]) && ops[i].ticket == ops[j].ticket
    requires regs[i].WellKeyed() && regs[j].WellKeyed()
    requires Next(regs[i], ops[i]).reply == Seen(Applied)
    ensures Next(regs[j], ops[j]).reply != Seen(Applied)
  {
    hide Next, Inv;
    var lease := ops[i].ticket.lease;
    RunInvariant(regs, ops, i);
    RunInvariant(regs, ops, j);
    assert Steps(regs[i], ops[i], regs[i + 1]);
    ApplyingSpends(regs[i], ops[i]);
    SpentForever(regs, ops, i + 1, j, lease);
    ObservationKeepsInv(regs[j], ops[j]);
  }

  // --------------------------------------------------------------- the exception

  const ROUTE: RouteKey := RouteKey("i", "g", "primary", "p")
  const VERSION: Version := Version(1, "f")
  const ONLY: VersionKey := VersionKey(ROUTE, VERSION)
  const DEFAULT_POLICY: Policy := PolicyFields(3, 3, Some(0.5), 10, 20, 2, 30.0, 300.0, 0.1)
  const FIRST: Ticket := Ticket(ONLY, 1, 1, "a", true, Business)
  const SECOND: Ticket := Ticket(ONLY, 3, 2, "b", true, Business)

  /** A registry with one route. */
  predicate OneRoute(reg: Reg, rt: Runtime, active: map<ActiveKey, Ticket>, leases: nat) {
    && reg.routes == map[ONLY := rt] && reg.current == map[ROUTE := VERSION] && reg.active == active
    && reg.leaseSeq == leases && !reg.uncertain
  }

  function Idle(): Runtime { FreshRuntime(DEFAULT_POLICY, true) }

  function Probing(): Runtime { Idle().(leaseId := Some(1)) }

  /** Rate limited at instant 0 and open for 30 seconds. */
  function Opened(): Runtime {
    Idle().(state := OpenTemporary, epoch := 2, failures := 1, outcomes := [true], openCount := 1,
            openUntil := Some(30.0), firstFailedAt := Some(0.0), lastFailedAt := Some(0.0),
            lastCategory := Some(RateLimited), lastStatus := Some(429))
  }

  function Reprobing(): Runtime { Opened().(state := HalfOpen, epoch := 3, leaseId := Some(2)) }

  function Stranded(): Runtime { Reprobing().(leaseId := None) }

  /** Configure, attach, fail, probe again after the cooldown, abandon the probe, restore from the store. */
  function Story(): seq<Op> {
    [OpConfigureRoute(Registration(ROUTE, VERSION, DEFAULT_POLICY, true), Saved),
     OpAttach(Saved),
     OpAcquire(ONLY, "a", false, Business, 0.0, true, Saved),
     OpFailure(FIRST, RateLimit(None), RateLimited, Some(429), 0.0, 0.0, Saved),
     OpAcquire(ONLY, "b", false, Business, 60.0, true, Saved),
     OpAbandon(SECOND),
     OpRestoreFromStore(60.0, Uncertain(true))]
  }

  lemma StoryConfigures(reg: Reg)
    requires Start(reg)
    ensures reg.WellKeyed() && Permitted(reg, Story()[0])
    ensures var next := Next(reg, Story()[0]).reg;
            OneRoute(next, Idle(), map[], 0) && !next.attached && next.disk == reg.disk
  {
    hide Export;
    assert !reg.Needed(ONLY);
  }

  lemma StoryAttaches(reg: Reg)
    requires OneRoute(reg, Idle(), map[], 0) && reg.WellKeyed()
    ensures OneRoute(Next(reg, Story()[1]).reg, Idle(), map[], 0) && Next(reg, Story()[1]).reg.attached
  {
    hide Export;
  }

  lemma StoryProbes(reg: Reg)
    requires OneRoute(reg, Idle(), map[], 0) && reg.WellKeyed()
    ensures var next := Next(reg, Story()[2]).reg;
            && OneRoute(next, Probing(), map[KeyOf(FIRST) := FIRST], 1)
            && next.attached == reg.attached && next.disk == reg.disk
  {
    hide Export, EnterHalfOpen;
  }

  lemma FailureOpens()
    ensures OnFailure(Idle(), Business, Failure(RateLimited, Some(429), true, None, false, false), 0.0, 0.0) == Ok(Opened())
  {
    assert Min(1 - 1, 62) == 0 && Doubled(30.0, 0) == 30.0;
    assert Backoff(DEFAULT_POLICY, 1) == 30.0;
    assert Cooldown(DEFAULT_POLICY, 1, 0.0, None) == 30.0;
    assert Last(20, [] + [true]) == [true];
  }

  lemma StoryFails(reg: Reg)
    requires OneRoute(reg, Probing(), map[KeyOf(FIRST) := FIRST], 1) && reg.WellKeyed()
    ensures var next := Next(reg, Story()[3]);
            && OneRoute(next.reg, Opened(), map[], 1) && next.reply == Seen(Applied)
            && next.reg.attached == reg.attached && (!reg.attached ==> next.reg.disk == reg.disk)
  {
    hide Export, OnFailure, Logged;
    FailureOpens();
    assert Matches(reg, FIRST) && Freed(reg, FIRST) == Idle();
    assert reg.IsCurrent(ONLY);
  }

  lemma StoryProbesAgain(reg: Reg)
    requires OneRoute(reg, Opened(), map[], 1) && reg.WellKeyed() && reg.attached
    ensures OneRoute(Next(reg, Story()[4]).reg, Reprobing(), map[KeyOf(SECOND) := SECOND], 2)
    ensures Next(reg, Story()[4]).reg.attached
  {
    hide Export, Logged, Grant;
    var entered := EnterHalfOpen(reg, ONLY, CooldownElapsed, Saved).reg;
    assert OneRoute(entered, Opened().(state := HalfOpen, epoch := 3), map[], 1) && entered.attached;
    StoryGrants(entered);
  }

  lemma StoryGrants(reg: Reg)
    requires OneRoute(reg, Opened().(state := HalfOpen, epoch := 3), map[], 1) && reg.WellKeyed() && reg.attached
    ensures var o := Grant(reg, ONLY, "b", false, Business, true).reg;
            OneRoute(o, Reprobing(), map[KeyOf(SECOND) := SECOND], 2) && o.attached
  {
    assert !reg.GuardedLeaseActive(ROUTE, "f");
  }

  lemma StoryAbandons(reg: Reg)
    requires OneRoute(reg, Reprobing(), map[KeyOf(SECOND) := SECOND], 2) && reg.WellKeyed() && reg.attached
    ensures OneRoute(Next(reg, Story()[5]).reg, Stranded(), map[], 2) && Next(reg, Story()[5]).reg.attached
  {
    hide Export;
    assert Matches(reg, SECOND) && Freed(reg, SECOND) == Stranded();
    assert reg.IsCurrent(ONLY);
  }

  lemma StrandedIsUnlatched(reg: Reg)
    requires OneRoute(reg, Stranded(), map[], 2) && reg.attached
    ensures UnlatchedCommit(reg, Story()[6])
  {
    assert ROUTE in reg.current;
    assert reg.current.Keys == {ROUTE};
    assert |reg.current.Keys| == |reg.current|;
  }

  /** A run at whose end document and memory part without the latch being set. */
  lemma UnlatchedCommitHappens() returns (regs: seq<Reg>)
    ensures IsRun(regs, Story())
    ensures regs[6].WellKeyed() && Synced(regs[6])
    ensures regs[7].WellKeyed() && !Synced(regs[7]) && regs[7].attached && !regs[7].uncertain
  {
    hide Next, Export, OneRoute, Inv, Synced, UnlatchedCommit;
    var ops := Story();
    var r0 := EMPTY;
    StoryConfigures(r0);
    var r1 := Next(r0, ops[0]).reg;
    StoryAttaches(r1);
    var r2 := Next(r1, ops[1]).reg;
    StoryProbes(r2);
    var r3 := Next(r2, ops[2]).reg;
    StoryFails(r3);
    var r4 := Next(r3, ops[3]).reg;
    StoryProbesAgain(r4);
    var r5 := Next(r4, ops[4]).reg;
    StoryAbandons(r5);
    var r6 := Next(r5, ops[5]).reg;
    StrandedIsUnlatched(r6);
    regs := [r0, r1, r2, r3, r4, r5, r6, Next(r6, ops[6]).reg];
    StoryIsRun(regs);
    OnlyRestoresUnlatch(regs);
    RunDurable(regs, ops, 6);
    RunInvariant(regs, ops, 6);
    StepSynced(r6, ops[6]);
    UnlatchedStaysOpen(r6);
  }

  lemma UnlatchedStaysOpen(reg: Reg)
    requires reg.WellKeyed() && UnlatchedCommit(reg, Story()[6])
    ensures Next(reg, Story()[6]).reg.attached && !Next(reg, Story()[6]).reg.uncertain
  {
    hide Export, RestoreDocument;
  }

  lemma OnlyRestoresUnlatch(regs: seq<Reg>)
    requires |regs| == 8
    ensures forall j :: 0 <= j < 6 ==> !UnlatchedCommit(regs[j], Story()[j])
  {
  }

  lemma StoryIsRun(regs: seq<Reg>)
    requires |regs| == 8 && regs[0] == EMPTY
    requires forall i :: 0 <= i < 7 ==> regs[i].WellKeyed() && regs[i + 1] == Next(regs[i], Story()[i]).reg
    ensures IsRun(regs, Story())
  {
    hide Next;
    forall i | 0 <= i < 7
      ensures Steps(regs[i], Story()[i], regs[i + 1])
    {
      assert Permitted(regs[i], Story()[i]) by {
        if i == 0 {
          StoryConfigures(regs[0]);
        }
      }
    }
  }
}
