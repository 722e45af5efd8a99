/** A recovery that begins in one process and ends in the next. */
module BreakerStory {
  import opened Common
  import opened BreakerRoute
  import opened BreakerKeys
  import opened BreakerSpec
  import opened BreakerInvariant
  import opened BreakerRestore
  import opened BreakerTheorems
  import opened BreakerEvolution
  import opened BreakerStore
  import opened BreakerRuns
  import opened BreakerLife

  function Third(lease: nat): Ticket { Ticket(ONLY, 5, lease, "c", true, Business) }

  /** One success of the two that close the route. */
  function Halfway(): Runtime {
    Stranded().(outcomes := [true, false], failures := 0, successes := 1, lastSucceededAt := Some(60.0))
  }

  /** The route as the next process takes it over, a base cooldown from instant 60 on. */
  function Resumed(): Runtime {
    Halfway().(state := OpenTemporary, epoch := 4, openUntil := Some(90.0))
  }

  function Trying(lease: nat): Runtime {
    Resumed().(state := HalfOpen, epoch := 5, leaseId := Some(lease))
  }

  const TAKE: Op := OpRestoreFromStore(60.0, Saved)
  const TRY: Op := OpAcquire(ONLY, "c", false, Business, 100.0, true, Saved)

  function Close(lease: nat): Op { OpSuccess(Third(lease), 100.0, Saved) }

  /** Fail, probe, succeed once; stop; start again, take over, probe, succeed once more. */
  function Events(): seq<Happening> {
    [Act(Story()[0]), Act(Story()[1]), Act(Story()[2]), Act(Story()[3]), Act(Story()[4]),
     Act(OpSuccess(SECOND, 60.0, Saved)),
     Restart,
     Act(Story()[0]),
     Act(TAKE),
     Act(TRY),
     Act(Close(1))]
  }

  lemma SuccessCounts()
    ensures OnSuccess(Stranded(), Business, 60.0) == Ok(Halfway())
  {
    assert Last(20, [true] + [false]) == [true, false];
  }

  lemma FirstSuccess(reg: Reg)
    requires OneRoute(reg, Reprobing(), map[KeyOf(SECOND) := SECOND], 2) && reg.WellKeyed() && reg.attached
    ensures var next := Next(reg, Events()[5].op).reg;
            OneRoute(next, Halfway(), map[], 2) && next.attached
  {
    hide Export, OnSuccess, Logged;
    SuccessCounts();
    assert Matches(reg, SECOND) && Freed(reg, SECOND) == Stranded();
    assert reg.IsCurrent(ONLY);
  }

  lemma HalfwayRecovers()
    ensures Recovered(Halfway(), 60.0) == Resumed()
  {
  }

  lemma OneRouteFits(reg: Reg)
    requires OneRoute(reg, Halfway(), map[], 2)
    ensures Exportable(reg)
  {
    assert reg.current.Keys == {ROUTE};
    assert |reg.current.Keys| == |reg.current|;
  }

  /** The next process finds the document of `source` and takes it over. */
  lemma TakesOver(source: Reg, reg: Reg, rt: Runtime, leases: nat)
    requires Inv(source) && source.WellKeyed() && OneRoute(source, Halfway(), map[], 2)
    requires OneRoute(reg, rt, map[], leases) && rt.policy == DEFAULT_POLICY && rt.enabled
    requires reg.WellKeyed() && !reg.attached && reg.disk == Some(Export(source))
    ensures var next := Next(reg, TAKE).reg;
            OneRoute(next, Resumed(), map[], leases) && next.attached
  {
    hide Export, RestoreDocument, Recovered, Inv, Exportable;
    OneRouteFits(source);
    HalfwayRecovers();
    ExportRestores(source, reg, 60.0);
    var r := RestoreDocument(reg, Export(source), 60.0).value.reg;
    assert source.IsCurrent(ONLY);
    assert r.routes == map[ONLY := Resumed()];
  }

  lemma TriesAgain(reg: Reg, leases: nat)
    requires OneRoute(reg, Resumed(), map[], leases) && leases < 9 && reg.WellKeyed() && reg.attached
    ensures var next := Next(reg, TRY).reg;
            var t := Third(leases + 1);
            OneRoute(next, Trying(leases + 1), map[KeyOf(t) := t], leases + 1) && next.attached
  {
    hide Export, Logged, Grant;
    var entered := EnterHalfOpen(reg, ONLY, CooldownElapsed, Saved).reg;
    assert OneRoute(entered, Resumed().(state := HalfOpen, epoch := 5), map[], leases) && entered.attached;
    IsGranted(entered, leases);
  }

  lemma IsGranted(reg: Reg, leases: nat)
    requires OneRoute(reg, Resumed().(state := HalfOpen, epoch := 5), map[], leases) && leases < 9
    requires reg.WellKeyed() && reg.attached
    ensures var o := Grant(reg, ONLY, "c", false, Business, true).reg;
            var t := Third(leases + 1);
            OneRoute(o, Trying(leases + 1), map[KeyOf(t) := t], leases + 1) && o.attached
  {
    assert !reg.GuardedLeaseActive(ROUTE, "f");
  }

  lemma SuccessCloses(lease: nat)
    ensures var r := OnSuccess(Trying(lease).(leaseId := None), Business, 100.0);
            r.Ok? && r.value.state == Closed
  {
  }

  lemma SecondSuccess(reg: Reg, lease: nat)
    requires OneRoute(reg, Trying(lease), map[KeyOf(Third(lease)) := Third(lease)], lease) && reg.WellKeyed() && reg.attached
    ensures var next := Next(reg, Close(lease));
            ClosedIn(next.reg, ONLY) && next.reply == Seen(Applied)
  {
    hide Export, OnSuccess, Logged;
    SuccessCloses(lease);
    assert Matches(reg, Third(lease)) && Freed(reg, Third(lease)) == Trying(lease).(leaseId := None);
    assert reg.IsCurrent(ONLY);
  }

  function Tallies(regs: seq<Reg>, n: nat): seq<Tally>
    requires n <= 11 && |regs| == 12 && forall i :: 0 <= i < 12 ==> regs[i].WellKeyed()
    ensures |Tallies(regs, n)| == n + 1
  {
    if n == 0 then [map[]]
    else Tallies(regs, n - 1) + [TallyAfter(regs[n - 1], Events()[n - 1], Final(Tallies(regs, n - 1)))]
  }

  lemma {:induction false} TalliesFollow(regs: seq<Reg>, n: nat, i: nat)
    requires i < n <= 11 && |regs| == 12 && forall i :: 0 <= i < 12 ==> regs[i].WellKeyed()
    ensures Tallies(regs, n)[0] == map[]
    ensures Tallies(regs, n)[i + 1] == TallyAfter(regs[i], Events()[i], Tallies(regs, n)[i])
    decreases n
  {
    hide TallyAfter, Events;
    if i < n - 1 {
      TalliesFollow(regs, n - 1, i);
    } else if n > 1 {
      TalliesFollow(regs, n - 1, 0);
    }
  }

  /** The states of the story. */
  predicate Told(regs: seq<Reg>) {
    && |regs| == 12 && regs[0] == EMPTY
    && (forall i :: 0 <= i < 12 ==> regs[i].WellKeyed())
    && forall i :: 0 <= i < 11 ==> regs[i].WellKeyed() && regs[i + 1] == After(regs[i], Events()[i])
  }

  /** In the first process, a document that is the export of memory. */
  lemma FirstProcess(regs: seq<Reg>)
    requires Told(regs)
    ensures OneRoute(regs[6], Halfway(), map[], 2) && regs[6].attached && Inv(regs[6])
    ensures regs[6].disk == Some(Export(regs[6]))
    ensures forall i :: 0 <= i < 6 ==> Orderly(regs[i], Events()[i])
  {
    hide Next, Export, OneRoute, Inv, UnlatchedCommit;
    var ops := Story()[..5] + [OpSuccess(SECOND, 60.0, Saved)];
    forall i | 0 <= i < 6 ensures Events()[i] == Act(ops[i]) && regs[i + 1] == Next(regs[i], ops[i]).reg {}
    StoryConfigures(regs[0]);
    StoryAttaches(regs[1]);
    StoryProbes(regs[2]);
    StoryFails(regs[3]);
    StoryProbesAgain(regs[4]);
    FirstSuccess(regs[5]);
    forall i | 0 <= i < 6
      ensures Steps(regs[..7][i], ops[i], regs[..7][i + 1])
    {
    }
    assert IsRun(regs[..7], ops);
    RunInvariant(regs[..7], ops, 6);
    NoRestore(ops, regs[..7]);
    RunDurable(regs[..7], ops, 6);
    StaysCertain(regs[6]);
    assert regs[1].disk == None;
  }

  lemma StaysCertain(reg: Reg)
    requires OneRoute(reg, Halfway(), map[], 2)
    ensures !reg.uncertain
  {
  }

  lemma NoRestore(ops: seq<Op>, regs: seq<Reg>)
    requires |ops| == 6 && |regs| == 7 && forall op <- ops :: !op.OpRestoreFromStore?
    ensures forall j :: 0 <= j < 6 ==> !UnlatchedCommit(regs[j], ops[j])
  {
  }

  /** In the second process, the route is taken over, probed and closed. */
  lemma SecondProcess(regs: seq<Reg>)
    requires Told(regs)
    requires OneRoute(regs[6], Halfway(), map[], 2) && Inv(regs[6]) && regs[6].disk == Some(Export(regs[6]))
    ensures ONLY in regs[10].routes && regs[10].routes[ONLY].state == HalfOpen && ClosedIn(regs[11], ONLY)
    ensures regs[10].routes[ONLY].policy.recoveryThreshold == 2
    ensures regs[9].attached && regs[10].attached
    ensures Inv(regs[8]) && Start(regs[7])
  {
    hide Next, Export, Inv, OneRoute, Permitted;
    SecondSteps(regs);
    StoryConfigures(regs[7]);
    RebornIsSound(regs[6]);
    StepKeepsInv(regs[7], Story()[0]);
    TakesOver(regs[6], regs[8], Idle(), 0);
    TriesAgain(regs[9], 0);
    SecondSuccess(regs[10], 1);
    IsTrying(regs[10], 1);
  }

  lemma SecondSteps(regs: seq<Reg>)
    requires Told(regs)
    ensures regs[7] == Reborn(regs[6])
    ensures regs[8] == Next(regs[7], Story()[0]).reg && regs[9] == Next(regs[8], TAKE).reg
    ensures regs[10] == Next(regs[9], TRY).reg && regs[11] == Next(regs[10], Close(1)).reg
  {
    hide Next;
    assert regs[6 + 1] == After(regs[6], Events()[6]);
    assert regs[7 + 1] == After(regs[7], Events()[7]);
    assert regs[8 + 1] == After(regs[8], Events()[8]);
    assert regs[9 + 1] == After(regs[9], Events()[9]);
    assert regs[10 + 1] == After(regs[10], Events()[10]);
  }

  lemma SecondOrderly(regs: seq<Reg>)
    requires Told(regs) && Inv(regs[8]) && Inv(regs[6]) && regs[9].attached && regs[10].attached
    ensures forall i :: 6 <= i < 11 ==> Orderly(regs[i], Events()[i])
  {
    hide Next, Export, Inv;
    SecondSteps(regs);
    StartIsOrderly(regs[6], Story()[0], 60.0, Saved);
    StartIsOrderly(regs[8], Story()[0], 60.0, Saved);
  }

  lemma IsTrying(reg: Reg, lease: nat)
    requires OneRoute(reg, Trying(lease), map[KeyOf(Third(lease)) := Third(lease)], lease)
    ensures ONLY in reg.routes && reg.routes[ONLY].state == HalfOpen && reg.routes[ONLY].policy.recoveryThreshold == 2
  {
  }

  lemma RebornIsSound(reg: Reg)
    ensures Inv(Reborn(reg))
  {
  }

  /** A life in which a route fails, succeeds once, is restarted, succeeds once more and closes. */
  lemma RecoverySpansRestart() returns (regs: seq<Reg>, tallies: seq<Tally>)
    ensures IsLife(regs, Events(), tallies) && Events()[6] == Restart
    ensures regs[6].WellKeyed() && OneRoute(regs[6], Halfway(), map[], 2) && Inv(regs[6])
    ensures regs[6].disk == Some(Export(regs[6]))
    ensures ONLY in regs[10].routes && regs[10].routes[ONLY].state == HalfOpen && ClosedIn(regs[11], ONLY)
    ensures Read(tallies[11], ONLY) >= 2
  {
    hide Next, Export, Inv, Orderly, TallyAfter, Events, After;
    EventsAre();
    var r0: Reg := EMPTY;
    var r1 := After(r0, Events()[0]);
    var r2 := After(r1, Events()[1]);
    var r3 := After(r2, Events()[2]);
    var r4 := After(r3, Events()[3]);
    var r5 := After(r4, Events()[4]);
    var r6 := After(r5, Events()[5]);
    var r7 := After(r6, Events()[6]);
    var r8 := After(r7, Events()[7]);
    var r9 := After(r8, Events()[8]);
    var r10 := After(r9, Events()[9]);
    var r11 := After(r10, Events()[10]);
    regs := [r0, r1, r2, r3, r4, r5, r6, r7, r8, r9, r10, r11];
    FirstProcess(regs);
    SecondProcess(regs);
    SecondOrderly(regs);
    tallies := Tallies(regs, 11);
    forall i | 0 <= i < 11
      ensures Lives(regs[i], Events()[i], tallies[i], regs[i + 1], tallies[i + 1])
    {
      TalliesFollow(regs, 11, i);
    }
    TalliesFollow(regs, 11, 0);
    RecoveryIsEarned(regs, Events(), tallies, 10, ONLY);
  }

  lemma EventsAre()
    ensures |Events()| == 11 && Events()[6] == Restart && Events()[10].Act?
  {
  }

  // ------------------------------------------------- a process that does not attach first

  /** A process that fails an attempt before it takes over the document it found. */
  datatype Hasty = Hasty(start: Reg, configured: Reg, probing: Reg, failed: Reg, taken: Reg, trying: Reg, closed: Reg)

  predicate IsHasty(source: Reg, h: Hasty) {
    && h.start == Reborn(source) && h.start.WellKeyed() && h.configured.WellKeyed() && h.probing.WellKeyed()
    && h.failed.WellKeyed() && h.taken.WellKeyed() && h.trying.WellKeyed()
    && Permitted(h.start, Story()[0]) && h.configured == Next(h.start, Story()[0]).reg
    && h.probing == Next(h.configured, Story()[2]).reg
    && h.failed == Next(h.probing, Story()[3]).reg
    && h.taken == Next(h.failed, TAKE).reg
    && h.trying == Next(h.taken, TRY).reg
    && h.closed == Next(h.trying, Close(2)).reg
  }

  /** The account of such a process, from the account it found. */
  function HastyTally(h: Hasty, tally: Tally): Tally
    requires h.configured.WellKeyed() && h.probing.WellKeyed() && h.failed.WellKeyed() && h.taken.WellKeyed()
    requires h.start.WellKeyed() && h.trying.WellKeyed()
  {
    var t1 := TallyAfter(h.start, Act(Story()[0]), tally);
    var t2 := TallyAfter(h.configured, Act(Story()[2]), t1);
    var t3 := TallyAfter(h.probing, Act(Story()[3]), t2);
    var t4 := TallyAfter(h.failed, Act(TAKE), t3);
    var t5 := TallyAfter(h.taken, Act(TRY), t4);
    TallyAfter(h.trying, Act(Close(2)), t5)
  }

  lemma OthersKeepAccount(reg: Reg, op: Op, tally: Tally)
    requires reg.WellKeyed() && ONLY in reg.routes && !op.OpSuccess? && !op.OpFailure?
    ensures Read(TallyAfter(reg, Act(op), tally), ONLY) == Read(tally, ONLY)
  {
    hide Next;
  }

  lemma AppliedAccount(reg: Reg, op: Op, tally: Tally)
    requires reg.WellKeyed() && (op.OpSuccess? || op.OpFailure?) && op.ticket.version == ONLY && op.save == Saved
    requires Next(reg, op).reply == Seen(Applied) && ONLY in Next(reg, op).reg.routes
    ensures Read(TallyAfter(reg, Act(op), tally), ONLY) == if op.OpSuccess? then Read(tally, ONLY) + 1 else 0
  {
    hide Next;
    assert Landed(op) == op;
  }

  lemma HasOnly(reg: Reg, rt: Runtime, active: map<ActiveKey, Ticket>, leases: nat)
    requires OneRoute(reg, rt, active, leases)
    ensures ONLY in reg.routes
  {
  }

  /** The hasty process closes the route with a single success after its failure, where two are asked for. */
  lemma HastyCloses(source: Reg, tally: Tally) returns (h: Hasty)
    requires OneRoute(source, Halfway(), map[], 2) && source.WellKeyed() && Inv(source)
    requires source.disk == Some(Export(source))
    ensures IsHasty(source, h)
    ensures ONLY in h.trying.routes && h.trying.routes[ONLY].state == HalfOpen && ClosedIn(h.closed, ONLY)
    ensures h.trying.routes[ONLY].policy.recoveryThreshold == 2 && Read(HastyTally(h, tally), ONLY) == 1
  {
    hide Next, Export, Inv, OneRoute, TallyAfter;
    var start := Reborn(source);
    StoryConfigures(start);
    var configured := Next(start, Story()[0]).reg;
    HasOnly(configured, Idle(), map[], 0);
    StoryProbes(configured);
    var probing := Next(configured, Story()[2]).reg;
    HasOnly(probing, Probing(), map[KeyOf(FIRST) := FIRST], 1);
    StoryFails(probing);
    var failed := Next(probing, Story()[3]).reg;
    HasOnly(failed, Opened(), map[], 1);
    TakesOver(source, failed, Opened(), 1);
    var taken := Next(failed, TAKE).reg;
    HasOnly(taken, Resumed(), map[], 1);
    TriesAgain(taken, 1);
    var trying := Next(taken, TRY).reg;
    IsTrying(trying, 2);
    SecondSuccess(trying, 2);
    h := Hasty(start, configured, probing, failed, taken, trying, Next(trying, Close(2)).reg);
    var t1 := TallyAfter(h.start, Act(Story()[0]), tally);
    var t2 := TallyAfter(h.configured, Act(Story()[2]), t1);
    var t3 := TallyAfter(h.probing, Act(Story()[3]), t2);
    AppliedAccount(probing, Story()[3], t2);
    OthersKeepAccount(failed, TAKE, t3);
    var t4 := TallyAfter(h.failed, Act(TAKE), t3);
    OthersKeepAccount(taken, TRY, t4);
    AppliedAccount(trying, Close(2), TallyAfter(h.taken, Act(TRY), t4));
  }

  /** Without attaching first the count is not kept: the life told above, with another second process. */
  lemma HastyHappens() returns (regs: seq<Reg>, tallies: seq<Tally>, h: Hasty)
    ensures IsLife(regs, Events(), tallies) && Events()[6] == Restart && IsHasty(regs[6], h)
    ensures ONLY in h.trying.routes && h.trying.routes[ONLY].state == HalfOpen && ClosedIn(h.closed, ONLY)
    ensures Read(HastyTally(h, tallies[7]), ONLY) < h.trying.routes[ONLY].policy.recoveryThreshold
  {
    hide Next, Export, Inv, OneRoute, IsLife, IsHasty, HastyTally;
    regs, tallies := RecoverySpansRestart();
    assert |regs| == 12 && |tallies| == 12 by { LifeLengths(regs, tallies); }
    h := HastyCloses(regs[6], tallies[7]);
    assert IsKeyed(h) by { HastyIsKeyed(regs[6], h); }
  }

  predicate IsKeyed(h: Hasty) {
    && h.start.WellKeyed() && h.configured.WellKeyed() && h.probing.WellKeyed() && h.failed.WellKeyed()
    && h.taken.WellKeyed() && h.trying.WellKeyed()
  }

  lemma HastyIsKeyed(source: Reg, h: Hasty)
    requires IsHasty(source, h)
    ensures IsKeyed(h)
  {
  }

  lemma LifeLengths(regs: seq<Reg>, tallies: seq<Tally>)
    requires IsLife(regs, Events(), tallies)
    ensures |regs| == 12 && |tallies| == 12
  {
    hide Next, TallyAfter, Orderly;
  }
}
