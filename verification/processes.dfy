/** Which processes belong to the desktop application (backend/codex_lifecycle.py). */
module ProcessOwnership {
  import opened Common

  datatype Kind = Desktop | DesktopChild | PackagedServer | RuntimeServer

  datatype Identity = Identity(pid: nat, started: nat)

  datatype Process = Process(pid: nat, parent: nat, started: nat, kind: Kind, eligible: bool) {
    function Id(): Identity { Identity(pid, started) }
  }

  /** A snapshot names every pid once; others are refused when they are read. */
  predicate UniquePids(ps: seq<Process>) {
    forall p <- ps, q <- ps :: p.pid == q.pid ==> p == q
  }

  /** The live parent, unless it is younger than the child or, for forced ownership, not eligible. */
  predicate IsParent(ps: seq<Process>, forced: bool, child: Process, parent: Process) {
    parent in ps && parent.pid == child.parent && parent.started <= child.started && (forced ==> parent.eligible)
  }

  /** `ancestor` is n consistent parent links above `p`. */
  ghost predicate Above(ps: seq<Process>, forced: bool, p: Process, ancestor: Process, n: nat)
    decreases n
  {
    if n == 0 then p == ancestor
    else exists child :: Above(ps, forced, p, child, n - 1) && IsParent(ps, forced, child, ancestor)
  }

  /** Eligible, with a chain of eligible, start-time-consistent parents up to a desktop process. */
  ghost predicate DesktopOwned(ps: seq<Process>, p: Process) {
    p.eligible && exists root, n: nat :: Above(ps, true, p, root, n) && root.kind == Desktop
  }

  /** Anything but a runtime server; a runtime server only with a live desktop ancestor. */
  ghost predicate Related(ps: seq<Process>, p: Process) {
    p.kind != RuntimeServer || exists root, n: nat :: Above(ps, false, p, root, n) && root.kind == Desktop
  }

  // -------------------------------------------------------------------- the walk

  /** The walk so far: the trail holds the ancestors in order, all different, none a desktop process. */
  ghost predicate Walked(ps: seq<Process>, forced: bool, trail: seq<Process>, p: Process) {
    && trail != [] && trail[0] == p
    && (forall i :: 0 <= i < |trail| ==> trail[i] in ps)
    && (forall i, j :: 0 <= i < j < |trail| && j == i + 1 ==> IsParent(ps, forced, trail[i], trail[j]))
    && (forall i, j :: 0 <= i < j < |trail| ==> trail[i].pid != trail[j].pid)
  }

  predicate NoDesktop(trail: seq<Process>) {
    forall i :: 0 <= i < |trail| ==> trail[i].kind != Desktop
  }

  lemma {:induction false} WalkIsAbove(ps: seq<Process>, forced: bool, trail: seq<Process>, p: Process, n: nat)
    requires Walked(ps, forced, trail, p) && n < |trail|
    ensures Above(ps, forced, p, trail[n], n)
    decreases n
  {
    if n > 0 {
      WalkIsAbove(ps, forced, trail, p, n - 1);
      assert IsParent(ps, forced, trail[n - 1], trail[n]);
    }
  }

  /** Nothing above the walk that is not on it: its end has no parent, or one on the trail. */
  predicate WalkEnds(ps: seq<Process>, forced: bool, trail: seq<Process>) {
    trail != [] && forall q <- ps :: IsParent(ps, forced, Final(trail), q) ==> q in trail
  }

  /** Once the walk ends, every ancestor is on the trail, cyclic parent maps included. */
  lemma {:induction false} AboveIsOnTrail(
    ps: seq<Process>, forced: bool, trail: seq<Process>, p: Process, ancestor: Process, n: nat)
    requires UniquePids(ps) && Walked(ps, forced, trail, p) && WalkEnds(ps, forced, trail)
    requires Above(ps, forced, p, ancestor, n)
    ensures ancestor in trail
    decreases n
  {
    if n > 0 {
      var child :| Above(ps, forced, p, child, n - 1) && IsParent(ps, forced, child, ancestor);
      AboveIsOnTrail(ps, forced, trail, p, child, n - 1);
      var i :| 0 <= i < |trail| && trail[i] == child;
      if i < |trail| - 1 {
        assert IsParent(ps, forced, trail[i], trail[i + 1]);
        assert ancestor == trail[i + 1];
      }
    }
  }

  function ByPid(ps: seq<Process>): (m: map<nat, Process>)
    requires UniquePids(ps)
    ensures forall pid <- m :: m[pid] in ps && m[pid].pid == pid
    ensures forall p <- ps :: p.pid in m && m[p.pid] == p
  {
    map p | p in ps :: p.pid := p
  }

  function Seen(trail: seq<Process>): set<nat> {
    set p | p in trail :: p.pid
  }

  lemma WalkOn(ps: seq<Process>, forced: bool, trail: seq<Process>, p: Process, parent: Process)
    requires Walked(ps, forced, trail, p) && IsParent(ps, forced, Final(trail), parent) && parent.pid !in Seen(trail)
    ensures Walked(ps, forced, trail + [parent], p)
    ensures Seen(trail + [parent]) == Seen(trail) + {parent.pid}
  {
    var longer := trail + [parent];
    forall i, j | 0 <= i < j < |longer|
      ensures longer[i].pid != longer[j].pid
    {
      if j == |trail| {
        assert trail[i] in trail;
      }
    }
  }

  lemma SeenIsOnTrail(ps: seq<Process>, trail: seq<Process>, q: Process)
    requires UniquePids(ps) && q in ps && q.pid in Seen(trail) && forall t <- trail :: t in ps
    ensures q in trail
  {
  }

  lemma NoChain(ps: seq<Process>, forced: bool, trail: seq<Process>, p: Process)
    requires UniquePids(ps) && Walked(ps, forced, trail, p) && WalkEnds(ps, forced, trail) && NoDesktop(trail)
    ensures !exists root, n: nat :: Above(ps, forced, p, root, n) && root.kind == Desktop
  {
    forall root, n: nat | Above(ps, forced, p, root, n)
      ensures root.kind != Desktop
    {
      AboveIsOnTrail(ps, forced, trail, p, root, n);
    }
  }

  lemma WalkStops(ps: seq<Process>, forced: bool, trail: seq<Process>, p: Process, parent: Option<Process>)
    requires UniquePids(ps) && Walked(ps, forced, trail, p)
    requires parent == if Final(trail).parent in ByPid(ps) then Some(ByPid(ps)[Final(trail).parent]) else None
    requires parent.None? || (forced && !parent.value.eligible) || parent.value.pid in Seen(trail)
             || parent.value.started > Final(trail).started
    ensures WalkEnds(ps, forced, trail)
  {
    forall q | q in ps && IsParent(ps, forced, Final(trail), q)
      ensures q in trail
    {
      SeenIsOnTrail(ps, trail, q);
    }
  }

  lemma LinkHolds(ps: seq<Process>, forced: bool, child: Process, parent: Process)
    requires parent in ps && parent.pid == child.parent && parent.started <= child.started
    requires forced ==> parent.eligible
    ensures IsParent(ps, forced, child, parent)
  {
  }

  /** The inner loop of `desktop_owned_processes`. */
  method IsDesktopOwned(ps: seq<Process>, p: Process) returns (owned: bool)
    requires UniquePids(ps) && p in ps
    ensures owned <==> DesktopOwned(ps, p)
  {
    if !p.eligible {
      return false;
    }
    var byPid := ByPid(ps);
    var child, seen := p, {p.pid};
    ghost var trail := [p];
    while true
      invariant Walked(ps, true, trail, p) && child == Final(trail) && seen == Seen(trail)
      invariant NoDesktop(trail[..|trail| - 1])
      decreases byPid.Keys - seen
    {
      hide Walked, WalkEnds, IsParent, Seen, Above, UniquePids;
      if child.kind == Desktop {
        WalkIsAbove(ps, true, trail, p, |trail| - 1);
        return true;
      }
      assert trail == trail[..|trail| - 1] + [child];
      assert NoDesktop(trail);
      var parent := if child.parent in byPid then Some(byPid[child.parent]) else None;
      if parent.None? || !parent.value.eligible || parent.value.pid in seen || parent.value.started > child.started {
        WalkStops(ps, true, trail, p, parent);
        NoChain(ps, true, trail, p);
        return false;
      }
      LinkHolds(ps, true, child, parent.value);
      WalkOn(ps, true, trail, p, parent.value);
      seen := seen + {parent.value.pid};
      child := parent.value;
      trail := trail + [child];
    }
  }

  /** The inner loop of `related_processes`. */
  method IsRelated(ps: seq<Process>, p: Process) returns (related: bool)
    requires UniquePids(ps) && p in ps
    ensures related <==> Related(ps, p)
  {
    if p.kind != RuntimeServer {
      return true;
    }
    var byPid := ByPid(ps);
    var child, seen := p, {p.pid};
    ghost var trail := [p];
    while child.parent in byPid
      invariant Walked(ps, false, trail, p) && child == Final(trail) && seen == Seen(trail)
      invariant NoDesktop(trail)
      decreases byPid.Keys - seen
    {
      hide Walked, WalkEnds, IsParent, Seen, Above, UniquePids;
      var parent := byPid[child.parent];
      if parent.pid in seen || parent.started > child.started {
        break;
      }
      LinkHolds(ps, false, child, parent);
      WalkOn(ps, false, trail, p, parent);
      if parent.kind == Desktop {
        WalkIsAbove(ps, false, trail + [parent], p, |trail|);
        return true;
      }
      seen := seen + {parent.pid};
      child := parent;
      trail := trail + [child];
    }
    hide Walked, WalkEnds, IsParent, Seen, Above, UniquePids;
    WalkStops(ps, false, trail, p, if child.parent in byPid then Some(byPid[child.parent]) else None);
    NoChain(ps, false, trail, p);
    return false;
  }

  /** `desktop_owned_processes`. */
  method DesktopOwnedProcesses(ps: seq<Process>) returns (owned: seq<Process>)
    requires UniquePids(ps)
    ensures forall p :: p in owned <==> p in ps && DesktopOwned(ps, p)
  {
    hide DesktopOwned, UniquePids;
    owned := [];
    for i := 0 to |ps|
      invariant forall p :: p in owned <==> p in ps[..i] && DesktopOwned(ps, p)
    {
      var holds := IsDesktopOwned(ps, ps[i]);
      assert ps[..i + 1] == ps[..i] + [ps[i]];
      if holds {
        owned := owned + [ps[i]];
      }
    }
    assert ps[..|ps|] == ps;
  }

  /** `related_processes`. */
  method RelatedProcesses(ps: seq<Process>) returns (related: seq<Process>)
    requires UniquePids(ps)
    ensures forall p :: p in related <==> p in ps && Related(ps, p)
  {
    hide Related, UniquePids;
    related := [];
    for i := 0 to |ps|
      invariant forall p :: p in related <==> p in ps[..i] && Related(ps, p)
    {
      var holds := IsRelated(ps, ps[i]);
      assert ps[..i + 1] == ps[..i] + [ps[i]];
      if holds {
        related := related + [ps[i]];
      }
    }
    assert ps[..|ps|] == ps;
  }
}

/** Ending a batch of processes through pinned handles. */
module ProcessTermination {
  import opened Common
  import opened ProcessOwnership

  /** What opening a pid gives: an instance with its start time if that can be read, nothing, or an error. */
  datatype Opening = Opened(created: Option<nat>) | Gone | Refused

  datatype Ending = AlreadyExited | Killed | ExitedMeanwhile | NotEnded

  datatype Result = Done | OsFailure | GuardRaised

  /** The handle opened for `p` is the instance `p` stands for, or the instance is gone. */
  predicate Pinned(p: Process, openings: nat -> Opening) {
    p.eligible && (openings(p.pid) == Gone || openings(p.pid) == Opened(Some(p.started)))
  }

  predicate Live(p: Process, openings: nat -> Opening) {
    openings(p.pid).Opened?
  }

  function Ids(ps: seq<Process>): set<Identity> {
    set p | p in ps :: p.Id()
  }

  /** The processes of a kind or of the other kinds, in order. */
  function Picked(ps: seq<Process>, desktop: bool): (r: seq<Process>)
    ensures forall p :: p in r <==> p in ps && (p.kind == Desktop) == desktop
  {
    if ps == [] then []
    else
      var rest := Picked(ps[..|ps| - 1], desktop);
      assert forall p :: p in ps <==> p in ps[..|ps| - 1] || p == Final(ps) by {
        assert ps == ps[..|ps| - 1] + [Final(ps)];
      }
      if (Final(ps).kind == Desktop) == desktop then rest + [Final(ps)] else rest
  }

  /**
   How a batch ends: an error if one of it is not eligible, cannot be opened, is another instance, or
   cannot be ended; the guard's objection if all are pinned; done otherwise.
   */
  ghost function TerminationResult(processes: seq<Process>, openings: nat -> Opening, guardHolds: bool,
                                   endings: Identity -> Ending): Result
  {
    if exists p <- processes :: !p.eligible || (openings(p.pid) != Gone && openings(p.pid) != Opened(Some(p.started)))
    then OsFailure
    else if !guardHolds then GuardRaised
    else if exists p <- processes :: openings(p.pid).Opened? && endings(p.Id()) == NotEnded then OsFailure
    else Done
  }

  class ProcessTerminator {
    var terminated: set<Identity>

    constructor ()
      ensures terminated == {}
    {
      terminated := {};
    }

    /** Opens and validates every process of the batch, before any is ended. */
    method Pin(processes: seq<Process>, openings: nat -> Opening) returns (handles: Option<seq<Process>>)
      ensures handles.Some? <==> forall p <- processes :: Pinned(p, openings)
      ensures handles.Some? ==> forall p :: p in handles.value <==> p in processes && Live(p, openings)
    {
      var open: seq<Process> := [];
      for i := 0 to |processes|
        invariant forall j :: 0 <= j < i ==> Pinned(processes[j], openings)
        invariant forall p :: p in open <==> p in processes[..i] && Live(p, openings)
      {
        var p := processes[i];
        assert processes[..i + 1] == processes[..i] + [p];
        if !p.eligible {
          assert !Pinned(p, openings);
          return None;
        }
        match openings(p.pid) {
          case Gone =>
          case Refused =>
            assert !Pinned(p, openings);
            return None;
          case Opened(created) =>
            if created != Some(p.started) {
              assert !Pinned(p, openings);
              return None;
            }
            open := open + [p];
        }
      }
      assert processes[..|processes|] == processes;
      return Some(open);
    }

    /**
     `terminate`: nothing is ended unless every process of the batch is eligible and pinned to its
     own instance and the guard holds after that; desktop processes go first.
     */
    method Terminate(processes: seq<Process>, openings: nat -> Opening, guardHolds: bool, endings: Identity -> Ending)
      returns (result: Result, order: seq<Process>)
      modifies this
      ensures terminated == old(terminated) + Ids(order)
      ensures order != [] ==> guardHolds && forall p <- processes :: Pinned(p, openings)
      ensures forall p <- order :: p in processes && openings(p.pid) == Opened(Some(p.started))
      ensures DesktopsFirst(order)
      ensures result == TerminationResult(processes, openings, guardHolds, endings)
      ensures result == Done ==>
                forall p :: p in order <==> p in processes && Live(p, openings) && endings(p.Id()) == Killed
      ensures forall p <- order :: endings(p.Id()) == Killed
    {
      order := [];
      assert Ids(order) == {};
      var handles := Pin(processes, openings);
      if handles.None? {
        return OsFailure, order;
      }
      if !guardHolds {
        return GuardRaised, order;
      }
      var queue := Picked(handles.value, true) + Picked(handles.value, false);
      var ended;
      ended, order := EndAll(queue, endings);
      assert forall p <- queue :: Pinned(p, openings) && Live(p, openings);
      assert forall p <- processes :: Live(p, openings) ==> p in queue;
      assert forall p <- queue :: p in processes && Live(p, openings);
      result := if ended then Done else OsFailure;
    }

    /** Ends the pinned processes in order, until one cannot be ended. */
    method EndAll(queue: seq<Process>, endings: Identity -> Ending) returns (ended: bool, order: seq<Process>)
      requires DesktopsFirst(queue)
      modifies this
      ensures terminated == old(terminated) + Ids(order)
      ensures DesktopsFirst(order) && forall p <- order :: p in queue && endings(p.Id()) == Killed
      ensures ended <==> forall p <- queue :: endings(p.Id()) != NotEnded
      ensures ended ==> forall p <- queue :: endings(p.Id()) == Killed ==> p in order
      ensures forall i :: 0 <= i < |queue| && (forall j :: 0 <= j <= i ==> endings(queue[j].Id()) != NotEnded) ==>
                endings(queue[i].Id()) == Killed ==> queue[i] in order
    {
      hide KilledOf, DesktopsFirst, Ids;
      order := [];
      NobodyKilled(queue, endings);
      for i := 0 to |queue|
        invariant terminated == old(terminated) + Ids(order)
        invariant order == KilledOf(queue[..i], endings)
        invariant forall j :: 0 <= j < i ==> endings(queue[j].Id()) != NotEnded
      {
        var p := queue[i];
        KilledMore(queue, i, endings);
        match endings(p.Id()) {
          case AlreadyExited =>
          case ExitedMeanwhile =>
          case NotEnded =>
            KilledMeans(queue, i, endings);
            return false, order;
          case Killed =>
            terminated := terminated + {p.Id()};
            order := order + [p];
        }
      }
      assert queue[..|queue|] == queue;
      KilledMeans(queue, |queue|, endings);
      return true, order;
    }
  }

  /** Those of the list that are ended by the call, in order. */
  function KilledOf(ps: seq<Process>, endings: Identity -> Ending): seq<Process> {
    if ps == [] then []
    else
      var rest := KilledOf(ps[..|ps| - 1], endings);
      if endings(Final(ps).Id()) == Killed then rest + [Final(ps)] else rest
  }

  lemma NobodyKilled(queue: seq<Process>, endings: Identity -> Ending)
    ensures KilledOf(queue[..0], endings) == [] && Ids([]) == {}
  {
  }

  lemma KilledMore(queue: seq<Process>, i: nat, endings: Identity -> Ending)
    requires i < |queue|
    ensures var before := KilledOf(queue[..i], endings);
            && KilledOf(queue[..i + 1], endings) == (if endings(queue[i].Id()) == Killed then before + [queue[i]] else before)
            && Ids(before + [queue[i]]) == Ids(before) + {queue[i].Id()}
  {
    assert queue[..i + 1][..i] == queue[..i];
  }

  lemma {:induction false} KilledAre(ps: seq<Process>, endings: Identity -> Ending)
    ensures forall p :: p in KilledOf(ps, endings) <==> p in ps && endings(p.Id()) == Killed
  {
    if ps != [] {
      KilledAre(ps[..|ps| - 1], endings);
      assert ps == ps[..|ps| - 1] + [Final(ps)];
    }
  }

  lemma {:induction false} KilledKeepOrder(ps: seq<Process>, endings: Identity -> Ending)
    requires DesktopsFirst(ps)
    ensures DesktopsFirst(KilledOf(ps, endings))
  {
    if ps != [] {
      var front := ps[..|ps| - 1];
      KilledKeepOrder(front, endings);
      KilledAre(front, endings);
      var rest := KilledOf(front, endings);
      forall i | 0 <= i < |rest| && Final(ps).kind == Desktop
        ensures rest[i].kind == Desktop
      {
        assert rest[i] in front;
        var j :| 0 <= j < |front| && front[j] == rest[i];
        assert ps[j] == rest[i];
      }
    }
  }

  lemma KilledMeans(queue: seq<Process>, n: nat, endings: Identity -> Ending)
    requires n <= |queue| && DesktopsFirst(queue)
    ensures DesktopsFirst(KilledOf(queue[..n], endings))
    ensures forall p <- KilledOf(queue[..n], endings) :: p in queue && endings(p.Id()) == Killed
    ensures forall i :: 0 <= i < n && endings(queue[i].Id()) == Killed ==> queue[i] in KilledOf(queue[..n], endings)
  {
    hide KilledOf;
    KilledAre(queue[..n], endings);
    KilledKeepOrder(queue[..n], endings);
    assert forall i :: 0 <= i < n ==> queue[..n][i] == queue[i];
  }

  predicate DesktopsFirst(order: seq<Process>) {
    forall i, j :: 0 <= i < j < |order| && order[j].kind == Desktop ==> order[i].kind == Desktop
  }
}

/** `force_close_codex`: the loop over snapshots that nobody controls. */
module ForcedClose {
  import opened Common
  import opened ProcessOwnership
  import opened ProcessTermination

  type Snapshot = seq<Process>

  datatype Verdict =
    | Closed
    | ForcedClosed
    | QueryFailed
    | TreeChanged
    | DesktopRestarted
    | ForceExitTimeout
    | ForceGuardMissing
    | OwnershipUncertain
    | TerminationFailed
    | TaskGuardRaised
    | StillWaiting

  /** What the caller knows beforehand, and what the queries will return. */
  datatype Run = Run(observed: Snapshot, forceOwned: seq<Process>, queries: seq<Option<Snapshot>>)

  predicate WellFormed(run: Run) {
    UniquePids(run.observed) && forall q <- run.queries :: q.Some? ==> UniquePids(q.value)
  }

  ghost function RelatedIds(ps: Snapshot): set<Identity> {
    set p | p in ps && Related(ps, p) :: p.Id()
  }

  ghost function OwnedIds(ps: Snapshot): set<Identity> {
    set p | p in ps && DesktopOwned(ps, p) :: p.Id()
  }

  /** Identities seen as related before query n. */
  ghost function KnownBefore(run: Run, n: nat): set<Identity>
    requires n <= |run.queries|
  {
    if n == 0 then Ids(run.observed + run.forceOwned)
    else KnownBefore(run, n - 1) + (if run.queries[n - 1].Some? then RelatedIds(run.queries[n - 1].value) else {})
  }

  /** Identities shown to belong to the desktop application before query n. */
  ghost function OwnedBefore(run: Run, n: nat): set<Identity>
    requires n <= |run.queries|
  {
    if n == 0 then (set p | p in run.forceOwned && p.eligible :: p.Id()) + OwnedIds(run.observed)
    else OwnedBefore(run, n - 1) + (if run.queries[n - 1].Some? then OwnedIds(run.queries[n - 1].value) else {})
  }

  function Remaining(ps: Snapshot, known: set<Identity>): (r: seq<Process>)
    ensures forall p :: p in r <==> p in ps && p.Id() in known
  {
    if ps == [] then []
    else
      var rest := Remaining(ps[..|ps| - 1], known);
      assert forall p :: p in ps <==> p in ps[..|ps| - 1] || p == Final(ps) by {
        assert ps == ps[..|ps| - 1] + [Final(ps)];
      }
      if Final(ps).Id() in known then rest + [Final(ps)] else rest
  }

  /** A process nobody knew, started by one that is known. */
  predicate Spawned(p: Process, known: set<Identity>) {
    p.Id() !in known && exists parent <- known :: parent.pid == p.parent && parent.started <= p.started
  }

  function DesktopIds(ps: seq<Process>): set<Identity> {
    set p | p in ps && p.kind == Desktop :: p.Id()
  }

  // ------------------------------------------------------------ the verdict, from the answers

  /** A process of query i that is known by then. */
  ghost predicate Remains(run: Run, i: nat, p: Process)
    requires i < |run.queries|
  {
    run.queries[i].Some? && p in run.queries[i].value && p.Id() in KnownBefore(run, i + 1)
  }

  /** The desktop processes the caller saw, or, without them, those of the first query. */
  ghost function Initial(run: Run): set<Identity>
    requires run.queries != []
  {
    if run.observed != [] then set p | p in run.observed && p.kind == Desktop :: p.Id()
    else if run.queries[0].None? then {}
    else set p | p in run.queries[0].value && Remains(run, 0, p) && p.kind == Desktop :: p.Id()
  }

  ghost predicate Gone(run: Run, i: nat)
    requires i < |run.queries|
  {
    forall p :: !Remains(run, i, p)
  }

  ghost predicate Restarted(run: Run, i: nat)
    requires i < |run.queries|
  {
    exists p :: Remains(run, i, p) && p.kind == Desktop && p.Id() !in Initial(run)
  }

  /** Somebody unknown was started by somebody known. */
  ghost predicate Grown(run: Run, i: nat)
    requires i < |run.queries| && run.queries[i].Some?
  {
    exists p <- run.queries[i].value, parent <- KnownBefore(run, i) ::
      p.Id() !in KnownBefore(run, i) && parent.pid == p.parent && parent.started <= p.started
  }

  /** Something of the batch is not owned, or not eligible. */
  ghost predicate Foreign(run: Run)
    requires run.queries != []
  {
    exists p :: Remains(run, 0, p) && (!p.eligible || p.Id() !in OwnedBefore(run, 1))
  }

  /** The batch is handed to the terminator: everything that remains is owned, eligible and not new. */
  ghost predicate Forces(run: Run, guarded: bool) {
    && run.queries != [] && run.queries[0].Some? && !Gone(run, 0) && !Restarted(run, 0) && guarded && !Foreign(run)
  }

  /** What the first query decides before anything is ended. */
  ghost function BeforeForce(run: Run, guarded: bool): Verdict
    requires run.queries != [] && !Forces(run, guarded)
  {
    if run.queries[0].None? then QueryFailed
    else if Gone(run, 0) then Closed
    else if Restarted(run, 0) then DesktopRestarted
    else if !guarded then ForceGuardMissing
    else OwnershipUncertain
  }

  /** What a later query decides, if it does. */
  ghost function AfterForce(run: Run, late: nat -> bool, i: nat): Option<Verdict>
    requires 0 < i < |run.queries|
  {
    if run.queries[i].None? then Some(QueryFailed)
    else if Grown(run, i) then Some(TreeChanged)
    else if Gone(run, i) then Some(ForcedClosed)
    else if Restarted(run, i) then Some(DesktopRestarted)
    else if late(i) then Some(ForceExitTimeout)
    else None
  }

  /** A batch handed to the terminator after query `at`. */
  datatype Batch = Batch(at: nat, processes: seq<Process>)

  /**
   The batch is everything known that is still there, all of it owned and eligible, and no desktop
   process started since the caller looked.
   */
  ghost predicate Justified(run: Run, b: Batch) {
    && b.at < |run.queries| && run.queries[b.at].Some?
    && (forall p :: p in b.processes <==> p in run.queries[b.at].value && p.Id() in KnownBefore(run, b.at + 1))
    && (forall p <- b.processes :: p.eligible && p.Id() in OwnedBefore(run, b.at + 1))
    && (run.observed != [] ==>
          forall p <- b.processes :: p.kind == Desktop ==> exists o <- run.observed :: o.kind == Desktop && o.Id() == p.Id())
  }

  /** Nothing related and nothing known is left, and after a kill nothing that known processes started. */
  ghost predicate AllGone(run: Run, at: nat, forced: bool) {
    && at < |run.queries| && run.queries[at].Some?
    && forall p <- run.queries[at].value ::
         && !Related(run.queries[at].value, p) && p.Id() !in KnownBefore(run, at)
         && (forced ==> forall parent <- KnownBefore(run, at) :: parent.pid == p.parent ==> parent.started > p.started)
  }

  lemma GoneIsAllGone(run: Run, i: nat, forced: bool)
    requires i < |run.queries| && run.queries[i].Some? && Gone(run, i) && (forced ==> !Grown(run, i))
    ensures AllGone(run, i, forced)
  {
    hide Related;
    forall p | p in run.queries[i].value
      ensures !Related(run.queries[i].value, p) && p.Id() !in KnownBefore(run, i)
    {
      assert !Remains(run, i, p);
    }
  }

  /** One query's answer, as far as it does not depend on a kill. */
  datatype Look = Settled(verdict: Verdict) | Go(known: set<Identity>, remaining: seq<Process>, desktops: set<Identity>)

  method LookAt(run: Run, at: nat, known: set<Identity>, initial: Option<set<Identity>>, attempted: bool) returns (look: Look)
    requires WellFormed(run) && at < |run.queries| && known == KnownBefore(run, at)
    requires at > 0 || run.observed != [] ==> initial == Some(Initial(run))
    requires at == 0 && run.observed == [] ==> initial == None
    ensures look.Settled? ==>
              look.verdict == if run.queries[at].None? then QueryFailed
                              else if attempted && Grown(run, at) then TreeChanged
                              else if Gone(run, at) then (if attempted then ForcedClosed else Closed)
                              else DesktopRestarted
    ensures look.Settled? <==>
              || run.queries[at].None? || (attempted && Grown(run, at)) || Gone(run, at) || Restarted(run, at)
    ensures look.Go? ==>
              && look.known == KnownBefore(run, at + 1) && look.desktops == Initial(run)
              && forall p :: p in look.remaining <==> Remains(run, at, p)
  {
    if run.queries[at].None? {
      return Settled(QueryFailed);
    }
    var snapshot := run.queries[at].value;
    hide Related, UniquePids;
    if attempted && exists p <- snapshot :: Spawned(p, known) {
      assert Grown(run, at);
      return Settled(TreeChanged);
    }
    assert attempted ==> !Grown(run, at) by {
      assert forall p <- snapshot :: attempted ==> !Spawned(p, known);
    }
    var selected := RelatedProcesses(snapshot);
    assert Ids(selected) == RelatedIds(snapshot);
    var now := known + Ids(selected);
    var remaining := Remaining(snapshot, now);
    assert forall p :: p in remaining <==> Remains(run, at, p);
    if remaining == [] {
      return Settled(if attempted then ForcedClosed else Closed);
    }
    assert Remains(run, at, remaining[0]);
    var desktops := DesktopIds(remaining);
    InitialIs(run, at, remaining);
    if initial.Some? && desktops - initial.value != {} {
      var d :| d in desktops - initial.value;
      assert Restarted(run, at);
      return Settled(DesktopRestarted);
    }
    assert initial.Some? ==> forall d <- desktops :: d !in desktops - initial.value;
    return Go(now, remaining, initial.Or(desktops));
  }

  lemma InitialIs(run: Run, at: nat, remaining: seq<Process>)
    requires at < |run.queries| && run.queries[at].Some? && forall p :: p in remaining <==> Remains(run, at, p)
    ensures at == 0 && run.observed == [] ==> DesktopIds(remaining) == Initial(run)
    ensures run.observed != [] ==> DesktopIds(run.observed) == Initial(run)
    ensures Restarted(run, at) <==> exists d <- DesktopIds(remaining) :: d !in Initial(run)
  {
    hide KnownBefore;
    if exists d <- DesktopIds(remaining) :: d !in Initial(run) {
      var d :| d in DesktopIds(remaining) && d !in Initial(run);
      var p :| p in remaining && p.kind == Desktop && p.Id() == d;
      assert Remains(run, at, p);
    }
  }

  /** Whether the batch may be ended: everything in it is owned and eligible. */
  method MayForce(run: Run, owned: set<Identity>, remaining: seq<Process>) returns (may: bool)
    requires WellFormed(run) && run.queries != [] && run.queries[0].Some? && owned == OwnedBefore(run, 0)
    requires forall p :: p in remaining <==> Remains(run, 0, p)
    ensures may <==> !Foreign(run)
    ensures may ==> forall p <- remaining :: p.eligible && p.Id() in OwnedBefore(run, 1)
  {
    hide DesktopOwned, UniquePids;
    var mine := DesktopOwnedProcesses(run.queries[0].value);
    assert Ids(mine) == OwnedIds(run.queries[0].value);
    var now := owned + Ids(mine);
    assert now == OwnedBefore(run, 1);
    may := forall p <- remaining :: p.eligible && p.Id() in now;
    if !may {
      var p :| p in remaining && !(p.eligible && p.Id() in now);
      assert Remains(run, 0, p);
    }
  }

  /**
   The whole run. `guarded` says whether a task guard was given, `late(i)` whether the deadline has
   passed at query i; the other functions settle what the operating system and the guard answer.
   The queries may end before a verdict.
   */
  method ForceClose(
    run: Run, guarded: bool, guardHolds: bool, late: nat -> bool, openings: nat -> Opening, endings: Identity -> Ending)
    returns (verdict: Verdict, at: nat, batches: seq<Batch>, terminated: set<Identity>)
    requires WellFormed(run)
    ensures at <= |run.queries|
    ensures run.queries == [] ==> verdict == StillWaiting
    // at most one batch, exactly if nothing stands against it, and what becomes of it
    ensures |batches| <= 1 && (batches != [] <==> Forces(run, guarded))
    ensures forall b <- batches :: b.at == 0 && guarded && Justified(run, b)
    ensures batches == [] ==> terminated == {}
    ensures batches != [] ==>
              var b, result := batches[0].processes, TerminationResult(batches[0].processes, openings, guardHolds, endings);
              && (result == Done ==> forall id :: id in terminated <==>
                    exists p <- b :: p.Id() == id && openings(p.pid).Opened? && endings(id) == Killed)
              && (terminated != {} ==> guardHolds) && terminated <= Ids(b)
              && (result == OsFailure ==> verdict == TerminationFailed && at == 0)
              && (result == GuardRaised ==> verdict == TaskGuardRaised && at == 0 && terminated == {})
    // the verdict, and that no earlier query called for one
    ensures run.queries != [] && batches == [] ==> at == 0 && verdict == BeforeForce(run, guarded)
    ensures batches != [] && TerminationResult(batches[0].processes, openings, guardHolds, endings) == Done ==>
              && at > 0 && (forall i :: 0 < i < at ==> AfterForce(run, late, i) == None)
              && (at < |run.queries| ==> AfterForce(run, late, at) == Some(verdict))
              && (at == |run.queries| ==> verdict == StillWaiting)
    // what a success means
    ensures verdict == Closed || verdict == ForcedClosed ==> AllGone(run, at, batches != [])
    ensures verdict == Closed ==> batches == []
    ensures verdict == ForcedClosed ==> batches != []
  {
    hide UniquePids;
    batches, terminated, at := [], {}, 0;
    if run.queries == [] {
      verdict := StillWaiting;
      return;
    }
    var initial := if run.observed != [] then Some(DesktopIds(run.observed)) else None;
    var known, desktops, processes;
    verdict, known, desktops, processes := FirstLook(run, guarded, initial);
    if !Forced(verdict) {
      return;
    }
    batches := [Batch(0, processes)];
    var result;
    result, terminated := EndBatch(processes, openings, guardHolds, endings);
    if result != Done {
      verdict := if result == OsFailure then TerminationFailed else TaskGuardRaised;
      return;
    }
    verdict, at := WaitForExit(run, known, desktops, late);
  }

  /** The first look found a batch to end. */
  predicate Forced(verdict: Verdict) {
    verdict == StillWaiting
  }

  /** The first turn of the loop, up to the call of the terminator; `StillWaiting` stands for going on. */
  method FirstLook(run: Run, guarded: bool, initial: Option<set<Identity>>)
    returns (verdict: Verdict, known: set<Identity>, desktops: set<Identity>, processes: seq<Process>)
    requires WellFormed(run) && run.queries != []
    requires initial == if run.observed != [] then Some(DesktopIds(run.observed)) else None
    ensures Forced(verdict) <==> Forces(run, guarded)
    ensures !Forced(verdict) ==> verdict == BeforeForce(run, guarded)
    ensures verdict == Closed ==> AllGone(run, 0, false)
    ensures verdict != ForcedClosed
    ensures Forced(verdict) ==>
              known == KnownBefore(run, 1) && desktops == Initial(run) && Justified(run, Batch(0, processes))
  {
    hide UniquePids;
    known := Ids(run.observed + run.forceOwned);
    desktops, processes := {}, [];
    if run.observed != [] {
      ObservedInitial(run);
    }
    var owned := StartingOwners(run);
    assert known == KnownBefore(run, 0);
    hide KnownBefore, OwnedBefore, Ids, DesktopIds, RelatedIds, OwnedIds, AllGone;
    var look := LookAt(run, 0, known, initial, false);
    if look.Settled? {
      verdict := look.verdict;
      if verdict == Closed {
        GoneIsAllGone(run, 0, false);
      }
      return;
    }
    assert exists p :: Remains(run, 0, p);
    var may := MayForce(run, owned, look.remaining);
    if !guarded {
      verdict := ForceGuardMissing;
      return;
    }
    if !may {
      verdict := OwnershipUncertain;
      return;
    }
    verdict, known, desktops, processes := StillWaiting, look.known, look.desktops, look.remaining;
    IsJustified(run, processes);
  }

  lemma ObservedInitial(run: Run)
    requires run.queries != [] && run.observed != []
    ensures DesktopIds(run.observed) == Initial(run)
  {
  }

  /** The turns of the loop after the batch. */
  method WaitForExit(run: Run, known0: set<Identity>, desktops: set<Identity>, late: nat -> bool)
    returns (verdict: Verdict, at: nat)
    requires WellFormed(run) && run.queries != [] && known0 == KnownBefore(run, 1) && desktops == Initial(run)
    ensures 0 < at <= |run.queries| && (forall i :: 0 < i < at ==> AfterForce(run, late, i) == None)
    ensures at < |run.queries| ==> AfterForce(run, late, at) == Some(verdict)
    ensures at == |run.queries| ==> verdict == StillWaiting
    ensures verdict == ForcedClosed ==> AllGone(run, at, true)
    ensures verdict != Closed
  {
    hide UniquePids;
    var known := known0;
    at := 1;
    while at < |run.queries|
      invariant 0 < at <= |run.queries| && known == KnownBefore(run, at)
      invariant forall i :: 0 < i < at ==> AfterForce(run, late, i) == None
    {
      hide KnownBefore, Gone, Restarted, Grown, Initial, WellFormed, AllGone;
      var look := LookAt(run, at, known, Some(desktops), true);
      if look.Settled? {
        verdict := look.verdict;
        if verdict == ForcedClosed {
          GoneIsAllGone(run, at, true);
        }
        return;
      }
      if late(at) {
        verdict := ForceExitTimeout;
        return;
      }
      known := look.known;
      at := at + 1;
    }
    verdict := StillWaiting;
  }

  method StartingOwners(run: Run) returns (owned: set<Identity>)
    requires WellFormed(run)
    ensures owned == OwnedBefore(run, 0)
  {
    hide DesktopOwned;
    var mine := DesktopOwnedProcesses(run.observed);
    assert Ids(mine) == OwnedIds(run.observed);
    owned := (set p | p in run.forceOwned && p.eligible :: p.Id()) + Ids(mine);
  }

  lemma IsJustified(run: Run, remaining: seq<Process>)
    requires run.queries != [] && run.queries[0].Some?
    requires forall p :: p in remaining <==> Remains(run, 0, p)
    requires forall p <- remaining :: p.eligible && p.Id() in OwnedBefore(run, 1)
    requires !Restarted(run, 0)
    ensures Justified(run, Batch(0, remaining))
  {
    hide KnownBefore, OwnedBefore;
    forall p | p in remaining && p.kind == Desktop && run.observed != []
      ensures exists o <- run.observed :: o.kind == Desktop && o.Id() == p.Id()
    {
      assert Remains(run, 0, p) && p.Id() in Initial(run);
    }
  }

  /** One call of the terminator. */
  method EndBatch(processes: seq<Process>, openings: nat -> Opening, guardHolds: bool, endings: Identity -> Ending)
    returns (result: Result, terminated: set<Identity>)
    ensures result == TerminationResult(processes, openings, guardHolds, endings)
    ensures result == Done ==> forall id :: id in terminated <==>
              exists p <- processes :: p.Id() == id && openings(p.pid).Opened? && endings(id) == Killed
    ensures result == GuardRaised ==> terminated == {}
    ensures terminated <= Ids(processes)
    ensures terminated != {} ==> guardHolds
  {
    var terminator := new ProcessTerminator();
    var order;
    result, order := terminator.Terminate(processes, openings, guardHolds, endings);
    terminated := terminator.terminated;
    assert order == [] ==> Ids(order) == {};
    assert terminated == Ids(order);
  }
}
