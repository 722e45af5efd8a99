/**
 Shared-history reconcile on a remote host (backend/remote_sync.py, `_REMOTE_RECONCILE_SCRIPT`):
 which copy of a thread is kept and where, the moves and header patches, and their undo.
 */
module ReconcilePlan {
  import opened Common
  import opened TurnScan
  import opened RolloutFile
  import opened RolloutCopies

  type Path = string

  predicate StartsWith(path: string, front: string) {
    |front| <= |path| && path[..|front|] == front
  }

  /** The path is the root or lies below it. */
  predicate Under(path: Path, root: Path) {
    path == root || StartsWith(path, root + "/")
  }

  lemma UnderMeans(path: Path, root: Path)
    ensures Under(path, root) <==> path == root || exists rest: string :: path == root + "/" + rest
  {
    if StartsWith(path, root + "/") {
      assert path == root + "/" + path[|root| + 1..];
    }
    forall rest: string | path == root + "/" + rest
      ensures StartsWith(path, root + "/")
    {
      assert path[..|root| + 1] == root + "/";
    }
  }

  /** `Path.name`. */
  function Name(path: Path): Path {
    if path == "" || Final(path) == '/' then "" else Name(path[..|path| - 1]) + [Final(path)]
  }

  /** The name is what follows the last slash. */
  lemma {:induction false} NameMeans(dir: Path, name: string)
    requires '/' !in name
    ensures Name(dir + "/" + name) == name
    decreases |name|
  {
    var path := dir + "/" + name;
    if name == "" {
      assert Final(path) == '/';
    } else {
      var front := name[..|name| - 1];
      assert Final(path) == Final(name) && Final(name) in name;
      assert path[..|path| - 1] == dir + "/" + front;
      NameMeans(dir, front);
    }
  }

  function ArchiveRoot(home: Path): Path { home + "/archived_sessions" }

  function SessionsRoot(home: Path): Path { home + "/sessions" }

  datatype Candidate = Candidate(path: Path, file: Bytes)

  datatype Row = Row(archived: bool, path: Path)

  datatype Plan = Plan(canonical: Path, destination: Path, losers: seq<Path>)

  /** `body_prefix`. */
  method BodyPrefix(shorter: Bytes, longer: Bytes, block: nat) returns (holds: bool)
    requires block > 0
    ensures holds <==> Prefix(Body(shorter), Body(longer))
  {
    var left, right := Body(shorter), Body(longer);
    if |left| > |right| {
      return false;
    }
    var remaining := |left|;
    while remaining > 0
      invariant 0 <= remaining <= |left|
      invariant left[..|left| - remaining] == right[..|left| - remaining]
    {
      var at, size := |left| - remaining, Min(block, remaining);
      var a, b := left[at..at + size], right[at..at + size];
      if a != b {
        if Prefix(left, right) {
          ChunkOfPrefix(left, right, at, size);
        }
        return false;
      }
      assert left[..at + size] == left[..at] + a && right[..at + size] == right[..at] + b;
      remaining := remaining - size;
    }
    return true;
  }

  function Files(candidates: seq<Candidate>): seq<Bytes> {
    seq(|candidates|, i requires 0 <= i < |candidates| => candidates[i].file)
  }

  /** Every candidate's body is the beginning of this one's. */
  predicate Superset(candidates: seq<Candidate>, c: Candidate) {
    forall o <- candidates :: Prefix(Body(o.file), Body(c.file))
  }

  method IsSuperset(candidates: seq<Candidate>, c: Candidate, block: nat) returns (holds: bool)
    requires block > 0
    ensures holds <==> Superset(candidates, c)
  {
    hide Body, Prefix;
    for i := 0 to |candidates|
      invariant forall j :: 0 <= j < i ==> Prefix(Body(candidates[j].file), Body(c.file))
    {
      holds := BodyPrefix(candidates[i].file, c.file, block);
      if !holds {
        return;
      }
    }
    return true;
  }

  method Supersets(candidates: seq<Candidate>, block: nat) returns (found: seq<Candidate>)
    requires block > 0
    ensures forall c :: c in found <==> c in candidates && Superset(candidates, c)
  {
    hide Superset;
    found := [];
    for i := 0 to |candidates|
      invariant forall c :: c in found <==> c in candidates[..i] && Superset(candidates, c)
    {
      assert candidates[..i + 1] == candidates[..i] + [candidates[i]];
      var holds := IsSuperset(candidates, candidates[i], block);
      if holds {
        found := found + [candidates[i]];
      }
    }
    assert candidates[..|candidates|] == candidates;
  }

  /** A superset exists exactly when any two bodies continue one another. */
  lemma SupersetIffChain(candidates: seq<Candidate>)
    requires candidates != []
    ensures (exists c <- candidates :: Superset(candidates, c)) <==> Chain(Files(candidates))
  {
    hide Body, Chain;
    var files := Files(candidates);
    if exists c <- candidates :: Superset(candidates, c) {
      var c :| c in candidates && Superset(candidates, c);
      var k :| 0 <= k < |candidates| && candidates[k] == c;
      forall i | 0 <= i < |files|
        ensures Prefix(Body(files[i]), Body(files[k]))
      {
        assert candidates[i] in candidates;
      }
      LongestDecides(files, k);
    }
    if Chain(files) {
      var k := SomeLongest(files, |files|);
      LongestDecides(files, k);
      forall o | o in candidates
        ensures Prefix(Body(o.file), Body(candidates[k].file))
      {
        var i :| 0 <= i < |candidates| && candidates[i] == o;
        assert Prefix(Body(files[i]), Body(files[k]));
      }
      assert Superset(candidates, candidates[k]) && candidates[k] in candidates;
    }
  }

  lemma {:induction false} SomeLongest(files: seq<Bytes>, n: nat) returns (k: nat)
    requires 0 < n <= |files|
    ensures k < n && forall i :: 0 <= i < n ==> |Body(files[i])| <= |Body(files[k])|
    decreases n
  {
    hide Body;
    k := 0;
    if n > 1 {
      var before := SomeLongest(files, n - 1);
      k := if |Body(files[n - 1])| > |Body(files[before])| then n - 1 else before;
    }
  }

  /** The first of a sort by descending size, then by path. */
  predicate Before(a: Candidate, b: Candidate) {
    |Body(a.file)| > |Body(b.file)| || (|Body(a.file)| == |Body(b.file)| && StringLeq(a.path, b.path))
  }

  method Foremost(pool: seq<Candidate>) returns (c: Candidate)
    requires pool != []
    ensures c in pool && forall o <- pool :: Before(c, o)
  {
    hide Body;
    c := pool[0];
    StringLeqTotal(c.path, c.path);
    for i := 1 to |pool|
      invariant c in pool && forall j :: 0 <= j < i ==> Before(c, pool[j])
    {
      BeforeIsTotal(c, pool[i]);
      if !Before(c, pool[i]) {
        forall j | 0 <= j < i
          ensures Before(pool[i], pool[j])
        {
          BeforeIsTransitive(pool[i], c, pool[j]);
        }
        c := pool[i];
      }
    }
  }

  lemma BeforeIsTotal(a: Candidate, b: Candidate)
    ensures Before(a, b) || Before(b, a)
    ensures Before(b, b)
  {
    StringLeqTotal(a.path, b.path);
    StringLeqTotal(b.path, b.path);
  }

  lemma BeforeIsTransitive(a: Candidate, b: Candidate, c: Candidate)
    requires Before(a, b) && Before(b, c)
    ensures Before(a, c)
  {
    if StringLeq(a.path, b.path) && StringLeq(b.path, c.path) {
      StringLeqTransitive(a.path, b.path, c.path);
    }
  }

  function Matching(home: Path, archived: bool, pool: seq<Candidate>): (r: seq<Candidate>)
    ensures forall c :: c in r <==> c in pool && Under(c.path, ArchiveRoot(home)) == archived
  {
    if pool == [] then []
    else
      var rest := Matching(home, archived, pool[..|pool| - 1]);
      assert forall c :: c in pool <==> c in pool[..|pool| - 1] || c == Final(pool) by {
        assert pool == pool[..|pool| - 1] + [Final(pool)];
      }
      if Under(Final(pool).path, ArchiveRoot(home)) == archived then rest + [Final(pool)] else rest
  }

  predicate OnSide(home: Path, row: Row, c: Candidate) {
    Under(c.path, ArchiveRoot(home)) == row.archived
  }

  /**
   The copy to keep: it continues all others; it is the recorded one if that does; otherwise one on the
   side the database says if there is any, and the foremost of those.
   */
  ghost predicate Preferred(home: Path, row: Row, candidates: seq<Candidate>, c: Candidate) {
    && c in candidates && Superset(candidates, c)
    && if exists o <- candidates :: o.path == row.path && Superset(candidates, o) then c.path == row.path
       else forall o <- candidates :: Superset(candidates, o) ==>
              && (OnSide(home, row, o) ==> OnSide(home, row, c))
              && (OnSide(home, row, o) == OnSide(home, row, c) ==> Before(c, o))
  }

  /** Which copy of the thread is kept. */
  method Choose(home: Path, row: Row, candidates: seq<Candidate>, block: nat) returns (canonical: Option<Candidate>)
    requires candidates != [] && block > 0
    ensures canonical.None? <==> !Chain(Files(candidates))
    ensures canonical.Some? ==> Preferred(home, row, candidates, canonical.value)
  {
    hide Superset, Chain, Before, Under;
    SupersetIffChain(candidates);
    var supersets := Supersets(candidates, block);
    if supersets == [] {
      return None;
    }
    assert supersets[0] in supersets;
    for i := 0 to |supersets|
      invariant forall j :: 0 <= j < i ==> supersets[j].path != row.path
    {
      if supersets[i].path == row.path {
        return Some(supersets[i]);
      }
    }
    assert forall c <- candidates :: Superset(candidates, c) ==> c.path != row.path;
    var matching := Matching(home, row.archived, supersets);
    var best := Foremost(if matching != [] then matching else supersets);
    assert matching != [] ==> matching[0] in matching;
    return Some(best);
  }

  /** A place for a file that has none on its side. */
  function Recovered(home: Path, archived: bool, name: Path): Path {
    (if archived then ArchiveRoot(home) else SessionsRoot(home) + "/guardian-recovered") + "/" + name
  }

  lemma RecoveredIs(home: Path, archived: bool, name: Path)
    ensures Recovered(home, archived, name)
            == if archived then home + "/archived_sessions/" + name else home + "/sessions/guardian-recovered/" + name
  {
    assert "/archived_sessions" + "/" == "/archived_sessions/";
    assert "/sessions" + "/guardian-recovered" + "/" == "/sessions/guardian-recovered/";
  }

  /** Where the kept copy goes. */
  method Destination(home: Path, row: Row, canonical: Path) returns (destination: Path)
    ensures Under(destination, ArchiveRoot(home)) == row.archived
    ensures destination == if Under(canonical, ArchiveRoot(home)) == row.archived then canonical
                           else if Under(row.path, ArchiveRoot(home)) == row.archived then row.path
                           else Recovered(home, row.archived, Name(canonical))
  {
    if Under(canonical, ArchiveRoot(home)) == row.archived {
      return canonical;
    }
    if Under(row.path, ArchiveRoot(home)) == row.archived {
      return row.path;
    }
    RootsAreApart(home, Name(canonical));
    destination := Recovered(home, row.archived, Name(canonical));
  }

  lemma RootsAreApart(home: Path, name: Path)
    ensures Under(ArchiveRoot(home) + "/" + name, ArchiveRoot(home))
    ensures !Under(SessionsRoot(home) + "/guardian-recovered" + "/" + name, ArchiveRoot(home))
  {
    var recovered := SessionsRoot(home) + "/guardian-recovered" + "/" + name;
    assert recovered[|home| + 1] == 's' && ArchiveRoot(home)[|home| + 1] == 'a';
    assert (ArchiveRoot(home) + "/")[|home| + 1] == 'a';
  }

  lemma PreferredIsOne(home: Path, row: Row, candidates: seq<Candidate>, c: Candidate)
    requires Preferred(home, row, candidates, c)
    ensures c in candidates
  {
  }

  /**
   The plan of one thread: refused exactly when two of its copies diverge; otherwise the copy kept
   continues all the others and ends on the side the database says.
   */
  method PlanThread(home: Path, row: Row, candidates: seq<Candidate>, block: nat) returns (plan: Option<Plan>)
    requires candidates != [] && block > 0
    ensures plan.None? <==> !Chain(Files(candidates))
    ensures plan.Some? ==>
              && (exists c <- candidates :: c.path == plan.value.canonical && Preferred(home, row, candidates, c))
              && Under(plan.value.destination, ArchiveRoot(home)) == row.archived
              && (Under(plan.value.canonical, ArchiveRoot(home)) == row.archived ==>
                    plan.value.destination == plan.value.canonical)
              && (Under(plan.value.canonical, ArchiveRoot(home)) != row.archived ==>
                    plan.value.destination ==
                    if Under(row.path, home + "/archived_sessions") == row.archived then row.path
                    else if row.archived then home + "/archived_sessions/" + Name(plan.value.canonical)
                    else home + "/sessions/guardian-recovered/" + Name(plan.value.canonical))
              && (forall p :: p in plan.value.losers <==>
                    p != plan.value.canonical && exists c <- candidates :: c.path == p)
  {
    hide Superset, Chain, Under, Preferred;
    var canonical := Choose(home, row, candidates, block);
    if canonical.None? {
      return None;
    }
    assert canonical.value in candidates by { PreferredIsOne(home, row, candidates, canonical.value); }
    var destination := Destination(home, row, canonical.value.path);
    RecoveredIs(home, row.archived, Name(canonical.value.path));
    var losers := [];
    for i := 0 to |candidates|
      invariant forall p :: p in losers <==>
                  p != canonical.value.path && exists c <- candidates[..i] :: c.path == p
    {
      assert candidates[..i + 1] == candidates[..i] + [candidates[i]];
      if candidates[i].path != canonical.value.path {
        losers := losers + [candidates[i].path];
      }
    }
    assert candidates[..|candidates|] == candidates;
    return Some(Plan(canonical.value.path, destination, losers));
  }
}

/** The moves, the header patches, and the way back. */
module Reconcile {
  import opened Common
  import opened TurnScan
  import opened RolloutFile
  import opened RolloutRewrite
  import ReconcilePlan

  type Plan = ReconcilePlan.Plan

  type Files = map<Path, Bytes>

  /** From and to. */
  type Move = (Path, Path)

  function Moved(files: Files, from: Path, to: Path): Files
    requires from in files
  {
    (files - {from})[to := files[from]]
  }

  /** A run of moves, each from a file to a free path. */
  function Replay(start: Files, moves: seq<Move>): Option<Files>
    decreases |moves|
  {
    if moves == [] then Some(start)
    else
      var before := Replay(start, moves[..|moves| - 1]);
      var (from, to) := Final(moves);
      if before.Some? && from in before.value && to !in before.value
      then Some(Moved(before.value, from, to)) else None
  }

  /** The undo of the moves, the last one first, each where it can be undone. */
  function UndoMoves(files: Files, moves: seq<Move>): Files
    decreases |moves|
  {
    if moves == [] then files
    else
      var (from, to) := Final(moves);
      UndoMoves(if to in files && from !in files then Moved(files, to, from) else files, moves[..|moves| - 1])
  }

  function UndoPatches(files: Files, patched: seq<(Path, Bytes)>): Files
    decreases |patched|
  {
    if patched == [] then files
    else
      var (path, first) := Final(patched);
      UndoPatches(if path in files then files[path := first + Body(files[path])] else files, patched[..|patched| - 1])
  }

  /** Replayed in reverse, the log restores the file map, also where a path was vacated and taken again. */
  lemma {:induction false} MovesAreUndone(start: Files, moves: seq<Move>, files: Files)
    requires Replay(start, moves) == Some(files)
    ensures UndoMoves(files, moves) == start
    decreases |moves|
  {
    if moves != [] {
      var front := moves[..|moves| - 1];
      var before := Replay(start, front).value;
      var (from, to) := Final(moves);
      assert files == Moved(before, from, to);
      assert Moved(files, to, from) == before;
      MovesAreUndone(start, front, before);
    }
  }

  lemma ReplayMore(start: Files, moves: seq<Move>, files: Files, from: Path, to: Path)
    requires Replay(start, moves) == Some(files) && from in files && to !in files
    ensures Replay(start, moves + [(from, to)]) == Some(Moved(files, from, to))
  {
    var more := moves + [(from, to)];
    assert more[..|more| - 1] == moves && Final(more) == (from, to);
  }

  lemma PatchMore(files: Files, patched: seq<(Path, Bytes)>, path: Path, now: Bytes)
    requires path in files && Body(now) == Body(files[path])
    ensures UndoPatches(files[path := now], patched + [(path, Head(files[path]))]) == UndoPatches(files, patched)
  {
    var more := patched + [(path, Head(files[path]))];
    assert more[..|more| - 1] == patched && Final(more) == (path, Head(files[path]));
    HeadIsLine(files[path]);
    assert files[path := now][path := files[path]] == files;
  }

  // ----------------------------------------------------------- where files end up

  function Froms(moves: seq<Move>): set<Path> {
    set m | m in moves :: m.0
  }

  function Tos(moves: seq<Move>): set<Path> {
    set m | m in moves :: m.1
  }

  /** Every move takes another file of the start. */
  predicate MovesOnce(start: Files, moves: seq<Move>) {
    && (forall i :: 0 <= i < |moves| ==> moves[i].0 in start)
    && (forall i, j :: 0 <= i < j < |moves| ==> moves[i].0 != moves[j].0)
  }

  predicate Arrived(start: Files, m: Move, files: Files) {
    m.0 in start && m.1 in files && files[m.1] == start[m.0]
  }

  /** Every moved file is at its new path with its bytes, every other file is where it was, and no more. */
  predicate Relocated(start: Files, moves: seq<Move>, files: Files) {
    && files.Keys == (start.Keys - Froms(moves)) + Tos(moves)
    && |files| == |start|
    && (forall m <- moves :: Arrived(start, m, files))
    && (forall p <- start :: p !in Froms(moves) ==> p !in Tos(moves) && files[p] == start[p])
  }

  lemma {:induction false} ReplayRelocates(start: Files, moves: seq<Move>, files: Files)
    requires Replay(start, moves) == Some(files) && MovesOnce(start, moves)
    ensures Relocated(start, moves, files)
    decreases |moves|
  {
    hide Relocated, MovesOnce, Moved, Froms;
    if moves == [] {
      NothingRelocated(start);
    } else {
      var front := moves[..|moves| - 1];
      var before, m := Replay(start, front).value, Final(moves);
      assert files == Moved(before, m.0, m.1);
      AnotherSource(start, moves);
      ReplayRelocates(start, front, before);
      RelocatesOneMore(start, front, before, m);
      assert moves == front + [m];
    }
  }

  lemma NothingRelocated(start: Files)
    ensures Relocated(start, [], start)
  {
    assert Froms([]) == {} && Tos([]) == {};
  }

  lemma AnotherSource(start: Files, moves: seq<Move>)
    requires moves != [] && MovesOnce(start, moves)
    ensures MovesOnce(start, moves[..|moves| - 1])
    ensures Final(moves).0 in start && Final(moves).0 !in Froms(moves[..|moves| - 1])
  {
    forall n | n in moves[..|moves| - 1]
      ensures n.0 != Final(moves).0
    {
      var i :| 0 <= i < |moves| - 1 && moves[i] == n;
    }
  }

  lemma FromsMore(moves: seq<Move>, m: Move)
    ensures Froms(moves + [m]) == Froms(moves) + {m.0} && Tos(moves + [m]) == Tos(moves) + {m.1}
  {
    assert forall n :: n in moves + [m] <==> n in moves || n == m;
  }

  lemma MovedKeys(files: Files, from: Path, to: Path)
    requires from in files && to !in files
    ensures Moved(files, from, to).Keys == files.Keys - {from} + {to}
    ensures |Moved(files, from, to)| == |files|
  {
    var now := Moved(files, from, to);
    assert now.Keys == files.Keys - {from} + {to};
    assert |now.Keys| == |files.Keys|;
  }

  lemma StillArrived(start: Files, n: Move, files: Files, m: Move)
    requires Arrived(start, n, files) && m.0 in files && m.1 !in files && n.1 != m.0
    ensures Arrived(start, n, Moved(files, m.0, m.1))
  {
  }

  lemma AllArrived(start: Files, moves: seq<Move>, files: Files, m: Move)
    requires forall n <- moves :: Arrived(start, n, files)
    requires m.0 in files && m.1 !in files && m.0 !in Tos(moves) && Arrived(start, m, files[m.1 := files[m.0]])
    ensures forall n <- moves + [m] :: Arrived(start, n, Moved(files, m.0, m.1))
  {
    forall n | n in moves
      ensures Arrived(start, n, Moved(files, m.0, m.1))
    {
      StillArrived(start, n, files, m);
    }
  }

  lemma RelocatesOneMore(start: Files, moves: seq<Move>, files: Files, m: Move)
    requires Relocated(start, moves, files) && m.0 in files && m.1 !in files
    requires m.0 in start && m.0 !in Froms(moves)
    ensures Relocated(start, moves + [m], Moved(files, m.0, m.1))
  {
    hide Froms, Tos, Arrived;
    FromsMore(moves, m);
    MovedKeys(files, m.0, m.1);
    ArrivesAt(start, m, files);
    AllArrived(start, moves, files, m);
  }

  lemma ArrivesAt(start: Files, m: Move, files: Files)
    requires m.0 in start && m.0 in files && files[m.0] == start[m.0]
    ensures Arrived(start, m, files[m.1 := files[m.0]])
  {
  }

  // ---------------------------------------------------------------------- the run

  /** What interrupts a step: nothing, an error before its effect, inside a write, or after it. */
  datatype Fault = NoFault | Before | During(written: nat) | After

  /** The quarantine path of a file below the home directory. */
  function Quarantine(home: Path, stamp: string, path: Path): Option<Path> {
    if ReconcilePlan.Under(path, home) then Some(home + "/guardian-quarantine/" + stamp + path[|home|..]) else None
  }

  /** The moves of one plan when nothing fails: the losers, then the kept copy if it has to move. */
  function PlannedMoves(home: Path, stamp: string, plan: Plan): seq<Move> {
    LoserMoves(home, stamp, plan.losers)
    + (if plan.canonical != plan.destination then [(plan.canonical, plan.destination)] else [])
  }

  function LoserMoves(home: Path, stamp: string, losers: seq<Path>): seq<Move> {
    if losers == [] then []
    else LoserMoves(home, stamp, losers[..|losers| - 1])
         + [(Final(losers), Quarantine(home, stamp, Final(losers)).Or(""))]
  }

  lemma PlanDone(home: Path, stamp: string, plan: Plan, before: seq<Move>, moves: seq<Move>)
    requires moves == before + LoserMoves(home, stamp, plan.losers)
                      + (if plan.canonical != plan.destination then [(plan.canonical, plan.destination)] else [])
    ensures moves == before + PlannedMoves(home, stamp, plan)
  {
  }

  function AllMoves(home: Path, stamp: string, plans: seq<Plan>): seq<Move> {
    if plans == [] then []
    else AllMoves(home, stamp, plans[..|plans| - 1]) + PlannedMoves(home, stamp, Final(plans))
  }

  function Finals(plans: seq<Plan>): set<Path> {
    set plan | plan in plans :: plan.destination
  }

  /** The header names the target provider. */
  predicate Targeted(c: Codec, target: string, file: Bytes) {
    var d := c.decode(Head(file));
    d.Meta? && d.header.provider == Text(target)
  }

  class ReconcileRun {
    var files: Files
    var moves: seq<Move>
    var patched: seq<(Path, Bytes)>

    constructor (files: Files)
      ensures this.files == files && moves == [] && patched == []
    {
      this.files := files;
      moves := [];
      patched := [];
    }

    /** One guarded move: refused when the target exists or the source does not. */
    method Relocate(from: Path, to: Path, fault: Fault, ghost start: Files) returns (ok: bool)
      requires Replay(start, moves) == Some(files)
      modifies this`files, this`moves
      ensures Replay(start, moves) == Some(files)
      ensures ok <==> from in old(files) && to !in old(files) && fault == NoFault
      ensures ok ==> moves == old(moves) + [(from, to)]
      ensures if from in old(files) && to !in old(files) && fault != Before
              then moves == old(moves) + [(from, to)] else moves == old(moves)
    {
      if to in files || from !in files || fault == Before {
        return false;
      }
      ReplayMore(start, moves, files, from, to);
      files := Moved(files, from, to);
      moves := moves + [(from, to)];
      return fault == NoFault;
    }

    method MoveLosers(home: Path, stamp: string, losers: seq<Path>, faults: nat -> Fault, ghost start: Files)
      returns (ok: bool)
      requires Replay(start, moves) == Some(files)
      modifies this`files, this`moves
      ensures Replay(start, moves) == Some(files)
      ensures ok <==> LosersGo(home, losers, faults) && Replay(start, old(moves) + LoserMoves(home, stamp, losers)).Some?
      ensures ok ==> moves == old(moves) + LoserMoves(home, stamp, losers)
    {
      hide Replay, Quarantine;
      for i := 0 to |losers|
        invariant Replay(start, moves) == Some(files)
        invariant moves == old(moves) + LoserMoves(home, stamp, losers[..i])
        invariant forall k :: 0 <= k < i ==> faults(k) == NoFault && Quarantine(home, stamp, losers[k]).Some?
      {
        assert losers[..i + 1][..i] == losers[..i];
        LosersPrefix(home, stamp, losers, i);
        var to := Quarantine(home, stamp, losers[i]);
        if to.None? {
          QuarantineMeans(home, stamp, losers[i]);
          return false;
        }
        ghost var before, there := moves, files;
        ok := Relocate(losers[i], to.value, faults(i), start);
        if !ok {
          assert faults(i) == NoFault ==>
              Replay(start, old(moves) + LoserMoves(home, stamp, losers)).None? by {
            if faults(i) == NoFault {
              ReplayStops(start, before, there, losers[i], to.value);
              assert old(moves) + LoserMoves(home, stamp, losers[..i + 1]) == before + [(losers[i], to.value)];
              ReplayPrefix(start, before + [(losers[i], to.value)], old(moves) + LoserMoves(home, stamp, losers));
            }
          }
          return;
        }
      }
      assert losers[..|losers|] == losers;
      forall k | 0 <= k < |losers| ensures ReconcilePlan.Under(losers[k], home) { QuarantineMeans(home, stamp, losers[k]); }
      return true;
    }

    /** The moving loop over the plans. */
    method MoveAll(home: Path, stamp: string, plans: seq<Plan>, faults: nat -> nat -> Fault, ghost start: Files)
      returns (ok: bool)
      requires Replay(start, moves) == Some(files) && moves == []
      modifies this`files, this`moves
      ensures Replay(start, moves) == Some(files)
      ensures ok <==> (forall i :: 0 <= i < |plans| ==> PlanGoes(home, plans[i], faults(i)))
                      && Replay(start, AllMoves(home, stamp, plans)).Some?
      ensures ok ==> moves == AllMoves(home, stamp, plans)
    {
      hide Replay, LoserMoves, PlannedMoves, LosersGo;
      for i := 0 to |plans|
        invariant Replay(start, moves) == Some(files)
        invariant moves == AllMoves(home, stamp, plans[..i])
        invariant forall k :: 0 <= k < i ==> PlanGoes(home, plans[k], faults(k))
      {
        assert plans[..i + 1][..i] == plans[..i];
        var plan := plans[i];
        ghost var before := moves;
        PlansPrefix(home, stamp, plans, i);
        ok := MoveLosers(home, stamp, plan.losers, faults(i), start);
        PlanParts(home, stamp, plan);
        if !ok {
          LosersStop(home, stamp, plans, i, before, start);
          return;
        }
        if plan.canonical != plan.destination {
          ghost var moved, there := moves, files;
          ok := Relocate(plan.canonical, plan.destination, faults(i)(|plan.losers|), start);
          if !ok {
            assert faults(i)(|plan.losers|) == NoFault ==> Replay(start, AllMoves(home, stamp, plans)).None? by {
              if faults(i)(|plan.losers|) == NoFault {
                ReplayStops(start, moved, there, plan.canonical, plan.destination);
                assert AllMoves(home, stamp, plans[..i + 1]) == moved + [(plan.canonical, plan.destination)];
                ReplayPrefix(start, moved + [(plan.canonical, plan.destination)], AllMoves(home, stamp, plans));
              }
            }
            return;
          }
        }
        PlanDone(home, stamp, plan, before, moves);
      }
      assert plans[..|plans|] == plans;
      return true;
    }

    /** `patch_provider`, the first line being logged before it. */
    method PatchProvider(c: Codec, target: string, path: Path, fault: Fault) returns (ok: bool)
      requires Lawful(c, target)
      modifies this`files, this`patched
      ensures UndoPatches(files, patched) == old(UndoPatches(files, patched))
      ensures ok <==> path in old(files) && Patches(c, target, old(files[path]), fault)
      ensures ok ==> path in old(files) && files == old(files)[path := Rewritten(c, target, old(files[path]))]
      ensures ok ==> Targeted(c, target, files[path])
    {
      if path !in files {
        return false;
      }
      var file := files[path];
      PatchMore(files, patched, path, file);
      assert files == files[path := file];
      patched := patched + [(path, Head(file))];
      if fault == Before || file == [] || c.decode(Head(file)).NotMeta? {
        return false;
      }
      RewriteSetsProvider(c, target, file);
      if !Changes(c, target, file) {
        return true;
      }
      var now := Rewritten(c, target, file);
      if fault.During? {
        if !Fits(c, target, file) {
          return false;
        }
        HeadIsLine(file);
        now := Torn(file, now, Min(fault.written, |Head(file)|));
      }
      MidwayKeepsBody(c, target, file, now);
      PatchMore(files, patched[..|patched| - 1], path, now);
      assert patched == patched[..|patched| - 1] + [(path, Head(file))];
      files := files[path := now];
      return fault == NoFault;
    }

    /** The patching loop over the final paths. */
    method PatchAll(c: Codec, target: string, plans: seq<Plan>, faults: nat -> Fault) returns (ok: bool)
      requires Lawful(c, target)
      modifies this`files, this`patched
      ensures UndoPatches(files, patched) == old(UndoPatches(files, patched))
      ensures ok <==> AllPatch(c, target, plans, faults, old(files))
      ensures ok ==> Finals(plans) <= old(files).Keys
      ensures ok ==> files == RewrittenFiles(c, target, Finals(plans), old(files))
      ensures ok ==> forall p <- Finals(plans) :: p in files && Targeted(c, target, files[p])
    {
      hide Lawful, UndoPatches, PatchesAt, Patches, PatchedAs, Finals, RewrittenFiles;
      ghost var start := files;
      NonePatched(c, target, start);
      for i := 0 to |plans|
        invariant UndoPatches(files, patched) == old(UndoPatches(files, patched))
        invariant PatchedAs(c, target, Finals(plans[..i]), start, files)
        invariant forall k :: 0 <= k < i ==> PatchesAt(c, target, plans, faults, start, k)
      {
        ghost var now := files;
        NowPatches(c, target, plans, faults, start, i, now);
        ok := PatchProvider(c, target, plans[i].destination, faults(i));
        if !ok {
          return;
        }
        OneMorePatched(c, target, plans, i, start, now, files);
      }
      assert plans[..|plans|] == plans;
      AllPatched(c, target, Finals(plans), start, files);
      return true;
    }

    /** The handler: patched headers first, then the moves, each from the last to the first. */
    method Undo()
      modifies this`files
      ensures files == UndoMoves(UndoPatches(old(files), patched), moves)
    {
      var i := |patched|;
      assert patched[..i] == patched;
      while i > 0
        invariant 0 <= i <= |patched|
        invariant UndoPatches(files, patched[..i]) == UndoPatches(old(files), patched)
      {
        i := i - 1;
        assert patched[..i + 1][..i] == patched[..i];
        var (path, first) := patched[i];
        if path in files {
          files := files[path := first + Body(files[path])];
        }
      }
      ghost var middle := files;
      i := |moves|;
      assert moves[..i] == moves;
      while i > 0
        invariant 0 <= i <= |moves|
        invariant UndoMoves(files, moves[..i]) == UndoMoves(middle, moves)
      {
        i := i - 1;
        assert moves[..i + 1][..i] == moves[..i];
        var (from, to) := moves[i];
        if to in files && from !in files {
          files := Moved(files, to, from);
        }
      }
    }

    /**
     The script from its first move on; `closing` says whether the database update and the checks
     after it go through. A failure anywhere leaves the file map as it was found.
     */
    method Reconcile(
      home: Path, stamp: string, plans: seq<Plan>, c: Codec, target: string,
      moving: nat -> nat -> Fault, patching: nat -> Fault, closing: bool)
      returns (ok: bool)
      requires Lawful(c, target) && moves == [] && patched == []
      modifies this
      ensures !ok ==> files == old(files)
      ensures ok <==>
                && closing && (forall i :: 0 <= i < |plans| ==> PlanGoes(home, plans[i], moving(i)))
                && Replay(old(files), AllMoves(home, stamp, plans)).Some?
                && AllPatch(c, target, plans, patching, Replay(old(files), AllMoves(home, stamp, plans)).value)
      ensures ok ==>
                && moves == AllMoves(home, stamp, plans)
                && Replay(old(files), moves).Some?
                && Finals(plans) <= Replay(old(files), moves).value.Keys
                && files == RewrittenFiles(c, target, Finals(plans), Replay(old(files), moves).value)
                && (forall p <- Finals(plans) :: p in files && Targeted(c, target, files[p]))
    {
      ghost var start := files;
      hide Lawful, RewrittenFiles, PlanGoes, AllPatch;
      ok := MoveAll(home, stamp, plans, moving, start);
      MovesAreUndone(start, moves, files);
      ghost var middle := files;
      assert UndoPatches(files, patched) == middle;
      if ok {
        ok := PatchAll(c, target, plans, patching);
        ok := ok && closing;
      }
      if !ok {
        Undo();
      }
    }
  }

  // ------------------------------------------------------------------ when a run succeeds

  /** Every loser lies below the home directory, and nothing goes wrong with its move. */
  predicate LosersGo(home: Path, losers: seq<Path>, faults: nat -> Fault) {
    forall k :: 0 <= k < |losers| ==> ReconcilePlan.Under(losers[k], home) && faults(k) == NoFault
  }

  predicate PlanGoes(home: Path, plan: Plan, faults: nat -> Fault) {
    LosersGo(home, plan.losers, faults) && (plan.canonical != plan.destination ==> faults(|plan.losers|) == NoFault)
  }

  /** The file has a session header and nothing goes wrong with reading it, or with writing it if it has to be. */
  predicate Patches(c: Codec, target: string, file: Bytes, fault: Fault) {
    && file != [] && c.decode(Head(file)).Meta? && fault != Before
    && (c.decode(Head(file)).header.provider != Text(target) ==> fault == NoFault)
  }

  /** The same of the k-th final path; a path that was patched before needs no writing. */
  predicate PatchesAt(c: Codec, target: string, plans: seq<Plan>, faults: nat -> Fault, files: Files, k: nat)
    requires k < |plans|
  {
    var path := plans[k].destination;
    && path in files && files[path] != [] && c.decode(Head(files[path])).Meta? && faults(k) != Before
    && (c.decode(Head(files[path])).header.provider != Text(target) && (forall j :: 0 <= j < k ==> plans[j].destination != path)
        ==> faults(k) == NoFault)
  }

  predicate AllPatch(c: Codec, target: string, plans: seq<Plan>, faults: nat -> Fault, files: Files) {
    forall k :: 0 <= k < |plans| ==> PatchesAt(c, target, plans, faults, files, k)
  }

  /** The state of the loop: so many paths are patched. */
  ghost predicate PatchedAs(c: Codec, target: string, paths: set<Path>, start: Files, files: Files) {
    && paths <= start.Keys && files == RewrittenFiles(c, target, paths, start)
    && forall p <- paths :: Targeted(c, target, files[p])
  }

  lemma NonePatched(c: Codec, target: string, start: Files)
    ensures PatchedAs(c, target, Finals([]), start, start)
  {
  }

  lemma OneMorePatched(c: Codec, target: string, plans: seq<Plan>, i: nat, start: Files, files: Files, now: Files)
    requires Lawful(c, target) && i < |plans| && PatchedAs(c, target, Finals(plans[..i]), start, files)
    requires var path := plans[i].destination;
             path in files && now == files[path := Rewritten(c, target, files[path])] && Targeted(c, target, now[path])
    ensures PatchedAs(c, target, Finals(plans[..i + 1]), start, now)
  {
    hide Rewritten, Lawful, Targeted;
    FinalsMore(plans, i);
    FilesOneMore(c, target, Finals(plans[..i]), plans[i].destination, start);
  }

  lemma AllPatched(c: Codec, target: string, paths: set<Path>, start: Files, files: Files)
    requires PatchedAs(c, target, paths, start, files)
    ensures paths <= start.Keys && files == RewrittenFiles(c, target, paths, start)
    ensures forall p <- paths :: p in files && Targeted(c, target, files[p])
  {
  }

  /** Whether the next file is patched can be told from the files before all patches. */
  lemma NowPatches(c: Codec, target: string, plans: seq<Plan>, faults: nat -> Fault, files: Files, i: nat, now: Files)
    requires Lawful(c, target) && i < |plans| && PatchedAs(c, target, Finals(plans[..i]), files, now)
    ensures (plans[i].destination in now && Patches(c, target, now[plans[i].destination], faults(i)))
            <==> PatchesAt(c, target, plans, faults, files, i)
  {
    var path := plans[i].destination;
    assert path in Finals(plans[..i]) <==> exists j :: 0 <= j < i && plans[j].destination == path by {
      assert forall j :: 0 <= j < i ==> plans[..i][j] == plans[j] && plans[j] in plans[..i];
    }
    if path in files && path in Finals(plans[..i]) {
      var file := files[path];
      assert now[path] == Rewritten(c, target, file);
      RewriteIsIdempotent(c, target, file);
      if file != [] && c.decode(Head(file)).Meta? {
        RewriteSetsProvider(c, target, file);
      }
      hide Rewritten, Lawful;
    }
  }

  lemma ReplayStops(start: Files, moves: seq<Move>, files: Files, from: Path, to: Path)
    requires Replay(start, moves) == Some(files) && (from !in files || to in files)
    ensures Replay(start, moves + [(from, to)]) == None
  {
    var more := moves + [(from, to)];
    assert more[..|more| - 1] == moves && Final(more) == (from, to);
  }

  /** A run of moves that goes through does so up to every point. */
  lemma {:induction false} ReplayPrefix(start: Files, some: seq<Move>, all: seq<Move>)
    requires some <= all
    ensures Replay(start, all).Some? ==> Replay(start, some).Some?
    decreases |all|
  {
    if |some| < |all| {
      var front := all[..|all| - 1];
      assert some <= front;
      ReplayPrefix(start, some, front);
    } else {
      assert some == all;
    }
  }

  lemma {:induction false} LosersPrefix(home: Path, stamp: string, losers: seq<Path>, i: nat)
    requires i < |losers|
    ensures LoserMoves(home, stamp, losers[..i + 1]) <= LoserMoves(home, stamp, losers)
    decreases |losers|
  {
    hide Quarantine;
    if i + 1 < |losers| {
      var front := losers[..|losers| - 1];
      assert front[..i + 1] == losers[..i + 1];
      LosersPrefix(home, stamp, front, i);
    } else {
      assert losers[..i + 1] == losers;
    }
  }

  lemma {:induction false} PlansPrefix(home: Path, stamp: string, plans: seq<Plan>, i: nat)
    requires i < |plans|
    ensures AllMoves(home, stamp, plans[..i + 1]) <= AllMoves(home, stamp, plans)
    ensures AllMoves(home, stamp, plans[..i + 1]) == AllMoves(home, stamp, plans[..i]) + PlannedMoves(home, stamp, plans[i])
    decreases |plans|
  {
    hide PlannedMoves;
    assert plans[..i + 1][..i] == plans[..i];
    if i + 1 < |plans| {
      var front := plans[..|plans| - 1];
      assert front[..i + 1] == plans[..i + 1] && front[i] == plans[i] && front[..i] == plans[..i];
      PlansPrefix(home, stamp, front, i);
    } else {
      assert plans[..i + 1] == plans;
    }
  }

  lemma PlanParts(home: Path, stamp: string, plan: Plan)
    ensures LoserMoves(home, stamp, plan.losers) <= PlannedMoves(home, stamp, plan)
    ensures PlannedMoves(home, stamp, plan)
            == LoserMoves(home, stamp, plan.losers)
               + (if plan.canonical != plan.destination then [(plan.canonical, plan.destination)] else [])
  {
  }

  /** Losers that cannot all be moved stop the whole run of moves. */
  lemma LosersStop(home: Path, stamp: string, plans: seq<Plan>, i: nat, before: seq<Move>, start: Files)
    requires i < |plans| && before == AllMoves(home, stamp, plans[..i])
    ensures Replay(start, before + LoserMoves(home, stamp, plans[i].losers)).None? ==>
              Replay(start, AllMoves(home, stamp, plans)).None?
  {
    hide Replay, LoserMoves, PlannedMoves;
    PlansPrefix(home, stamp, plans, i);
    PlanParts(home, stamp, plans[i]);
    ReplayPrefix(start, before + LoserMoves(home, stamp, plans[i].losers), AllMoves(home, stamp, plans));
  }

  /** Where a file below home is put aside: the same way down, below the quarantine of this run. */
  lemma QuarantineMeans(home: Path, stamp: string, path: Path)
    ensures Quarantine(home, stamp, path).Some? <==> ReconcilePlan.Under(path, home)
    ensures forall rest: string :: path == home + "/" + rest ==>
              Quarantine(home, stamp, path) == Some(home + "/guardian-quarantine/" + stamp + "/" + rest)
  {
    forall rest: string | path == home + "/" + rest
      ensures Quarantine(home, stamp, path) == Some(home + "/guardian-quarantine/" + stamp + "/" + rest)
    {
      ReconcilePlan.UnderMeans(path, home);
      assert path[|home|..] == "/" + rest;
      assert home + "/guardian-quarantine/" + stamp + ("/" + rest) == home + "/guardian-quarantine/" + stamp + "/" + rest;
    }
  }

  lemma FinalsMore(plans: seq<Plan>, i: nat)
    requires i < |plans|
    ensures Finals(plans[..i + 1]) == Finals(plans[..i]) + {plans[i].destination}
  {
    assert plans[..i + 1] == plans[..i] + [plans[i]];
    assert forall p :: p in plans[..i + 1] <==> p in plans[..i] || p == plans[i];
  }

  // ----------------------------------------------------------- what success means

  /** A successful run loses nothing: every body that was there is there, and nowhere twice. */
  lemma SuccessConserves(c: Codec, target: string, start: Files, moves: seq<Move>, middle: Files, finals: set<Path>)
    requires Lawful(c, target) && Replay(start, moves) == Some(middle) && MovesOnce(start, moves)
    ensures var files := RewrittenFiles(c, target, finals, middle);
            && |files| == |start|
            && (forall m <- moves :: m.0 in start && m.1 in files && Body(files[m.1]) == Body(start[m.0]))
            && (forall p <- start :: p !in Froms(moves) ==> p in files && Body(files[p]) == Body(start[p]))
            && (forall p <- files :: p !in finals ==> files[p] == middle[p])
  {
    ReplayRelocates(start, moves, middle);
    var files := RewrittenFiles(c, target, finals, middle);
    assert files.Keys == middle.Keys;
    forall p | p in middle
      ensures Body(files[p]) == Body(middle[p])
    {
      RewriteKeepsBody(c, target, middle[p]);
    }
    hide Body, Rewritten, Lawful, Replay;
    assert forall m <- moves :: Arrived(start, m, middle);
  }

  lemma {:induction false} PlannedMovesAreMade(home: Path, stamp: string, plans: seq<Plan>, plan: Plan)
    requires plan in plans
    ensures forall m <- PlannedMoves(home, stamp, plan) :: m in AllMoves(home, stamp, plans)
    decreases |plans|
  {
    var front := plans[..|plans| - 1];
    if plan in front {
      PlannedMovesAreMade(home, stamp, front, plan);
    }
  }

  lemma {:induction false} LosersAreMoved(home: Path, stamp: string, losers: seq<Path>, loser: Path)
    requires loser in losers
    ensures (loser, Quarantine(home, stamp, loser).Or("")) in LoserMoves(home, stamp, losers)
    decreases |losers|
  {
    hide Quarantine;
    var front := losers[..|losers| - 1];
    if loser in front {
      LosersAreMoved(home, stamp, front, loser);
    }
  }

  predicate Distinct(paths: seq<Path>) {
    forall i, j :: 0 <= i < j < |paths| ==> paths[i] != paths[j]
  }

  /** The files a plan is about. */
  function Copies(plan: Plan): seq<Path> {
    plan.losers + [plan.canonical]
  }

  function AllCopies(plans: seq<Plan>): seq<Path> {
    if plans == [] then [] else AllCopies(plans[..|plans| - 1]) + Copies(Final(plans))
  }

  /** Threads have their own files, as `groups` holds every physical rollout once. */
  predicate Apart(start: Files, plans: seq<Plan>) {
    Distinct(AllCopies(plans)) && forall p <- AllCopies(plans) :: p in start
  }

  function Sources(moves: seq<Move>): seq<Path> {
    seq(|moves|, i requires 0 <= i < |moves| => moves[i].0)
  }

  lemma {:induction false} LoserSources(home: Path, stamp: string, losers: seq<Path>)
    ensures Sources(LoserMoves(home, stamp, losers)) == losers
  {
    hide Quarantine;
    if losers != [] {
      LoserSources(home, stamp, losers[..|losers| - 1]);
      assert losers == losers[..|losers| - 1] + [Final(losers)];
    }
  }

  /** The sources of a plan's moves are its files, without a kept copy that stays. */
  lemma PlannedSources(home: Path, stamp: string, plan: Plan)
    ensures Sources(PlannedMoves(home, stamp, plan))
            == if plan.canonical != plan.destination then Copies(plan) else plan.losers
  {
    hide LoserMoves;
    LoserSources(home, stamp, plan.losers);
    assert |Sources(LoserMoves(home, stamp, plan.losers))| == |LoserMoves(home, stamp, plan.losers)|;
  }

  lemma DistinctParts(a: seq<Path>, b: seq<Path>)
    requires Distinct(a + b)
    ensures Distinct(a) && Distinct(b) && forall p <- a :: p !in b
  {
    assert forall i :: 0 <= i < |a| ==> (a + b)[i] == a[i];
    assert forall j :: 0 <= j < |b| ==> (a + b)[|a| + j] == b[j];
  }

  lemma DistinctJoins(a: seq<Path>, b: seq<Path>)
    requires Distinct(a) && Distinct(b) && forall p <- a :: p !in b
    ensures Distinct(a + b)
  {
    forall i, j | 0 <= i < j < |a + b|
      ensures (a + b)[i] != (a + b)[j]
    {
      assert i < |a| <= j ==> a[i] in a && b[j - |a|] in b;
    }
  }

  predicate Stays(plan: Plan) {
    plan.canonical == plan.destination
  }

  /** No file is moved twice, and a kept copy that is in place is not moved at all. */
  lemma {:induction false} ApartMovesOnce(home: Path, stamp: string, plans: seq<Plan>)
    requires Distinct(AllCopies(plans))
    ensures var sources := Sources(AllMoves(home, stamp, plans));
            && Distinct(sources) && (forall p <- sources :: p in AllCopies(plans))
            && forall plan <- plans :: plan.canonical in AllCopies(plans) && (Stays(plan) ==> plan.canonical !in sources)
    decreases |plans|
  {
    if plans != [] {
      hide PlannedMoves, Stays;
      var front, last := plans[..|plans| - 1], Final(plans);
      var before, own := Sources(AllMoves(home, stamp, front)), Sources(PlannedMoves(home, stamp, last));
      assert Sources(AllMoves(home, stamp, plans)) == before + own;
      DistinctParts(AllCopies(front), Copies(last));
      ApartMovesOnce(home, stamp, front);
      OwnSources(home, stamp, last);
      DistinctJoins(before, own);
      assert last.canonical in Copies(last);
      assert forall plan :: plan in plans <==> plan in front || plan == last by {
        assert plans == front + [last];
      }
    }
  }

  lemma OwnSources(home: Path, stamp: string, plan: Plan)
    requires Distinct(Copies(plan))
    ensures var own := Sources(PlannedMoves(home, stamp, plan));
            Distinct(own) && (forall p <- own :: p in Copies(plan)) && (Stays(plan) ==> plan.canonical !in own)
  {
    PlannedSources(home, stamp, plan);
    DistinctParts(plan.losers, [plan.canonical]);
  }

  lemma SourcesMoveOnce(start: Files, moves: seq<Move>)
    requires Distinct(Sources(moves)) && forall p <- Sources(moves) :: p in start
    ensures MovesOnce(start, moves) && forall p <- Froms(moves) :: p in Sources(moves)
  {
    assert forall i :: 0 <= i < |moves| ==> Sources(moves)[i] == moves[i].0;
  }

  /**
   Each plan is carried out: the kept copy is at its destination with its body, every other copy is in
   quarantine with its body, and no file more or less is there.
   */
  lemma PlanIsCarriedOut(
    home: Path, stamp: string, plans: seq<Plan>, plan: Plan, c: Codec, target: string, start: Files, middle: Files)
    requires Lawful(c, target) && plan in plans && Apart(start, plans)
    requires Replay(start, AllMoves(home, stamp, plans)) == Some(middle)
    ensures var files := RewrittenFiles(c, target, Finals(plans), middle);
            && |files| == |start|
            && plan.canonical in start && plan.destination in files
            && Body(files[plan.destination]) == Body(start[plan.canonical])
            && forall loser <- plan.losers ::
                 var kept := Quarantine(home, stamp, loser).Or("");
                 loser in start && kept in files && Body(files[kept]) == Body(start[loser])
  {
    hide Lawful, Replay, MovesOnce, RewrittenFiles, Quarantine, Froms, Finals, Body, AllMoves, AllCopies, Distinct, Sources;
    var moves := AllMoves(home, stamp, plans);
    ApartMovesOnce(home, stamp, plans);
    SourcesMoveOnce(start, moves);
    SuccessConserves(c, target, start, moves, middle, Finals(plans));
    PlannedMovesAreMade(home, stamp, plans, plan);
    if plan.canonical != plan.destination {
      assert Final(PlannedMoves(home, stamp, plan)) == (plan.canonical, plan.destination);
      assert (plan.canonical, plan.destination) in moves;
    }
    forall loser | loser in plan.losers
      ensures (loser, Quarantine(home, stamp, loser).Or("")) in moves
    {
      LosersAreMoved(home, stamp, plan.losers, loser);
    }
  }
}
