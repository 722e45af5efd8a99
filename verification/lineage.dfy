/**
 Lineage of paginated rollouts (backend/history_lineage.py): the walk that finds
 cycles in the base-edge map, and the checks that make a history `ready`.
 */
module LineageCycles {
  import opened Common

  type Edges = map<string, string>

  /** The node n edges further on, if the walk gets that far. */
  function Follow(edges: Edges, x: string, n: nat): Option<string>
    decreases n
  {
    if n == 0 then Some(x)
    else if x !in edges then None
    else Follow(edges, edges[x], n - 1)
  }

  ghost predicate Reaches(edges: Edges, x: string, y: string) {
    exists n: nat :: Follow(edges, x, n) == Some(y)
  }

  ghost predicate OnCycle(edges: Edges, x: string) {
    exists n: nat :: n > 0 && Follow(edges, x, n) == Some(x)
  }

  lemma {:induction false} FollowAdds(edges: Edges, x: string, m: nat, n: nat)
    requires Follow(edges, x, m).Some?
    ensures Follow(edges, x, m + n) == Follow(edges, Follow(edges, x, m).value, n)
    decreases m
  {
    if m > 0 {
      FollowAdds(edges, edges[x], m - 1, n);
    }
  }

  lemma ReachesTransitive(edges: Edges, x: string, y: string, z: string)
    requires Reaches(edges, x, y) && Reaches(edges, y, z)
    ensures Reaches(edges, x, z)
  {
    var m: nat :| Follow(edges, x, m) == Some(y);
    var n: nat :| Follow(edges, y, n) == Some(z);
    FollowAdds(edges, x, m, n);
  }

  lemma CycleHasEdge(edges: Edges, x: string)
    requires OnCycle(edges, x)
    ensures x in edges
  {
  }

  /** On a cycle the way back exists: what a cycle node reaches, reaches it, and is on the cycle too. */
  lemma {:induction false} CycleReturns(edges: Edges, x: string, n: nat)
    requires OnCycle(edges, x) && Follow(edges, x, n).Some?
    ensures Reaches(edges, Follow(edges, x, n).value, x) && OnCycle(edges, Follow(edges, x, n).value)
    decreases n
  {
    var k: nat :| k > 0 && Follow(edges, x, k) == Some(x);
    if n <= k {
      var y := Follow(edges, x, n).value;
      FollowAdds(edges, x, n, k - n);
      assert Follow(edges, y, k - n) == Some(x);
      FollowAdds(edges, y, k - n, n);
      assert Follow(edges, y, k) == Some(y);
    } else {
      FollowAdds(edges, x, k, n - k);
      CycleReturns(edges, x, n - k);
    }
  }

  lemma CycleMates(edges: Edges, x: string, y: string)
    requires OnCycle(edges, x) && Reaches(edges, x, y)
    ensures Reaches(edges, y, x) && OnCycle(edges, y)
  {
    var n: nat :| Follow(edges, x, n) == Some(y);
    CycleReturns(edges, x, n);
  }

  /** Every edge out of the set stays in it or leaves the map. */
  predicate Closed(edges: Edges, s: set<string>) {
    forall x <- s :: x in edges && (edges[x] in s || edges[x] !in edges)
  }

  lemma {:induction false} ClosedContains(edges: Edges, s: set<string>, x: string, n: nat)
    requires Closed(edges, s) && x in s && Follow(edges, x, n).Some? && Follow(edges, x, n).value in edges
    ensures Follow(edges, x, n).value in s
    decreases n
  {
    if n > 0 {
      if edges[x] in s {
        ClosedContains(edges, s, edges[x], n - 1);
      }
    }
  }

  lemma ClosedReaches(edges: Edges, s: set<string>, x: string, y: string)
    requires Closed(edges, s) && x in s && Reaches(edges, x, y) && y in edges
    ensures y in s
  {
    var n: nat :| Follow(edges, x, n) == Some(y);
    ClosedContains(edges, s, x, n);
  }

  // ------------------------------------------------------------------- the walk

  function Nodes(trail: seq<string>): set<string> {
    set x | x in trail
  }

  /** The i-th stop of a walk that has reached `current`. */
  function Stop(trail: seq<string>, current: string, i: nat): string {
    if i < |trail| then trail[i] else current
  }

  /** A walk along edges that visits no node twice. */
  predicate IsTrail(edges: Edges, trail: seq<string>, current: string) {
    && (forall i :: 0 <= i < |trail| ==> trail[i] in edges)
    && (forall i {:trigger edges[trail[i]]} :: 0 <= i < |trail| ==> edges[trail[i]] == Stop(trail, current, i + 1))
    && (forall i, j :: 0 <= i < j < |trail| ==> trail[i] != trail[j])
  }

  lemma ExtendTrail(edges: Edges, trail: seq<string>, current: string)
    requires IsTrail(edges, trail, current) && current in edges && current !in trail
    ensures IsTrail(edges, trail + [current], edges[current])
    ensures Nodes(trail + [current]) == Nodes(trail) + {current}
  {
    var longer := trail + [current];
    forall i | 0 <= i < |longer|
      ensures longer[i] in edges && edges[longer[i]] == Stop(longer, edges[current], i + 1)
    {
      if i < |trail| {
        assert edges[trail[i]] == Stop(trail, current, i + 1);
      }
    }
  }

  lemma TrailStep(edges: Edges, trail: seq<string>, current: string, i: nat)
    requires IsTrail(edges, trail, current) && i < |trail|
    ensures trail[i] in edges && edges[trail[i]] == Stop(trail, current, i + 1)
  {
  }

  lemma {:induction false} TrailFollows(edges: Edges, trail: seq<string>, current: string, i: nat, n: nat)
    requires IsTrail(edges, trail, current) && i + n <= |trail| && i < |trail|
    ensures Follow(edges, trail[i], n) == Some(Stop(trail, current, i + n))
    decreases n
  {
    hide IsTrail;
    if n > 0 {
      TrailStep(edges, trail, current, i);
      if i + 1 < |trail| {
        TrailFollows(edges, trail, current, i + 1, n - 1);
      }
    }
  }

  lemma TrailClosed(edges: Edges, finished: set<string>, trail: seq<string>, current: string)
    requires Closed(edges, finished) && IsTrail(edges, trail, current)
    requires current in finished || current !in edges || current in trail
    ensures Closed(edges, finished + Nodes(trail))
  {
    forall x | x in trail
      ensures x in edges && (edges[x] in finished + Nodes(trail) || edges[x] !in edges)
    {
      var i :| 0 <= i < |trail| && trail[i] == x;
      assert edges[trail[i]] == Stop(trail, current, i + 1);
    }
  }

  lemma TrailReaches(edges: Edges, trail: seq<string>, current: string, i: nat)
    requires IsTrail(edges, trail, current) && i < |trail|
    ensures Reaches(edges, trail[i], current)
  {
    TrailFollows(edges, trail, current, i, |trail| - i);
  }

  /** A walk into finished nodes, or out of the map, passed no cycle. */
  lemma DeadEnd(edges: Edges, finished: set<string>, trail: seq<string>, current: string, i: nat)
    requires Closed(edges, finished) && IsTrail(edges, trail, current) && i < |trail|
    requires trail[i] !in finished && (current in finished || current !in edges)
    ensures !OnCycle(edges, trail[i])
  {
    if OnCycle(edges, trail[i]) {
      TrailReaches(edges, trail, current, i);
      CycleMates(edges, trail[i], current);
      CycleHasEdge(edges, current);
      CycleHasEdge(edges, trail[i]);
      ClosedReaches(edges, finished, current, trail[i]);
    }
  }

  lemma SuffixTrail(edges: Edges, trail: seq<string>, current: string, k: nat)
    requires IsTrail(edges, trail, current) && k <= |trail|
    ensures IsTrail(edges, trail[k..], current)
  {
    var tail := trail[k..];
    forall j | 0 <= j < |tail|
      ensures tail[j] in edges && edges[tail[j]] == Stop(tail, current, j + 1)
    {
      TrailStep(edges, trail, current, k + j);
    }
  }

  lemma NothingClosed(edges: Edges)
    ensures Closed(edges, {})
  {
  }

  /** A walk back into itself at position k: a cycle from k on, and none before. */
  lemma Loop(edges: Edges, trail: seq<string>, current: string, k: nat, i: nat)
    requires IsTrail(edges, trail, current) && k < |trail| && trail[k] == current && i < |trail|
    ensures OnCycle(edges, current)
    ensures i >= k ==> Reaches(edges, trail[i], current)
    ensures i < k ==> !OnCycle(edges, trail[i])
  {
    hide IsTrail, Closed;
    TrailFollows(edges, trail, current, k, |trail| - k);
    TrailReaches(edges, trail, current, i);
    if i < k && OnCycle(edges, trail[i]) {
      CycleMates(edges, trail[i], current);
      var tail := trail[k..];
      SuffixTrail(edges, trail, current, k);
      TrailNoRepeats(edges, trail, current);
      assert current == tail[0] && trail[i] !in tail;
      NothingClosed(edges);
      TrailClosed(edges, {}, tail, current);
      CycleHasEdge(edges, trail[i]);
      ClosedReaches(edges, {} + Nodes(tail), current, trail[i]);
    }
  }

  /** One representative for each cycle among the finished nodes. */
  ghost predicate Represents(edges: Edges, finished: set<string>, issues: set<string>) {
    && (forall c <- issues :: c in finished && OnCycle(edges, c))
    && (forall x <- finished :: OnCycle(edges, x) ==> exists c <- issues :: Reaches(edges, x, c))
    && (forall c <- issues, d <- issues :: Reaches(edges, c, d) ==> c == d)
  }

  lemma DeadEndKeeps(edges: Edges, finished: set<string>, issues: set<string>, trail: seq<string>, current: string)
    requires Closed(edges, finished) && Represents(edges, finished, issues) && IsTrail(edges, trail, current)
    requires forall x <- trail :: x !in finished
    requires current in finished || current !in edges
    ensures Closed(edges, finished + Nodes(trail)) && Represents(edges, finished + Nodes(trail), issues)
  {
    TrailClosed(edges, finished, trail, current);
    forall x | x in trail
      ensures !OnCycle(edges, x)
    {
      var i :| 0 <= i < |trail| && trail[i] == x;
      DeadEnd(edges, finished, trail, current, i);
    }
  }

  lemma LoopKeeps(edges: Edges, finished: set<string>, issues: set<string>, trail: seq<string>, current: string)
    requires Closed(edges, finished) && Represents(edges, finished, issues) && IsTrail(edges, trail, current)
    requires forall x <- trail :: x !in finished
    requires current in trail
    ensures Closed(edges, finished + Nodes(trail)) && Represents(edges, finished + Nodes(trail), issues + {current})
  {
    TrailClosed(edges, finished, trail, current);
    var k :| 0 <= k < |trail| && trail[k] == current;
    Loop(edges, trail, current, k, k);
    forall x | x in trail && OnCycle(edges, x)
      ensures Reaches(edges, x, current)
    {
      var i :| 0 <= i < |trail| && trail[i] == x;
      Loop(edges, trail, current, k, i);
    }
    forall c | c in issues
      ensures !Reaches(edges, c, current) && !Reaches(edges, current, c)
    {
      CycleHasEdge(edges, current);
      if Reaches(edges, current, c) {
        CycleMates(edges, current, c);
      }
      if Reaches(edges, c, current) {
        ClosedReaches(edges, finished, c, current);
      }
    }
  }

  predicate NoRepeats(s: seq<string>) {
    forall i, j :: 0 <= i < j < |s| ==> s[i] != s[j]
  }

  lemma NoRepeatsAppend(s: seq<string>, t: seq<string>)
    requires NoRepeats(s) && NoRepeats(t) && forall x <- t :: x !in s
    ensures NoRepeats(s + t) && Nodes(s + t) == Nodes(s) + Nodes(t)
  {
    forall i, j | 0 <= i < j < |s + t|
      ensures (s + t)[i] != (s + t)[j]
    {
      if i < |s| <= j {
        assert (s + t)[j] == t[j - |s|] && t[j - |s|] in t;
      }
    }
  }

  /**
   The walk with the shared `finished` set. `order` lists the keys of the map; `visits` records
   every node entered, none of them twice.
   */
  method FindCycles(edges: Edges, order: seq<string>) returns (issues: set<string>, ghost visits: seq<string>)
    requires Nodes(order) == edges.Keys
    ensures Represents(edges, edges.Keys, issues)
    ensures NoRepeats(visits) && Nodes(visits) <= edges.Keys
  {
    hide Represents, Closed, NoRepeats, Nodes;
    issues := {};
    visits := [];
    var finished: set<string> := {};
    Nothing(edges);
    for s := 0 to |order|
      invariant Closed(edges, finished) && Represents(edges, finished, issues)
      invariant finished <= edges.Keys
      invariant forall i :: 0 <= i < s ==> order[i] in finished
      invariant NoRepeats(visits) && Nodes(visits) == finished
    {
      Member(order, s);
      issues, finished, visits := WalkFrom(edges, order[s], issues, finished, visits);
    }
    Covers(order, finished);
    assert finished == edges.Keys;
  }

  lemma Covers(order: seq<string>, finished: set<string>)
    requires forall i :: 0 <= i < |order| ==> order[i] in finished
    ensures Nodes(order) <= finished
  {
  }

  lemma Member(order: seq<string>, i: nat)
    requires i < |order|
    ensures order[i] in Nodes(order)
  {
  }

  /** One iteration of the outer loop. */
  method WalkFrom(edges: Edges, start: string, issues0: set<string>, finished0: set<string>, ghost visits0: seq<string>)
    returns (issues: set<string>, finished: set<string>, ghost visits: seq<string>)
    requires start in edges && finished0 <= edges.Keys
    requires Closed(edges, finished0) && Represents(edges, finished0, issues0)
    requires NoRepeats(visits0) && Nodes(visits0) == finished0
    ensures Closed(edges, finished) && Represents(edges, finished, issues)
    ensures NoRepeats(visits) && Nodes(visits) == finished
    ensures finished0 <= finished <= edges.Keys && start in finished
  {
    hide Represents, Closed, NoRepeats, IsTrail, Nodes;
    var path, current, looped;
    ghost var trail;
    path, current, looped, trail := Walk(edges, finished0, start);
    issues := issues0;
    if looped {
      LoopKeeps(edges, finished0, issues0, trail, current);
      issues := issues + {current};
    } else {
      DeadEndKeeps(edges, finished0, issues0, trail, current);
    }
    TrailNoRepeats(edges, trail, current);
    FreshNodes(visits0, trail, finished0);
    NoRepeatsAppend(visits0, trail);
    finished := finished0 + path;
    visits := visits0 + trail;
  }

  /** One walk, until it leaves the map, meets a finished node or meets itself. */
  method Walk(edges: Edges, finished: set<string>, start: string)
    returns (path: set<string>, current: string, looped: bool, ghost trail: seq<string>)
    requires start in edges
    ensures IsTrail(edges, trail, current) && path == Nodes(trail) && path <= edges.Keys
    ensures forall x <- trail :: x !in finished
    ensures if looped then current in trail else current in finished || current !in edges
    ensures start in finished + path
  {
    hide IsTrail, Nodes;
    path, trail, current, looped := {}, [], start, false;
    EmptyTrail(edges, start);
    while current in edges && current !in finished && !looped
      invariant IsTrail(edges, trail, current) && path == Nodes(trail) && path <= edges.Keys
      invariant forall x <- trail :: x !in finished
      invariant forall x :: x in trail <==> x in path
      invariant path == {} ==> current == start
      invariant path != {} ==> start in path
      invariant looped ==> current in path
      decreases !looped, edges.Keys - path
    {
      if current in path {
        looped := true;
      } else {
        ExtendTrail(edges, trail, current);
        path := path + {current};
        trail := trail + [current];
        current := edges[current];
      }
    }
  }

  lemma EmptyTrail(edges: Edges, x: string)
    ensures IsTrail(edges, [], x) && Nodes([]) == {}
  {
  }

  lemma FreshNodes(visits: seq<string>, trail: seq<string>, finished: set<string>)
    requires Nodes(visits) == finished && forall x <- trail :: x !in finished
    ensures forall x <- trail :: x !in visits
  {
  }

  lemma Nothing(edges: Edges)
    ensures Closed(edges, {}) && Represents(edges, {}, {}) && NoRepeats([]) && Nodes([]) == {}
  {
  }

  lemma TrailNoRepeats(edges: Edges, trail: seq<string>, current: string)
    requires IsTrail(edges, trail, current)
    ensures NoRepeats(trail)
  {
  }

  // ------------------------------------------------------------------- counting

  ghost function Orbit(edges: Edges, x: string): set<string> {
    set y | y in edges && Reaches(edges, x, y)
  }

  ghost function Cycles(edges: Edges): set<set<string>> {
    set x | x in edges && OnCycle(edges, x) :: Orbit(edges, x)
  }

  lemma SameCycleSameOrbit(edges: Edges, x: string, c: string)
    requires OnCycle(edges, x) && Reaches(edges, x, c)
    ensures Orbit(edges, x) == Orbit(edges, c)
  {
    CycleMates(edges, x, c);
    forall y
      ensures Reaches(edges, x, y) <==> Reaches(edges, c, y)
    {
      if Reaches(edges, c, y) { ReachesTransitive(edges, x, c, y); }
      if Reaches(edges, x, y) { ReachesTransitive(edges, c, x, y); }
    }
  }

  lemma {:induction false} ImageCount(edges: Edges, issues: set<string>)
    requires forall c <- issues, d <- issues :: Orbit(edges, c) == Orbit(edges, d) ==> c == d
    ensures |set c | c in issues :: Orbit(edges, c)| == |issues|
    decreases issues
  {
    if issues == {} {
      assert (set c | c in issues :: Orbit(edges, c)) == {};
    } else {
      var c :| c in issues;
      var rest := issues - {c};
      ImageCount(edges, rest);
      assert (set d | d in issues :: Orbit(edges, d)) == (set d | d in rest :: Orbit(edges, d)) + {Orbit(edges, c)};
    }
  }

  lemma IssuesDistinguish(edges: Edges, issues: set<string>, c: string, d: string)
    requires Represents(edges, edges.Keys, issues) && c in issues && d in issues && Orbit(edges, c) == Orbit(edges, d)
    ensures c == d
  {
    assert Follow(edges, d, 0) == Some(d);
    CycleHasEdge(edges, d);
    assert d in Orbit(edges, d);
  }

  lemma IssuesCover(edges: Edges, issues: set<string>)
    requires Represents(edges, edges.Keys, issues)
    ensures (set c | c in issues :: Orbit(edges, c)) == Cycles(edges)
  {
    var image := set c | c in issues :: Orbit(edges, c);
    forall x | x in edges && OnCycle(edges, x)
      ensures Orbit(edges, x) in image
    {
      var c :| c in issues && Reaches(edges, x, c);
      SameCycleSameOrbit(edges, x, c);
    }
  }

  /** The walk reports a cycle exactly when there is one, and as many issues as there are cycles. */
  lemma IssueCountIsCycleCount(edges: Edges, issues: set<string>)
    requires Represents(edges, edges.Keys, issues)
    ensures |issues| == |Cycles(edges)|
    ensures issues == {} <==> forall x :: !OnCycle(edges, x)
  {
    forall c, d | c in issues && d in issues && Orbit(edges, c) == Orbit(edges, d)
      ensures c == d
    {
      IssuesDistinguish(edges, issues, c, d);
    }
    ImageCount(edges, issues);
    IssuesCover(edges, issues);
    forall x | OnCycle(edges, x)
      ensures issues != {}
    {
      CycleHasEdge(edges, x);
    }
  }

  /** Without a cycle every walk leaves the map. */
  lemma {:induction false} AcyclicEnds(edges: Edges, trail: seq<string>, current: string) returns (n: nat)
    requires IsTrail(edges, trail, current) && forall x :: !OnCycle(edges, x)
    ensures Follow(edges, current, n).Some? && Follow(edges, current, n).value !in edges
    decreases edges.Keys - Nodes(trail)
  {
    if current !in edges {
      return 0;
    }
    if current in trail {
      var k :| 0 <= k < |trail| && trail[k] == current;
      Loop(edges, trail, current, k, k);
      assert false;
    }
    ExtendTrail(edges, trail, current);
    var m := AcyclicEnds(edges, trail + [current], edges[current]);
    n := m + 1;
  }
}

/** `inspect_lineage`: what it reports, and what a report without issues means. */
module Lineage {
  import opened Common
  import opened LineageCycles

  datatype Identity = Identity(thread: string, rollout: string)

  /** `history_base` of a rollout header. */
  datatype Base = NoBase | BadBase | BaseAt(source: string, offset: nat)

  datatype Entry = Entry(
    path: string,
    identity: Option<Identity>,
    thread: string,
    paginated: bool,
    base: Base,
    size: nat)

  datatype Issue =
    | InvalidMode(path: string)
    | InvalidName(path: string)
    | InvalidBase(path: string)
    | AmbiguousRollout(rollout: string)
    | MissingSource(rollout: string)
    | AmbiguousSource(rollout: string)
    | SourceNotPaginated(rollout: string)
    | OffsetOutOfBounds(rollout: string)
    | LineageCycle(rollout: string)

  predicate Modern(e: Entry) {
    e.paginated || e.base != NoBase || (e.identity.Some? && e.identity.value.thread != e.identity.value.rollout)
  }

  predicate Named(e: Entry, rollout: string) {
    e.identity.Some? && e.identity.value.rollout == rollout
  }

  /** A base the analysis follows. */
  predicate Linked(e: Entry) {
    e.identity.Some? && e.base.BaseAt?
  }

  // ------------------------------------------------------------ tables, declared

  /** `by_rollout[rollout]`. */
  function Sources(entries: seq<Entry>, rollout: string): seq<Entry> {
    if entries == [] then []
    else
      var rest := Sources(entries[..|entries| - 1], rollout);
      var e := entries[|entries| - 1];
      if Named(e, rollout) then rest + [e] else rest
  }

  /** `edges`: of two rollouts of the same name the later one counts. */
  function EdgesOf(entries: seq<Entry>): Edges {
    if entries == [] then map[]
    else
      var rest := EdgesOf(entries[..|entries| - 1]);
      var e := entries[|entries| - 1];
      if Linked(e) then rest[e.identity.value.rollout := e.base.source] else rest
  }

  function EntryIssues(e: Entry): set<Issue> {
    if !Modern(e) then {}
    else
      (if e.paginated then {} else {InvalidMode(e.path)})
      + (if e.identity.Some? && e.identity.value.thread == e.thread then {} else {InvalidName(e.path)})
      + (if e.base == BadBase then {InvalidBase(e.path)} else {})
  }

  function LinkIssues(entries: seq<Entry>, e: Entry): set<Issue> {
    if !Modern(e) then {}
    else
      (if e.identity.Some? && |Sources(entries, e.identity.value.rollout)| != 1
       then {AmbiguousRollout(e.identity.value.rollout)} else {})
      + (if Linked(e) then SourceIssues(Sources(entries, e.base.source), e.base) else {})
  }

  function SourceIssues(sources: seq<Entry>, base: Base): set<Issue>
    requires base.BaseAt?
  {
    if sources == [] then {MissingSource(base.source)}
    else if |sources| != 1 then {AmbiguousSource(base.source)}
    else
      (if sources[0].paginated then {} else {SourceNotPaginated(base.source)})
      + (if base.offset > sources[0].size then {OffsetOutOfBounds(base.source)} else {})
  }

  /** Threads whose rollouts must never be offered for quarantine. */
  ghost predicate Protects(entries: seq<Entry>, thread: string) {
    || (exists e <- entries :: Modern(e) && e.thread == thread)
    || (exists e <- entries :: Linked(e) && exists s <- Sources(entries, e.base.source) :: s.thread == thread)
  }

  // ------------------------------------------------------------ the inspection

  datatype Tables = Tables(
    byRollout: map<string, seq<Entry>>,
    edges: Edges,
    protected: set<string>,
    paginated: seq<Entry>,
    issues: set<Issue>)

  function ByRollout(t: Tables, rollout: string): seq<Entry> {
    if rollout in t.byRollout then t.byRollout[rollout] else []
  }

  /** What the first loop has collected from a prefix of the entries. */
  ghost predicate Collected(t: Tables, seen: seq<Entry>) {
    && (forall id :: ByRollout(t, id) == Sources(seen, id))
    && t.edges == EdgesOf(seen)
    && (forall thread :: thread in t.protected <==> exists e <- seen :: Modern(e) && e.thread == thread)
    && (forall e :: e in t.paginated <==> e in seen && Modern(e))
    && (forall issue :: issue in t.issues <==> exists e <- seen :: issue in EntryIssues(e))
  }

  /** The first loop of `inspect_lineage`. */
  method Collect(entries: seq<Entry>) returns (t: Tables)
    ensures Collected(t, entries)
  {
    t := Tables(map[], map[], {}, [], {});
    for i := 0 to |entries|
      invariant Collected(t, entries[..i])
    {
      hide Collected, Collects;
      var next := Absorb(t, entries[i]);
      CollectStep(t, next, entries[..i], entries[i]);
      assert entries[..i + 1] == entries[..i] + [entries[i]];
      t := next;
    }
    assert entries[..|entries|] == entries;
  }

  method Absorb(t: Tables, e: Entry) returns (t': Tables)
    ensures Collects(t, t', e)
  {
    t' := t;
    if e.identity.Some? {
      var id := e.identity.value.rollout;
      t' := t'.(byRollout := t'.byRollout[id := ByRollout(t', id) + [e]]);
    }
    if Modern(e) {
      t' := t'.(protected := t'.protected + {e.thread}, paginated := t'.paginated + [e]);
      if !e.paginated {
        t' := t'.(issues := t'.issues + {InvalidMode(e.path)});
      }
      if e.identity.None? || e.identity.value.thread != e.thread {
        t' := t'.(issues := t'.issues + {InvalidName(e.path)});
      }
      if e.base == BadBase {
        t' := t'.(issues := t'.issues + {InvalidBase(e.path)});
      } else if e.base.BaseAt? && e.identity.Some? {
        t' := t'.(edges := t'.edges[e.identity.value.rollout := e.base.source]);
      }
    }
  }

  /** The effect of one entry on the tables. */
  ghost predicate Collects(t: Tables, t': Tables, e: Entry) {
    && (forall id :: ByRollout(t', id) == if Named(e, id) then ByRollout(t, id) + [e] else ByRollout(t, id))
    && t'.edges == (if Linked(e) then t.edges[e.identity.value.rollout := e.base.source] else t.edges)
    && t'.protected == (if Modern(e) then t.protected + {e.thread} else t.protected)
    && t'.paginated == (if Modern(e) then t.paginated + [e] else t.paginated)
    && t'.issues == t.issues + EntryIssues(e)
  }

  lemma CollectStep(t: Tables, t': Tables, seen: seq<Entry>, e: Entry)
    requires Collected(t, seen) && Collects(t, t', e)
    ensures Collected(t', seen + [e])
  {
    var all := seen + [e];
    assert all[..|all| - 1] == seen && all[|all| - 1] == e;
    assert forall f :: f in all <==> f in seen || f == e;
  }

  /** What the second loop adds for one paginated entry. */
  method LinkOne(t: Tables, e: Entry) returns (threads: set<string>, issues: set<Issue>)
    ensures threads == (if Linked(e) then ThreadsOf(ByRollout(t, e.base.source)) else {})
    ensures issues == (if e.identity.Some? && |ByRollout(t, e.identity.value.rollout)| != 1
                       then {AmbiguousRollout(e.identity.value.rollout)} else {})
                      + (if Linked(e) then SourceIssues(ByRollout(t, e.base.source), e.base) else {})
  {
    threads, issues := {}, {};
    if e.identity.Some? && |ByRollout(t, e.identity.value.rollout)| != 1 {
      issues := issues + {AmbiguousRollout(e.identity.value.rollout)};
    }
    if !Linked(e) {
      return;
    }
    var sources := ByRollout(t, e.base.source);
    threads := ThreadsOf(sources);
    if sources == [] {
      issues := issues + {MissingSource(e.base.source)};
    } else if |sources| != 1 {
      issues := issues + {AmbiguousSource(e.base.source)};
    } else {
      if !sources[0].paginated {
        issues := issues + {SourceNotPaginated(e.base.source)};
      }
      if e.base.offset > sources[0].size {
        issues := issues + {OffsetOutOfBounds(e.base.source)};
      }
    }
  }

  function ThreadsOf(entries: seq<Entry>): set<string> {
    set e | e in entries :: e.thread
  }

  /** What the second loop has found after a prefix of the paginated entries. */
  ghost predicate LinksFound(entries: seq<Entry>, seen: seq<Entry>, threads: set<string>, issues: set<Issue>) {
    && (forall thread :: thread in threads <==> exists e <- seen :: thread in SourceThreads(entries, e))
    && (forall issue :: issue in issues <==> exists e <- seen :: issue in LinkIssues(entries, e))
  }

  function SourceThreads(entries: seq<Entry>, e: Entry): set<string> {
    if Linked(e) then ThreadsOf(Sources(entries, e.base.source)) else {}
  }

  /** The second loop of `inspect_lineage`. */
  method Link(t: Tables, entries: seq<Entry>) returns (threads: set<string>, issues: set<Issue>)
    requires Collected(t, entries)
    ensures LinksFound(entries, entries, threads, issues)
  {
    threads, issues := {}, {};
    for i := 0 to |t.paginated|
      invariant LinksFound(entries, t.paginated[..i], threads, issues)
    {
      hide LinksFound, Collected, SourceThreads, LinkIssues;
      var e := t.paginated[i];
      var moreThreads, moreIssues := LinkOne(t, e);
      LinkOneIs(t, entries, e, moreThreads, moreIssues);
      FoundMore(entries, t.paginated[..i], e, threads, issues);
      assert t.paginated[..i + 1] == t.paginated[..i] + [e];
      threads, issues := threads + moreThreads, issues + moreIssues;
    }
    assert t.paginated[..|t.paginated|] == t.paginated;
    ModernOnly(t, entries, threads, issues);
  }

  lemma FoundMore(entries: seq<Entry>, seen: seq<Entry>, e: Entry, threads: set<string>, issues: set<Issue>)
    requires LinksFound(entries, seen, threads, issues)
    ensures LinksFound(entries, seen + [e], threads + SourceThreads(entries, e), issues + LinkIssues(entries, e))
  {
    hide SourceThreads, LinkIssues;
    assert forall f :: f in seen + [e] <==> f in seen || f == e;
  }

  lemma LinkOneIs(t: Tables, entries: seq<Entry>, e: Entry, threads: set<string>, issues: set<Issue>)
    requires Collected(t, entries) && e in t.paginated
    requires threads == if Linked(e) then ThreadsOf(ByRollout(t, e.base.source)) else {}
    requires issues == (if e.identity.Some? && |ByRollout(t, e.identity.value.rollout)| != 1
                        then {AmbiguousRollout(e.identity.value.rollout)} else {})
                       + (if Linked(e) then SourceIssues(ByRollout(t, e.base.source), e.base) else {})
    ensures threads == SourceThreads(entries, e) && issues == LinkIssues(entries, e)
  {
    hide ThreadsOf, SourceIssues;
    assert Modern(e);
  }

  /** Entries that are not modern have no links. */
  lemma ModernOnly(t: Tables, entries: seq<Entry>, threads: set<string>, issues: set<Issue>)
    requires Collected(t, entries) && LinksFound(entries, t.paginated, threads, issues)
    ensures LinksFound(entries, entries, threads, issues)
  {
    hide ThreadsOf, SourceIssues;
    forall e | e in entries && e !in t.paginated
      ensures SourceThreads(entries, e) == {} && LinkIssues(entries, e) == {}
    {
      assert !Modern(e);
    }
    hide SourceThreads, LinkIssues;
  }

  datatype Report = Report(protected: set<string>, issues: set<Issue>)

  function CyclesIn(issues: set<Issue>): set<string> {
    set i | i in issues && i.LineageCycle? :: i.rollout
  }

  /** `inspect_lineage`; `order` is the iteration order of the edge table. */
  method Inspect(entries: seq<Entry>, order: seq<string>) returns (r: Report)
    requires Nodes(order) == EdgesOf(entries).Keys
    ensures forall issue: Issue :: !issue.LineageCycle? ==> (issue in r.issues <==> Holds(entries, issue))
    ensures Represents(EdgesOf(entries), EdgesOf(entries).Keys, CyclesIn(r.issues))
    ensures forall thread :: thread in r.protected <==> MustStay(entries, thread)
    ensures r.issues == {} <==> Clean(entries)
  {
    r := InspectTables(entries, order);
    hide Represents, Holds, EntryIssues, LinkIssues, Protects, MustStay, OnCycle;
    forall issue: Issue | !issue.LineageCycle?
      ensures issue in r.issues <==> Holds(entries, issue)
    {
      IssuesHold(entries, issue);
    }
    forall thread
      ensures thread in r.protected <==> MustStay(entries, thread)
    {
      ProtectsIsMustStay(entries, thread);
    }
    ReadyIsClean(entries);
  }

  /** The three loops, against the tables they fill. */
  method InspectTables(entries: seq<Entry>, order: seq<string>) returns (r: Report)
    requires Nodes(order) == EdgesOf(entries).Keys
    ensures forall issue: Issue :: !issue.LineageCycle? ==>
              (issue in r.issues <==>
               exists e <- entries :: issue in EntryIssues(e) || issue in LinkIssues(entries, e))
    ensures Represents(EdgesOf(entries), EdgesOf(entries).Keys, CyclesIn(r.issues))
    ensures forall thread :: thread in r.protected <==> Protects(entries, thread)
    ensures r.issues == {} <==> Ready(entries)
  {
    hide Represents, Nodes;
    var t := Collect(entries);
    var threads, links := Link(t, entries);
    var cycles, _ := FindCycles(t.edges, order);
    var found := set c | c in cycles :: LineageCycle(c);
    r := Report(t.protected + threads, t.issues + links + found);
    NoEarlyCycles(entries);
    assert CyclesIn(r.issues) == cycles by {
      assert forall c <- cycles :: LineageCycle(c) in r.issues;
    }
    ReadyMeansNoIssues(entries, r);
  }

  lemma NoEarlyCycles(entries: seq<Entry>)
    ensures forall e <- entries, i :: i in EntryIssues(e) || i in LinkIssues(entries, e) ==> !i.LineageCycle?
  {
  }

  // -------------------------------------------------------------- what it means

  /** No issue of any kind. */
  ghost predicate Ready(entries: seq<Entry>) {
    && (forall e <- entries :: EntryIssues(e) == {} && LinkIssues(entries, e) == {})
    && (forall x :: !OnCycle(EdgesOf(entries), x))
  }

  lemma ReadyMeansNoIssues(entries: seq<Entry>, r: Report)
    requires forall issue: Issue :: !issue.LineageCycle? ==>
               (issue in r.issues <==>
                exists e <- entries :: issue in EntryIssues(e) || issue in LinkIssues(entries, e))
    requires Represents(EdgesOf(entries), EdgesOf(entries).Keys, CyclesIn(r.issues))
    ensures r.issues == {} <==> Ready(entries)
  {
    IssueCountIsCycleCount(EdgesOf(entries), CyclesIn(r.issues));
    hide Represents, OnCycle;
    assert forall i <- r.issues :: i.LineageCycle? ==> i.rollout in CyclesIn(r.issues);
    NoEarlyCycles(entries);
  }

  lemma {:induction false} SourcesAreEntries(entries: seq<Entry>, id: string)
    ensures forall e <- Sources(entries, id) :: e in entries && Named(e, id)
    ensures forall e <- entries :: Named(e, id) ==> e in Sources(entries, id)
  {
    if entries != [] {
      var rest := entries[..|entries| - 1];
      SourcesAreEntries(rest, id);
      assert forall e :: e in entries <==> e in rest || e == entries[|entries| - 1] by {
        assert entries == rest + [entries[|entries| - 1]];
      }
    }
  }

  /** With one rollout per name, the edge table holds each rollout's own base. */
  lemma {:induction false} EdgesHoldBases(entries: seq<Entry>, e: Entry)
    requires e in entries && Linked(e)
    requires forall f <- entries :: Named(f, e.identity.value.rollout) ==> f == e
    ensures e.identity.value.rollout in EdgesOf(entries)
    ensures EdgesOf(entries)[e.identity.value.rollout] == e.base.source
  {
    var last := entries[|entries| - 1];
    var rest := entries[..|entries| - 1];
    assert last in entries && forall f <- rest :: f in entries;
    if last != e {
      assert e in rest by { assert entries == rest + [last]; }
      EdgesHoldBases(rest, e);
      assert !Named(last, e.identity.value.rollout);
    }
  }

  /** The chain of bases from `e` is sound and ends within `n` links. */
  predicate Sound(entries: seq<Entry>, e: Entry, n: nat)
    decreases n
  {
    e.base == NoBase
    || (&& n > 0 && e.base.BaseAt?
        && |Sources(entries, e.base.source)| == 1
        && var s := Sources(entries, e.base.source)[0];
           s.paginated && e.base.offset <= s.size && Sound(entries, s, n - 1))
  }

  lemma {:induction false} ChainIsSound(entries: seq<Entry>, e: Entry, n: nat)
    requires Ready(entries) && e in entries && Modern(e)
    requires var f := Follow(EdgesOf(entries), e.identity.value.rollout, n);
             e.identity.Some? && f.Some? && f.value !in EdgesOf(entries)
    ensures Sound(entries, e, n)
    decreases n
  {
    var id := e.identity.value.rollout;
    assert EntryIssues(e) == {} && LinkIssues(entries, e) == {};
    ReadyEntry(entries, e);
    if e.base.BaseAt? {
      SourcesAreEntries(entries, id);
      OnlyOne(Sources(entries, id), e);
      EdgesHoldBases(entries, e);
      SourcesAreEntries(entries, e.base.source);
      var s := Sources(entries, e.base.source)[0];
      assert s in Sources(entries, e.base.source);
      ChainIsSound(entries, s, n - 1);
    }
  }

  lemma OnlyOne(s: seq<Entry>, e: Entry)
    requires |s| == 1 && e in s
    ensures forall f <- s :: f == e
  {
  }

  lemma ReadyEntry(entries: seq<Entry>, e: Entry)
    requires Modern(e) && EntryIssues(e) == {} && LinkIssues(entries, e) == {}
    ensures e.paginated && e.identity.Some? && e.base != BadBase && |Sources(entries, e.identity.value.rollout)| == 1
    ensures e.base.BaseAt? ==>
              && |Sources(entries, e.base.source)| == 1
              && Sources(entries, e.base.source)[0].paginated
              && e.base.offset <= Sources(entries, e.base.source)[0].size
  {
    NoEntryIssues(e);
    NoLinkIssues(entries, e);
  }

  lemma NoEntryIssues(e: Entry)
    ensures EntryIssues(e) == {} <==>
            !Modern(e) || (e.paginated && e.identity.Some? && e.identity.value.thread == e.thread && e.base != BadBase)
  {
    assert Modern(e) && !e.paginated ==> InvalidMode(e.path) in EntryIssues(e);
    assert Modern(e) && !(e.identity.Some? && e.identity.value.thread == e.thread) ==>
        InvalidName(e.path) in EntryIssues(e);
    assert Modern(e) && e.base == BadBase ==> InvalidBase(e.path) in EntryIssues(e);
  }

  lemma NoLinkIssues(entries: seq<Entry>, e: Entry)
    requires Modern(e) && e.identity.Some?
    ensures LinkIssues(entries, e) == {} <==>
            && |Sources(entries, e.identity.value.rollout)| == 1
            && (e.base.BaseAt? ==> SourceIsSound(Sources(entries, e.base.source), e.base))
  {
    assert |Sources(entries, e.identity.value.rollout)| != 1 ==>
        AmbiguousRollout(e.identity.value.rollout) in LinkIssues(entries, e);
    if e.base.BaseAt? {
      NoSourceIssues(Sources(entries, e.base.source), e.base);
      assert SourceIssues(Sources(entries, e.base.source), e.base) <= LinkIssues(entries, e);
    }
  }

  predicate SourceIsSound(sources: seq<Entry>, base: Base)
    requires base.BaseAt?
  {
    |sources| == 1 && sources[0].paginated && base.offset <= sources[0].size
  }

  lemma NoSourceIssues(sources: seq<Entry>, base: Base)
    requires base.BaseAt?
    ensures SourceIssues(sources, base) == {} <==> SourceIsSound(sources, base)
  {
    if |sources| == 1 {
      assert !sources[0].paginated ==> SourceNotPaginated(base.source) in SourceIssues(sources, base);
      assert base.offset > sources[0].size ==> OffsetOutOfBounds(base.source) in SourceIssues(sources, base);
    }
  }

  lemma ChainsEnd(entries: seq<Entry>, e: Entry) returns (n: nat)
    requires Ready(entries) && e in entries && Modern(e)
    ensures Sound(entries, e, n)
  {
    ReadyEntry(entries, e);
    var edges := EdgesOf(entries);
    n := AcyclicEnds(edges, [], e.identity.value.rollout);
    ChainIsSound(entries, e, n);
  }

  // ------------------------------------------------- the report, on the fields of the entries

  /** The rollout belongs to paginated history: by its mode, by a base of any kind, or by its name. */
  predicate IsModern(e: Entry) {
    || e.paginated || e.base.BadBase? || e.base.BaseAt?
    || (e.identity.Some? && e.identity.value.thread != e.identity.value.rollout)
  }

  /** The positions of the rollouts of that name. */
  function Bearers(entries: seq<Entry>, rollout: string): set<nat> {
    set i: nat | i < |entries| && entries[i].identity.Some? && entries[i].identity.value.rollout == rollout
  }

  /** A rollout with a name of its own whose base names another one. */
  predicate PointsTo(e: Entry, rollout: string) {
    e.identity.Some? && e.base.BaseAt? && e.base.source == rollout
  }

  /** What each issue says about the entries. */
  ghost predicate Holds(entries: seq<Entry>, issue: Issue) {
    match issue
    case InvalidMode(path) => exists e <- entries :: e.path == path && IsModern(e) && !e.paginated
    case InvalidName(path) =>
      exists e <- entries :: e.path == path && IsModern(e) && (e.identity.None? || e.identity.value.thread != e.thread)
    case InvalidBase(path) => exists e <- entries :: e.path == path && e.base.BadBase?
    case AmbiguousRollout(id) =>
      && |Bearers(entries, id)| != 1
      && exists e <- entries :: IsModern(e) && e.identity.Some? && e.identity.value.rollout == id
    case MissingSource(id) => Bearers(entries, id) == {} && exists e <- entries :: PointsTo(e, id)
    case AmbiguousSource(id) => |Bearers(entries, id)| > 1 && exists e <- entries :: PointsTo(e, id)
    case SourceNotPaginated(id) =>
      && |Bearers(entries, id)| == 1 && (exists e <- entries :: PointsTo(e, id))
      && exists i <- Bearers(entries, id) :: !entries[i].paginated
    case OffsetOutOfBounds(id) =>
      && |Bearers(entries, id)| == 1
      && exists i <- Bearers(entries, id), e <- entries :: PointsTo(e, id) && e.base.offset > entries[i].size
    case LineageCycle(_) => false
  }

  /** Threads that must not be offered for quarantine: of modern rollouts, and of what their bases name. */
  ghost predicate MustStay(entries: seq<Entry>, thread: string) {
    || (exists e <- entries :: IsModern(e) && e.thread == thread)
    || (exists e <- entries :: e.base.BaseAt? && e.identity.Some?
          && exists i <- Bearers(entries, e.base.source) :: entries[i].thread == thread)
  }

  lemma BearersStep(entries: seq<Entry>, id: string)
    requires entries != []
    ensures var n := |entries| - 1;
            && n !in Bearers(entries[..n], id)
            && Bearers(entries, id) == Bearers(entries[..n], id) + (if Named(entries[n], id) then {n} else {})
  {
  }

  /** The entries at these positions are those of the list. */
  ghost predicate Lists(entries: seq<Entry>, at: set<nat>, list: seq<Entry>) {
    && (forall i <- at :: i < |entries| && entries[i] in list)
    && (forall e <- list :: exists i <- at :: i < |entries| && entries[i] == e)
  }

  lemma ListsMore(entries: seq<Entry>, at: set<nat>, list: seq<Entry>, named: bool)
    requires entries != [] && Lists(entries[..|entries| - 1], at, list)
    ensures var n := |entries| - 1;
            if named then Lists(entries, at + {n}, list + [entries[n]]) else Lists(entries, at, list)
  {
    var n := |entries| - 1;
    var rest := entries[..n];
    assert forall i <- at :: rest[i] == entries[i];
    var at', list' := if named then at + {n} else at, if named then list + [entries[n]] else list;
    forall e | e in list'
      ensures exists i <- at' :: i < |entries| && entries[i] == e
    {
      if e in list {
        var i :| i in at && i < |rest| && rest[i] == e;
        assert i in at' && entries[i] == e;
      } else {
        assert n in at' && entries[n] == e;
      }
    }
  }

  lemma NothingListed(id: string)
    ensures Bearers([], id) == {} && Sources([], id) == [] && Lists([], {}, [])
  {
  }

  lemma SourcesStep(entries: seq<Entry>, id: string)
    requires entries != []
    ensures var n := |entries| - 1;
            Sources(entries, id) == Sources(entries[..n], id) + (if Named(entries[n], id) then [entries[n]] else [])
  {
  }

  lemma {:induction false} SourcesAreListed(entries: seq<Entry>, id: string)
    ensures |Sources(entries, id)| == |Bearers(entries, id)|
    ensures Lists(entries, Bearers(entries, id), Sources(entries, id))
  {
    hide Bearers, Lists, Named, Sources;
    if entries == [] {
      NothingListed(id);
    } else {
      var n := |entries| - 1;
      var at, list := Bearers(entries[..n], id), Sources(entries[..n], id);
      SourcesAreListed(entries[..n], id);
      BearersStep(entries, id);
      SourcesStep(entries, id);
      ListsMore(entries, at, list, Named(entries[n], id));
      if Named(entries[n], id) {
        assert |at + {n}| == |at| + 1;
      } else {
        assert at + {} == at && list + [] == list;
      }
    }
  }

  lemma SourcesAreBearers(entries: seq<Entry>, id: string)
    ensures |Sources(entries, id)| == |Bearers(entries, id)|
    ensures forall e :: e in Sources(entries, id) <==> exists i <- Bearers(entries, id) :: entries[i] == e
  {
    SourcesAreListed(entries, id);
    hide Sources;
  }

  /** The only source, by its position. */
  lemma OnlyBearer(entries: seq<Entry>, id: string)
    requires |Bearers(entries, id)| == 1
    ensures |Sources(entries, id)| == 1
    ensures forall i <- Bearers(entries, id) :: entries[i] == Sources(entries, id)[0]
  {
    SourcesAreBearers(entries, id);
    var s := Sources(entries, id);
    forall i | i in Bearers(entries, id)
      ensures entries[i] == s[0]
    {
      assert entries[i] in s;
    }
  }

  lemma EntryIssuesHold(entries: seq<Entry>, issue: Issue)
    requires issue.InvalidMode? || issue.InvalidName? || issue.InvalidBase?
    ensures Holds(entries, issue) <==> exists e <- entries :: issue in EntryIssues(e)
  {
    forall e | e in entries
      ensures issue in EntryIssues(e) <==>
              && e.path == issue.path && IsModern(e)
              && (issue.InvalidMode? ==> !e.paginated)
              && (issue.InvalidName? ==> e.identity.None? || e.identity.value.thread != e.thread)
              && (issue.InvalidBase? ==> e.base.BadBase?)
    {
    }
  }

  /** What one entry has to do with an issue about names. */
  predicate Raises(entries: seq<Entry>, e: Entry, issue: Issue) {
    match issue
    case AmbiguousRollout(id) =>
      |Sources(entries, id)| != 1 && IsModern(e) && e.identity.Some? && e.identity.value.rollout == id
    case MissingSource(id) => Sources(entries, id) == [] && PointsTo(e, id)
    case AmbiguousSource(id) => |Sources(entries, id)| > 1 && PointsTo(e, id)
    case SourceNotPaginated(id) => |Sources(entries, id)| == 1 && PointsTo(e, id) && !Sources(entries, id)[0].paginated
    case OffsetOutOfBounds(id) =>
      |Sources(entries, id)| == 1 && PointsTo(e, id) && e.base.offset > Sources(entries, id)[0].size
    case _ => false
  }

  lemma LinkIssueIs(entries: seq<Entry>, e: Entry, issue: Issue)
    ensures issue in LinkIssues(entries, e) <==> Raises(entries, e, issue)
  {
    hide Sources;
  }

  lemma RaisedHolds(entries: seq<Entry>, issue: Issue)
    requires !(issue.InvalidMode? || issue.InvalidName? || issue.InvalidBase? || issue.LineageCycle?)
    ensures Holds(entries, issue) <==> exists e <- entries :: Raises(entries, e, issue)
  {
    hide Sources;
    var id := issue.rollout;
    SourcesAreBearers(entries, id);
    assert Sources(entries, id) == [] <==> Bearers(entries, id) == {};
    if |Bearers(entries, id)| == 1 {
      OnlyBearer(entries, id);
      var i :| i in Bearers(entries, id);
      assert entries[i] == Sources(entries, id)[0];
    }
  }

  /** An issue is found exactly if it holds of the entries. */
  lemma IssuesHold(entries: seq<Entry>, issue: Issue)
    requires !issue.LineageCycle?
    ensures Holds(entries, issue) <==> exists e <- entries :: issue in EntryIssues(e) || issue in LinkIssues(entries, e)
  {
    hide Holds, EntryIssues, LinkIssues, Raises;
    forall e | e in entries
      ensures issue in LinkIssues(entries, e) <==> Raises(entries, e, issue)
    {
      LinkIssueIs(entries, e, issue);
    }
    if issue.InvalidMode? || issue.InvalidName? || issue.InvalidBase? {
      EntryIssuesHold(entries, issue);
      NotRaised(entries, issue);
    } else {
      RaisedHolds(entries, issue);
      NotOfEntries(issue);
    }
  }

  lemma NotRaised(entries: seq<Entry>, issue: Issue)
    requires issue.InvalidMode? || issue.InvalidName? || issue.InvalidBase?
    ensures forall e :: !Raises(entries, e, issue)
  {
  }

  lemma NotOfEntries(issue: Issue)
    requires !(issue.InvalidMode? || issue.InvalidName? || issue.InvalidBase?)
    ensures forall e :: issue !in EntryIssues(e)
  {
  }

  lemma ProtectsIsMustStay(entries: seq<Entry>, thread: string)
    ensures Protects(entries, thread) <==> MustStay(entries, thread)
  {
    hide Sources, Bearers;
    forall e | e in entries && Linked(e)
      ensures (exists s <- Sources(entries, e.base.source) :: s.thread == thread)
         <==> exists i <- Bearers(entries, e.base.source) :: i < |entries| && entries[i].thread == thread
    {
      SourcesAreBearers(entries, e.base.source);
      BearersAreInRange(entries, e.base.source);
    }
    BearersInRange(entries);
  }

  lemma BearersAreInRange(entries: seq<Entry>, id: string)
    ensures forall i <- Bearers(entries, id) :: i < |entries|
  {
  }

  lemma BearersInRange(entries: seq<Entry>)
    ensures forall id, i :: i in Bearers(entries, id) ==> i < |entries|
  {
  }

  /** The edge of a name is the base of the last rollout that bears it and has one. */
  lemma {:induction false} EdgesAreBases(entries: seq<Entry>, id: string)
    ensures id in EdgesOf(entries) <==> exists i <- Bearers(entries, id) :: entries[i].base.BaseAt?
    ensures forall i <- Bearers(entries, id) ::
              entries[i].base.BaseAt? && (forall j <- Bearers(entries, id) :: j > i ==> !entries[j].base.BaseAt?) ==>
                id in EdgesOf(entries) && EdgesOf(entries)[id] == entries[i].base.source
  {
    if entries != [] {
      var n := |entries| - 1;
      var rest := entries[..n];
      EdgesAreBases(rest, id);
      assert forall i: nat :: i in Bearers(entries, id) <==> i in Bearers(rest, id) || (i == n && Named(entries[n], id));
      assert forall i <- Bearers(rest, id) :: rest[i] == entries[i] && i < n;
    }
  }

  /** No issue holds and no name comes back to itself along the bases. */
  ghost predicate Clean(entries: seq<Entry>) {
    (forall issue :: !Holds(entries, issue)) && forall x :: !OnCycle(EdgesOf(entries), x)
  }

  lemma ReadyIsClean(entries: seq<Entry>)
    ensures Ready(entries) <==> Clean(entries)
  {
    hide Holds, EntryIssues, LinkIssues, OnCycle;
    NoEarlyCycles(entries);
    forall issue: Issue | !issue.LineageCycle?
      ensures Holds(entries, issue) <==> exists e <- entries :: issue in EntryIssues(e) || issue in LinkIssues(entries, e)
    {
      IssuesHold(entries, issue);
    }
    CyclesDoNotHold(entries);
    if !(forall e <- entries :: EntryIssues(e) == {} && LinkIssues(entries, e) == {}) {
      var e :| e in entries && !(EntryIssues(e) == {} && LinkIssues(entries, e) == {});
      var issue :| issue in EntryIssues(e) || issue in LinkIssues(entries, e);
      assert Holds(entries, issue);
    }
  }

  lemma CyclesDoNotHold(entries: seq<Entry>)
    ensures forall issue: Issue :: issue.LineageCycle? ==> !Holds(entries, issue)
  {
  }

  /** The chain of bases from `e` ends within n links, each to the only rollout of its name, paginated and long enough. */
  ghost predicate EndsWell(entries: seq<Entry>, e: Entry, n: nat)
    decreases n
  {
    e.base == NoBase
    || (&& n > 0 && e.base.BaseAt? && |Bearers(entries, e.base.source)| == 1
        && forall i <- Bearers(entries, e.base.source) ::
             entries[i].paginated && e.base.offset <= entries[i].size && EndsWell(entries, entries[i], n - 1))
  }

  lemma {:induction false} SoundEndsWell(entries: seq<Entry>, e: Entry, n: nat)
    requires Sound(entries, e, n)
    ensures EndsWell(entries, e, n)
    decreases n
  {
    hide Sources;
    if e.base != NoBase {
      SourcesAreBearers(entries, e.base.source);
      OnlyBearer(entries, e.base.source);
      SoundEndsWell(entries, Sources(entries, e.base.source)[0], n - 1);
    }
  }

  /**
   A history reported ready: from every paginated rollout the chain of bases is finite, every link
   resolves to exactly one paginated rollout, and every offset lies within it.
   */
  lemma ReadyChainsEnd(entries: seq<Entry>, e: Entry) returns (n: nat)
    requires Clean(entries) && e in entries && IsModern(e)
    ensures e.paginated && EndsWell(entries, e, n)
  {
    hide Holds, OnCycle;
    ReadyIsClean(entries);
    n := ChainsEnd(entries, e);
    SoundEndsWell(entries, e, n);
    ReadyEntry(entries, e);
  }

  /** `b` is the rollout, or one of the rollouts, named by the base of `a`. */
  predicate BasedOn(entries: seq<Entry>, a: Entry, b: Entry) {
    Linked(a) && b in Sources(entries, a.base.source)
  }

  lemma BasedOnIs(entries: seq<Entry>, a: Entry, b: Entry)
    ensures BasedOn(entries, a, b) <==>
            a.identity.Some? && a.base.BaseAt? && exists i <- Bearers(entries, a.base.source) :: entries[i] == b
  {
    hide Sources;
    if Linked(a) {
      SourcesAreBearers(entries, a.base.source);
    }
  }

  /** `b` is reached from `a` through n valid bases. */
  ghost predicate Descends(entries: seq<Entry>, a: Entry, b: Entry, n: nat)
    decreases n
  {
    if n == 0 then a == b
    else exists mid :: Descends(entries, a, mid, n - 1) && BasedOn(entries, mid, b)
  }

  /** Ready or not: every rollout reached through valid bases from a modern rollout is protected. */
  lemma {:induction false} AncestorsAreProtected(entries: seq<Entry>, a: Entry, b: Entry, n: nat)
    requires a in entries && IsModern(a) && Descends(entries, a, b, n)
    ensures b in entries && MustStay(entries, b.thread)
    decreases n
  {
    if n > 0 {
      var mid :| Descends(entries, a, mid, n - 1) && BasedOn(entries, mid, b);
      AncestorsAreProtected(entries, a, mid, n - 1);
      BasedOnIs(entries, mid, b);
    }
  }
}
