/**
 The failover document (backend/failover.py): the edits the management service
 makes, and the compare-and-swap store that several processes share.
 */
module FailoverDocument {
  import opened Common

  datatype GroupBody = GroupBody(name: string, primary: string, backup: string, settings: string)

  datatype Group = Group(id: string, enabled: bool, body: GroupBody, updatedRevision: int)

  datatype Document = Document(revision: int, instanceId: string, active: Option<string>, groups: seq<Group>)

  datatype StoreError =
    | RevisionConflict
    | DocumentInvalid
    | InstanceImmutable
    | RevisionMustIncrement
    | StoreWriteFailed
    | GroupNotFound
    | GroupDisabled
    | ActiveDisableForbidden
    | ActiveDeleteForbidden
    | RoutesNotDistinct

  datatype Result<+T> = Ok(value: T) | Err(error: StoreError)

  // ------------------------------------------------------------------- validity

  predicate HasGroup(groups: seq<Group>, id: string) {
    exists g <- groups :: g.id == id
  }

  predicate DistinctIds(groups: seq<Group>) {
    forall i, j :: 0 <= i < j < |groups| ==> groups[i].id != groups[j].id
  }

  /** `_validate_document`. It does not ask whether the active group is enabled. */
  predicate Valid(d: Document) {
    && d.revision >= 0
    && DistinctIds(d.groups)
    && (forall g <- d.groups :: g.body.primary != g.body.backup && g.updatedRevision >= 1)
    && (d.active.Some? ==> HasGroup(d.groups, d.active.value))
  }

  /** A set active group is present and enabled. */
  predicate ActiveServes(d: Document) {
    d.active.Some? ==> exists g <- d.groups :: g.id == d.active.value && g.enabled
  }

  // ---------------------------------------------------------------------- edits

  /** What a process asks the service to do to the document it has loaded. */
  datatype Edit =
    | Create(id: string, enabled: bool, body: GroupBody)
    | Update(id: string, enabled: bool, body: GroupBody)
    | Delete(id: string)
    | Publish(id: string)
    /** The document after a compensated publish: two revisions on, otherwise as loaded. */
    | Compensate

  function Find(groups: seq<Group>, id: string): Group
    requires HasGroup(groups, id)
  {
    if groups[0].id == id then groups[0] else Find(groups[1..], id)
  }

  lemma {:induction false} FindFinds(groups: seq<Group>, id: string)
    requires HasGroup(groups, id)
    ensures Find(groups, id) in groups && Find(groups, id).id == id
  {
    if groups[0].id != id {
      FindFinds(groups[1..], id);
    }
  }

  function Replaced(groups: seq<Group>, g: Group): (r: seq<Group>)
    ensures |r| == |groups|
    ensures forall i :: 0 <= i < |r| ==> r[i] == if groups[i].id == g.id then g else groups[i]
  {
    seq(|groups|, i requires 0 <= i < |groups| => if groups[i].id == g.id then g else groups[i])
  }

  function Dropped(groups: seq<Group>, id: string): (r: seq<Group>)
    ensures forall g <- r :: g in groups && g.id != id
    ensures forall g <- groups :: g.id != id ==> g in r
  {
    if groups == [] then []
    else if groups[0].id == id then Dropped(groups[1..], id)
    else [groups[0]] + Dropped(groups[1..], id)
  }

  /** The document an edit wants to save; `Ok(None)` when it changes nothing. */
  function Wanted(d: Document, edit: Edit): Result<Option<Document>> {
    match edit
    case Create(id, enabled, body) =>
      if body.primary == body.backup then Err(RoutesNotDistinct)
      else Ok(Some(d.(revision := d.revision + 1, groups := d.groups + [Group(id, enabled, body, d.revision + 1)])))
    case Update(id, enabled, body) =>
      if !HasGroup(d.groups, id) then Err(GroupNotFound)
      else if body.primary == body.backup then Err(RoutesNotDistinct)
      else
        var current := Find(d.groups, id);
        if d.active == Some(id) && current.enabled && !enabled then Err(ActiveDisableForbidden)
        else if current.enabled == enabled && current.body == body then Ok(None)
        else Ok(Some(d.(revision := d.revision + 1,
                        groups := Replaced(d.groups, Group(id, enabled, body, d.revision + 1)))))
    case Delete(id) =>
      if !HasGroup(d.groups, id) then Err(GroupNotFound)
      else if d.active == Some(id) then Err(ActiveDeleteForbidden)
      else Ok(Some(d.(revision := d.revision + 1, groups := Dropped(d.groups, id))))
    case Publish(id) =>
      if !HasGroup(d.groups, id) then Err(GroupNotFound)
      else if !Find(d.groups, id).enabled then Err(GroupDisabled)
      else Ok(Some(d.(revision := d.revision + 1, active := Some(id))))
    case Compensate => Ok(Some(d.(revision := d.revision + 2)))
  }

  // ------------------------------------------------------------ what a reader finds

  /** The groups of a document after an edit, entry by entry. */
  ghost predicate ShowsEdit(d: Document, edit: Edit, next: Document) {
    && next.instanceId == d.instanceId
    && match edit
       case Create(id, enabled, body) =>
         && next.revision == d.revision + 1 && next.active == d.active && |next.groups| == |d.groups| + 1
         && next.groups[..|d.groups|] == d.groups && next.groups[|d.groups|] == Group(id, enabled, body, d.revision + 1)
       case Update(id, enabled, body) =>
         && next.revision == d.revision + 1 && next.active == d.active && |next.groups| == |d.groups|
         && forall i :: 0 <= i < |d.groups| ==>
              next.groups[i] == if d.groups[i].id == id then Group(id, enabled, body, d.revision + 1) else d.groups[i]
       case Delete(id) =>
         && next.revision == d.revision + 1 && next.active == d.active
         && forall g :: g in next.groups <==> g in d.groups && g.id != id
       case Publish(id) => next == d.(revision := d.revision + 1, active := Some(id))
       case Compensate => next == d.(revision := d.revision + 2)
  }

  /** Why an edit is refused, if it is. */
  ghost predicate Refuses(d: Document, edit: Edit, e: StoreError) {
    match edit
    case Create(_, _, body) => body.primary == body.backup && e == RoutesNotDistinct
    case Update(id, enabled, body) =>
      if forall g <- d.groups :: g.id != id then e == GroupNotFound
      else if body.primary == body.backup then e == RoutesNotDistinct
      else e == ActiveDisableForbidden && d.active == Some(id) && !enabled && exists g <- d.groups :: g.id == id && g.enabled
    case Delete(id) =>
      if forall g <- d.groups :: g.id != id then e == GroupNotFound else e == ActiveDeleteForbidden && d.active == Some(id)
    case Publish(id) =>
      if forall g <- d.groups :: g.id != id then e == GroupNotFound
      else e == GroupDisabled && exists g <- d.groups :: g.id == id && !g.enabled
    case Compensate => false
  }

  lemma FoundByMembership(d: Document, id: string)
    requires DistinctIds(d.groups)
    ensures HasGroup(d.groups, id) <==> exists g <- d.groups :: g.id == id
    ensures HasGroup(d.groups, id) ==> forall g <- d.groups :: g.id == id ==> g == Find(d.groups, id)
  {
    if HasGroup(d.groups, id) {
      FindFinds(d.groups, id);
      var f := Find(d.groups, id);
      forall g | g in d.groups && g.id == id
        ensures g == f
      {
        var i :| 0 <= i < |d.groups| && d.groups[i] == g;
        var j :| 0 <= j < |d.groups| && d.groups[j] == f;
        assert i == j;
      }
    }
  }

  /**
   `create_group`, `update_group`, `delete_group` and the documents of a publish: what each edit wants
   saved, when it wants nothing, and why it is refused.
   */
  lemma EditOutcome(d: Document, edit: Edit)
    requires Valid(d)
    ensures var r := Wanted(d, edit);
            && (r.Ok? && r.value.Some? ==> ShowsEdit(d, edit, r.value.value))
            && (r.Err? <==> exists e :: Refuses(d, edit, e)) && (r.Err? ==> Refuses(d, edit, r.error))
            && (r.Ok? && r.value.None? <==>
                  edit.Update? && edit.body.primary != edit.body.backup
                  && exists g <- d.groups :: g.id == edit.id && g.enabled == edit.enabled && g.body == edit.body)
  {
    hide Valid;
    assert DistinctIds(d.groups) by { ValidIsDistinct(d); }
    if !edit.Compensate? {
      FoundByMembership(d, edit.id);
      if HasGroup(d.groups, edit.id) {
        FindFinds(d.groups, edit.id);
      }
    }
    hide Find, HasGroup;
    var r := Wanted(d, edit);
    if r.Err? {
      assert Refuses(d, edit, r.error);
    }
  }

  lemma ValidIsDistinct(d: Document)
    requires Valid(d)
    ensures DistinctIds(d.groups)
  {
  }

  /** What every document that is saved satisfies. */
  lemma SavedIsSound(stored: Document, candidate: Document, expected: int, gap: int, written: bool)
    ensures var r := Save(stored, candidate, expected, gap, written);
            r.Ok? <==>
              && written && stored.revision == expected && candidate.revision == expected + gap
              && candidate.instanceId == stored.instanceId && candidate.revision >= 0
              && (forall i, j :: 0 <= i < j < |candidate.groups| ==> candidate.groups[i].id != candidate.groups[j].id)
              && (forall g <- candidate.groups :: g.body.primary != g.body.backup && g.updatedRevision >= 1)
              && (candidate.active.Some? ==> exists g <- candidate.groups :: g.id == candidate.active.value)
  {
  }

  function Gap(edit: Edit): int {
    if edit.Compensate? then 2 else 1
  }

  /** `save` and `save_compensation`: compare, validate, swap. `written` is the file system's answer. */
  function Save(stored: Document, candidate: Document, expected: int, gap: int, written: bool): (r: Result<Document>)
    ensures r.Ok? ==> r.value == candidate
  {
    if stored.revision != expected then Err(RevisionConflict)
    else if !Valid(candidate) then Err(DocumentInvalid)
    else if candidate.instanceId != stored.instanceId then Err(InstanceImmutable)
    else if candidate.revision != expected + gap then Err(RevisionMustIncrement)
    else if !written then Err(StoreWriteFailed)
    else Ok(candidate)
  }

  /** Of the processes that have loaded one revision at most one saves, whatever each of them wants. */
  lemma OnlyOneSaves(stored: Document, expected: int, first: Document, gap: int, written: bool,
                     second: Document, gap': int, written': bool)
    requires gap > 0 && Save(stored, first, expected, gap, written).Ok?
    ensures var saved := Save(stored, first, expected, gap, written).value;
            && Valid(saved) && saved.instanceId == stored.instanceId && saved.revision == stored.revision + gap
            && Save(saved, second, expected, gap', written') == Err(RevisionConflict)
  {
    hide Valid;
  }

  // ------------------------------------------------------- several processes

  /** The stored document, every document stored so far, and what each process has loaded. */
  datatype Shared = Shared(stored: Document, history: seq<Document>, loaded: map<nat, Document>)

  datatype Action = Load(pid: nat) | Commit(pid: nat, edit: Edit, written: bool)

  function Act(s: Shared, a: Action): Shared {
    match a
    case Load(pid) => s.(loaded := s.loaded[pid := s.stored])
    case Commit(pid, edit, written) =>
      if pid !in s.loaded then s
      else
        var d := s.loaded[pid];
        match Wanted(d, edit)
        case Ok(Some(candidate)) =>
          (match Save(s.stored, candidate, d.revision, Gap(edit), written)
           case Ok(saved) => s.(stored := saved, history := s.history + [saved])
           case Err(_) => s)
        case _ => s
  }

  /** `later` is `earlier` with one edit applied to it, and to nothing else. */
  ghost predicate FollowsBy(earlier: Document, later: Document) {
    exists edit :: Wanted(earlier, edit) == Ok(Some(later))
  }

  predicate Rising(h: seq<Document>) {
    forall i, j :: 0 <= i < j < |h| ==> h[i].revision < h[j].revision
  }

  /** Every document is one edit of the one before it. */
  ghost predicate OneByOne(h: seq<Document>) {
    forall i :: 0 < i < |h| ==> FollowsBy(h[i - 1], h[i])
  }

  ghost predicate SharedInv(s: Shared) {
    && s.history != [] && s.stored == s.history[|s.history| - 1]
    && Rising(s.history)
    && OneByOne(s.history)
    && (forall d <- s.history :: Valid(d) && ActiveServes(d) && d.instanceId == s.stored.instanceId)
    && (forall pid <- s.loaded :: s.loaded[pid] in s.history)
  }

  /** A process that loaded the stored revision loaded the stored document. */
  lemma SameRevisionSameDocument(s: Shared, d: Document)
    requires SharedInv(s) && d in s.history && d.revision == s.stored.revision
    ensures d == s.stored
  {
    var i :| 0 <= i < |s.history| && s.history[i] == d;
    assert i == |s.history| - 1;
  }

  lemma {:induction false} ReplacedServes(groups: seq<Group>, g: Group, active: string)
    requires exists h <- groups :: h.id == active && h.enabled
    requires g.id == active ==> g.enabled
    ensures exists h <- Replaced(groups, g) :: h.id == active && h.enabled
  {
    var i :| 0 <= i < |groups| && groups[i].id == active && groups[i].enabled;
    assert Replaced(groups, g)[i].id == active;
  }

  /** Every edit keeps an active group present and enabled. */
  lemma EditServes(d: Document, edit: Edit)
    requires Valid(d) && ActiveServes(d) && Wanted(d, edit).Ok? && Wanted(d, edit).value.Some?
    ensures ActiveServes(Wanted(d, edit).value.value)
  {
    var next := Wanted(d, edit).value.value;
    match edit
    case Create(id, enabled, body) =>
      if d.active.Some? {
        var g :| g in d.groups && g.id == d.active.value && g.enabled;
        assert g in next.groups;
      }
    case Update(id, enabled, body) =>
      if d.active.Some? {
        FindFinds(d.groups, id);
        if d.active == Some(id) {
          ActiveIsFound(d, id);
        }
        ReplacedServes(d.groups, Group(id, enabled, body, d.revision + 1), d.active.value);
      }
    case Delete(id) =>
      if d.active.Some? {
        var g :| g in d.groups && g.id == d.active.value && g.enabled;
        assert g in next.groups;
      }
    case Publish(id) => FindFinds(d.groups, id);
    case Compensate =>
  }

  lemma ActiveIsFound(d: Document, id: string)
    requires DistinctIds(d.groups) && HasGroup(d.groups, id) && exists g <- d.groups :: g.id == id && g.enabled
    ensures Find(d.groups, id).enabled
  {
    FindFinds(d.groups, id);
    var g :| g in d.groups && g.id == id && g.enabled;
    var f := Find(d.groups, id);
    var i :| 0 <= i < |d.groups| && d.groups[i] == g;
    var j :| 0 <= j < |d.groups| && d.groups[j] == f;
    assert i == j;
  }

  lemma EditRaises(d: Document, edit: Edit)
    requires Wanted(d, edit).Ok? && Wanted(d, edit).value.Some?
    ensures Wanted(d, edit).value.value.revision == d.revision + Gap(edit)
    ensures Wanted(d, edit).value.value.instanceId == d.instanceId
  {
  }

  /** One more document, made by an edit of the one stored. */
  lemma CommitKeepsInv(s: Shared, edit: Edit, saved: Document)
    requires SharedInv(s) && Wanted(s.stored, edit) == Ok(Some(saved)) && Valid(saved)
    ensures SharedInv(s.(stored := saved, history := s.history + [saved]))
  {
    EditServes(s.stored, edit);
    EditRaises(s.stored, edit);
    assert FollowsBy(s.stored, saved);
    hide Wanted, Valid, ActiveServes, Rising, FollowsBy, OneByOne;
    RisingMore(s.history, saved);
    EditsMore(s.history, saved);
    var history := s.history + [saved];
    assert forall d <- history :: d in s.history || d == saved;
  }

  lemma EditsMore(h: seq<Document>, d: Document)
    requires h != [] && OneByOne(h) && FollowsBy(Final(h), d)
    ensures OneByOne(h + [d])
  {
    hide FollowsBy;
    var longer := h + [d];
    forall i | 0 < i < |longer|
      ensures FollowsBy(longer[i - 1], longer[i])
    {
      if i < |h| {
        assert longer[i - 1] == h[i - 1] && longer[i] == h[i];
      }
    }
  }

  lemma RisingMore(h: seq<Document>, d: Document)
    requires h != [] && Rising(h) && Final(h).revision < d.revision
    ensures Rising(h + [d])
  {
    forall i, j | 0 <= i < j < |h + [d]|
      ensures (h + [d])[i].revision < (h + [d])[j].revision
    {
      assert i < |h| - 1 ==> h[i].revision < h[|h| - 1].revision;
    }
  }

  /** What one commit does: nothing, or one more document, made from the one then stored. */
  lemma ActKeepsInv(s: Shared, a: Action)
    requires SharedInv(s)
    ensures SharedInv(Act(s, a))
    ensures s.history <= Act(s, a).history
  {
    match a
    case Load(pid) => LoadKeepsInv(s, pid);
    case Commit(pid, edit, written) =>
      hide Wanted, Valid, ActiveServes, Rising;
      if pid in s.loaded {
        var d := s.loaded[pid];
        var wanted := Wanted(d, edit);
        if wanted.Ok? && wanted.value.Some? && Save(s.stored, wanted.value.value, d.revision, Gap(edit), written).Ok? {
          SameRevisionSameDocument(s, d);
          CommitKeepsInv(s, edit, wanted.value.value);
        }
      }
  }

  lemma LoadKeepsInv(s: Shared, pid: nat)
    requires SharedInv(s)
    ensures SharedInv(s.(loaded := s.loaded[pid := s.stored]))
  {
    hide Valid, ActiveServes, OneByOne, Rising;
  }

  /** A process that holds the stored document saves what its edit wants; one that holds an older one changes nothing. */
  lemma CommitOutcome(s: Shared, pid: nat, edit: Edit, written: bool)
    requires SharedInv(s) && pid in s.loaded
    ensures var d, next := s.loaded[pid], Act(s, Commit(pid, edit, written));
            && next.loaded == s.loaded
            && (d.revision == s.stored.revision && written && Wanted(s.stored, edit).Ok? && Wanted(s.stored, edit).value.Some?
                && Valid(Wanted(s.stored, edit).value.value) ==>
                  next.stored == Wanted(s.stored, edit).value.value && next.history == s.history + [next.stored])
            && (d.revision != s.stored.revision || !written ==> next == s)
  {
    hide Valid, Wanted;
    var d := s.loaded[pid];
    if d.revision == s.stored.revision {
      SameRevisionSameDocument(s, d);
      if Wanted(s.stored, edit).Ok? && Wanted(s.stored, edit).value.Some? {
        EditRaises(s.stored, edit);
      }
    }
  }

  ghost predicate IsSharedRun(states: seq<Shared>, actions: seq<Action>) {
    && |states| == |actions| + 1
    && SharedInv(states[0])
    && forall i :: 0 <= i < |actions| ==> Acts(states[i], actions[i], states[i + 1])
  }

  predicate Acts(s: Shared, a: Action, s': Shared) {
    s' == Act(s, a)
  }

  /**
   Over any interleaving of loads and commits by any number of processes: stored revisions strictly
   rise, the instance never changes, no document is lost from the history, every stored document is
   one edit of the one before it, and a set active group is present and enabled.
   */
  lemma {:induction false} NoUpdateIsLost(states: seq<Shared>, actions: seq<Action>, i: nat, j: nat)
    requires IsSharedRun(states, actions) && i <= j < |states|
    ensures SharedInv(states[i]) && SharedInv(states[j])
    ensures states[i].history <= states[j].history
    ensures states[i].stored.revision <= states[j].stored.revision
    ensures states[i].stored.revision == states[j].stored.revision ==> states[i].stored == states[j].stored
    ensures states[i].stored.instanceId == states[j].stored.instanceId
    ensures ActiveServes(states[j].stored)
    decreases j
  {
    hide Act, Wanted, Valid;
    if j > 0 {
      var m := j - 1;
      NoUpdateIsLost(states, actions, if i < j then i else m, m);
      assert Acts(states[m], actions[m], states[m + 1]);
      ActKeepsInv(states[m], actions[m]);
    }
    HistoryGrows(states[i], states[j]);
  }

  lemma HistoryGrows(a: Shared, b: Shared)
    requires SharedInv(a) && SharedInv(b) && a.history <= b.history
    ensures a.stored.revision <= b.stored.revision
    ensures a.stored.revision == b.stored.revision ==> a.stored == b.stored
    ensures a.stored.instanceId == b.stored.instanceId
  {
    var last := |a.history| - 1;
    assert b.history[last] == a.stored;
    assert a.stored in b.history;
    if last < |b.history| - 1 {
      assert b.history[last].revision < b.history[|b.history| - 1].revision;
    }
  }

  /** The document a new installation starts from. */
  lemma FreshInstallation(instanceId: string)
    ensures var d := Document(0, instanceId, None, []);
            SharedInv(Shared(d, [d], map[]))
  {
    var d := Document(0, instanceId, None, []);
    assert Valid(d) && ActiveServes(d);
  }
}
