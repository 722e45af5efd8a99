/** Route identities of the breaker and the order in which an export lists them. */
module BreakerKeys {
  import opened Common
  import opened BreakerRoute

  datatype RouteKey = RouteKey(instanceId: string, groupId: string, role: string, profileId: string)

  datatype Version = Version(revision: Revision, fingerprint: string)

  datatype VersionKey = VersionKey(key: RouteKey, version: Version)

  function Fields(k: RouteKey): (r: seq<string>) {
    [k.instanceId, k.groupId, k.role, k.profileId]
  }

  /** Lexicographic order on tuples of strings. */
  predicate TupleLeq(a: seq<string>, b: seq<string>) {
    a == [] || (b != [] && (if a[0] == b[0] then TupleLeq(a[1..], b[1..]) else StringLeq(a[0], b[0])))
  }

  predicate KeyLeq(a: RouteKey, b: RouteKey) {
    TupleLeq(Fields(a), Fields(b))
  }

  lemma {:induction false} TupleLeqTotal(a: seq<string>, b: seq<string>)
    ensures TupleLeq(a, b) || TupleLeq(b, a)
    ensures TupleLeq(a, b) && TupleLeq(b, a) ==> a == b
  {
    if a != [] && b != [] {
      TupleLeqTotal(a[1..], b[1..]);
      StringLeqTotal(a[0], b[0]);
      if a[0] == b[0] && a[1..] == b[1..] {
        assert a == [a[0]] + a[1..] && b == [b[0]] + b[1..];
      }
    }
  }

  lemma {:induction false} TupleLeqTransitive(a: seq<string>, b: seq<string>, c: seq<string>)
    requires TupleLeq(a, b) && TupleLeq(b, c)
    ensures TupleLeq(a, c)
  {
    if a != [] {
      if a[0] == b[0] == c[0] {
        TupleLeqTransitive(a[1..], b[1..], c[1..]);
      } else {
        if a[0] != b[0] && b[0] != c[0] {
          StringLeqTransitive(a[0], b[0], c[0]);
          StringLeqTotal(a[0], b[0]);
        }
      }
    }
  }

  lemma KeyLeqTotal(a: RouteKey, b: RouteKey)
    ensures KeyLeq(a, b) || KeyLeq(b, a)
    ensures KeyLeq(a, b) && KeyLeq(b, a) ==> a == b
  {
    TupleLeqTotal(Fields(a), Fields(b));
    if Fields(a) == Fields(b) {
      assert Fields(a)[0] == a.instanceId && Fields(a)[1] == a.groupId
          && Fields(a)[2] == a.role && Fields(a)[3] == a.profileId;
      assert Fields(b)[0] == b.instanceId && Fields(b)[1] == b.groupId
          && Fields(b)[2] == b.role && Fields(b)[3] == b.profileId;
    }
  }

  predicate IsLeast(k: RouteKey, s: set<RouteKey>) {
    k in s && forall other <- s :: KeyLeq(k, other)
  }

  lemma LeastExists(s: set<RouteKey>)
    requires s != {}
    ensures exists k :: IsLeast(k, s)
  {
    var k :| k in s;
    var rest := s - {k};
    KeyLeqTotal(k, k);
    if rest == {} {
      assert s == {k};
      assert IsLeast(k, s);
    } else {
      LeastExists(rest);
      var least :| IsLeast(least, rest);
      KeyLeqTotal(k, least);
      var winner := if KeyLeq(k, least) then k else least;
      forall other | other in s
        ensures KeyLeq(winner, other)
      {
        if other != k && winner == k {
          assert other in rest && KeyLeq(least, other);
          TupleLeqTransitive(Fields(k), Fields(least), Fields(other));
        }
      }
      assert IsLeast(winner, s);
    }
  }

  lemma LeastUnique(s: set<RouteKey>, a: RouteKey, b: RouteKey)
    requires IsLeast(a, s) && IsLeast(b, s)
    ensures a == b
  {
    KeyLeqTotal(a, b);
  }

  function Least(s: set<RouteKey>): (k: RouteKey)
    requires s != {}
    ensures IsLeast(k, s)
  {
    LeastExists(s);
    assert forall a, b :: IsLeast(a, s) && IsLeast(b, s) ==> a == b by {
      forall a, b | IsLeast(a, s) && IsLeast(b, s) ensures a == b { LeastUnique(s, a, b); }
    }
    var k :| IsLeast(k, s);
    k
  }

  lemma FirstIsSorted(s: set<RouteKey>, k: RouteKey, rest: seq<RouteKey>)
    requires k in s && |rest| == |s - {k}| && (forall l :: l in rest <==> l in s - {k}) && forall l <- s :: KeyLeq(k, l)
    requires forall i, j :: 0 <= i < j < |rest| ==> rest[i] != rest[j] && KeyLeq(rest[i], rest[j])
    ensures var r := [k] + rest;
            && |r| == |s| && (forall l :: l in r <==> l in s)
            && forall i, j :: 0 <= i < j < |r| ==> r[i] != r[j] && KeyLeq(r[i], r[j])
  {
    hide KeyLeq;
    forall i, j | 0 <= i < j < |[k] + rest|
      ensures ([k] + rest)[i] != ([k] + rest)[j] && KeyLeq(([k] + rest)[i], ([k] + rest)[j])
    {
      assert rest[j - 1] in rest;
    }
  }

  /** `sorted(keys)`: strictly ascending, with exactly the members of `s`. */
  function SortedKeys(s: set<RouteKey>): (r: seq<RouteKey>)
    ensures |r| == |s|
    ensures forall k :: k in r <==> k in s
    ensures forall i, j :: 0 <= i < j < |r| ==> r[i] != r[j] && KeyLeq(r[i], r[j])
  {
    if s == {} then [] else
      var k := Least(s);
      var rest := SortedKeys(s - {k});
      FirstIsSorted(s, k, rest);
      [k] + rest
  }
}
