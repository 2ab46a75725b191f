/**
 The sort helpers of the cache. Every slice the source sorts holds items that differ in their identifier and is
 ordered by a time and then by that identifier (or by the identifier alone), so it is enough to sort ranks.
 */
module Sorting {
  import opened Model

  /** A sort key of two parts: a time, or an account, and an identifier. */
  datatype Rank = Rank(major: int, id: Id)

  predicate Less(a: Rank, b: Rank) {
    a.major < b.major || (a.major == b.major && a.id < b.id)
  }

  ghost predicate Increasing(s: seq<Rank>) {
    forall i, j :: 0 <= i < j < |s| ==> Less(s[i], s[j])
  }

  ghost predicate Enumerates(s: seq<Rank>, ranks: set<Rank>) {
    Increasing(s) && forall r :: r in s <==> r in ranks
  }

  /** Insertion of a new rank at its place. */
  function Insert(s: seq<Rank>, r: Rank): (t: seq<Rank>)
    ensures |t| == |s| + 1
    ensures forall x :: x in t <==> x in s || x == r
    ensures Increasing(s) && r !in s ==> Increasing(t)
  {
    if s == [] then [r]
    else if Less(r, s[0]) then
      assert forall j :: 0 < j < |s| + 1 ==> ([r] + s)[j] == s[j - 1];
      [r] + s
    else
      var rest := Insert(s[1..], r);
      var t := [s[0]] + rest;
      assert forall x :: x in t <==> x == s[0] || x in rest;
      assert forall x :: x in s[1..] ==> exists i :: 0 < i < |s| && s[i] == x;
      assert Increasing(s) ==> forall x :: x in s[1..] ==> Less(s[0], x);
      assert Increasing(s) && r !in s ==> forall j :: 0 <= j < |rest| ==> rest[j] in rest && Less(s[0], rest[j]);
      t
  }

  /** Collects a map's items in an arbitrary order and sorts them. */
  method Sort(ranks: set<Rank>) returns (s: seq<Rank>)
    ensures Enumerates(s, ranks)
    ensures |s| == |ranks|
  {
    s := [];
    var rest := ranks;
    while rest != {}
      invariant rest <= ranks
      invariant Enumerates(s, ranks - rest)
      invariant |s| + |rest| == |ranks|
      decreases rest
    {
      var r :| r in rest;
      s := Insert(s, r);
      rest := rest - {r};
    }
    assert ranks - rest == ranks;
  }

  ghost function Sorted(ranks: set<Rank>): (s: seq<Rank>)
    ensures Enumerates(s, ranks)
  {
    if ranks == {} then []
    else
      var r :| r in ranks;
      var s := Insert(Sorted(ranks - {r}), r);
      assert forall x :: x in s <==> x in ranks;
      s
  }
}
