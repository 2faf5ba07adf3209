/** Positions and counts in lists of parties. */
module Sequences {
  import opened Wrappers
  import opened SimTypes
  import opened Kernel

  function IndexOf(s: seq<PartyId>, x: PartyId): (i: nat)
    ensures x in s ==> i < |s| && s[i] == x
  {
    if s == [] || s[0] == x then 0 else 1 + IndexOf(s[1..], x)
  }

  lemma IndexOfAt(s: seq<PartyId>, i: nat)
    requires Distinct(s) && i < |s|
    ensures IndexOf(s, s[i]) == i
  {
    var j := IndexOf(s, s[i]);
  }

  /** The members of `s` other than `x`, in order. */
  function Without(s: seq<PartyId>, x: PartyId): (r: seq<PartyId>)
    ensures forall y :: y in r <==> y in s && y != x
    ensures |r| <= |s|
  {
    if s == [] then []
    else if s[0] == x then Without(s[1..], x)
    else [s[0]] + Without(s[1..], x)
  }

  lemma {:induction false} WithoutCount(s: seq<PartyId>, x: PartyId)
    requires Distinct(s)
    ensures Distinct(Without(s, x))
    ensures |Without(s, x)| == if x in s then |s| - 1 else |s|
  {
    if s != [] {
      WithoutCount(s[1..], x);
      assert s == [s[0]] + s[1..];
      assert s[0] !in s[1..];
    }
  }

  function Elements(s: seq): set { set x | x in s }

  lemma {:induction false} ElementsCount(s: seq)
    ensures |Elements(s)| <= |s|
    ensures Distinct(s) ==> |Elements(s)| == |s|
  {
    if s == [] {
      assert Elements(s) == {};
    } else {
      var rest := s[1..];
      ElementsCount(rest);
      assert s == [s[0]] + rest;
      assert Elements(s) == {s[0]} + Elements(rest);
      if Distinct(s) { assert s[0] !in rest; }
    }
  }

  lemma SubsetCount(a: set, b: set)
    requires a <= b
    ensures |a| <= |b|
    ensures |a| == |b| ==> a == b
  {
    assert b == a + (b - a);
    if |a| == |b| { assert b - a == {}; }
  }

  /** Distinct members of `b`, as many as `b` has, are all of them. */
  lemma DistinctCovers(a: seq, b: seq)
    requires Distinct(a) && |a| == |b| && forall x :: x in a ==> x in b
    ensures forall x :: x in b ==> x in a
  {
    ElementsCount(a);
    ElementsCount(b);
    assert Elements(a) <= Elements(b);
    SubsetCount(Elements(a), Elements(b));
    forall x | x in b ensures x in a {
      assert x in Elements(b);
    }
  }

  function Insert(x: PartyId, s: seq<PartyId>): (r: seq<PartyId>)
    ensures forall y :: y in r <==> y == x || y in s
  {
    if s == [] then [x]
    else if x <= s[0] then [x] + s
    else [s[0]] + Insert(x, s[1..])
  }

  lemma {:induction false} InsertAdds(x: PartyId, s: seq<PartyId>)
    ensures multiset(Insert(x, s)) == multiset(s) + multiset{x}
  {
    if s != [] && x > s[0] {
      InsertAdds(x, s[1..]);
      assert s == [s[0]] + s[1..];
    }
  }

  lemma {:induction false} InsertKeepsOrder(x: PartyId, s: seq<PartyId>)
    requires Ascending(s)
    ensures Ascending(Insert(x, s))
  {
    if s != [] && x > s[0] {
      InsertKeepsOrder(x, s[1..]);
      var rest := Insert(x, s[1..]);
      forall i | 0 <= i < |rest| ensures s[0] <= rest[i] {
        assert rest[i] in rest;
      }
    }
  }

  predicate Ascending(s: seq<PartyId>) {
    forall i, j :: 0 <= i < j < |s| ==> s[i] <= s[j]
  }

  /** The list in ascending order. */
  function Sort(s: seq<PartyId>): (r: seq<PartyId>)
    ensures multiset(r) == multiset(s) && |r| == |s| && Ascending(r)
  {
    if s == [] then []
    else
      assert s == [s[0]] + s[1..];
      InsertAdds(s[0], Sort(s[1..]));
      InsertKeepsOrder(s[0], Sort(s[1..]));
      var r := Insert(s[0], Sort(s[1..]));
      assert |multiset(r)| == |multiset(s)|;
      r
  }

  lemma LeastFirst(s: seq<PartyId>, t: seq<PartyId>)
    requires Ascending(s) && multiset(s) == multiset(t) && t != []
    ensures s != [] && s[0] <= t[0]
  {
    assert t[0] in multiset(t);
  }

  lemma Tail(s: seq<PartyId>)
    requires s != []
    ensures multiset(s[1..]) == multiset(s) - multiset{s[0]}
  {
    assert s == [s[0]] + s[1..];
  }

  lemma {:induction false} AscendingUnique(s: seq<PartyId>, t: seq<PartyId>)
    requires Ascending(s) && Ascending(t) && multiset(s) == multiset(t)
    ensures s == t
  {
    if s == [] {
      assert |multiset(t)| == 0;
    } else {
      LeastFirst(t, s);
      LeastFirst(s, t);
      Tail(s);
      Tail(t);
      AscendingUnique(s[1..], t[1..]);
      assert s == [s[0]] + s[1..] && t == [t[0]] + t[1..];
    }
  }

  /** However a party lists the others, sorting gives the same list as at everybody else. */
  lemma SortAgrees(s: seq<PartyId>, t: seq<PartyId>)
    requires multiset(s) == multiset(t)
    ensures Sort(s) == Sort(t)
  {
    AscendingUnique(Sort(s), Sort(t));
  }
}
