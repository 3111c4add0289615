/** Sets of identifiers and the sorted columns that list them. */
module Ids {
  function Elems<T>(s: seq<T>): set<T> {
    set x | x in s
  }

  lemma ElemsConcat<T>(a: seq<T>, b: seq<T>)
    ensures Elems(a + b) == Elems(a) + Elems(b)
  {
  }

  lemma ElemsNonEmpty<T>(s: seq<T>)
    ensures s == [] <==> Elems(s) == {}
  {
    if s != [] { assert s[0] in Elems(s); }
  }

  /** A subset of the same size is the whole set. */
  lemma SubsetSizes<T>(small: set<T>, big: set<T>)
    requires small <= big
    ensures |small| <= |big|
    ensures |small| == |big| <==> small == big
  {
    var rest := big - small;
    assert big == small + rest && |big| == |small| + |rest|;
    if |rest| == 0 { assert rest == {}; }
  }

  predicate IsLeast(m: nat, s: set<nat>) {
    m in s && forall x :: x in s ==> m <= x
  }

  lemma {:induction false} LeastExists(s: set<nat>)
    requires s != {}
    ensures exists m :: IsLeast(m, s)
    decreases |s|
  {
    var y :| y in s;
    var rest := s - {y};
    assert s == rest + {y};
    if rest == {} {
      assert IsLeast(y, s);
    } else {
      LeastExists(rest);
      var m :| IsLeast(m, rest);
      assert IsLeast(if m < y then m else y, s);
    }
  }

  function SortedIds(s: set<nat>): seq<nat>
    decreases |s|
  {
    if s == {} then []
    else
      LeastExists(s);
      assert forall a, b :: IsLeast(a, s) && IsLeast(b, s) ==> a == b;
      var m :| IsLeast(m, s);
      [m] + SortedIds(s - {m})
  }

  predicate Increasing(ids: seq<nat>) {
    forall i, j :: 0 <= i < j < |ids| ==> ids[i] < ids[j]
  }

  lemma PrependIncreasing(m: nat, rest: seq<nat>)
    requires Increasing(rest) && forall x :: x in rest ==> m < x
    ensures Increasing([m] + rest)
  {
    var ids := [m] + rest;
    forall i, j | 0 <= i < j < |ids| ensures ids[i] < ids[j] {
      assert ids[j] == rest[j - 1] && rest[j - 1] in rest;
      if i > 0 { assert ids[i] == rest[i - 1]; }
    }
  }

  lemma Unfold(s: set<nat>) returns (m: nat)
    requires s != {}
    ensures IsLeast(m, s) && SortedIds(s) == [m] + SortedIds(s - {m})
  {
    LeastExists(s);
    m := SortedIds(s)[0];
  }

  lemma PrependLists(m: nat, rest: seq<nat>, s: set<nat>)
    requires IsLeast(m, s) && Increasing(rest) && forall x :: x in rest <==> x in s - {m}
    ensures Increasing([m] + rest) && forall x :: x in [m] + rest <==> x in s
  {
    PrependIncreasing(m, rest);
    forall x ensures x in [m] + rest <==> x in s {
      assert x in [m] + rest <==> x == m || x in rest;
    }
  }

  lemma {:induction false} SortedIdsLists(s: set<nat>)
    ensures (forall x :: x in SortedIds(s) <==> x in s) && |SortedIds(s)| == |s| && Increasing(SortedIds(s))
    decreases |s|
  {
    if s != {} {
      var m := Unfold(s);
      SortedIdsLists(s - {m});
      PrependLists(m, SortedIds(s - {m}), s);
    }
  }

  lemma SortedIdsElems(s: set<nat>)
    ensures Elems(SortedIds(s)) == s
  {
    SortedIdsLists(s);
  }

  /** The sorted listing of a set is unique. */
  lemma {:induction false} IncreasingUnique(a: seq<nat>, b: seq<nat>)
    requires Increasing(a) && Increasing(b) && Elems(a) == Elems(b)
    ensures a == b
    decreases |a|
  {
    if a == [] {
      ElemsNonEmpty(b);
    } else {
      assert a[0] in Elems(a);
      assert b != [] && b[0] in Elems(b);
      var i :| 0 <= i < |b| && b[i] == a[0];
      var j :| 0 <= j < |a| && a[j] == b[0];
      assert a[0] == b[0];
      TailElems(a);
      TailElems(b);
      IncreasingUnique(a[1..], b[1..]);
      assert a == [a[0]] + a[1..] && b == [b[0]] + b[1..];
    }
  }

  lemma TailElems(a: seq<nat>)
    requires a != [] && Increasing(a)
    ensures Elems(a[1..]) == Elems(a) - {a[0]}
  {
    assert a == [a[0]] + a[1..];
    assert forall i :: 0 <= i < |a[1..]| ==> a[1..][i] == a[i + 1];
  }
}
