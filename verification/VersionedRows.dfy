/** The versioned-row idiom shared by loop runs, attack chains and generated artifacts:
    each new row of a scope gets `max(version) + 1`.  A table is seen here through its tags,
    the (scope, version) pairs of its rows in insertion order. */
module VersionedRows {

  /** The version column restricted to one scope, in insertion order. */
  function Versions<K(==)>(tags: seq<(K, nat)>, scope: K): seq<nat> {
    if tags == [] then []
    else
      var last := tags[|tags| - 1];
      Versions(tags[..|tags| - 1], scope) + (if last.0 == scope then [last.1] else [])
  }

  function MaxOf(vs: seq<nat>): nat {
    if vs == [] then 0
    else
      var m := MaxOf(vs[..|vs| - 1]);
      if m < vs[|vs| - 1] then vs[|vs| - 1] else m
  }

  function Next<K(==)>(tags: seq<(K, nat)>, scope: K): nat {
    MaxOf(Versions(tags, scope)) + 1
  }

  /** The query behind the next version, as one scan of the table. */
  method NextVersion<K(==)>(tags: seq<(K, nat)>, scope: K) returns (v: nat)
    ensures v == Next(tags, scope)
    ensures forall i :: 0 <= i < |tags| && tags[i].0 == scope ==> tags[i].1 < v
    ensures v == 1 || (scope, v - 1) in tags
  {
    var best := 0;
    for i := 0 to |tags|
      invariant best == MaxOf(Versions(tags[..i], scope))
      invariant forall j :: 0 <= j < i && tags[j].0 == scope ==> tags[j].1 <= best
      invariant best == 0 || (scope, best) in tags
    {
      assert tags[..i + 1][..i] == tags[..i];
      ghost var vs := Versions(tags[..i + 1], scope);
      assert if tags[i].0 == scope then vs[..|vs| - 1] == Versions(tags[..i], scope)
             else vs == Versions(tags[..i], scope);
      if tags[i].0 == scope && best < tags[i].1 {
        best := tags[i].1;
      }
    }
    assert tags[..|tags|] == tags;
    v := best + 1;
  }

  /** Every scope's versions are exactly 1, 2, .., k, in insertion order. */
  ghost predicate Dense<K(!new)>(tags: seq<(K, nat)>) {
    forall k: K, j :: 0 <= j < |Versions(tags, k)| ==> Versions(tags, k)[j] == j + 1
  }

  lemma {:induction false} MaxOfCounting(vs: seq<nat>)
    requires forall j :: 0 <= j < |vs| ==> vs[j] == j + 1
    ensures MaxOf(vs) == |vs|
  {
    if vs != [] {
      MaxOfCounting(vs[..|vs| - 1]);
    }
  }

  /** Inserting the next version keeps every scope dense. */
  lemma AppendKeepsDense<K(!new)>(tags: seq<(K, nat)>, scope: K)
    requires Dense(tags)
    ensures Dense(tags + [(scope, Next(tags, scope))])
    ensures Next(tags, scope) == |Versions(tags, scope)| + 1
  {
    MaxOfCounting(Versions(tags, scope));
    var more := tags + [(scope, Next(tags, scope))];
    assert more[..|more| - 1] == tags;
  }

  lemma {:induction false} VersionAt<K>(tags: seq<(K, nat)>, i: nat)
    requires i < |tags|
    ensures var before := |Versions(tags[..i], tags[i].0)|;
            before < |Versions(tags, tags[i].0)| && Versions(tags, tags[i].0)[before] == tags[i].1
    decreases |tags|
  {
    var init := tags[..|tags| - 1];
    if i < |init| {
      VersionAt(init, i);
      assert init[..i] == tags[..i];
    }
  }

  lemma {:induction false} MoreRowsMoreVersions<K>(tags: seq<(K, nat)>, i: nat, j: nat)
    requires i < j <= |tags|
    ensures |Versions(tags[..i], tags[i].0)| < |Versions(tags[..j], tags[i].0)|
    decreases j
  {
    assert tags[..j][..j - 1] == tags[..j - 1];
    if i + 1 < j {
      MoreRowsMoreVersions(tags, i, j - 1);
    }
  }

  /** In a dense table the version orders the rows of a scope by insertion, so it identifies them. */
  lemma DenseOrders<K(!new)>(tags: seq<(K, nat)>, i: nat, j: nat)
    requires Dense(tags) && i < j < |tags| && tags[i].0 == tags[j].0
    ensures tags[i].1 < tags[j].1
  {
    VersionAt(tags, i);
    VersionAt(tags, j);
    MoreRowsMoreVersions(tags, i, j);
  }
}
