/** Scoring a predicted chain against the ground truth: the longest-common-subsequence table, the
    Jaccard overlap and the hallucination count. */
module EvalChain {
  import opened Ids

  // ----- the definition of a longest common subsequence -----

  /** `at` lists strictly increasing positions below `n` of `a` that spell `s`. */
  ghost predicate Embeds<T>(s: seq<T>, a: seq<T>, n: nat, at: seq<nat>) {
    && n <= |a| && |at| == |s|
    && (forall i :: 0 <= i < |at| ==> at[i] < n && a[at[i]] == s[i])
    && (forall i, j :: 0 <= i < j < |at| ==> at[i] < at[j])
  }

  ghost predicate IsSubsequence<T(!new)>(s: seq<T>, a: seq<T>, n: nat) {
    exists at :: Embeds(s, a, n, at)
  }

  ghost predicate IsCommon<T(!new)>(s: seq<T>, a: seq<T>, m: nat, b: seq<T>, n: nat) {
    IsSubsequence(s, a, m) && IsSubsequence(s, b, n)
  }

  /** `len` is the length of a longest common subsequence of the first m of `a` and first n of `b`. */
  ghost predicate IsLongest<T(!new)>(len: nat, a: seq<T>, m: nat, b: seq<T>, n: nat) {
    && (exists s :: IsCommon(s, a, m, b, n) && |s| == len)
    && (forall s :: IsCommon(s, a, m, b, n) ==> |s| <= len)
  }

  // ----- the recurrence behind the table -----

  function Lcs<T(==)>(a: seq<T>, m: nat, b: seq<T>, n: nat): nat
    requires m <= |a| && n <= |b|
  {
    if m == 0 || n == 0 then 0
    else if a[m - 1] == b[n - 1] then Lcs(a, m - 1, b, n - 1) + 1
    else Max(Lcs(a, m - 1, b, n), Lcs(a, m, b, n - 1))
  }

  function Max(x: nat, y: nat): nat {
    if x < y then y else x
  }

  lemma DropLast<T>(s: seq<T>, a: seq<T>, n: nat, at: seq<nat>)
    requires Embeds(s, a, n, at) && s != []
    ensures at[|s| - 1] < n
    ensures Embeds(s[..|s| - 1], a, at[|s| - 1], at[..|s| - 1])
  {
  }

  lemma Widen<T(!new)>(s: seq<T>, a: seq<T>, n: nat, k: nat)
    requires IsSubsequence(s, a, n) && n <= k <= |a|
    ensures IsSubsequence(s, a, k)
  {
    var at :| Embeds(s, a, n, at);
    assert Embeds(s, a, k, at);
  }

  lemma Snoc<T(!new)>(s: seq<T>, a: seq<T>, n: nat)
    requires n < |a| && IsSubsequence(s, a, n)
    ensures IsSubsequence(s + [a[n]], a, n + 1)
  {
    var at :| Embeds(s, a, n, at);
    assert Embeds(s + [a[n]], a, n + 1, at + [n]);
  }

  /** Either the last element is matched by the last position, or the last position is not needed. */
  lemma LastOrNot<T(!new)>(s: seq<T>, a: seq<T>, n: nat)
    requires 0 < n && IsSubsequence(s, a, n) && s != []
    ensures IsSubsequence(s[..|s| - 1], a, n - 1)
    ensures s[|s| - 1] != a[n - 1] ==> IsSubsequence(s, a, n - 1)
  {
    var at :| Embeds(s, a, n, at);
    DropLast(s, a, n, at);
    Widen(s[..|s| - 1], a, at[|s| - 1], n - 1);
    if s[|s| - 1] != a[n - 1] {
      assert Embeds(s, a, n - 1, at);
    }
  }

  lemma {:induction false} NoLonger<T(!new)>(s: seq<T>, a: seq<T>, m: nat, b: seq<T>, n: nat)
    requires IsCommon(s, a, m, b, n)
    ensures |s| <= Lcs(a, m, b, n)
    decreases m + n
  {
    if s != [] {
      var ata :| Embeds(s, a, m, ata);
      var atb :| Embeds(s, b, n, atb);
      assert ata[0] < m && atb[0] < n;
      LastOrNot(s, a, m);
      LastOrNot(s, b, n);
      if a[m - 1] == b[n - 1] {
        NoLonger(s[..|s| - 1], a, m - 1, b, n - 1);
      } else if s[|s| - 1] != a[m - 1] {
        NoLonger(s, a, m - 1, b, n);
      } else {
        NoLonger(s, a, m, b, n - 1);
      }
    }
  }

  lemma {:induction false} Witness<T(!new)>(a: seq<T>, m: nat, b: seq<T>, n: nat) returns (s: seq<T>)
    requires m <= |a| && n <= |b|
    ensures IsCommon(s, a, m, b, n) && |s| == Lcs(a, m, b, n)
    decreases m + n
  {
    if m == 0 || n == 0 {
      s := [];
      assert Embeds(s, a, m, []) && Embeds(s, b, n, []);
    } else if a[m - 1] == b[n - 1] {
      s := Witness(a, m - 1, b, n - 1);
      Snoc(s, a, m - 1);
      Snoc(s, b, n - 1);
      s := s + [a[m - 1]];
    } else if Lcs(a, m - 1, b, n) < Lcs(a, m, b, n - 1) {
      s := Witness(a, m, b, n - 1);
      Widen(s, b, n - 1, n);
    } else {
      s := Witness(a, m - 1, b, n);
      Widen(s, a, m - 1, m);
    }
  }

  lemma LcsIsLongest<T(!new)>(a: seq<T>, m: nat, b: seq<T>, n: nat)
    requires m <= |a| && n <= |b|
    ensures IsLongest(Lcs(a, m, b, n), a, m, b, n)
  {
    var s := Witness(a, m, b, n);
    forall t | IsCommon(t, a, m, b, n) ensures |t| <= Lcs(a, m, b, n) {
      NoLonger(t, a, m, b, n);
    }
  }

  // ----- the scores -----

  /** The longest common subsequence over the longer length; two empty chains agree perfectly. */
  function LcsRatio<T(==)>(truth: seq<T>, predicted: seq<T>): real {
    var longer := Max(|truth|, |predicted|);
    if longer == 0 then 1.0 else Lcs(truth, |truth|, predicted, |predicted|) as real / longer as real
  }

  /** Row `i` of the table holds the recurrence for the first `i` truth techniques. */
  ghost predicate RowDone<T>(dp: array2<nat>, truth: seq<T>, predicted: seq<T>, i: nat)
    requires i <= |truth| && dp.Length0 == |truth| + 1 && dp.Length1 == |predicted| + 1
    reads dp
  {
    forall j {:trigger dp[i, j]} :: 0 <= j <= |predicted| ==> dp[i, j] == Lcs(truth, i, predicted, j)
  }

  method FillRow<T(==)>(dp: array2<nat>, truth: seq<T>, predicted: seq<T>, i: nat)
    requires 0 < i <= |truth| && dp.Length0 == |truth| + 1 && dp.Length1 == |predicted| + 1
    requires RowDone(dp, truth, predicted, i - 1) && dp[i, 0] == 0
    modifies dp
    ensures RowDone(dp, truth, predicted, i)
    ensures forall h, j {:trigger dp[h, j]} :: 0 <= h <= |truth| && 0 <= j <= |predicted| && h != i ==>
              dp[h, j] == old(dp[h, j])
  {
    for j := 1 to |predicted| + 1
      invariant forall k {:trigger dp[i, k]} :: 0 <= k < j ==> dp[i, k] == Lcs(truth, i, predicted, k)
      invariant forall h, k {:trigger dp[h, k]} :: 0 <= h <= |truth| && 0 <= k <= |predicted| && h != i ==>
                  dp[h, k] == old(dp[h, k])
    {
      if truth[i - 1] == predicted[j - 1] {
        dp[i, j] := dp[i - 1, j - 1] + 1;
      } else {
        dp[i, j] := Max(dp[i - 1, j], dp[i, j - 1]);
      }
    }
  }

  /** The dynamic program over the (m+1) x (n+1) table. */
  method FillTable<T(==)>(truth: seq<T>, predicted: seq<T>) returns (len: nat)
    ensures len == Lcs(truth, |truth|, predicted, |predicted|)
  {
    var m, n := |truth|, |predicted|;
    var dp := new nat[m + 1, n + 1]((_, _) => 0);
    for i := 1 to m + 1
      invariant RowDone(dp, truth, predicted, i - 1)
      invariant forall h {:trigger dp[h, 0]} :: i <= h <= m ==> dp[h, 0] == 0
    {
      FillRow(dp, truth, predicted, i);
    }
    len := dp[m, n];
  }

  method ComputeLcsRatio<T(==, !new)>(truth: seq<T>, predicted: seq<T>) returns (ratio: real)
    ensures ratio == LcsRatio(truth, predicted)
  {
    if truth == [] && predicted == [] {
      return 1.0;
    }
    if truth == [] || predicted == [] {
      return 0.0;
    }
    var len := FillTable(truth, predicted);
    ratio := len as real / Max(|truth|, |predicted|) as real;
  }

  lemma {:induction false} LcsSymmetric<T>(a: seq<T>, m: nat, b: seq<T>, n: nat)
    requires m <= |a| && n <= |b|
    ensures Lcs(a, m, b, n) == Lcs(b, n, a, m)
    decreases m + n
  {
    if m != 0 && n != 0 {
      if a[m - 1] == b[n - 1] {
        LcsSymmetric(a, m - 1, b, n - 1);
      } else {
        LcsSymmetric(a, m - 1, b, n);
        LcsSymmetric(a, m, b, n - 1);
      }
    }
  }

  lemma {:induction false} LcsFits<T>(a: seq<T>, m: nat, b: seq<T>, n: nat)
    requires m <= |a| && n <= |b|
    ensures Lcs(a, m, b, n) <= m && Lcs(a, m, b, n) <= n
    ensures m == n ==> (Lcs(a, m, b, n) == m <==> a[..m] == b[..n])
    decreases m + n
  {
    if m != 0 && n != 0 {
      if a[m - 1] == b[n - 1] {
        LcsFits(a, m - 1, b, n - 1);
        assert a[..m] == a[..m - 1] + [a[m - 1]];
        assert b[..n] == b[..n - 1] + [b[n - 1]];
      } else {
        LcsFits(a, m - 1, b, n);
        LcsFits(a, m, b, n - 1);
        assert a[..m][m - 1] != b[..n][n - 1];
      }
    }
  }

  /** The ratio lies in [0, 1], is symmetric, and is 1 for equal chains only. */
  lemma RatioIsAScore<T>(truth: seq<T>, predicted: seq<T>)
    ensures 0.0 <= LcsRatio(truth, predicted) <= 1.0
    ensures LcsRatio(truth, predicted) == LcsRatio(predicted, truth)
    ensures LcsRatio(truth, predicted) == 1.0 <==> truth == predicted
  {
    var m, n := |truth|, |predicted|;
    LcsSymmetric(truth, m, predicted, n);
    LcsFits(truth, m, predicted, n);
    assert truth[..m] == truth && predicted[..n] == predicted;
    if Max(m, n) != 0 {
      Fraction(Lcs(truth, m, predicted, n), Max(m, n));
    }
  }

  /** What the ratio measures: the length of a longest common subsequence over the longer of the two lengths. */
  lemma RatioMeasures<T(!new)>(truth: seq<T>, predicted: seq<T>, longer: nat) returns (len: nat)
    requires |truth| <= longer && |predicted| <= longer && (longer == |truth| || longer == |predicted|) && 0 < longer
    ensures IsLongest(len, truth, |truth|, predicted, |predicted|)
    ensures LcsRatio(truth, predicted) == len as real / longer as real
  {
    len := Lcs(truth, |truth|, predicted, |predicted|);
    LcsIsLongest(truth, |truth|, predicted, |predicted|);
    assert Max(|truth|, |predicted|) == longer;
  }

  lemma Fraction(part: nat, whole: nat)
    requires part <= whole && 0 < whole
    ensures 0.0 <= part as real / whole as real <= 1.0
    ensures part as real / whole as real == 1.0 <==> part == whole
  {
    assert part as real / whole as real * whole as real == part as real;
  }

  function CountMissing<T(==)>(truth: seq<T>, predicted: seq<T>, n: nat): nat
    requires n <= |predicted|
  {
    if n == 0 then 0
    else CountMissing(truth, predicted, n - 1) + if predicted[n - 1] in truth then 0 else 1
  }

  method Hallucinations<T(==)>(truth: seq<T>, predicted: seq<T>) returns (count: nat)
    ensures count == CountMissing(truth, predicted, |predicted|)
  {
    count := 0;
    for i := 0 to |predicted|
      invariant count == CountMissing(truth, predicted, i)
    {
      if predicted[i] !in truth {
        count := count + 1;
      }
    }
  }

  /** The count is the number of positions that predict a technique the truth does not have. */
  lemma {:induction false} CountsMissing<T>(truth: seq<T>, predicted: seq<T>, n: nat)
    requires n <= |predicted|
    ensures CountMissing(truth, predicted, n) == |set i: nat | i < n && predicted[i] !in truth|
  {
    var missing := set i: nat | i < n && predicted[i] !in truth;
    if n == 0 {
      assert missing == {};
    } else {
      CountsMissing(truth, predicted, n - 1);
      var before := set i: nat | i < n - 1 && predicted[i] !in truth;
      assert missing == before + if predicted[n - 1] in truth then {} else {n - 1};
    }
  }

  /** The overlap times the number of techniques in either chain is the number in both. */
  lemma JaccardMeasures<T>(truth: seq<T>, predicted: seq<T>, either: set<T>, both: set<T>)
    requires forall x :: x in either <==> x in truth || x in predicted
    requires forall x :: x in both <==> x in truth && x in predicted
    ensures Jaccard(truth, predicted) * |either| as real == |both| as real
    ensures either == {} ==> Jaccard(truth, predicted) == 1.0
  {
    assert either == Elems(truth) + Elems(predicted) && both == Elems(truth) * Elems(predicted);
    if either != {} {
      assert |both| as real / |either| as real * |either| as real == |both| as real;
    } else {
      assert both == {};
    }
  }

  /** A hallucinated technique cannot be part of the common subsequence. */
  lemma {:induction false} MatchesAndHallucinations<T>(truth: seq<T>, m: nat, predicted: seq<T>, n: nat)
    requires m <= |truth| && n <= |predicted|
    ensures Lcs(truth, m, predicted, n) + CountMissing(truth, predicted, n) <= n
    decreases m + n
  {
    if n != 0 {
      MatchesAndHallucinations(truth, m, predicted, n - 1);
      if m != 0 {
        if truth[m - 1] == predicted[n - 1] {
          MatchesAndHallucinations(truth, m - 1, predicted, n - 1);
        } else {
          MatchesAndHallucinations(truth, m - 1, predicted, n);
        }
      }
    }
  }

  function Jaccard<T(==)>(truth: seq<T>, predicted: seq<T>): real {
    var t, p := Elems(truth), Elems(predicted);
    if t + p == {} then 1.0 else |t * p| as real / |t + p| as real
  }

  /** The overlap lies in [0, 1], and is 1 exactly when both chains use the same techniques; a ratio
      of 1 forces an overlap of 1. */
  lemma JaccardIsAScore<T>(truth: seq<T>, predicted: seq<T>)
    ensures 0.0 <= Jaccard(truth, predicted) <= 1.0
    ensures Jaccard(truth, predicted) == 1.0 <==> Elems(truth) == Elems(predicted)
    ensures LcsRatio(truth, predicted) == 1.0 ==> Jaccard(truth, predicted) == 1.0
  {
    var t, p := Elems(truth), Elems(predicted);
    RatioIsAScore(truth, predicted);
    SubsetSizes(t * p, t + p);
    if t + p != {} {
      Fraction(|t * p|, |t + p|);
      assert t * p == t + p <==> t == p by {
        if t * p == t + p {
          forall x ensures x in t <==> x in p { assert x in t + p <==> x in t * p; }
        }
      }
    }
  }
}
