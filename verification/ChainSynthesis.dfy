/** Confidence arithmetic of the deterministic chain synthesis. */
module ChainSynthesis {

  /** The nearest integer, ties to even. */
  function Nearest(y: real): int {
    var rest := y - y.Floor as real;
    if rest < 0.5 then y.Floor
    else if rest > 0.5 then y.Floor + 1
    else if y.Floor % 2 == 0 then y.Floor else y.Floor + 1
  }

  /** Rounding to two decimals. */
  function Round2(x: real): real {
    Nearest(x * 100.0) as real / 100.0
  }

  predicate Hundredth(x: real) {
    Round2(x) == x
  }

  lemma RoundIsHundredth(x: real)
    ensures Hundredth(Round2(x))
  {
    var k := Nearest(x * 100.0);
    assert Round2(x) * 100.0 == k as real;
    assert Nearest(k as real) == k;
  }

  /** Rounding moves a number by at most half a hundredth. */
  lemma RoundNear(x: real)
    ensures -0.005 <= Round2(x) - x <= 0.005
  {
    var y := x * 100.0;
    assert -0.5 <= Nearest(y) as real - y <= 0.5;
    assert Round2(x) * 100.0 == Nearest(y) as real;
  }

  /** A tie goes to the even hundredth. */
  lemma TieGoesEven(k: int)
    ensures Round2((k as real + 0.5) / 100.0) == (if k % 2 == 0 then k else k + 1) as real / 100.0
  {
    var y := (k as real + 0.5) / 100.0 * 100.0;
    assert y == k as real + 0.5;
    assert y.Floor == k;
  }

  lemma RoundMonotone(x: real, y: real)
    requires x <= y
    ensures Round2(x) <= Round2(y)
  {
    assert (x * 100.0).Floor <= (y * 100.0).Floor;
    assert Nearest(x * 100.0) <= Nearest(y * 100.0);
  }

  // ----- inputs -----

  /** One curated row; `idsMatch` says that its technique and tactic ids fit their patterns. */
  datatype Mapping = Mapping(technique: string, seqOrder: int, base: real, idsMatch: bool)

  /** Confidences of the Loop 2 indicators, by category. */
  type Indicators = map<string, seq<real>>

  /** Category weights of one technique, in the order the mapper returns them. */
  type Relevance = seq<(string, real)>

  const FALLBACK := [Mapping("T1190", 1, 0.4, true), Mapping("T1203", 2, 0.4, true)]

  /** The indicators of one technique with their weights. */
  function PerTtp(relevance: Relevance, indicators: Indicators): seq<(real, real)> {
    if relevance == [] then []
    else
      var (cat, weight) := relevance[|relevance| - 1];
      PerTtp(relevance[..|relevance| - 1], indicators) + Weighted(Items(indicators, cat), weight)
  }

  function Items(indicators: Indicators, cat: string): seq<real> {
    if cat in indicators then indicators[cat] else []
  }

  function Weighted(items: seq<real>, weight: real): seq<(real, real)> {
    seq(|items|, i requires 0 <= i < |items| => (items[i], weight))
  }

  function Density(pairs: seq<(real, real)>): real {
    if pairs == [] then 0.0
    else Density(pairs[..|pairs| - 1]) + pairs[|pairs| - 1].0 * pairs[|pairs| - 1].1
  }

  /** A fallback technique keeps its base confidence; a curated one is lifted by its indicators. */
  function Confidence(base: real, density: real, fallback: bool): real {
    if fallback then Round2(base)
    else Round2(if base + 0.2 * density > 1.0 then 1.0 else base + 0.2 * density)
  }

  function ConfidenceOf(t: Mapping, relevance: map<string, Relevance>, indicators: Indicators, fallback: bool): real {
    var r := if t.technique in relevance then relevance[t.technique] else [];
    Confidence(t.base, Density(PerTtp(r, indicators)), fallback)
  }

  function Confidences(ttps: seq<Mapping>, relevance: map<string, Relevance>, indicators: Indicators,
                       fallback: bool): seq<real> {
    seq(|ttps|, i requires 0 <= i < |ttps| => ConfidenceOf(ttps[i], relevance, indicators, fallback))
  }

  function Sum(xs: seq<real>): real {
    if xs == [] then 0.0 else Sum(xs[..|xs| - 1]) + xs[|xs| - 1]
  }

  function Overall(confidences: seq<real>): real {
    Round2(Sum(confidences) / (if confidences == [] then 1.0 else |confidences| as real))
  }

  /** The structural checks before the chain is persisted. */
  predicate ValidChain(ttps: seq<Mapping>, confidences: seq<real>, overall: real) {
    && ttps != []
    && 0.0 <= overall <= 1.0
    && (forall i :: 0 <= i < |ttps| ==> ttps[i].seqOrder == i + 1)
    && (forall i :: 0 <= i < |ttps| ==> ttps[i].idsMatch)
    && (forall i :: 0 <= i < |confidences| ==> 0.0 <= confidences[i] <= 1.0)
  }

  /** A confidence outside [0, 1] anywhere fails the checks. */
  lemma OutOfRangeFails(ttps: seq<Mapping>, confidences: seq<real>, overall: real, i: nat)
    requires i < |confidences| && !(0.0 <= confidences[i] <= 1.0)
    ensures !ValidChain(ttps, confidences, overall)
  {
    assert !(0.0 <= confidences[i] <= 1.0);
  }

  // ----- the loops -----

  method WeightedDensity(pairs: seq<(real, real)>) returns (score: real)
    ensures score == Density(pairs)
  {
    score := 0.0;
    for i := 0 to |pairs|
      invariant score == Density(pairs[..i])
    {
      assert pairs[..i + 1][..i] == pairs[..i];
      score := score + pairs[i].0 * pairs[i].1;
    }
    assert pairs[..|pairs|] == pairs;
  }

  method BuildTtps(ttps: seq<Mapping>, relevance: map<string, Relevance>, indicators: Indicators, fallback: bool)
    returns (confidences: seq<real>)
    ensures confidences == Confidences(ttps, relevance, indicators, fallback)
  {
    confidences := [];
    for i := 0 to |ttps|
      invariant confidences == Confidences(ttps, relevance, indicators, fallback)[..i]
    {
      var weights := if ttps[i].technique in relevance then relevance[ttps[i].technique] else [];
      var pairs := [];
      for j := 0 to |weights|
        invariant pairs == PerTtp(weights[..j], indicators)
      {
        assert weights[..j + 1][..j] == weights[..j];
        pairs := pairs + Weighted(Items(indicators, weights[j].0), weights[j].1);
      }
      assert weights[..|weights|] == weights;
      var density := WeightedDensity(pairs);
      confidences := confidences + [Confidence(ttps[i].base, density, fallback)];
    }
  }

  // ----- what the numbers guarantee -----

  ghost predicate Evidence(pairs: seq<(real, real)>) {
    forall i :: 0 <= i < |pairs| ==> 0.0 <= pairs[i].0 && 0.0 <= pairs[i].1
  }

  lemma {:induction false} DensitySplits(a: seq<(real, real)>, b: seq<(real, real)>)
    ensures Density(a + b) == Density(a) + Density(b)
  {
    if b == [] {
      assert a + b == a;
    } else {
      DensitySplits(a, b[..|b| - 1]);
      assert (a + b)[..|a + b| - 1] == a + b[..|b| - 1];
    }
  }

  lemma {:induction false} DensityNonNegative(pairs: seq<(real, real)>)
    requires Evidence(pairs)
    ensures 0.0 <= Density(pairs)
  {
    if pairs != [] {
      DensityNonNegative(pairs[..|pairs| - 1]);
      assert 0.0 <= pairs[|pairs| - 1].0 * pairs[|pairs| - 1].1;
    }
  }

  ghost predicate NonNegative(xs: seq<real>) {
    forall i :: 0 <= i < |xs| ==> 0.0 <= xs[i]
  }

  ghost predicate NonNegativeIndicators(indicators: Indicators) {
    forall c :: c in indicators ==> NonNegative(indicators[c])
  }

  ghost predicate NonNegativeWeights(relevance: Relevance) {
    forall i :: 0 <= i < |relevance| ==> 0.0 <= relevance[i].1
  }

  lemma {:induction false} PerTtpIsEvidence(relevance: Relevance, indicators: Indicators)
    requires NonNegativeWeights(relevance) && NonNegativeIndicators(indicators)
    ensures Evidence(PerTtp(relevance, indicators))
  {
    if relevance != [] {
      PerTtpIsEvidence(relevance[..|relevance| - 1], indicators);
    }
  }

  /** Indicators added to any one category, before or after the present ones. */
  function With(indicators: Indicators, cat: string, front: seq<real>, back: seq<real>): Indicators {
    indicators[cat := front + Items(indicators, cat) + back]
  }

  lemma MoreItemsMoreDensity(front: seq<real>, mid: seq<real>, back: seq<real>, w: real)
    requires 0.0 <= w && NonNegative(front) && NonNegative(back)
    ensures Density(Weighted(mid, w)) <= Density(Weighted(front + mid + back, w))
  {
    var a, b, c := Weighted(front, w), Weighted(mid, w), Weighted(back, w);
    assert Weighted(front + mid + back, w) == a + b + c;
    DensitySplits(a + b, c);
    DensitySplits(a, b);
    DensityNonNegative(a);
    DensityNonNegative(c);
  }

  lemma {:induction false} MoreIndicatorsMoreDensity(relevance: Relevance, indicators: Indicators, cat: string,
                                                     front: seq<real>, back: seq<real>)
    requires NonNegativeWeights(relevance) && NonNegative(front) && NonNegative(back)
    ensures Density(PerTtp(relevance, indicators)) <= Density(PerTtp(relevance, With(indicators, cat, front, back)))
  {
    if relevance != [] {
      var init := relevance[..|relevance| - 1];
      var (c, w) := relevance[|relevance| - 1];
      var more := With(indicators, cat, front, back);
      MoreIndicatorsMoreDensity(init, indicators, cat, front, back);
      DensitySplits(PerTtp(init, indicators), Weighted(Items(indicators, c), w));
      DensitySplits(PerTtp(init, more), Weighted(Items(more, c), w));
      if c == cat {
        MoreItemsMoreDensity(front, Items(indicators, c), back, w);
      } else {
        assert Items(more, c) == Items(indicators, c);
      }
    }
  }

  /** Extra indicators never lower the confidence of a curated technique, and leave a fallback one alone. */
  lemma MoreIndicatorsNeverLower(t: Mapping, relevance: map<string, Relevance>, indicators: Indicators, cat: string,
                                 front: seq<real>, back: seq<real>, fallback: bool)
    requires forall c :: c in relevance ==> NonNegativeWeights(relevance[c])
    requires NonNegative(front) && NonNegative(back)
    ensures var more := With(indicators, cat, front, back);
            && ConfidenceOf(t, relevance, indicators, fallback) <= ConfidenceOf(t, relevance, more, fallback)
            && (fallback ==>
                  ConfidenceOf(t, relevance, indicators, fallback) == ConfidenceOf(t, relevance, more, fallback))
  {
    var r := if t.technique in relevance then relevance[t.technique] else [];
    MoreIndicatorsMoreDensity(r, indicators, cat, front, back);
    var d1, d2 := Density(PerTtp(r, indicators)), Density(PerTtp(r, With(indicators, cat, front, back)));
    var x := if t.base + 0.2 * d1 > 1.0 then 1.0 else t.base + 0.2 * d1;
    var y := if t.base + 0.2 * d2 > 1.0 then 1.0 else t.base + 0.2 * d2;
    RoundMonotone(x, y);
  }

  lemma ConfidenceInRange(t: Mapping, relevance: map<string, Relevance>, indicators: Indicators, fallback: bool)
    requires 0.0 <= t.base <= 1.0 && NonNegativeIndicators(indicators)
    requires forall c :: c in relevance ==> NonNegativeWeights(relevance[c])
    ensures var c := ConfidenceOf(t, relevance, indicators, fallback);
            Hundredth(c) && Round2(t.base) <= c <= 1.0 && 0.0 <= c
  {
    var r := if t.technique in relevance then relevance[t.technique] else [];
    PerTtpIsEvidence(r, indicators);
    DensityNonNegative(PerTtp(r, indicators));
    var density := Density(PerTtp(r, indicators));
    var x := if fallback then t.base else if t.base + 0.2 * density > 1.0 then 1.0 else t.base + 0.2 * density;
    RoundMonotone(0.0, t.base);
    RoundMonotone(t.base, x);
    RoundMonotone(x, 1.0);
    RoundIsHundredth(x);
    assert Round2(0.0) == 0.0 && Round2(1.0) == 1.0;
  }

  lemma {:induction false} SumBetween(xs: seq<real>, lo: real, hi: real)
    requires forall i :: 0 <= i < |xs| ==> lo <= xs[i] <= hi
    ensures lo * |xs| as real <= Sum(xs) <= hi * |xs| as real
  {
    if xs != [] {
      SumBetween(xs[..|xs| - 1], lo, hi);
      var n := (|xs| - 1) as real;
      assert |xs| as real == n + 1.0;
      assert lo * (n + 1.0) == lo * n + lo && hi * (n + 1.0) == hi * n + hi;
    }
  }

  lemma {:induction false} SumSplits(a: seq<real>, b: seq<real>)
    ensures Sum(a + b) == Sum(a) + Sum(b)
    ensures forall x :: Sum([x]) == x
  {
    forall x ensures Sum([x]) == x { assert [x][..0] == []; }
    if b == [] {
      assert a + b == a;
    } else {
      SumSplits(a, b[..|b| - 1]);
      assert (a + b)[..|a + b| - 1] == a + b[..|b| - 1];
    }
  }

  /** The overall confidence is the mean, to half a hundredth, and a hundredth itself. */
  lemma OverallIsMean(xs: seq<real>)
    requires xs != []
    ensures -0.005 <= Overall(xs) - Sum(xs) / |xs| as real <= 0.005 && Hundredth(Overall(xs))
  {
    RoundNear(Sum(xs) / |xs| as real);
    RoundIsHundredth(Sum(xs) / |xs| as real);
  }

  /** A curated confidence is base plus a fifth of the weighted indicators, capped at 1, to half a hundredth; a
      fallback one is its base. */
  lemma ConfidenceIs(t: Mapping, relevance: map<string, Relevance>, indicators: Indicators, fallback: bool)
    ensures var r := if t.technique in relevance then relevance[t.technique] else [];
            var lifted := t.base + Density(PerTtp(r, indicators)) / 5.0;
            var exact := if fallback then t.base else if lifted <= 1.0 then lifted else 1.0;
            -0.005 <= ConfidenceOf(t, relevance, indicators, fallback) - exact <= 0.005
  {
    var r := if t.technique in relevance then relevance[t.technique] else [];
    var density := Density(PerTtp(r, indicators));
    assert 0.2 * density == density / 5.0;
    RoundNear(if fallback then t.base else if t.base + 0.2 * density > 1.0 then 1.0 else t.base + 0.2 * density);
  }

  lemma {:induction false} WeightedSum(items: seq<real>, weight: real)
    ensures Density(Weighted(items, weight)) == weight * Sum(items)
  {
    if items != [] {
      var init := items[..|items| - 1];
      WeightedSum(init, weight);
      assert Weighted(items, weight)[..|items| - 1] == Weighted(init, weight);
      assert weight * (Sum(init) + items[|items| - 1]) == weight * Sum(init) + items[|items| - 1] * weight;
    }
  }

  lemma PerTtpMore(relevance: Relevance, cat: string, weight: real, indicators: Indicators)
    ensures PerTtp(relevance + [(cat, weight)], indicators) ==
            PerTtp(relevance, indicators) + Weighted(Items(indicators, cat), weight)
  {
    assert (relevance + [(cat, weight)])[..|relevance|] == relevance;
  }

  /** Each indicator of each listed category adds its score times the category's weight, whatever the order. */
  lemma DensityAdds(relevance: Relevance, cat: string, weight: real, indicators: Indicators, items: seq<real>)
    requires items == if cat in indicators then indicators[cat] else []
    ensures Density(PerTtp(relevance + [(cat, weight)], indicators)) ==
            Density(PerTtp(relevance, indicators)) + weight * Sum(items)
  {
    assert Items(indicators, cat) == items;
    PerTtpMore(relevance, cat, weight, indicators);
    DensitySplits(PerTtp(relevance, indicators), Weighted(items, weight));
    WeightedSum(items, weight);
  }

  /** The overall confidence lies between the least and the greatest technique confidence. */
  lemma OverallBetween(xs: seq<real>, lo: real, hi: real)
    requires xs != [] && Hundredth(lo) && Hundredth(hi)
    requires forall i :: 0 <= i < |xs| ==> lo <= xs[i] <= hi
    ensures lo <= Overall(xs) <= hi
  {
    SumBetween(xs, lo, hi);
    var n := |xs| as real;
    var mean := Sum(xs) / n;
    assert mean * n == Sum(xs);
    assert lo <= mean <= hi by {
      Cancel(lo, mean, n);
      Cancel(mean, hi, n);
    }
    RoundMonotone(lo, mean);
    RoundMonotone(mean, hi);
  }

  lemma ConfidenceIsHundredth(t: Mapping, relevance: map<string, Relevance>, indicators: Indicators, fallback: bool)
    ensures Hundredth(ConfidenceOf(t, relevance, indicators, fallback))
  {
    forall x: real ensures Hundredth(Round2(x)) { RoundIsHundredth(x); }
  }

  /** The same for the chain the synthesis builds, with no assumption on its inputs. */
  lemma OverallWithinChain(ttps: seq<Mapping>, relevance: map<string, Relevance>, indicators: Indicators,
                           fallback: bool, least: nat, greatest: nat)
    requires least < |ttps| && greatest < |ttps|
    requires var cs := Confidences(ttps, relevance, indicators, fallback);
             forall i :: 0 <= i < |cs| ==> cs[least] <= cs[i] <= cs[greatest]
    ensures var cs := Confidences(ttps, relevance, indicators, fallback);
            cs[least] <= Overall(cs) <= cs[greatest]
  {
    var cs := Confidences(ttps, relevance, indicators, fallback);
    ConfidenceIsHundredth(ttps[least], relevance, indicators, fallback);
    ConfidenceIsHundredth(ttps[greatest], relevance, indicators, fallback);
    OverallBetween(cs, cs[least], cs[greatest]);
  }

  lemma Cancel(a: real, b: real, n: real)
    requires n > 0.0 && a * n <= b * n
    ensures a <= b
  {
    assert (b - a) * n >= 0.0;
  }

  /** An unmapped class always gives the two generic techniques at 0.4, however strong the indicators. */
  lemma FallbackIsPinned(relevance: map<string, Relevance>, indicators: Indicators)
    ensures var cs := Confidences(FALLBACK, relevance, indicators, true);
            && (forall i :: 0 <= i < |cs| ==> cs[i] == 0.4)
            && Overall(cs) == 0.4
            && ValidChain(FALLBACK, cs, Overall(cs))
  {
    var cs := Confidences(FALLBACK, relevance, indicators, true);
    assert Round2(0.4) == 0.4;
    OverallBetween(cs, 0.4, 0.4);
  }

  /** The confidence of a curated technique before rounding, capped at 1. */
  function Raw(t: Mapping, relevance: map<string, Relevance>, indicators: Indicators): real {
    var r := if t.technique in relevance then relevance[t.technique] else [];
    t.base + 0.2 * Density(PerTtp(r, indicators))
  }

  /** Rounding gives a negative confidence exactly below minus half a hundredth, a tie going to 0. */
  lemma RoundsNegativeIff(x: real)
    ensures Round2(x) < 0.0 <==> x < -0.005
  {
    var y := x * 100.0;
    assert Round2(x) < 0.0 <==> Nearest(y) < 0;
    if y < -0.5 {
      assert Nearest(y) < 0;
    } else if y < 0.0 {
      assert y.Floor == -1;
    }
  }

  /** With no assumption on the tables a curated confidence is at most 1, and negative exactly when the base and the
      weighted indicators sum to less than minus half a hundredth. */
  lemma CuratedRange(t: Mapping, relevance: map<string, Relevance>, indicators: Indicators)
    ensures ConfidenceOf(t, relevance, indicators, false) <= 1.0
    ensures ConfidenceOf(t, relevance, indicators, false) < 0.0 <==> Raw(t, relevance, indicators) < -0.005
  {
    var raw := Raw(t, relevance, indicators);
    var x := if raw > 1.0 then 1.0 else raw;
    RoundMonotone(x, 1.0);
    assert Round2(1.0) == 1.0;
    RoundsNegativeIff(x);
  }

  /** What the checks demand of one curated row. */
  predicate RowPasses(ttps: seq<Mapping>, i: nat, relevance: map<string, Relevance>, indicators: Indicators)
    requires i < |ttps|
  {
    ttps[i].seqOrder == i + 1 && ttps[i].idsMatch && Raw(ttps[i], relevance, indicators) >= -0.005
  }

  lemma FailingRow(ttps: seq<Mapping>, i: nat, relevance: map<string, Relevance>, indicators: Indicators)
    requires i < |ttps| && !RowPasses(ttps, i, relevance, indicators)
    ensures var cs := Confidences(ttps, relevance, indicators, false); !ValidChain(ttps, cs, Overall(cs))
  {
    var cs := Confidences(ttps, relevance, indicators, false);
    CuratedRange(ttps[i], relevance, indicators);
    assert cs[i] == ConfidenceOf(ttps[i], relevance, indicators, false);
  }

  /** Whatever the tables hold, a curated chain passes the checks exactly when every row carries its own number, has
      well-formed ids and does not sum, with its indicators, to a negative confidence. */
  lemma CuratedValidIff(ttps: seq<Mapping>, relevance: map<string, Relevance>, indicators: Indicators)
    requires ttps != []
    ensures var cs := Confidences(ttps, relevance, indicators, false);
            ValidChain(ttps, cs, Overall(cs)) <==>
            forall i :: 0 <= i < |ttps| ==> RowPasses(ttps, i, relevance, indicators)
  {
    var cs := Confidences(ttps, relevance, indicators, false);
    forall i | 0 <= i < |ttps|
      ensures cs[i] <= 1.0 && (cs[i] < 0.0 <==> Raw(ttps[i], relevance, indicators) < -0.005)
    {
      CuratedRange(ttps[i], relevance, indicators);
    }
    if forall i :: 0 <= i < |ttps| ==> RowPasses(ttps, i, relevance, indicators) {
      forall i | 0 <= i < |ttps| ensures 0.0 <= cs[i] && ttps[i].seqOrder == i + 1 && ttps[i].idsMatch {
        assert RowPasses(ttps, i, relevance, indicators);
      }
      OverallBetween(cs, 0.0, 1.0);
      assert ValidChain(ttps, cs, Overall(cs));
    } else {
      var i :| 0 <= i < |ttps| && !RowPasses(ttps, i, relevance, indicators);
      FailingRow(ttps, i, relevance, indicators);
    }
  }

  /** On in-range tables, base confidences and weights as the seed has them, the sum is never negative. */
  lemma InRangeRowPasses(ttps: seq<Mapping>, i: nat, relevance: map<string, Relevance>, indicators: Indicators)
    requires i < |ttps| && 0.0 <= ttps[i].base && NonNegativeIndicators(indicators)
    requires forall c :: c in relevance ==> NonNegativeWeights(relevance[c])
    ensures RowPasses(ttps, i, relevance, indicators) <==> ttps[i].seqOrder == i + 1 && ttps[i].idsMatch
  {
    var r := if ttps[i].technique in relevance then relevance[ttps[i].technique] else [];
    PerTtpIsEvidence(r, indicators);
    DensityNonNegative(PerTtp(r, indicators));
  }
}
