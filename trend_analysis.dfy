/**
 * Trend statistics over a risk-score series: an OLS trend with a
 * logistic pseudo p-value and a dual-threshold classification, the
 * Mann-Kendall test (S statistic, tie-corrected variance, z-score, normal
 * p-value) and the Theil-Sen slope estimator.
 */
module TrendAnalysis {
  import opened Numerics
  import opened Stats

  // ---------------------------------------------------------------- OLS trend

  datatype Trend = Worsening | Improving | Stable

  datatype TrendResult = TrendResult(trend: Trend, directionEmoji: string, slopePerDay: real, pValue: real)

  /** The result for a series too short to fit. */
  function Neutral(): (r: TrendResult)
    ensures r.trend == Stable && r.slopePerDay == 0.0 && r.pValue == 1.0
  {
    TrendResult(Stable, "\U{27A1}\U{FE0F}", 0.0, 1.0)
  }

  /** The pseudo two-tailed p-value 2 / (1 + e^|t|), which lies in (0, 1] and is 1 exactly at t = 0. */
  function PseudoPValue(m: Ops, t: real): (r: real)
    requires ExpLaws(m)
    ensures 0.0 < r <= 1.0
    ensures t == 0.0 ==> r == 1.0
  {
    ExpMonotone(m, 0.0, Abs(t));
    2.0 / (1.0 + m.exp(Abs(t)))
  }

  /** The intercept of the least-squares line through (day index, score). */
  function OlsIntercept(y: seq<real>): real
    requires |y| > 0
  {
    Mean(y) - OlsSlope(y) * IndexMean(|y|)
  }

  /** The residual sum of squares of the least-squares line. */
  function FitResidual(y: seq<real>): real
    requires |y| > 0
  {
    SsRes(y, |y|, OlsSlope(y), OlsIntercept(y))
  }

  /** The standard error of the slope; the source's fallback 1e9 for a zero index spread is kept. */
  function SlopeStdError(m: Ops, y: seq<real>): (r: real)
    requires SqrtLaws(m) && |y| >= 3
  {
    StdErrorOf(m, FitResidual(y), |y|, SsXX(|y|, IndexMean(|y|)))
  }

  /** sqrt(SS_res / max(n - 2, 1)) / sqrt(Sxx), or 1e9 when the days do not spread. */
  function StdErrorOf(m: Ops, ssRes: real, n: nat, sxx: real): real
    requires SqrtLaws(m)
  {
    if sxx > 0.0 then m.sqrt(ssRes / (if n - 2 > 1 then n - 2 else 1) as real) / m.sqrt(sxx) else 1000000000.0
  }

  function TStatistic(m: Ops, y: seq<real>): real
    requires SqrtLaws(m) && |y| >= 3
  {
    var se := SlopeStdError(m, y);
    if se > 0.0 then OlsSlope(y) / se else 0.0
  }

  /**
   * compute_trend: neutral below three scores (the zero-spread guard cannot
   * fire from three scores on); otherwise WORSENING exactly when the slope
   * exceeds 0.3 and p < 0.1, IMPROVING exactly when the slope is below -0.3
   * and p < 0.1, and STABLE in every other case.
   */
  function ComputeTrend(m: Ops, scores: seq<real>): (r: TrendResult)
    requires ExpLaws(m) && SqrtLaws(m)
    ensures |scores| < 3 ==> r == Neutral()
    ensures |scores| >= 3 ==>
              var slope := OlsSlope(scores);
              var p := PseudoPValue(m, TStatistic(m, scores));
              && (r.trend == Worsening <==> slope > 0.3 && p < 0.1)
              && (r.trend == Improving <==> slope < -0.3 && p < 0.1)
              && r.slopePerDay == m.round(slope, 3)
              && r.pValue == m.round(p, 4)
  {
    if |scores| < 3 then Neutral()
    else
      var n := |scores|;
      IndexSpreadPositive(n);
      var slope := OlsSlope(scores);
      var p := PseudoPValue(m, TStatistic(m, scores));
      var s := m.round(slope, 3);
      var q := m.round(p, 4);
      if slope > 0.3 && p < 0.1 then TrendResult(Worsening, "\U{1F4C8}", s, q)
      else if slope < -0.3 && p < 0.1 then TrendResult(Improving, "\U{1F4C9}", s, q)
      else TrendResult(Stable, "\U{27A1}\U{FE0F}", s, q)
  }

  /**
   * A perfectly linear series has no residuals, so its standard error is 0,
   * its t-statistic 0 and its p-value 1: it is classified STABLE whatever
   * its slope.
   */
  lemma LinearSeriesIsStable(m: Ops, y: seq<real>, a: real, b: real)
    requires ExpLaws(m) && SqrtLaws(m) && |y| >= 3 && Linear(y, a, b)
    ensures TStatistic(m, y) == 0.0
    ensures ComputeTrend(m, y).trend == Stable
  {
    LinearStdErrorZero(m, y, a, b);
  }

  lemma LinearIntercept(y: seq<real>, a: real, b: real)
    requires |y| >= 2 && Linear(y, a, b)
    ensures OlsSlope(y) == b
    ensures Mean(y) - OlsSlope(y) * IndexMean(|y|) == a
  {
    OlsSlopeLinear(y, a, b);
    MeanLinear(y, a, b);
  }

  lemma LinearStdErrorZero(m: Ops, y: seq<real>, a: real, b: real)
    requires SqrtLaws(m) && |y| >= 3 && Linear(y, a, b)
    ensures SlopeStdError(m, y) == 0.0
  {
    assert OlsSlope(y) == b && OlsIntercept(y) == a by { LinearIntercept(y, a, b); }
    assert FitResidual(y) == 0.0 by { SsResLinear(y, |y|, a, b); }
    ZeroResidualStdError(m, y);
  }

  /** With no residual left, the standard error is sqrt(0) / sqrt(Sxx) = 0. */
  lemma ZeroResidualStdError(m: Ops, y: seq<real>)
    requires SqrtLaws(m) && |y| >= 3 && FitResidual(y) == 0.0
    ensures SlopeStdError(m, y) == 0.0
  {
    assert SsXX(|y|, IndexMean(|y|)) > 0.0 by { IndexSpreadPositive(|y|); }
    NoResidualNoError(m, |y|, SsXX(|y|, IndexMean(|y|)));
  }

  /** With no residual and a positive spread of days, the standard error is 0. */
  lemma NoResidualNoError(m: Ops, n: nat, sxx: real)
    requires SqrtLaws(m) && sxx > 0.0
    ensures StdErrorOf(m, 0.0, n, sxx) == 0.0
  {
    var k := (if n - 2 > 1 then n - 2 else 1) as real;
    assert 0.0 / k == 0.0;
    assert m.sqrt(sxx) > 0.0;
  }

  // ---------------------------------------------------------------- Mann-Kendall S

  function Sign(d: real): (r: int)
    ensures r == 1 <==> d > 0.0
    ensures r == -1 <==> d < 0.0
    ensures r == 0 <==> d == 0.0
  {
    if d > 0.0 then 1 else if d < 0.0 then -1 else 0
  }

  /** Sum of sign(x[k] - x[i]) over i < k < j: the pairs of row i seen so far. */
  function RowS(x: seq<real>, i: nat, j: nat): int
    requires i < j <= |x|
  {
    if j == i + 1 then 0 else RowS(x, i, j - 1) + Sign(x[j - 1] - x[i])
  }

  /** Sum of the complete rows i' < i. */
  function PartS(x: seq<real>, i: nat): int
    requires i <= |x|
  {
    if i == 0 then 0 else PartS(x, i - 1) + RowS(x, i - 1, |x|)
  }

  /** S: the sum of sign(x[j] - x[i]) over all pairs i < j. */
  function SStatistic(x: seq<real>): int {
    PartS(x, |x|)
  }

  /** The number of pairs in the rows before i: (n - 1) + (n - 2) + ... */
  function PairsBefore(n: nat, i: nat): nat
    requires i <= n
  {
    if i == 0 then 0 else PairsBefore(n, i - 1) + (n - i)
  }

  lemma {:induction false} PairsBeforeClosed(n: nat, i: nat)
    requires i <= n
    ensures 2 * PairsBefore(n, i) == 2 * i * n - i * (i + 1)
  {
    if i > 0 {
      PairsBeforeClosed(n, i - 1);
    }
  }

  /** n(n - 1)/2 pairs in all. */
  lemma AllPairs(n: nat)
    ensures 2 * PairsBefore(n, n) == n * (n - 1)
  {
    PairsBeforeClosed(n, n);
  }

  lemma {:induction false} RowSBounds(x: seq<real>, i: nat, j: nat)
    requires i < j <= |x|
    ensures -(j - i - 1) <= RowS(x, i, j) <= j - i - 1
  {
    if j > i + 1 {
      RowSBounds(x, i, j - 1);
    }
  }

  lemma {:induction false} PartSBounds(x: seq<real>, i: nat)
    requires i <= |x|
    ensures -(PairsBefore(|x|, i) as int) <= PartS(x, i) <= PairsBefore(|x|, i)
  {
    if i > 0 {
      PartSBounds(x, i - 1);
      RowSBounds(x, i - 1, |x|);
    }
  }

  /** |S| is at most the number of pairs, n(n - 1)/2. */
  lemma SStatisticBounds(x: seq<real>)
    ensures 2 * SStatistic(x) <= |x| * (|x| - 1)
    ensures -(|x| * (|x| - 1)) <= 2 * SStatistic(x)
  {
    PartSBounds(x, |x|);
    AllPairs(|x|);
  }

  ghost predicate StrictlyIncreasing(x: seq<real>) {
    forall i, j :: 0 <= i < j < |x| ==> x[i] < x[j]
  }

  lemma {:induction false} RowSIncreasing(x: seq<real>, i: nat, j: nat)
    requires i < j <= |x| && StrictlyIncreasing(x)
    ensures RowS(x, i, j) == j - i - 1
  {
    if j > i + 1 {
      RowSIncreasing(x, i, j - 1);
    }
  }

  lemma {:induction false} PartSIncreasing(x: seq<real>, i: nat)
    requires i <= |x| && StrictlyIncreasing(x)
    ensures PartS(x, i) == PairsBefore(|x|, i)
  {
    if i > 0 {
      PartSIncreasing(x, i - 1);
      RowSIncreasing(x, i - 1, |x|);
    }
  }

  /** Strictly increasing data reaches the maximum S = n(n - 1)/2. */
  lemma SStatisticIncreasing(x: seq<real>)
    requires StrictlyIncreasing(x)
    ensures 2 * SStatistic(x) == |x| * (|x| - 1)
  {
    PartSIncreasing(x, |x|);
    AllPairs(|x|);
  }

  /** The source's double loop over combinations(range(n), 2), in its order. */
  method ComputeS(x: seq<real>) returns (s: int)
    ensures s == SStatistic(x)
  {
    s := 0;
    var i := 0;
    while i < |x|
      invariant 0 <= i <= |x|
      invariant s == PartS(x, i)
    {
      var j := i + 1;
      while j < |x|
        invariant i + 1 <= j <= |x|
        invariant s == PartS(x, i) + RowS(x, i, j)
      {
        var diff := x[j] - x[i];
        if diff > 0.0 {
          s := s + 1;
        } else if diff < 0.0 {
          s := s - 1;
        }
        j := j + 1;
      }
      i := i + 1;
    }
  }

  /** A constant series has S = 0: no pair differs. */
  lemma {:induction false} RowSConstant(x: seq<real>, c: real, i: nat, j: nat)
    requires i < j <= |x| && AllEqual(x, c)
    ensures RowS(x, i, j) == 0
  {
    if j > i + 1 {
      RowSConstant(x, c, i, j - 1);
    }
  }

  lemma {:induction false} PartSConstant(x: seq<real>, c: real, i: nat)
    requires i <= |x| && AllEqual(x, c)
    ensures PartS(x, i) == 0
  {
    if i > 0 {
      PartSConstant(x, c, i - 1);
      RowSConstant(x, c, i - 1, |x|);
    }
  }

  // ---------------------------------------------------------------- ties and variance

  function SumCounts(c: seq<nat>): nat {
    if |c| == 0 then 0 else SumCounts(c[..|c| - 1]) + c[|c| - 1]
  }

  /** The sizes of the runs of equal neighbours; on a sorted sequence, the counts numpy.unique returns. */
  function RunLengths(t: seq<real>): (r: seq<nat>)
    ensures |t| > 0 <==> |r| > 0
    ensures SumCounts(r) == |t|
  {
    if |t| == 0 then []
    else
      var rest := RunLengths(t[..|t| - 1]);
      if |t| >= 2 && t[|t| - 1] == t[|t| - 2] then
        var k := |rest| - 1;
        assert rest == rest[..k] + [rest[k]];
        assert (rest[..k] + [rest[k] + 1])[..k] == rest[..k];
        rest[..k] + [rest[k] + 1]
      else
        assert (rest + [1])[..|rest|] == rest;
        rest + [1]
  }

  /** The tie-group sizes: run lengths of the sorted data. */
  function TieCounts(x: seq<real>): (r: seq<nat>)
    ensures SumCounts(r) == |x|
  {
    RunLengths(Sort(x))
  }

  lemma {:induction false} RunLengthsConstant(t: seq<real>, c: real)
    requires |t| > 0 && AllEqual(t, c)
    ensures RunLengths(t) == [|t|]
  {
    if |t| >= 2 {
      RunLengthsConstant(t[..|t| - 1], c);
    }
  }

  /** t(t - 1)(2t + 5), the variance contribution of a group of t equal values. */
  function TieTerm(t: int): int {
    t * (t - 1) * (2 * t + 5)
  }

  /** The tie correction: the sum of TieTerm over the groups larger than 1. */
  function TieSum(c: seq<nat>): int {
    if |c| == 0 then 0
    else TieSum(c[..|c| - 1]) + (if c[|c| - 1] > 1 then TieTerm(c[|c| - 1]) else 0)
  }

  /** The source's loop over the group counts. */
  method TieCorrection(counts: seq<nat>) returns (tie: real)
    ensures tie == TieSum(counts) as real
  {
    tie := 0.0;
    for i := 0 to |counts|
      invariant tie == TieSum(counts[..i]) as real
    {
      assert counts[..i + 1][..i] == counts[..i];
      var t := counts[i];
      if t > 1 {
        tie := tie + (t * (t - 1) * (2 * t + 5)) as real;
      }
    }
    assert counts[..|counts|] == counts;
  }

  lemma TieTermPolynomial(t: int)
    ensures TieTerm(t) == 2 * (t * t * t) + 3 * (t * t) - 5 * t
  {
  }

  lemma CubeOfSum(a: int, b: int)
    ensures (a + b) * (a + b) * (a + b) == a * a * a + 3 * (a * a * b) + 3 * (a * b * b) + b * b * b
  {
  }

  lemma SquareOfSum(a: int, b: int)
    ensures (a + b) * (a + b) == a * a + 2 * (a * b) + b * b
  {
  }

  lemma TieTermExpand(a: int, b: int)
    ensures TieTerm(a + b) == TieTerm(a) + TieTerm(b) + 6 * (a * b * (a + b + 1))
  {
    TieTermPolynomial(a);
    TieTermPolynomial(b);
    TieTermPolynomial(a + b);
    CubeOfSum(a, b);
    SquareOfSum(a, b);
    ProductExpand(a, b);
    CollectTerms(TieTerm(a + b), TieTerm(a), TieTerm(b), (a + b) * (a + b) * (a + b), (a + b) * (a + b),
                 a * a * a, b * b * b, a * a, b * b, a * a * b, a * b * b, a * b, a * b * (a + b + 1), a, b);
  }

  lemma ProductExpand(a: int, b: int)
    ensures a * b * (a + b + 1) == a * a * b + a * b * b + a * b
  {
  }

  /** The linear step of the expansion, with every monomial named. */
  lemma CollectTerms(tab: int, ta: int, tb: int, s3: int, s2: int, a3: int, b3: int, a2: int, b2: int,
                     aab: int, abb: int, ab: int, p: int, a: int, b: int)
    requires tab == 2 * s3 + 3 * s2 - 5 * (a + b)
    requires ta == 2 * a3 + 3 * a2 - 5 * a && tb == 2 * b3 + 3 * b2 - 5 * b
    requires s3 == a3 + 3 * aab + 3 * abb + b3 && s2 == a2 + 2 * ab + b2
    requires p == aab + abb + ab
    ensures tab == ta + tb + 6 * p
  {
  }

  lemma ProductNonNegative(a: nat, b: nat, c: nat)
    ensures a * b * c >= 0
  {
  }

  /** Splitting a group never increases the correction: TieTerm is superadditive on the naturals. */
  lemma TieTermSuperadditive(a: nat, b: nat)
    ensures TieTerm(a) + TieTerm(b) <= TieTerm(a + b)
  {
    TieTermExpand(a, b);
    ProductNonNegative(a, b, a + b + 1);
  }

  lemma TieTermNonNegative(t: nat)
    ensures TieTerm(t) >= 0
  {
    ProductNonNegative(t * (t - 1) + 0, 1, 2 * t + 5);
    if t > 0 {
      ProductNonNegative(t, t - 1, 2 * t + 5);
    }
  }

  /** The correction never exceeds n(n - 1)(2n + 5) for group sizes summing to n. */
  lemma {:induction false} TieSumAtMostTotal(c: seq<nat>)
    ensures 0 <= TieSum(c) <= TieTerm(SumCounts(c))
  {
    if |c| > 0 {
      var k := |c| - 1;
      TieSumAtMostTotal(c[..k]);
      TieTermSuperadditive(SumCounts(c[..k]), c[k]);
      TieTermNonNegative(c[k]);
      TieTermNonNegative(SumCounts(c[..k]));
    }
  }

  /** var_S = (n(n - 1)(2n + 5) - tie correction) / 18. */
  function VarianceS(n: nat, tie: real): real {
    ((n * (n - 1) * (2 * n + 5)) as real - tie) / 18.0
  }

  /** The tie-corrected variance is never negative, so its square root is always defined. */
  lemma VarianceNonNegative(x: seq<real>)
    ensures VarianceS(|x|, TieSum(TieCounts(x)) as real) >= 0.0
  {
    TieSumAtMostTotal(TieCounts(x));
  }

  /** With the continuity correction: (S - 1)/sqrt(var) above 0, (S + 1)/sqrt(var) below, 0 on a zero variance or S = 0. */
  function ZScore(m: Ops, s: int, varS: real): (r: real)
    requires SqrtLaws(m) && varS >= 0.0
    ensures r > 0.0 ==> s > 1
    ensures r < 0.0 ==> s < -1
    ensures varS > 0.0 && s > 1 ==> r > 0.0
    ensures varS > 0.0 && s < -1 ==> r < 0.0
    ensures -1 <= s <= 1 || varS == 0.0 ==> r == 0.0
  {
    if varS == 0.0 then 0.0
    else if s > 0 then (s - 1) as real / m.sqrt(varS)
    else if s < 0 then (s + 1) as real / m.sqrt(varS)
    else 0.0
  }

  /** Two-tailed normal p-value 2 (1 - Phi(|z|)); it is 1 at z = 0. */
  function NormalPValue(m: Ops, z: real): (r: real)
    requires CdfLaws(m)
    ensures 0.0 <= r <= 2.0
    ensures z == 0.0 ==> r == 1.0
  {
    2.0 * (1.0 - m.normCdf(Abs(z)))
  }

  datatype MkTrend = Increasing | Decreasing | NoTrend

  datatype MannKendallResult = MannKendallResult(
    s: int, varS: real, zScore: real, pValue: real, trend: MkTrend, significant: bool)

  const Alpha: real := 0.05

  /** The Mann-Kendall test as the source computes it; p and significance use the unrounded p-value. */
  function MannKendallOf(m: Ops, x: seq<real>): (r: MannKendallResult)
    requires SqrtLaws(m) && CdfLaws(m)
    ensures |x| < 3 ==> r == MannKendallResult(0, 0.0, 0.0, 1.0, NoTrend, false)
    ensures |x| >= 3 ==> r.s == SStatistic(x)
  {
    if |x| < 3 then MannKendallResult(0, 0.0, 0.0, 1.0, NoTrend, false)
    else
      var s := SStatistic(x);
      var v := VarianceS(|x|, TieSum(TieCounts(x)) as real);
      VarianceNonNegative(x);
      var z := ZScore(m, s, v);
      var p := NormalPValue(m, z);
      var trend := if p <= Alpha then (if s > 0 then Increasing else Decreasing) else NoTrend;
      MannKendallResult(s, m.round(v, 4), m.round(z, 4), m.round(p, 6), trend, p <= Alpha)
  }

  /**
   * The trend is "increasing" exactly when the test is significant and
   * S > 0, and "decreasing" exactly when it is significant and S < 0:
   * S = 0 gives z = 0 and p = 1, so the source's else-branch never labels
   * S = 0 as decreasing.
   */
  lemma MannKendallTrendMatchesSign(m: Ops, x: seq<real>)
    requires SqrtLaws(m) && CdfLaws(m)
    ensures var r := MannKendallOf(m, x);
            && (r.trend == Increasing <==> r.significant && r.s > 0)
            && (r.trend == Decreasing <==> r.significant && r.s < 0)
            && (r.trend == NoTrend <==> !r.significant)
  {
  }

  /** A constant series has S = 0, var_S = 0 (one tie group of size n) and z = 0. */
  lemma MannKendallConstant(m: Ops, x: seq<real>, c: real)
    requires SqrtLaws(m) && CdfLaws(m) && |x| >= 3 && AllEqual(x, c)
    ensures SStatistic(x) == 0
    ensures VarianceS(|x|, TieSum(TieCounts(x)) as real) == 0.0
    ensures ZScore(m, 0, 0.0) == 0.0
    ensures !MannKendallOf(m, x).significant && MannKendallOf(m, x).trend == NoTrend
  {
    var n := |x|;
    assert SStatistic(x) == 0 by { PartSConstant(x, c, n); }
    assert TieCounts(x) == [n] by {
      SortConstant(x, c);
      RunLengthsConstant(Sort(x), c);
    }
    assert TieSum([n]) == TieTerm(n) by { assert [n][..0] == []; }
    assert VarianceS(n, TieTerm(n) as real) == 0.0;
  }

  /** The source's test: the S loop, then the tie-correction loop over the group counts. */
  method MannKendallTest(m: Ops, x: seq<real>) returns (r: MannKendallResult)
    requires SqrtLaws(m) && CdfLaws(m)
    ensures r == MannKendallOf(m, x)
  {
    var n := |x|;
    if n < 3 {
      return MannKendallResult(0, 0.0, 0.0, 1.0, NoTrend, false);
    }
    var s := ComputeS(x);
    var tie := TieCorrection(TieCounts(x));
    var v := ((n * (n - 1) * (2 * n + 5)) as real - tie) / 18.0;
    VarianceNonNegative(x);
    var z := ZScore(m, s, v);
    var p := 2.0 * (1.0 - m.normCdf(Abs(z)));
    var trend := if p <= Alpha then (if s > 0 then Increasing else Decreasing) else NoTrend;
    r := MannKendallResult(s, m.round(v, 4), m.round(z, 4), m.round(p, 6), trend, p <= Alpha);
  }

  // ---------------------------------------------------------------- Theil-Sen

  /** The slopes (x[k] - x[i]) / (k - i) for i < k < j. */
  function RowSlopes(x: seq<real>, i: nat, j: nat): (r: seq<real>)
    requires i < j <= |x|
    ensures |r| == j - i - 1
  {
    if j == i + 1 then [] else RowSlopes(x, i, j - 1) + [(x[j - 1] - x[i]) / (j - 1 - i) as real]
  }

  /** The slopes of the complete rows i' < i, in the order of combinations(range(n), 2). */
  function PartSlopes(x: seq<real>, i: nat): (r: seq<real>)
    requires i <= |x|
    ensures |r| == PairsBefore(|x|, i)
  {
    if i == 0 then [] else PartSlopes(x, i - 1) + RowSlopes(x, i - 1, |x|)
  }

  /** The loop collecting all pairwise slopes; the zero-gap guard always passes since j > i. */
  method PairwiseSlopes(x: seq<real>) returns (slopes: seq<real>)
    ensures slopes == PartSlopes(x, |x|)
    ensures 2 * |slopes| == |x| * (|x| - 1)
  {
    slopes := [];
    for i := 0 to |x|
      invariant slopes == PartSlopes(x, i)
    {
      for j := i + 1 to |x|
        invariant slopes == PartSlopes(x, i) + RowSlopes(x, i, j)
      {
        var dt := j - i;
        if dt != 0 {
          slopes := slopes + [(x[j] - x[i]) / dt as real];
        }
      }
    }
    AllPairs(|x|);
  }

  lemma DifferenceOverGap(a: real, b: real, i: nat, j: nat)
    requires i < j
    ensures ((a + b * j as real) - (a + b * i as real)) / (j - i) as real == b
  {
    var d := (j - i) as real;
    assert (a + b * j as real) - (a + b * i as real) == b * d;
  }

  lemma {:induction false} RowSlopesLinear(x: seq<real>, a: real, b: real, i: nat, j: nat)
    requires i < j <= |x| && Linear(x, a, b)
    ensures AllEqual(RowSlopes(x, i, j), b)
  {
    if j > i + 1 {
      RowSlopesLinear(x, a, b, i, j - 1);
      DifferenceOverGap(a, b, i, j - 1);
    }
  }

  lemma {:induction false} PartSlopesLinear(x: seq<real>, a: real, b: real, i: nat)
    requires i <= |x| && Linear(x, a, b)
    ensures AllEqual(PartSlopes(x, i), b)
  {
    if i > 0 {
      PartSlopesLinear(x, a, b, i - 1);
      RowSlopesLinear(x, a, b, i - 1, |x|);
    }
  }

  datatype SenResult = SenResult(slope: real, intercept: real, nSlopes: nat)

  /** The residual intercepts x[i] - slope * i. */
  function Intercepts(x: seq<real>, slope: real): (r: seq<real>)
    ensures |r| == |x|
  {
    seq(|x|, i requires 0 <= i < |x| => x[i] - slope * i as real)
  }

  /** Theil-Sen as the source computes it: median pairwise slope and median intercept, rounded. */
  function SensSlopeOf(m: Ops, x: seq<real>): (r: SenResult)
    ensures |x| < 2 ==> r == SenResult(0.0, if |x| == 1 then x[0] else 0.0, 0)
    ensures |x| >= 2 ==> 2 * r.nSlopes == |x| * (|x| - 1)
  {
    if |x| < 2 then SenResult(0.0, if |x| == 1 then x[0] else 0.0, 0)
    else
      var slopes := PartSlopes(x, |x|);
      AllPairs(|x|);
      if |slopes| == 0 then SenResult(0.0, Median(x), 0)
      else
        var ms := Median(slopes);
        SenResult(m.round(ms, 6), m.round(Median(Intercepts(x, ms)), 4), |slopes|)
  }

  /** On a line a + b i every pairwise slope is b and every intercept a, so the estimate is (b, a) up to rounding. */
  lemma SensSlopeLinear(m: Ops, x: seq<real>, a: real, b: real)
    requires |x| >= 2 && Linear(x, a, b)
    ensures SensSlopeOf(m, x) == SenResult(m.round(b, 6), m.round(a, 4), PairsBefore(|x|, |x|))
  {
    AllPairs(|x|);
    PartSlopesLinear(x, a, b, |x|);
    MedianConstant(PartSlopes(x, |x|), b);
    assert AllEqual(Intercepts(x, b), a);
    MedianConstant(Intercepts(x, b), a);
  }

  method SensSlope(m: Ops, x: seq<real>) returns (r: SenResult)
    ensures r == SensSlopeOf(m, x)
  {
    var n := |x|;
    if n < 2 {
      return SenResult(0.0, if n == 1 then x[0] else 0.0, 0);
    }
    var slopes := PairwiseSlopes(x);
    if |slopes| == 0 {
      return SenResult(0.0, Median(x), 0);
    }
    var ms := Median(slopes);
    r := SenResult(m.round(ms, 6), m.round(Median(Intercepts(x, ms)), 4), |slopes|);
  }
}
