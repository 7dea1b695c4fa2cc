/**
 * Temperature features: the seasonal baseline (its degraded branch and its
 * shape; the least-squares fit itself is a parameter), z-score anomalies
 * against it, percentile ranks, the 7-day trend slope, the water-temperature
 * estimate and the composite 0-100 temperature risk.
 *
 * NaN values are `None`.
 */
module TemperatureFeatures {
  import opened Numerics
  import opened Stats

  // ---------------------------------------------------------------- seasonal baseline

  /** numpy.nanmean: the mean of the non-NaN values, NaN when there are none. */
  function NanMean(s: seq<Option<real>>): (r: Option<real>)
    ensures r.None? <==> |Present(s)| == 0
  {
    var v := Present(s);
    if |v| == 0 then None else Some(Mean(v))
  }

  /** The number of (day-of-year, temperature) pairs in which neither is NaN. */
  function CleanPairs(doy: seq<Option<real>>, temp: seq<Option<real>>): (r: nat)
    requires |doy| == |temp|
    ensures r <= |doy|
  {
    if |doy| == 0 then 0
    else
      var k := |doy| - 1;
      CleanPairs(doy[..k], temp[..k]) + (if doy[k].Some? && temp[k].Some? then 1 else 0)
  }

  /**
   * The harmonic baseline. Below 10 clean pairs, or when the least-squares
   * solve fails (`fit == None`), every position holds the NaN-ignoring mean
   * of the temperatures. Otherwise `fit` is the fitted harmonic curve, and it
   * is evaluated at every day of year; a NaN day gives a NaN prediction.
   */
  function SeasonalBaseline(doy: seq<Option<real>>, temp: seq<Option<real>>, fit: Option<real -> real>)
    : (r: seq<Option<real>>)
    requires |doy| == |temp|
    ensures |r| == |doy|
    ensures CleanPairs(doy, temp) < 10 || fit.None? ==> forall i :: 0 <= i < |r| ==> r[i] == NanMean(temp)
    ensures CleanPairs(doy, temp) >= 10 && fit.Some? ==>
              forall i :: 0 <= i < |r| ==> (r[i].Some? <==> doy[i].Some?)
    ensures CleanPairs(doy, temp) >= 10 && fit.Some? ==>
              forall i :: 0 <= i < |r| && doy[i].Some? ==> r[i] == Some(fit.value(doy[i].value))
  {
    if CleanPairs(doy, temp) < 10 || fit.None? then
      seq(|temp|, i => NanMean(temp))
    else
      seq(|doy|, i requires 0 <= i < |doy| =>
        match doy[i]
        case Some(d) => Some(fit.value(d))
        case None => None)
  }

  // ---------------------------------------------------------------- anomalies

  function Residuals(observed: seq<Option<real>>, baseline: seq<Option<real>>): (r: seq<Option<real>>)
    requires |observed| == |baseline|
    ensures |r| == |observed|
    ensures forall i :: 0 <= i < |r| ==>
              (r[i].Some? <==> observed[i].Some? && baseline[i].Some?)
  {
    seq(|observed|, i requires 0 <= i < |observed| =>
      if observed[i].Some? && baseline[i].Some? then Some(observed[i].value - baseline[i].value) else None)
  }

  /** numpy.nanstd (population) of the non-NaN values, NaN when there are none. */
  function NanStd(m: Ops, s: seq<Option<real>>): (r: Option<real>)
    ensures r.None? <==> |Present(s)| == 0
  {
    var v := Present(s);
    if |v| == 0 then None else Some(PopStd(m, v))
  }

  /**
   * z-score anomalies: residual / std elementwise (NaN stays NaN), and all
   * zeros, NaN positions included, when the std is 0 or NaN.
   */
  function ComputeAnomalies(m: Ops, observed: seq<Option<real>>, baseline: seq<Option<real>>)
    : (r: seq<Option<real>>)
    requires |observed| == |baseline|
    ensures |r| == |observed|
    ensures var sd := NanStd(m, Residuals(observed, baseline));
            sd.None? || sd.value == 0.0 ==> forall i :: 0 <= i < |r| ==> r[i] == Some(0.0)
    ensures var sd := NanStd(m, Residuals(observed, baseline));
            var res := Residuals(observed, baseline);
            sd.Some? && sd.value != 0.0 ==>
              forall i :: 0 <= i < |r| ==>
                (r[i].Some? <==> res[i].Some?) && (r[i].Some? ==> r[i].value == res[i].value / sd.value)
  {
    var res := Residuals(observed, baseline);
    var sd := NanStd(m, res);
    if sd.None? || sd.value == 0.0 then
      seq(|res|, i => Some(0.0))
    else
      seq(|res|, i requires 0 <= i < |res| =>
        match res[i]
        case Some(x) => Some(x / sd.value)
        case None => None)
  }

  /** When every residual is the same number the spread is zero, so every anomaly is 0. */
  lemma ConstantResidualsGiveZeros(m: Ops, observed: seq<real>, baseline: seq<real>, c: real)
    requires SqrtLaws(m) && |observed| == |baseline| > 0
    requires forall i :: 0 <= i < |observed| ==> observed[i] - baseline[i] == c
    ensures var o := seq(|observed|, i requires 0 <= i < |observed| => Some(observed[i]));
            var b := seq(|baseline|, i requires 0 <= i < |baseline| => Some(baseline[i]));
            forall i :: 0 <= i < |observed| ==> ComputeAnomalies(m, o, b)[i] == Some(0.0)
  {
    var o := seq(|observed|, i requires 0 <= i < |observed| => Some(observed[i]));
    var b := seq(|baseline|, i requires 0 <= i < |baseline| => Some(baseline[i]));
    var res := Residuals(o, b);
    var diffs := seq(|observed|, i requires 0 <= i < |observed| => observed[i] - baseline[i]);
    assert Present(res) == diffs by {
      assert res == seq(|diffs|, i requires 0 <= i < |diffs| => Some(diffs[i]));
      PresentAllSome(diffs);
    }
    assert NanStd(m, res) == Some(0.0) by {
      assert AllEqual(diffs, c);
      PopStdConstant(m, diffs, c);
    }
  }

  // ---------------------------------------------------------------- percentile ranks

  /** The percentile of entry i: 50 for NaN, otherwise 100 * |valid <= a[i]| / |valid|. */
  function PercentileAt(a: seq<Option<real>>, i: nat): real
    requires i < |a|
  {
    var valid := Present(a);
    match a[i]
    case None => 50.0
    case Some(v) => if |valid| == 0 then 50.0 else 100.0 * CountLe(valid, v) as real / |valid| as real
  }

  /** The source fills `ranks` position by position. */
  method PercentileRanking(a: seq<Option<real>>) returns (ranks: seq<real>)
    ensures |ranks| == |a|
    ensures forall i :: 0 <= i < |a| ==> ranks[i] == PercentileAt(a, i)
  {
    var valid := Present(a);
    var out := new real[|a|];
    if |valid| == 0 {
      forall i | 0 <= i < out.Length {
        out[i] := 50.0;
      }
      return out[..];
    }
    var i := 0;
    while i < |a|
      invariant 0 <= i <= |a|
      invariant forall j :: 0 <= j < i ==> out[j] == PercentileAt(a, j)
    {
      match a[i] {
        case None =>
          out[i] := 50.0;
        case Some(v) =>
          out[i] := 100.0 * CountLe(valid, v) as real / |valid| as real;
      }
      i := i + 1;
    }
    return out[..];
  }

  lemma RatioBounds(k: nat, n: nat)
    requires 1 <= k <= n
    ensures 0.0 < 100.0 * k as real / n as real <= 100.0
  {
    var q := k as real / n as real;
    assert q * n as real == k as real;
    assert 100.0 * k as real / n as real == 100.0 * q;
  }

  /** A valid entry's percentile lies in (0, 100]. */
  lemma PercentileInRange(a: seq<Option<real>>, i: nat)
    requires i < |a| && a[i].Some?
    ensures 0.0 < PercentileAt(a, i) <= 100.0
  {
    var valid := Present(a);
    assert a[i] in a;
    assert a[i].value in valid;
    CountLePositive(valid, a[i].value);
    RatioBounds(CountLe(valid, a[i].value), |valid|);
  }

  lemma RatioMonotone(k1: nat, k2: nat, n: nat)
    requires k1 <= k2 && n > 0
    ensures 100.0 * k1 as real / n as real <= 100.0 * k2 as real / n as real
  {
  }

  /** Percentiles are monotone in the value. */
  lemma PercentileMonotone(a: seq<Option<real>>, i: nat, j: nat)
    requires i < |a| && j < |a| && a[i].Some? && a[j].Some? && a[i].value <= a[j].value
    ensures PercentileAt(a, i) <= PercentileAt(a, j)
  {
    var valid := Present(a);
    assert a[i] in a;
    CountLeMonotone(valid, a[i].value, a[j].value);
    RatioMonotone(CountLe(valid, a[i].value), CountLe(valid, a[j].value), |valid|);
  }

  lemma RatioOne(n: nat)
    requires n > 0
    ensures 100.0 * n as real / n as real == 100.0
  {
  }

  /** The largest valid value ranks at exactly 100. */
  lemma PercentileOfMaximum(a: seq<Option<real>>, i: nat)
    requires i < |a| && a[i].Some?
    requires forall j :: 0 <= j < |a| && a[j].Some? ==> a[j].value <= a[i].value
    ensures PercentileAt(a, i) == 100.0
  {
    var valid := Present(a);
    var v := a[i].value;
    assert |valid| > 0 by {
      assert a[i] in a;
      assert v in valid;
    }
    assert forall k :: 0 <= k < |valid| ==> valid[k] <= v by {
      forall k | 0 <= k < |valid| ensures valid[k] <= v {
        assert valid[k] in valid;
        var j :| 0 <= j < |a| && a[j] == Some(valid[k]);
      }
    }
    CountLeAll(valid, v);
    RatioOne(|valid|);
  }

  // ---------------------------------------------------------------- 7-day trend

  /** The last 7 entries with NaNs dropped. */
  function RecentValid(temps: seq<Option<real>>): (r: seq<real>)
    ensures |r| <= 7
  {
    Present(LastN(temps, 7))
  }

  /** OLS slope over the last 7 non-NaN values; 0 below 3 values or with no index spread. */
  function TrendSlope7Day(temps: seq<Option<real>>): (r: real)
    ensures |RecentValid(temps)| < 3 ==> r == 0.0
  {
    var recent := RecentValid(temps);
    if |recent| < 3 then 0.0 else OlsSlope(recent)
  }

  /** Anything before the last 7 entries is ignored. */
  lemma TrendSlopeUsesLastSeven(older: seq<Option<real>>, last: seq<Option<real>>)
    requires |last| == 7
    ensures TrendSlope7Day(older + last) == TrendSlope7Day(last)
  {
    assert LastN(older + last, 7) == last;
  }

  /** On a linear window of at least 3 values the slope is exact. */
  lemma TrendSlopeLinear(temps: seq<real>, a: real, b: real)
    requires 3 <= |temps| <= 7 && Linear(temps, a, b)
    ensures TrendSlope7Day(seq(|temps|, i requires 0 <= i < |temps| => Some(temps[i]))) == b
  {
    var w := seq(|temps|, i requires 0 <= i < |temps| => Some(temps[i]));
    assert LastN(w, 7) == w;
    PresentAllSome(temps);
    OlsSlopeLinear(temps, a, b);
  }

  // ---------------------------------------------------------------- water temperature

  /** Livingstone and Lotter: 0.97 * air - 3.24, rounded to 0.1 and floored at 0. */
  function EstimateWaterTemp(m: Ops, airTemp: real): (r: real)
    ensures r >= 0.0
    ensures r == Max(0.0, m.round(0.97 * airTemp - 3.24, 1))
  {
    Max(0.0, m.round(0.97 * airTemp - 3.24, 1))
  }

  lemma EstimateWaterTempMonotone(m: Ops, a1: real, a2: real)
    requires RoundLaws(m) && a1 <= a2
    ensures EstimateWaterTemp(m, a1) <= EstimateWaterTemp(m, a2)
  {
    RoundMonotone(m, 0.97 * a1 - 3.24, 0.97 * a2 - 3.24, 1);
  }

  // ---------------------------------------------------------------- composite risk

  /**
   * |z| * 20 capped at 40. A NaN z-score gives 40: Python's min(40, nan)
   * keeps its first argument because nan < 40 is false.
   */
  function AnomalyPart(z: Option<real>): (r: real)
    ensures 0.0 <= r <= 40.0
    ensures z.None? ==> r == 40.0
    ensures z.Some? && Abs(z.value) >= 2.0 ==> r == 40.0
    ensures z.Some? && Abs(z.value) < 2.0 ==> r == Abs(z.value) * 20.0
  {
    match z
    case None => 40.0
    case Some(v) => Min(40.0, Abs(v) * 20.0)
  }

  /** slope * 20 floored at 0 and capped at 20. */
  function TrendPart(slope: real): (r: real)
    ensures 0.0 <= r <= 20.0
    ensures slope <= 0.0 ==> r == 0.0
    ensures slope >= 1.0 ==> r == 20.0
  {
    Min(20.0, Max(0.0, slope * 20.0))
  }

  /** A logistic in water temperature centred on 25 degrees, strictly between 0 and 40. */
  function WaterPart(m: Ops, waterTemp: real): (r: real)
    requires ExpLaws(m)
    ensures 0.0 < r < 40.0
  {
    var e := m.exp(-0.3 * (waterTemp - 25.0));
    assert e > 0.0;
    40.0 / (1.0 + e)
  }

  lemma WaterPartMonotone(m: Ops, t1: real, t2: real)
    requires ExpLaws(m) && t1 <= t2
    ensures WaterPart(m, t1) <= WaterPart(m, t2)
  {
    var e1, e2 := m.exp(-0.3 * (t1 - 25.0)), m.exp(-0.3 * (t2 - 25.0));
    ExpMonotone(m, -0.3 * (t2 - 25.0), -0.3 * (t1 - 25.0));
    assert e2 > 0.0;
    DivideAntitone(40.0, 1.0 + e2, 1.0 + e1);
  }

  lemma DivideAntitone(c: real, x: real, y: real)
    requires c >= 0.0 && 0.0 < x <= y
    ensures c / y <= c / x
  {
    var q1, q2 := c / y, c / x;
    assert q1 * y == c && q2 * x == c;
  }

  /**
   * The three parts clipped to [0, 100]; since they stay below 40 + 20 + 40
   * the clip never changes the sum.
   */
  function CompositeRiskScore(m: Ops, z: Option<real>, slope: real, waterTemp: real): (r: real)
    requires ExpLaws(m)
    ensures 0.0 <= r <= 100.0
    ensures r == AnomalyPart(z) + TrendPart(slope) + WaterPart(m, waterTemp)
  {
    Clip(AnomalyPart(z) + TrendPart(slope) + WaterPart(m, waterTemp), 0.0, 100.0)
  }

  /** The anomaly part sees only |z|. */
  lemma CompositeSymmetricInZ(m: Ops, z: real, slope: real, waterTemp: real)
    requires ExpLaws(m)
    ensures CompositeRiskScore(m, Some(z), slope, waterTemp) == CompositeRiskScore(m, Some(-z), slope, waterTemp)
  {
  }

  // ---------------------------------------------------------------- all features

  function RoundOpt(m: Ops, x: Option<real>, k: int): (r: Option<real>)
    ensures r.Some? <==> x.Some?
  {
    match x
    case Some(v) => Some(m.round(v, k))
    case None => None
  }

  function PercentileSeries(a: seq<Option<real>>): (r: seq<real>)
    ensures |r| == |a|
    ensures forall i :: 0 <= i < |a| ==> r[i] == PercentileAt(a, i)
  {
    seq(|a|, i requires 0 <= i < |a| => PercentileAt(a, i))
  }

  datatype TemperatureFeatureSet = TemperatureFeatureSet(
    seasonalBaseline: Option<real>,
    anomalyZscore: Option<real>,
    anomalyC: Option<real>,
    percentileRank: real,
    trendSlope7d: real,
    waterTemp: real,
    compositeRiskScore: real,
    baselineSeries: seq<Option<real>>,
    anomalySeries: seq<Option<real>>,
    percentileSeries: seq<real>)

  /**
   * All temperature features for the last day: the baseline, anomaly and
   * percentile at the last position (0, the air temperature and 50 for an
   * empty history), the 7-day slope, the water estimate and the composite.
   */
  function ExtractAllFeatures(m: Ops, dailyTemps: seq<Option<real>>, dailyDoy: seq<Option<real>>,
                              currentAirTemp: real, fit: Option<real -> real>)
    : (r: TemperatureFeatureSet)
    requires ExpLaws(m) && RoundLaws(m) && |dailyTemps| == |dailyDoy|
    ensures |r.baselineSeries| == |r.anomalySeries| == |r.percentileSeries| == |dailyTemps|
    ensures r.waterTemp >= 0.0
    ensures 0.0 <= r.compositeRiskScore <= 100.0
    ensures 0.0 <= r.percentileRank <= 100.0
    ensures |dailyTemps| == 0 ==>
              r.seasonalBaseline == Some(m.round(currentAirTemp, 1)) && r.anomalyZscore == Some(m.round(0.0, 2))
              && r.percentileRank == m.round(50.0, 1) && r.anomalyC == Some(m.round(0.0, 1))
    ensures r.baselineSeries == SeasonalBaseline(dailyDoy, dailyTemps, fit)
    ensures r.anomalySeries == ComputeAnomalies(m, dailyTemps, r.baselineSeries)
    ensures r.percentileSeries == PercentileSeries(r.anomalySeries)
    ensures |dailyTemps| > 0 ==>
              var last := |dailyTemps| - 1;
              && r.seasonalBaseline == RoundOpt(m, r.baselineSeries[last], 1)
              && r.anomalyZscore == RoundOpt(m, r.anomalySeries[last], 2)
              && r.percentileRank == m.round(r.percentileSeries[last], 1)
              && r.anomalyC == AnomalyC(m, currentAirTemp, r.baselineSeries[last])
    ensures r.trendSlope7d == m.round(TrendSlope7Day(dailyTemps), 3)
    ensures r.waterTemp == EstimateWaterTemp(m, currentAirTemp)
    ensures r.compositeRiskScore
            == m.round(CompositeRiskScore(m, if |dailyTemps| > 0 then r.anomalySeries[|dailyTemps| - 1] else Some(0.0),
                                          TrendSlope7Day(dailyTemps), r.waterTemp), 1)
  {
    var baseline := SeasonalBaseline(dailyDoy, dailyTemps, fit);
    var anomalies := ComputeAnomalies(m, dailyTemps, baseline);
    FeaturesAtLast(m, baseline, anomalies, PercentileSeries(anomalies), currentAirTemp,
                   TrendSlope7Day(dailyTemps), EstimateWaterTemp(m, currentAirTemp))
  }

  /** The air temperature's departure from the baseline in degrees, rounded; NaN for a NaN baseline. */
  function AnomalyC(m: Ops, airTemp: real, baseline: Option<real>): (r: Option<real>)
    ensures r.Some? <==> baseline.Some?
    ensures baseline.Some? ==> r.value == m.round(airTemp - baseline.value, 1)
  {
    match baseline
    case Some(b) => Some(m.round(airTemp - b, 1))
    case None => None
  }

  /**
   * The dictionary of extract_all_features built from its series: each
   * scalar is taken at the last position (the air temperature, z = 0 and the
   * 50th percentile for an empty history) and rounded.
   */
  function FeaturesAtLast(m: Ops, baseline: seq<Option<real>>, anomalies: seq<Option<real>>,
                          percentiles: seq<real>, currentAirTemp: real, slope: real, waterTemp: real)
    : (r: TemperatureFeatureSet)
    requires ExpLaws(m) && RoundLaws(m) && |baseline| == |anomalies|
    requires percentiles == PercentileSeries(anomalies)
    ensures 0.0 <= r.compositeRiskScore <= 100.0
    ensures 0.0 <= r.percentileRank <= 100.0
    ensures |anomalies| == 0 ==>
              r.seasonalBaseline == Some(m.round(currentAirTemp, 1)) && r.anomalyZscore == Some(m.round(0.0, 2))
              && r.percentileRank == m.round(50.0, 1) && r.anomalyC == Some(m.round(0.0, 1))
    ensures |anomalies| > 0 ==>
              var last := |anomalies| - 1;
              && r.seasonalBaseline == RoundOpt(m, baseline[last], 1)
              && r.anomalyZscore == RoundOpt(m, anomalies[last], 2)
              && r.percentileRank == m.round(percentiles[last], 1)
              && r.anomalyC == AnomalyC(m, currentAirTemp, baseline[last])
    ensures r.trendSlope7d == m.round(slope, 3) && r.waterTemp == waterTemp
    ensures r.compositeRiskScore
            == m.round(CompositeRiskScore(m, if |anomalies| > 0 then anomalies[|anomalies| - 1] else Some(0.0),
                                          slope, waterTemp), 1)
    ensures r.baselineSeries == baseline && r.anomalySeries == anomalies && r.percentileSeries == percentiles
  {
    var n := |anomalies|;
    var currentZ := if n > 0 then anomalies[n - 1] else Some(0.0);
    var currentBaseline := if n > 0 then baseline[n - 1] else Some(currentAirTemp);
    var p := CurrentPercentile(anomalies, percentiles);
    var risk := CompositeRiskScore(m, currentZ, slope, waterTemp);
    RoundInRange(m, p);
    RoundInRange(m, risk);
    TemperatureFeatureSet(
      RoundOpt(m, currentBaseline, 1),
      RoundOpt(m, currentZ, 2),
      AnomalyC(m, currentAirTemp, currentBaseline),
      m.round(p, 1),
      m.round(slope, 3),
      waterTemp,
      m.round(risk, 1),
      baseline,
      anomalies,
      percentiles)
  }

  /** The percentile at the last position, 50 for an empty series. */
  function CurrentPercentile(anomalies: seq<Option<real>>, percentiles: seq<real>): (r: real)
    requires percentiles == PercentileSeries(anomalies)
    ensures 0.0 <= r <= 100.0
  {
    var n := |percentiles|;
    if n > 0 then
      (if anomalies[n - 1].Some? then PercentileInRange(anomalies, n - 1); percentiles[n - 1]
       else percentiles[n - 1])
    else 50.0
  }

  lemma RoundInRange(m: Ops, x: real)
    requires RoundLaws(m) && 0.0 <= x <= 100.0
    ensures 0.0 <= m.round(x, 1) <= 100.0
  {
    RoundClipBounds(m, x, 0, 100, 1);
  }
}
