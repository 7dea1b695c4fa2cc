/**
 * The temperature model: turns the temperature anomaly (degrees) into a
 * rough z-score and trend slope, scores them with the composite temperature
 * risk, and adds a bonus for a small diurnal range.
 */
module TemperatureModel {
  import opened Numerics
  import opened TemperatureFeatures

  /** The feature dict; `None` is a missing key. */
  datatype TemperatureInput = TemperatureInput(
    waterTemp: Option<real>,
    tempAnomalyC: Option<real>,
    diurnalRange: Option<real>)

  datatype TemperatureSubScores = TemperatureSubScores(compositeRisk: real, diurnalBonus: real)

  datatype TemperatureReport = TemperatureReport(
    score: real,
    waterTemp: real,
    anomaly: real,
    diurnalRange: real,
    subScores: TemperatureSubScores)

  /** A typical anomaly spread of 3 degrees: z = anomaly / 3. */
  function AnomalyZ(anomaly: real): (r: real)
    ensures r == anomaly / 3.0
  {
    if Abs(anomaly) > 0.0 then anomaly / 3.0 else 0.0
  }

  /** anomaly / 7 for a warm anomaly, else 0; never negative. */
  function ProxyTrendSlope(anomaly: real): (r: real)
    ensures r >= 0.0
    ensures anomaly > 0.0 ==> r == anomaly / 7.0
    ensures anomaly <= 0.0 ==> r == 0.0
  {
    if anomaly > 0.0 then Max(0.0, anomaly / 7.0) else 0.0
  }

  /** (12 - diurnal) * 1.5 clipped to [0, 15]. */
  function DiurnalBonus(diurnal: real): (r: real)
    ensures 0.0 <= r <= 15.0
    ensures diurnal >= 12.0 ==> r == 0.0
    ensures diurnal <= 2.0 ==> r == 15.0
    ensures 2.0 <= diurnal <= 12.0 ==> r == (12.0 - diurnal) * 1.5
  {
    Clip((12.0 - diurnal) * 1.5, 0.0, 15.0)
  }

  /**
   * The score of resolved inputs: the composite temperature risk of
   * z = anomaly / 3 and the proxy slope, plus the diurnal bonus, clipped to
   * [0, 100] and rounded to one decimal.
   */
  function TemperatureScore(m: Ops, anomaly: real, waterTemp: real, diurnal: real): (r: real)
    requires ExpLaws(m) && RoundLaws(m)
    ensures 0.0 <= r <= 100.0
    ensures diurnal >= 12.0 && anomaly <= 0.0 ==>
              r == m.round(Clip(CompositeRiskScore(m, Some(anomaly / 3.0), 0.0, waterTemp), 0.0, 100.0), 1)
  {
    var base := CompositeRiskScore(m, Some(AnomalyZ(anomaly)), ProxyTrendSlope(anomaly), waterTemp);
    RoundClipBounds(m, base + DiurnalBonus(diurnal), 0, 100, 1);
    m.round(Clip(base + DiurnalBonus(diurnal), 0.0, 100.0), 1)
  }

  function ComputeTemperatureScore(m: Ops, f: TemperatureInput): (r: TemperatureReport)
    requires ExpLaws(m) && RoundLaws(m)
    ensures 0.0 <= r.score <= 100.0
    ensures r.waterTemp == f.waterTemp.GetOr(20.0)
    ensures r.anomaly == f.tempAnomalyC.GetOr(0.0)
    ensures r.diurnalRange == f.diurnalRange.GetOr(8.0)
    ensures 0.0 <= r.subScores.compositeRisk <= 100.0 && 0.0 <= r.subScores.diurnalBonus <= 15.0
    ensures r.score == TemperatureScore(m, r.anomaly, r.waterTemp, r.diurnalRange)
    ensures r.subScores.compositeRisk
            == m.round(CompositeRiskScore(m, Some(r.anomaly / 3.0), ProxyTrendSlope(r.anomaly), r.waterTemp), 1)
    ensures r.subScores.diurnalBonus == m.round(DiurnalBonus(r.diurnalRange), 1)
  {
    var waterTemp := f.waterTemp.GetOr(20.0);
    var anomaly := f.tempAnomalyC.GetOr(0.0);
    var diurnal := f.diurnalRange.GetOr(8.0);
    var base := CompositeRiskScore(m, Some(AnomalyZ(anomaly)), ProxyTrendSlope(anomaly), waterTemp);
    var bonus := DiurnalBonus(diurnal);
    RoundClipBounds(m, base, 0, 100, 1);
    RoundClipBounds(m, bonus, 0, 15, 1);
    TemperatureReport(TemperatureScore(m, anomaly, waterTemp, diurnal), waterTemp, anomaly, diurnal,
      TemperatureSubScores(m.round(base, 1), m.round(bonus, 1)))
  }

  /** A cooler anomaly of the same size scores no higher than the warm one: only warm anomalies add trend risk. */
  lemma WarmAnomalyScoresAtLeastCold(m: Ops, a: real, water: real, diurnal: real)
    requires ExpLaws(m) && RoundLaws(m) && a >= 0.0
    ensures ComputeTemperatureScore(m, TemperatureInput(Some(water), Some(-a), Some(diurnal))).score
            <= ComputeTemperatureScore(m, TemperatureInput(Some(water), Some(a), Some(diurnal))).score
  {
    ScoreWarmAtLeastCold(m, a, water, diurnal);
  }

  lemma ScoreWarmAtLeastCold(m: Ops, a: real, water: real, diurnal: real)
    requires ExpLaws(m) && RoundLaws(m) && a >= 0.0
    ensures TemperatureScore(m, -a, water, diurnal) <= TemperatureScore(m, a, water, diurnal)
  {
    var b := DiurnalBonus(diurnal);
    var cold := CompositeRiskScore(m, Some(-a / 3.0), ProxyTrendSlope(-a), water) + b;
    var warm := CompositeRiskScore(m, Some(a / 3.0), ProxyTrendSlope(a), water) + b;
    assert cold <= warm by {
      CompositeSymmetricInZ(m, a / 3.0, 0.0, water);
      assert -a / 3.0 == -(a / 3.0);
    }
    ClipMonotone(cold, warm, 0.0, 100.0);
    RoundMonotone(m, Clip(cold, 0.0, 100.0), Clip(warm, 0.0, 100.0), 1);
  }

  /** Warmer water never lowers the score. */
  lemma ScoreMonotoneInWaterTemp(m: Ops, f: TemperatureInput, w1: real, w2: real)
    requires ExpLaws(m) && RoundLaws(m) && w1 <= w2
    ensures ComputeTemperatureScore(m, f.(waterTemp := Some(w1))).score
            <= ComputeTemperatureScore(m, f.(waterTemp := Some(w2))).score
  {
    ScoreMonotoneInWater(m, f.tempAnomalyC.GetOr(0.0), w1, w2, f.diurnalRange.GetOr(8.0));
  }

  lemma ScoreMonotoneInWater(m: Ops, a: real, w1: real, w2: real, diurnal: real)
    requires ExpLaws(m) && RoundLaws(m) && w1 <= w2
    ensures TemperatureScore(m, a, w1, diurnal) <= TemperatureScore(m, a, w2, diurnal)
  {
    var b := DiurnalBonus(diurnal);
    var s1 := CompositeRiskScore(m, Some(a / 3.0), ProxyTrendSlope(a), w1) + b;
    var s2 := CompositeRiskScore(m, Some(a / 3.0), ProxyTrendSlope(a), w2) + b;
    assert s1 <= s2 by { WaterPartMonotone(m, w1, w2); }
    ClipMonotone(s1, s2, 0.0, 100.0);
    RoundMonotone(m, Clip(s1, 0.0, 100.0), Clip(s2, 0.0, 100.0), 1);
  }
}
