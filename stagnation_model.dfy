/**
 * The stagnation model: reads the four stagnation features (with defaults
 * for missing keys), delegates to the stagnation helper, and reports the
 * clipped and rounded score together with its rounded sub-scores.
 */
module StagnationModel {
  import opened Numerics
  import opened StagnationFeatures

  /** The feature dict; `None` is a missing key. */
  datatype StagnationInput = StagnationInput(
    avgWind7d: Option<real>,
    rainfallDeficit30d: Option<real>,
    diurnalRange: Option<real>,
    waterTemp: Option<real>)

  datatype StagnationReport = StagnationReport(
    score: real,
    windScore: real,
    hydroScore: real,
    stratificationScore: real,
    avgWind7d: real,
    rainfallDeficit30d: real)

  const DefaultWind: real := 10.0
  const DefaultDeficit: real := 0.0
  const DefaultDiurnal: real := 8.0
  const DefaultWaterTemp: real := 20.0

  function ComputeStagnationScore(m: Ops, f: StagnationInput): (r: StagnationReport)
    requires RoundLaws(m)
    ensures 0.0 <= r.score <= 100.0
    ensures 0.0 <= r.stratificationScore <= 100.0
    ensures 0.0 <= r.windScore <= 100.0 && 0.0 <= r.hydroScore <= 100.0
    ensures r.avgWind7d == f.avgWind7d.GetOr(DefaultWind)
    ensures r.rainfallDeficit30d == f.rainfallDeficit30d.GetOr(DefaultDeficit)
    ensures r.score == m.round(StagnationScore(r.avgWind7d, r.rainfallDeficit30d,
                                               f.diurnalRange.GetOr(DefaultDiurnal),
                                               f.waterTemp.GetOr(DefaultWaterTemp)), 1)
    ensures r.windScore == m.round(WindMixingScore(r.avgWind7d), 1)
    ensures r.hydroScore == m.round(HydrologicalStagnation(r.rainfallDeficit30d), 1)
    ensures r.stratificationScore == m.round(Clip(StratificationProxy(f.diurnalRange.GetOr(DefaultDiurnal),
                                                                      f.waterTemp.GetOr(DefaultWaterTemp)), 0.0, 100.0), 1)
  {
    var wind := f.avgWind7d.GetOr(DefaultWind);
    var deficit := f.rainfallDeficit30d.GetOr(DefaultDeficit);
    var diurnal := f.diurnalRange.GetOr(DefaultDiurnal);
    var waterTemp := f.waterTemp.GetOr(DefaultWaterTemp);
    var combined := StagnationScore(wind, deficit, diurnal, waterTemp);
    RoundClipBounds(m, combined, 0, 100, 1);
    var windSc := WindMixingScore(wind);
    var hydroSc := HydrologicalStagnation(deficit);
    RoundClipBounds(m, windSc, 0, 100, 1);
    RoundClipBounds(m, hydroSc, 0, 100, 1);
    var strat := StratificationProxy(diurnal, waterTemp);
    RoundClipBounds(m, strat, 0, 100, 1);
    StagnationReport(
      m.round(Clip(combined, 0.0, 100.0), 1),
      m.round(windSc, 1),
      m.round(hydroSc, 1),
      m.round(Clip(strat, 0.0, 100.0), 1),
      wind,
      deficit)
  }

  /**
   * The helper's wind breakpoints are 1 and 5, so the default wind of 10
   * (and any wind of 5 or more) reports a wind score of exactly 0.
   */
  lemma DefaultWindScoreIsZero(m: Ops, f: StagnationInput)
    requires RoundLaws(m) && (f.avgWind7d.None? || f.avgWind7d.value >= 5.0)
    ensures ComputeStagnationScore(m, f).windScore == 0.0
  {
    RoundFixes(m, 0.0, 1);
  }

  /** The reported score never decreases when the wind drops or the other features grow. */
  lemma ComputeStagnationScoreMonotone(m: Ops, f: StagnationInput, g: StagnationInput)
    requires RoundLaws(m)
    requires g.avgWind7d.GetOr(DefaultWind) <= f.avgWind7d.GetOr(DefaultWind)
    requires f.rainfallDeficit30d.GetOr(DefaultDeficit) <= g.rainfallDeficit30d.GetOr(DefaultDeficit)
    requires f.diurnalRange.GetOr(DefaultDiurnal) <= g.diurnalRange.GetOr(DefaultDiurnal)
    requires f.waterTemp.GetOr(DefaultWaterTemp) <= g.waterTemp.GetOr(DefaultWaterTemp)
    ensures ComputeStagnationScore(m, f).score <= ComputeStagnationScore(m, g).score
  {
    StagnationScoreMonotone(
      f.avgWind7d.GetOr(DefaultWind), g.avgWind7d.GetOr(DefaultWind),
      f.rainfallDeficit30d.GetOr(DefaultDeficit), g.rainfallDeficit30d.GetOr(DefaultDeficit),
      f.diurnalRange.GetOr(DefaultDiurnal), g.diurnalRange.GetOr(DefaultDiurnal),
      f.waterTemp.GetOr(DefaultWaterTemp), g.waterTemp.GetOr(DefaultWaterTemp));
    RoundMonotone(m,
      StagnationScore(f.avgWind7d.GetOr(DefaultWind), f.rainfallDeficit30d.GetOr(DefaultDeficit),
                      f.diurnalRange.GetOr(DefaultDiurnal), f.waterTemp.GetOr(DefaultWaterTemp)),
      StagnationScore(g.avgWind7d.GetOr(DefaultWind), g.rainfallDeficit30d.GetOr(DefaultDeficit),
                      g.diurnalRange.GetOr(DefaultDiurnal), g.waterTemp.GetOr(DefaultWaterTemp)), 1);
  }
}
