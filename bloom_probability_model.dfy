/**
 * Final risk integration: two aggregators of the sub-scores (a weighted sum
 * with a satellite adjustment, and a weighted geometric mean with a
 * temperature-nutrient interaction boost), the four-band risk level, the
 * cells/mL estimate, the WHO severity and the doubling-time advisory.
 */
module BloomProbabilityModel {
  import opened Numerics
  import opened Constants

  // ---------------------------------------------------------------- bands

  datatype RiskLevel = Safe | Low | Warning | Critical

  function LevelName(l: RiskLevel): string {
    match l
    case Safe => "SAFE"
    case Low => "LOW"
    case Warning => "WARNING"
    case Critical => "CRITICAL"
  }

  /** Position of a level in the band table, lowest first. */
  function LevelIndex(l: RiskLevel): nat {
    match l
    case Safe => 0
    case Low => 1
    case Warning => 2
    case Critical => 3
  }

  datatype RiskClass = RiskClass(level: RiskLevel, color: string, emoji: string)

  /** Scores below 25, 50 and 75 fall in the first three bands; 25, 50 and 75 belong to the higher band. */
  function ClassifyRisk(score: real): (r: RiskClass)
    ensures r.level == Safe <==> score < 25.0
    ensures r.level == Low <==> 25.0 <= score < 50.0
    ensures r.level == Warning <==> 50.0 <= score < 75.0
    ensures r.level == Critical <==> score >= 75.0
  {
    if score < 25.0 then RiskClass(Safe, "#2ecc71", "\U{2705}")
    else if score < 50.0 then RiskClass(Low, "#f1c40f", "\U{26A0}\U{FE0F}")
    else if score < 75.0 then RiskClass(Warning, "#e67e22", "\U{1F7E0}")
    else RiskClass(Critical, "#e74c3c", "\U{1F534}")
  }

  /**
   * The classifier agrees with the shared band table: a score in [0, 100]
   * gets the band whose [min, max) holds it (the last band also holds 100),
   * with that band's name and colour.
   */
  lemma ClassifyRiskMatchesRiskLevels(score: real)
    requires 0.0 <= score <= 100.0
    ensures var i := LevelIndex(ClassifyRisk(score).level);
            && i < |RiskLevels|
            && RiskLevels[i].min as real <= score
            && (score < RiskLevels[i].max as real || (i == 3 && score == 100.0))
            && RiskLevels[i].name == LevelName(ClassifyRisk(score).level)
            && RiskLevels[i].color == ClassifyRisk(score).color
  {
    RiskLevelsContiguous();
  }

  datatype WhoLevel = LowRisk | ModerateRisk | HighRisk | VeryHighRisk

  function WhoLevelName(w: WhoLevel): string {
    match w
    case LowRisk => "low_risk"
    case ModerateRisk => "moderate_risk"
    case HighRisk => "high_risk"
    case VeryHighRisk => "very_high_risk"
  }

  /** WHO severity of a cell count, with breakpoints 20,000, 100,000 and 10,000,000 cells/mL. */
  function WhoSeverity(cells: int): (r: WhoLevel)
    ensures r == LowRisk <==> cells < 20_000
    ensures r == ModerateRisk <==> 20_000 <= cells < 100_000
    ensures r == HighRisk <==> 100_000 <= cells < 10_000_000
    ensures r == VeryHighRisk <==> cells >= 10_000_000
  {
    if cells < 20_000 then LowRisk
    else if cells < 100_000 then ModerateRisk
    else if cells < 10_000_000 then HighRisk
    else VeryHighRisk
  }

  /** One row of the module's WHO band table; `None` as the upper bound is infinity. */
  datatype WhoBand = WhoBand(level: WhoLevel, minCells: int, maxCells: Option<int>, displayLabel: string, color: string)

  const WhoRiskLevels: seq<WhoBand> := [
    WhoBand(LowRisk, 0, Some(20_000), "Low Risk", "#2ecc71"),
    WhoBand(ModerateRisk, 20_000, Some(100_000), "Moderate Risk", "#f1c40f"),
    WhoBand(HighRisk, 100_000, Some(10_000_000), "High Risk", "#e67e22"),
    WhoBand(VeryHighRisk, 10_000_000, None, "Very High Risk", "#e74c3c")
  ]

  /**
   * The classifier, the module's band table and the shared WHO thresholds
   * agree: a non-negative count is classified into the band whose
   * [min, max) holds it, and the three finite maxima are the shared cell values.
   */
  lemma WhoSeverityMatchesTables(cells: int)
    requires cells >= 0
    ensures exists i :: 0 <= i < |WhoRiskLevels| && WhoRiskLevels[i].level == WhoSeverity(cells)
              && WhoRiskLevels[i].minCells <= cells
              && (WhoRiskLevels[i].maxCells.None? || cells < WhoRiskLevels[i].maxCells.value)
    ensures forall i :: 0 <= i < 3 ==> WhoRiskLevels[i].maxCells == Some(WhoCyanoThresholds[i].cells)
  {
    WhoThresholdsIncreasing();
    var i := match WhoSeverity(cells)
      case LowRisk => 0
      case ModerateRisk => 1
      case HighRisk => 2
      case VeryHighRisk => 3;
    assert WhoRiskLevels[i].level == WhoSeverity(cells);
  }

  // ---------------------------------------------------------------- cells estimate

  /** int(clip(100 e^(0.115 score), 100, 2e7)); the value is positive, so int() is the floor. */
  function EstimateCells(m: Ops, score: real): (r: int)
    requires ExpLaws(m)
    ensures 100 <= r <= 20_000_000
    ensures score <= 0.0 ==> r == 100
  {
    var cells := 100.0 * m.exp(score * 0.115);
    ExpMonotone(m, Min(score * 0.115, 0.0), 0.0);
    Clip(cells, 100.0, 20_000_000.0).Floor
  }

  lemma EstimateCellsMonotone(m: Ops, s1: real, s2: real)
    requires ExpLaws(m) && s1 <= s2
    ensures EstimateCells(m, s1) <= EstimateCells(m, s2)
  {
    ExpMonotone(m, s1 * 0.115, s2 * 0.115);
    ClipMonotone(100.0 * m.exp(s1 * 0.115), 100.0 * m.exp(s2 * 0.115), 100.0, 20_000_000.0);
  }

  /**
   * For scores up to 100 the estimate stays below 10 million cells/mL
   * (100 e^11.5 is about 9.87 million), so no score in range is ever rated
   * very high, and the upper clip at 20 million never fires.
   */
  lemma VeryHighUnreachable(m: Ops, score: real)
    requires ExpLaws(m) && score <= 100.0
    ensures EstimateCells(m, score) < 10_000_000
    ensures WhoSeverity(EstimateCells(m, score)) != VeryHighRisk
  {
    ExpMonotone(m, score * 0.115, 11.5);
  }

  // ---------------------------------------------------------------- weighted sum

  const WeightTemperature: real := 0.30
  const WeightNutrients: real := 0.25
  const WeightStagnation: real := 0.20
  const WeightLight: real := 0.10
  const WeightGrowth: real := 0.15

  lemma WeightsSumToOne()
    ensures WeightTemperature + WeightNutrients + WeightStagnation + WeightLight + WeightGrowth == 1.0
  {
  }

  /** mu as a share of the 1.2 per day maximum, in percent, clipped to [0, 100]. */
  function GrowthScore(mu: real): (r: real)
    ensures 0.0 <= r <= 100.0
    ensures 0.0 <= mu <= 1.2 ==> r == mu / 1.2 * 100.0
  {
    Clip(mu / 1.2 * 100.0, 0.0, 100.0)
  }

  /** The satellite adjustment; `None` is a missing CyFi result or a missing cell count. */
  function SatelliteAdjustment(cells: Option<real>): (r: real)
    ensures cells.None? ==> r == 0.0
    ensures cells.Some? && cells.value > 100_000.0 ==> r == 15.0
    ensures cells.Some? && 20_000.0 < cells.value <= 100_000.0 ==> r == 8.0
    ensures cells.Some? && 5_000.0 < cells.value <= 20_000.0 ==> r == 3.0
    ensures cells.Some? && cells.value <= 5_000.0 ==> r == 0.0
  {
    match cells
    case None => 0.0
    case Some(c) =>
      if c > 100_000.0 then 15.0
      else if c > 20_000.0 then 8.0
      else if c > 5_000.0 then 3.0
      else 0.0
  }

  lemma SatelliteAdjustmentMonotone(c1: real, c2: real)
    requires c1 <= c2
    ensures SatelliteAdjustment(Some(c1)) <= SatelliteAdjustment(Some(c2))
    ensures SatelliteAdjustment(None) <= SatelliteAdjustment(Some(c1))
  {
  }

  /** The weighted sum of the five sub-scores. */
  function BaseScore(t: real, n: real, s: real, l: real, g: real): (r: real)
    ensures 0.0 <= t <= 100.0 && 0.0 <= n <= 100.0 && 0.0 <= s <= 100.0 && 0.0 <= l <= 100.0 && 0.0 <= g <= 100.0
            ==> 0.0 <= r <= 100.0
    ensures t == n == s == l == g ==> r == t
  {
    WeightTemperature * t + WeightNutrients * n + WeightStagnation * s + WeightLight * l + WeightGrowth * g
  }

  /** Everything the source derives from the rounded risk score alone. */
  datatype ScoreDerived = ScoreDerived(risk: RiskClass, cells: int, who: WhoLevel)

  function DeriveFromScore(m: Ops, score: real): (r: ScoreDerived)
    requires ExpLaws(m)
    ensures r.risk == ClassifyRisk(score)
    ensures r.cells == EstimateCells(m, score)
    ensures r.who == WhoSeverity(r.cells)
    ensures 0.0 <= score <= 100.0 ==> r.who != VeryHighRisk
  {
    if score <= 100.0 then VeryHighUnreachable(m, score); ScoreDerived(ClassifyRisk(score), EstimateCells(m, score), WhoSeverity(EstimateCells(m, score)))
    else ScoreDerived(ClassifyRisk(score), EstimateCells(m, score), WhoSeverity(EstimateCells(m, score)))
  }

  /** The growth-rate dict as read here; `None` is a missing key. */
  datatype GrowthInfo = GrowthInfo(mu: Option<real>, doublingTimeHours: Option<real>, limitingFactor: Option<string>)

  /** The advisory's parts; its wording and number formatting are not modelled. */
  datatype Advisory = Advisory(
    level: RiskLevel,
    cells: int,
    who: WhoLevel,
    growthLine: Option<GrowthLine>)

  datatype GrowthLine = GrowthLine(mu: real, doublingTimeHours: real, limitingFactor: string)

  /** The growth sentence is added only when mu > 0.01 and the doubling time is present and not zero. */
  function BuildAdvisory(level: RiskLevel, who: WhoLevel, cells: int, g: GrowthInfo): (r: Advisory)
    ensures r.level == level && r.who == who && r.cells == cells
    ensures r.growthLine.Some? <==>
              g.mu.GetOr(0.0) > 0.01 && g.doublingTimeHours.Some? && g.doublingTimeHours.value != 0.0
    ensures r.growthLine.Some? ==> r.growthLine.value.limitingFactor == g.limitingFactor.GetOr("Unknown")
  {
    var mu := g.mu.GetOr(0.0);
    var line := match g.doublingTimeHours
      case Some(d) =>
        if mu > 0.01 && d != 0.0 then Some(GrowthLine(mu, d, g.limitingFactor.GetOr("Unknown"))) else None
      case None => None;
    Advisory(level, cells, who, line)
  }

  datatype ComponentScores = ComponentScores(temperature: real, nutrients: real, stagnation: real, light: real, growthRate: real)

  datatype BloomProbability = BloomProbability(
    riskScore: real,
    risk: RiskClass,
    whoSeverity: WhoLevel,
    estimatedCellsPerMl: int,
    advisory: Advisory,
    confidence: string,
    componentScores: ComponentScores)

  /**
   * The weighted-sum aggregator: the base score plus the satellite
   * adjustment, clipped to [0, 100] and rounded to one decimal; level,
   * cells and WHO severity are functions of that rounded score alone.
   */
  function ComputeBloomProbability(m: Ops, t: real, n: real, s: real, l: real, g: GrowthInfo,
                                   cyfiCells: Option<real>, confidence: string): (r: BloomProbability)
    requires ExpLaws(m) && RoundLaws(m)
    ensures 0.0 <= r.riskScore <= 100.0
    ensures r.riskScore == m.round(Clip(BaseScore(t, n, s, l, GrowthScore(g.mu.GetOr(0.0))) + SatelliteAdjustment(cyfiCells), 0.0, 100.0), 1)
    ensures var d := DeriveFromScore(m, r.riskScore);
            r.risk == d.risk && r.estimatedCellsPerMl == d.cells && r.whoSeverity == d.who
    ensures r.whoSeverity != VeryHighRisk && r.estimatedCellsPerMl < 10_000_000
    ensures r.advisory == BuildAdvisory(r.risk.level, r.whoSeverity, r.estimatedCellsPerMl, g)
    ensures r.confidence == confidence
    ensures r.componentScores.growthRate == m.round(GrowthScore(g.mu.GetOr(0.0)), 1)
  {
    var growth := GrowthScore(g.mu.GetOr(0.0));
    var base := BaseScore(t, n, s, l, growth);
    var adj := SatelliteAdjustment(cyfiCells);
    RoundClipBounds(m, base + adj, 0, 100, 1);
    var score := m.round(Clip(base + adj, 0.0, 100.0), 1);
    var d := DeriveFromScore(m, score);
    VeryHighUnreachable(m, score);
    BloomProbability(
      score,
      d.risk,
      d.who,
      d.cells,
      BuildAdvisory(d.risk.level, d.who, d.cells, g),
      confidence,
      ComponentScores(m.round(t, 1), m.round(n, 1), m.round(s, 1), m.round(l, 1), m.round(growth, 1)))
  }

  /** Raising any sub-score, mu or the satellite cell count never lowers the weighted-sum risk score. */
  lemma ComputeBloomProbabilityMonotone(m: Ops, t1: real, t2: real, n1: real, n2: real, s1: real, s2: real,
                                        l1: real, l2: real, mu1: real, mu2: real, c1: real, c2: real)
    requires ExpLaws(m) && RoundLaws(m)
    requires t1 <= t2 && n1 <= n2 && s1 <= s2 && l1 <= l2 && mu1 <= mu2 && c1 <= c2
    ensures ComputeBloomProbability(m, t1, n1, s1, l1, GrowthInfo(Some(mu1), None, None), Some(c1), "").riskScore
         <= ComputeBloomProbability(m, t2, n2, s2, l2, GrowthInfo(Some(mu2), None, None), Some(c2), "").riskScore
  {
    var x1 := BaseScore(t1, n1, s1, l1, GrowthScore(mu1)) + SatelliteAdjustment(Some(c1));
    var x2 := BaseScore(t2, n2, s2, l2, GrowthScore(mu2)) + SatelliteAdjustment(Some(c2));
    assert x1 <= x2 by {
      assert GrowthScore(mu1) <= GrowthScore(mu2) by {
        ClipMonotone(mu1 / 1.2 * 100.0, mu2 / 1.2 * 100.0, 0.0, 100.0);
      }
      BaseScoreMonotone(t1, t2, n1, n2, s1, s2, l1, l2, GrowthScore(mu1), GrowthScore(mu2));
      SatelliteAdjustmentMonotone(c1, c2);
    }
    assert m.round(Clip(x1, 0.0, 100.0), 1) <= m.round(Clip(x2, 0.0, 100.0), 1) by {
      ClipMonotone(x1, x2, 0.0, 100.0);
      RoundMonotone(m, Clip(x1, 0.0, 100.0), Clip(x2, 0.0, 100.0), 1);
    }
    WeightedRiskScore(m, t1, n1, s1, l1, mu1, c1);
    WeightedRiskScore(m, t2, n2, s2, l2, mu2, c2);
  }

  lemma WeightedRiskScore(m: Ops, t: real, n: real, s: real, l: real, mu: real, c: real)
    requires ExpLaws(m) && RoundLaws(m)
    ensures ComputeBloomProbability(m, t, n, s, l, GrowthInfo(Some(mu), None, None), Some(c), "").riskScore
         == m.round(Clip(BaseScore(t, n, s, l, GrowthScore(mu)) + SatelliteAdjustment(Some(c)), 0.0, 100.0), 1)
  {
  }

  lemma BaseScoreMonotone(t1: real, t2: real, n1: real, n2: real, s1: real, s2: real,
                          l1: real, l2: real, g1: real, g2: real)
    requires t1 <= t2 && n1 <= n2 && s1 <= s2 && l1 <= l2 && g1 <= g2
    ensures BaseScore(t1, n1, s1, l1, g1) <= BaseScore(t2, n2, s2, l2, g2)
  {
  }

  // ---------------------------------------------------------------- geometric mean

  /** The sub-score clip used before taking logarithms. */
  function LogSafe(x: real): (r: real)
    ensures 0.001 <= r <= 100.0
  {
    Clip(x, 0.001, 100.0)
  }

  /** sum of w_k ln s_k over the five clipped sub-scores. */
  function LogSum(m: Ops, t: real, n: real, s: real, l: real, g: real): real {
    WeightTemperature * m.ln(LogSafe(t)) + WeightNutrients * m.ln(LogSafe(n)) + WeightStagnation * m.ln(LogSafe(s))
      + WeightLight * m.ln(LogSafe(l)) + WeightGrowth * m.ln(LogSafe(g))
  }

  /** Because the weights sum to 1, equal sub-scores c give the log-sum ln c, i.e. a geometric mean of c. */
  lemma LogSumOfEqualScores(m: Ops, c: real)
    ensures LogSum(m, c, c, c, c, c) == m.ln(LogSafe(c))
  {
    WeightsSumToOne();
  }

  /** The boost: 10% of the smaller of the two scores when both exceed 60. */
  function InteractionBoost(t: real, n: real): (r: real)
    ensures t > 60.0 && n > 60.0 ==> r == 0.10 * Min(t, n) && r > 6.0
    ensures !(t > 60.0 && n > 60.0) ==> r == 0.0
  {
    if t > 60.0 && n > 60.0 then 0.10 * Min(t, n) else 0.0
  }

  lemma InteractionBoostMonotone(t1: real, t2: real, n1: real, n2: real)
    requires t1 <= t2 && n1 <= n2
    ensures InteractionBoost(t1, n1) <= InteractionBoost(t2, n2)
  {
  }

  datatype BloomRisk = BloomRisk(
    riskScore: real,
    risk: RiskClass,
    whoLevel: WhoLevel,
    estimatedCellsPerMl: int,
    componentScores: ComponentScores,
    interactionBoost: real)

  /**
   * The geometric-mean aggregator: exp of the weighted log-sum of the
   * sub-scores clipped to [0.001, 100], plus the interaction boost,
   * clipped to [0, 100] and rounded to one decimal.
   */
  function CalculateBloomRisk(m: Ops, t: real, n: real, s: real, l: real, mu: real): (r: BloomRisk)
    requires ExpLaws(m) && RoundLaws(m)
    ensures 0.0 <= r.riskScore <= 100.0
    ensures r.riskScore == m.round(Clip(m.exp(LogSum(m, t, n, s, l, GrowthScore(mu))) + InteractionBoost(t, n), 0.0, 100.0), 1)
    ensures var d := DeriveFromScore(m, r.riskScore);
            r.risk == d.risk && r.estimatedCellsPerMl == d.cells && r.whoLevel == d.who
    ensures r.whoLevel != VeryHighRisk
    ensures r.interactionBoost == m.round(InteractionBoost(t, n), 2)
    ensures r.componentScores.temperature == m.round(LogSafe(t), 1)
    ensures r.componentScores.growthRate == m.round(LogSafe(GrowthScore(mu)), 1)
  {
    var g := GrowthScore(mu);
    var geo := m.exp(LogSum(m, t, n, s, l, g));
    var boost := InteractionBoost(t, n);
    RoundClipBounds(m, geo + boost, 0, 100, 1);
    var score := m.round(Clip(geo + boost, 0.0, 100.0), 1);
    var d := DeriveFromScore(m, score);
    BloomRisk(
      score,
      d.risk,
      d.who,
      d.cells,
      ComponentScores(m.round(LogSafe(t), 1), m.round(LogSafe(n), 1), m.round(LogSafe(s), 1),
                      m.round(LogSafe(l), 1), m.round(LogSafe(g), 1)),
      m.round(boost, 2))
  }

  /** A higher temperature score never lowers the geometric-mean risk score. */
  lemma CalculateBloomRiskMonotoneInTemperature(m: Ops, t1: real, t2: real, n: real, s: real, l: real, mu: real)
    requires ExpLaws(m) && RoundLaws(m) && LnLaws(m) && t1 <= t2
    ensures CalculateBloomRisk(m, t1, n, s, l, mu).riskScore <= CalculateBloomRisk(m, t2, n, s, l, mu).riskScore
  {
    var g := GrowthScore(mu);
    ClipMonotone(t1, t2, 0.001, 100.0);
    LnMonotone(m, LogSafe(t1), LogSafe(t2));
    assert LogSum(m, t1, n, s, l, g) <= LogSum(m, t2, n, s, l, g);
    ExpMonotone(m, LogSum(m, t1, n, s, l, g), LogSum(m, t2, n, s, l, g));
    InteractionBoostMonotone(t1, t2, n, n);
    var x1 := m.exp(LogSum(m, t1, n, s, l, g)) + InteractionBoost(t1, n);
    var x2 := m.exp(LogSum(m, t2, n, s, l, g)) + InteractionBoost(t2, n);
    ClipMonotone(x1, x2, 0.0, 100.0);
    RoundMonotone(m, Clip(x1, 0.0, 100.0), Clip(x2, 0.0, 100.0), 1);
  }

  // ---------------------------------------------------------------- advisory

  datatype Severity = SeverityLow | SeverityModerate | SeverityHigh | SeverityCritical

  datatype GrowthTier = Rapid | Moderate | Slow(limitingFactor: string)

  datatype BloomAdvisory = BloomAdvisory(severity: Severity, riskScore: real, growth: Option<GrowthTier>)

  /**
   * The advisory's severity uses the 25 / 50 / 75 bands; a growth line is
   * added only for a positive doubling time: rapid below 24 h, moderate
   * below 72 h, otherwise slow with the limiting factor named.
   */
  function BloomAdvisoryOf(score: real, doublingTimeHours: Option<real>, limitingFactor: string): (r: BloomAdvisory)
    ensures r.riskScore == score
    ensures r.growth.Some? <==> doublingTimeHours.Some? && doublingTimeHours.value > 0.0
    ensures r.growth == Some(Rapid) <==> doublingTimeHours.Some? && 0.0 < doublingTimeHours.value < 24.0
    ensures r.growth == Some(Moderate) <==> doublingTimeHours.Some? && 24.0 <= doublingTimeHours.value < 72.0
    ensures r.growth.Some? && r.growth.value.Slow? <==> doublingTimeHours.Some? && doublingTimeHours.value >= 72.0
    ensures r.growth.Some? && r.growth.value.Slow? ==> r.growth.value.limitingFactor == limitingFactor
  {
    var severity :=
      if score < 25.0 then SeverityLow
      else if score < 50.0 then SeverityModerate
      else if score < 75.0 then SeverityHigh
      else SeverityCritical;
    var growth := match doublingTimeHours
      case Some(d) =>
        if d > 0.0 then
          if d < 24.0 then Some(Rapid) else if d < 72.0 then Some(Moderate) else Some(Slow(limitingFactor))
        else None
      case None => None;
    BloomAdvisory(severity, score, growth)
  }

  function SeverityIndex(s: Severity): nat {
    match s
    case SeverityLow => 0
    case SeverityModerate => 1
    case SeverityHigh => 2
    case SeverityCritical => 3
  }

  /** The advisory's severity is the classifier's band under another name, for every score. */
  lemma AdvisorySeverityMatchesClassifier(score: real, d: Option<real>, lim: string)
    ensures SeverityIndex(BloomAdvisoryOf(score, d, lim).severity) == LevelIndex(ClassifyRisk(score).level)
  {
  }
}
