/**
 * The computational helpers of the dashboard: min-max normalisation, the
 * quick-view risk label, the 30-day trend series built from historical
 * temperatures, the hourly risk table built from the hourly forecast, and the
 * hourly trend summary shown beside it.
 */
module AppHelpers {
  import opened Numerics
  import opened Stats
  import TrendAnalysis
  import BloomProbabilityModel

  // ------------------------------------------------------------ _normalize

  /** `_normalize`: `(x - lo) / (hi - lo + 1e-9)` clipped to [0, 1]. */
  function Normalize(x: real, lo: real, hi: real): (r: real)
    requires hi - lo + 0.000000001 != 0.0
    ensures 0.0 <= r <= 1.0
    ensures lo < hi && x <= lo ==> r == 0.0
  {
    Clip((x - lo) / (hi - lo + 0.000000001), 0.0, 1.0)
  }

  /** For a proper range, normalisation preserves order, is 0 at `lo`, stays below 1 up to `hi` and saturates just above it. */
  lemma NormalizeMonotone(x: real, y: real, lo: real, hi: real)
    requires lo < hi && x <= y
    ensures Normalize(x, lo, hi) <= Normalize(y, lo, hi)
    ensures Normalize(lo, lo, hi) == 0.0
    ensures lo <= x <= hi ==> Normalize(x, lo, hi) < 1.0
    ensures x >= hi + 0.000000001 ==> Normalize(x, lo, hi) == 1.0
  {
    var d := hi - lo + 0.000000001;
    QuotientMonotone(x - lo, y - lo, d);
    if lo <= x <= hi {
      QuotientBelowOne(x - lo, d);
    }
    if x >= hi + 0.000000001 {
      QuotientAtLeastOne(x - lo, d);
    }
  }

  /** Dividing by a positive `d` keeps order. */
  lemma QuotientMonotone(u: real, v: real, d: real)
    requires d > 0.0 && u <= v
    ensures u / d <= v / d
  {
    var p := u / d;
    var q := v / d;
    assert p * d == u;
    assert q * d == v;
    if p > q {
      var e := p - q;
      MulPositive(e, d);
      assert false;
    }
  }

  /** Dividing by a positive `d` a value below `d` gives less than 1. */
  lemma QuotientBelowOne(u: real, d: real)
    requires d > 0.0 && u < d
    ensures u / d < 1.0
  {
    var p := u / d;
    assert p * d == u;
    if p >= 1.0 {
      var e := p - 1.0;
      MulNonNegative(e, d);
      assert false;
    }
  }

  /** Dividing by a positive `d` a value of at least `d` gives at least 1. */
  lemma QuotientAtLeastOne(u: real, d: real)
    requires d > 0.0 && u >= d
    ensures u / d >= 1.0
  {
    var p := u / d;
    assert p * d == u;
    if p < 1.0 {
      var e := 1.0 - p;
      MulPositive(e, d);
      assert false;
    }
  }

  // ------------------------------------------------------ _risk_level_label

  /** `_risk_level_label`: the quick-view label, on bands of 30 and 60. */
  function RiskLevelLabel(score: real): (text: string)
    ensures text == "Low" <==> score < 30.0
    ensures text == "Moderate" <==> 30.0 <= score < 60.0
    ensures text == "High" <==> score >= 60.0
  {
    if score < 30.0 then "Low"
    else if score < 60.0 then "Moderate"
    else "High"
  }

  /**
   * The quick-view bands are not the classifier's 25/50/75 bands: a score in
   * [25, 30) is "Low" here but in the classifier's second band, and a score in
   * [60, 75) is "High" here but only a warning for the classifier.
   */
  lemma QuickViewBandsDifferFromClassifier(score: real)
    ensures 25.0 <= score < 30.0 ==>
      RiskLevelLabel(score) == "Low" && BloomProbabilityModel.ClassifyRisk(score).level == BloomProbabilityModel.Low
    ensures 60.0 <= score < 75.0 ==>
      RiskLevelLabel(score) == "High" && BloomProbabilityModel.ClassifyRisk(score).level == BloomProbabilityModel.Warning
  {
  }

  // ----------------------------------------------------- _build_trend_series

  /** The fewest historical rows from which a trend series is built. */
  const MinHistoryRows: nat := 10

  /** The number of most recent rows the series covers. */
  const TrendWindow: nat := 30

  /** One historical day's proxy risk: the logistic of its temperature and z-score, as a percentage to one decimal. */
  function TrendPoint(m: Ops, t: real, mu: real, sig: real): real
    requires ExpLaws(m) && sig != 0.0
  {
    m.round(Expit(m, 0.3 * (t - 25.0) + 0.4 * ((t - mu) / sig)) * 100.0, 1)
  }

  /** Every proxy risk lies in [0, 100]. */
  lemma TrendPointBounds(m: Ops, t: real, mu: real, sig: real)
    requires ExpLaws(m) && RoundLaws(m) && sig != 0.0
    ensures 0.0 <= TrendPoint(m, t, mu, sig) <= 100.0
  {
    var s := Expit(m, 0.3 * (t - 25.0) + 0.4 * ((t - mu) / sig)) * 100.0;
    RoundFixes(m, 0.0, 1);
    RoundFixes(m, 100.0, 1);
    RoundMonotone(m, 0.0, s, 1);
    RoundMonotone(m, s, 100.0, 1);
  }

  /** The proxy risks of `recent`, in order. */
  function TrendPoints(m: Ops, recent: seq<real>, mu: real, sig: real): (r: seq<real>)
    requires ExpLaws(m) && sig != 0.0
    ensures |r| == |recent|
    ensures forall i :: 0 <= i < |r| ==> r[i] == TrendPoint(m, recent[i], mu, sig)
  {
    seq(|recent|, i requires 0 <= i < |recent| => TrendPoint(m, recent[i], mu, sig))
  }

  /**
   * The 30-day trend series from the historical daily mean temperatures: just
   * the current score when history is missing or short; the current score once
   * per recent row when the recent temperatures do not vary (or their spread is
   * undefined); otherwise one proxy risk per recent row followed by the
   * current score.
   */
  function TrendSeries(m: Ops, history: Option<seq<real>>, current: real): (r: seq<real>)
    requires ExpLaws(m)
    ensures |r| >= 1 && r[|r| - 1] == current
    ensures history.None? || |history.value| < MinHistoryRows ==> r == [current]
    ensures history.Some? && |history.value| >= MinHistoryRows ==>
      |r| == |LastN(history.value, TrendWindow)| || |r| == |LastN(history.value, TrendWindow)| + 1
  {
    if history.None? || |history.value| < MinHistoryRows then [current]
    else
      var recent := LastN(history.value, TrendWindow);
      var mu := Mean(recent);
      var sig := SampleStd(m, recent);
      if sig.None? || sig.value == 0.0 then seq(|recent|, _ => current)
      else TrendPoints(m, recent, mu, sig.value) + [current]
  }

  /** A recent history that does not vary gives the current score once per recent row. */
  lemma FlatHistoryRepeatsCurrent(m: Ops, history: seq<real>, c: real, current: real)
    requires ExpLaws(m) && SqrtLaws(m)
    requires |history| >= MinHistoryRows
    requires AllEqual(LastN(history, TrendWindow), c)
    ensures TrendSeries(m, Some(history), current) == seq(|LastN(history, TrendWindow)|, _ => current)
  {
    var recent := LastN(history, TrendWindow);
    MeanConstant(recent, c);
    SqDevConstant(recent, c);
    var d := (|recent| - 1) as real;
    assert d > 0.0;
    assert SqDev(recent, Mean(recent)) / d == 0.0;
    assert SampleStd(m, recent) == Some(0.0);
  }

  /** When the recent temperatures vary, each recent row gets a proxy risk in [0, 100], then the current score. */
  lemma VaryingHistoryScores(m: Ops, history: seq<real>, current: real)
    requires ExpLaws(m) && RoundLaws(m)
    requires |history| >= MinHistoryRows
    requires SampleStd(m, LastN(history, TrendWindow)) != Some(0.0)
    ensures |TrendSeries(m, Some(history), current)| == |LastN(history, TrendWindow)| + 1
    ensures forall i :: 0 <= i < |LastN(history, TrendWindow)| ==> 0.0 <= TrendSeries(m, Some(history), current)[i] <= 100.0
  {
    var recent := LastN(history, TrendWindow);
    VaryingSeries(m, history, current);
    TrendPointsBounds(m, recent, Mean(recent), SampleStd(m, recent).value);
  }

  /** With a varying window the series is the window's proxy risks followed by the current score. */
  lemma VaryingSeries(m: Ops, history: seq<real>, current: real)
    requires ExpLaws(m)
    requires |history| >= MinHistoryRows
    requires SampleStd(m, LastN(history, TrendWindow)) != Some(0.0)
    ensures SampleStd(m, LastN(history, TrendWindow)).Some?
    ensures SampleStd(m, LastN(history, TrendWindow)).value != 0.0
    ensures TrendSeries(m, Some(history), current)
            == TrendPoints(m, LastN(history, TrendWindow), Mean(LastN(history, TrendWindow)),
                           SampleStd(m, LastN(history, TrendWindow)).value) + [current]
  {
  }

  /** Every proxy risk of a window lies in [0, 100]. */
  lemma TrendPointsBounds(m: Ops, recent: seq<real>, mu: real, sig: real)
    requires ExpLaws(m) && RoundLaws(m) && sig != 0.0
    ensures forall i :: 0 <= i < |recent| ==> 0.0 <= TrendPoints(m, recent, mu, sig)[i] <= 100.0
  {
    forall i | 0 <= i < |recent| ensures 0.0 <= TrendPoints(m, recent, mu, sig)[i] <= 100.0 {
      TrendPointBounds(m, recent[i], mu, sig);
    }
  }

  /** `_build_trend_series`: the proxy risks are appended row by row, then the current score. */
  method BuildTrendSeries(m: Ops, history: Option<seq<real>>, current: real) returns (scores: seq<real>)
    requires ExpLaws(m)
    ensures scores == TrendSeries(m, history, current)
  {
    if history.None? || |history.value| < MinHistoryRows {
      return [current];
    }
    var recent := LastN(history.value, TrendWindow);
    var mu := Mean(recent);
    var sig := SampleStd(m, recent);
    if sig.None? || sig.value == 0.0 {
      return seq(|recent|, _ => current);
    }
    scores := [];
    var i := 0;
    while i < |recent|
      invariant 0 <= i <= |recent|
      invariant scores == TrendPoints(m, recent[..i], mu, sig.value)
    {
      scores := scores + [TrendPoint(m, recent[i], mu, sig.value)];
      i := i + 1;
    }
    assert recent[..i] == recent;
    scores := scores + [current];
  }

  // -------------------------------------------------- _build_hourly_risk_df

  /** The hourly section of the consolidated forecast; a missing list is empty. */
  datatype Hourly = Hourly(
    time: seq<string>,
    temperature: seq<Option<real>>,
    precipitation: seq<Option<real>>,
    windspeed: seq<Option<real>>)

  /** One row of the hourly risk table. */
  datatype HourlyRow = HourlyRow(
    time: string,
    temperature: Option<real>,
    precipitation: Option<real>,
    windspeed: Option<real>,
    riskScore: real)

  /** The weighted geometric mean of the three normalised drivers, each floored at 1e-6. */
  function GeometricRisk(m: Ops, tNorm: real, pNorm: real, wNorm: real): real
  {
    m.pow(Max(tNorm, 0.000001), 0.5) * m.pow(Max(pNorm, 0.000001), 0.3) * m.pow(Max(wNorm, 0.000001), 0.2)
  }

  /** Hot and wet: above 25 degrees and above 5 mm of rain, a missing reading counting as 0. */
  predicate HotAndWet(t: Option<real>, p: Option<real>)
  {
    t.GetOr(0.0) > 25.0 && p.GetOr(0.0) > 5.0
  }

  /** The risk of one hour before clipping: the geometric risk, raised by 20% when hot and wet. */
  function RawHourlyRisk(m: Ops, t: Option<real>, p: Option<real>, w: Option<real>): real
  {
    var base := GeometricRisk(m,
      Normalize(t.GetOr(15.0), 10.0, 30.0),
      Normalize(p.GetOr(0.0), 0.0, 10.0),
      Normalize(w.GetOr(5.0), 0.0, 15.0));
    if HotAndWet(t, p) then base * 1.2 else base
  }

  /** The risk score of one hour: the raw risk clipped to [0, 1] and rounded to four decimals. */
  function HourlyRiskScore(m: Ops, t: Option<real>, p: Option<real>, w: Option<real>): (r: real)
    requires RoundLaws(m)
    ensures 0.0 <= r <= 1.0
  {
    RoundClipBounds(m, RawHourlyRisk(m, t, p, w), 0, 1, 4);
    m.round(Clip(RawHourlyRisk(m, t, p, w), 0.0, 1.0), 4)
  }

  /** The 20% boost for hot, wet hours never lowers a non-negative risk score. */
  lemma HotAndWetNeverLowers(m: Ops, base: real)
    requires RoundLaws(m) && base >= 0.0
    ensures m.round(Clip(base, 0.0, 1.0), 4) <= m.round(Clip(base * 1.2, 0.0, 1.0), 4)
  {
    ClipMonotone(base, base * 1.2, 0.0, 1.0);
    RoundMonotone(m, Clip(base, 0.0, 1.0), Clip(base * 1.2, 0.0, 1.0), 4);
  }

  /** The number of rows: the length of the shortest of the four hourly lists. */
  function RowCount(h: Hourly): (n: nat)
    ensures n <= |h.time| && n <= |h.temperature| && n <= |h.precipitation| && n <= |h.windspeed|
    ensures n == |h.time| || n == |h.temperature| || n == |h.precipitation| || n == |h.windspeed|
  {
    var a := if |h.time| < |h.temperature| then |h.time| else |h.temperature|;
    var b := if |h.precipitation| < |h.windspeed| then |h.precipitation| else |h.windspeed|;
    if a < b then a else b
  }

  /** The row for hour `i`. */
  function RowAt(m: Ops, h: Hourly, i: nat): HourlyRow
    requires RoundLaws(m) && i < RowCount(h)
  {
    HourlyRow(h.time[i], h.temperature[i], h.precipitation[i], h.windspeed[i],
      HourlyRiskScore(m, h.temperature[i], h.precipitation[i], h.windspeed[i]))
  }

  /** The first `n` rows. */
  function RowsUpTo(m: Ops, h: Hourly, n: nat): (rows: seq<HourlyRow>)
    requires RoundLaws(m) && n <= RowCount(h)
    ensures |rows| == n
    ensures forall i :: 0 <= i < n ==> rows[i] == RowAt(m, h, i)
  {
    seq(n, i requires 0 <= i < n => RowAt(m, h, i))
  }

  /** The message of the error raised when the rows are empty and their time column is read. */
  const MissingTimeColumn: string := "KeyError: 'time'"

  /**
   * `_build_hourly_risk_df` as written: an empty table without a forecast or
   * without times or temperatures; otherwise one row per hour up to the
   * shortest list, except that when that length is 0 (the precipitation or
   * wind list is empty) the empty table has no time column to convert and the
   * conversion raises.
   */
  function HourlyRiskFrame(m: Ops, weather: Option<Hourly>): (r: Result<seq<HourlyRow>>)
    requires RoundLaws(m)
    ensures r.Err? <==> (weather.Some? && |weather.value.time| > 0 && |weather.value.temperature| > 0
                         && RowCount(weather.value) == 0)
    ensures r.Ok? && weather.Some? && |weather.value.time| > 0 && |weather.value.temperature| > 0 ==>
      r.value == RowsUpTo(m, weather.value, RowCount(weather.value))
    ensures r.Ok? && (weather.None? || |weather.value.time| == 0 || |weather.value.temperature| == 0) ==>
      r.value == []
  {
    if weather.None? then Ok([])
    else
      var h := weather.value;
      if |h.time| == 0 || |h.temperature| == 0 then Ok([])
      else
        var n := RowCount(h);
        if n == 0 then Err(MissingTimeColumn) else Ok(RowsUpTo(m, h, n))
  }

  /** `_build_hourly_risk_df`: the rows are appended hour by hour. */
  method BuildHourlyRiskDf(m: Ops, weather: Option<Hourly>) returns (r: Result<seq<HourlyRow>>)
    requires RoundLaws(m)
    ensures r == HourlyRiskFrame(m, weather)
  {
    if weather.None? {
      return Ok([]);
    }
    var h := weather.value;
    if |h.time| == 0 || |h.temperature| == 0 {
      return Ok([]);
    }
    var n := RowCount(h);
    var rows: seq<HourlyRow> := [];
    var i := 0;
    while i < n
      invariant 0 <= i <= n
      invariant rows == RowsUpTo(m, h, i)
    {
      rows := rows + [RowAt(m, h, i)];
      i := i + 1;
    }
    if |rows| == 0 {
      return Err(MissingTimeColumn);
    }
    return Ok(rows);
  }

  /** Times and temperatures without any precipitation make the table construction raise. */
  lemma HourlyFrameFailsWithoutPrecipitation(m: Ops)
    requires RoundLaws(m)
    ensures HourlyRiskFrame(m, Some(Hourly(["2024-07-01T00:00"], [Some(20.0)], [], [Some(3.0)]))).Err?
  {
  }

  /**
   * The hourly risk table as evidently intended: the empty table whenever
   * there are no rows, and otherwise the rows as computed.
   */
  function HourlyRiskTable(m: Ops, weather: Option<Hourly>): (rows: seq<HourlyRow>)
    requires RoundLaws(m)
    ensures HourlyRiskFrame(m, weather).Ok? ==> rows == HourlyRiskFrame(m, weather).value
    ensures weather.Some? && |weather.value.time| > 0 && |weather.value.temperature| > 0 ==>
      |rows| == RowCount(weather.value)
    ensures weather.None? || |weather.value.time| == 0 || |weather.value.temperature| == 0 ==> rows == []
    ensures forall i :: 0 <= i < |rows| ==> 0.0 <= rows[i].riskScore <= 1.0
  {
    match HourlyRiskFrame(m, weather)
    case Ok(rows) => rows
    case Err(_) => []
  }

  /** Each hour's score is its clipped, rounded raw risk, boosted exactly when the hour is hot and wet. */
  lemma HourlyRowScore(m: Ops, weather: Option<Hourly>, i: int)
    requires RoundLaws(m)
    requires 0 <= i < |HourlyRiskTable(m, weather)|
    ensures var row := HourlyRiskTable(m, weather)[i];
      weather.Some?
      && row.time == weather.value.time[i]
      && row.riskScore == m.round(Clip(RawHourlyRisk(m, row.temperature, row.precipitation, row.windspeed), 0.0, 1.0), 4)
      && (HotAndWet(row.temperature, row.precipitation) ==>
            RawHourlyRisk(m, row.temperature, row.precipitation, row.windspeed)
            == 1.2 * GeometricRisk(m,
                 Normalize(row.temperature.GetOr(15.0), 10.0, 30.0),
                 Normalize(row.precipitation.GetOr(0.0), 0.0, 10.0),
                 Normalize(row.windspeed.GetOr(5.0), 0.0, 15.0)))
  {
  }

  // ---------------------------------------------------------- hourly trend

  /** The hourly trend panel: direction label, median pairwise slope, Kendall's tau and its p-value. */
  datatype HourlyTrend = HourlyTrend(trend: string, senSlope: real, tau: real, pValue: real)

  /** The number of latest hourly scores the trend looks at. */
  const HourlyWindow: nat := 24

  /** The fewest scores in that window for which a trend is computed. */
  const MinTrendPoints: nat := 10

  /** The panel shown when the window holds too few scores. */
  const InsufficientTrend: HourlyTrend := HourlyTrend("Insufficient data", 0.0, 0.0, 1.0)

  /** The direction label for a Kendall test result. */
  function TrendLabel(tau: real, p: real): (text: string)
    ensures text == "Increasing" <==> p < 0.05 && tau > 0.0
    ensures text == "Decreasing" <==> p < 0.05 && tau <= 0.0
    ensures text == "No significant trend" <==> p >= 0.05
  {
    if p < 0.05 then (if tau > 0.0 then "Increasing" else "Decreasing")
    else "No significant trend"
  }

  /**
   * The hourly trend panel over the table's risk scores: absent below two
   * rows; "Insufficient data" when the last 24 scores are fewer than 10;
   * otherwise Kendall's test (`kendall`, returning tau and p) on the window
   * and the median of its pairwise slopes.
   */
  function HourlyTrendOf(riskScores: seq<real>, kendall: seq<real> -> (real, real)): (r: Option<HourlyTrend>)
    ensures r.None? <==> |riskScores| < 2
    ensures r.Some? && |riskScores| < MinTrendPoints ==> r.value == InsufficientTrend
    ensures r.Some? && |riskScores| >= MinTrendPoints ==> r.value.trend != "Insufficient data"
  {
    if |riskScores| < 2 then None
    else
      var window := LastN(riskScores, HourlyWindow);
      if |window| < MinTrendPoints then Some(InsufficientTrend)
      else
        var (tau, p) := kendall(window);
        var slopes := TrendAnalysis.PartSlopes(window, |window|);
        TrendAnalysis.AllPairs(|window|);
        Some(HourlyTrend(TrendLabel(tau, p), if |slopes| > 0 then Median(slopes) else 0.0, tau, p))
  }

  /** On scores rising by `b` per hour across the window, the panel's slope is exactly `b`. */
  lemma HourlySlopeOfLinearWindow(riskScores: seq<real>, kendall: seq<real> -> (real, real), a: real, b: real)
    requires |riskScores| >= MinTrendPoints
    requires Linear(LastN(riskScores, HourlyWindow), a, b)
    ensures HourlyTrendOf(riskScores, kendall).Some?
    ensures HourlyTrendOf(riskScores, kendall).value.senSlope == b
  {
    var window := LastN(riskScores, HourlyWindow);
    TrendAnalysis.AllPairs(|window|);
    TrendAnalysis.PartSlopesLinear(window, a, b, |window|);
    MedianConstant(TrendAnalysis.PartSlopes(window, |window|), b);
  }

  /** The hourly trend panel, with the pairwise slopes collected by the nested loop. */
  method HourlyTrendPanel(riskScores: seq<real>, kendall: seq<real> -> (real, real)) returns (r: Option<HourlyTrend>)
    ensures r == HourlyTrendOf(riskScores, kendall)
  {
    if |riskScores| < 2 {
      return None;
    }
    var window := LastN(riskScores, HourlyWindow);
    if |window| < MinTrendPoints {
      return Some(InsufficientTrend);
    }
    var (tau, p) := kendall(window);
    var slopes := TrendAnalysis.PairwiseSlopes(window);
    var sen := if |slopes| > 0 then Median(slopes) else 0.0;
    return Some(HourlyTrend(TrendLabel(tau, p), sen, tau, p));
  }
}
