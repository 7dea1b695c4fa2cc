/**
 * "How does today compare to the last 5 years?": summary statistics of the
 * historical daily mean air temperature, the z-score and percentile of
 * today's temperature against them, the anomaly flags and the comparison
 * sentence.
 *
 * The historical `temp_mean` column is a sequence of reals. The Isolation
 * Forest verdict comes from a library the model does not contain, so it is a
 * parameter: `None` when the library cannot be imported.
 */
module HistoricalComparison {
  import opened Numerics
  import opened Stats

  /** Fewer historical rows than this and the comparison is unavailable. */
  const MinHistoryRows: nat := 30

  datatype FlagLevel = Red | Yellow

  datatype AnomalyFlag =
    | ZScoreFlag(level: FlagLevel, sigma: real, warmer: bool)
    | IsolationForestFlag(score: real)

  /** What the Isolation Forest said about today: outlier or not, and its decision score. */
  datatype IsolationVerdict = IsolationVerdict(anomalous: bool, score: real)

  datatype HistoricalStats = HistoricalStats(
    tempMean: real,
    tempStd: Option<real>,
    tempMin: real,
    tempMax: real,
    nDays: nat)

  /** The second sentence of the comparison text. */
  datatype FlagSentence = FlagCount(count: nat) | WithinNormal

  datatype ComparisonText =
    | InsufficientHistory
    | Summary(airTemp: real, percentile: real, observations: nat, flags: FlagSentence)

  datatype HistoricalComparison = HistoricalComparison(
    available: bool,
    anomalyFlags: seq<AnomalyFlag>,
    airTemperatureZ: Option<real>,
    airTemperaturePercentile: Option<real>,
    stats: Option<HistoricalStats>,
    isolationForestAnomaly: bool,
    isolationForestScore: real,
    text: ComparisonText)

  /** The result returned before any statistic is computed. */
  const Unavailable := HistoricalComparison(false, [], None, None, None, false, 0.0, InsufficientHistory)

  /**
   * (current - mean) / std when the standard deviation is positive, and 0
   * when it is zero or NaN. Its sign is the sign of current - mean, and
   * multiplying back by the spread recovers the deviation.
   */
  function ZScore(current: real, mean: real, std: Option<real>): (z: real)
    ensures std.Some? && std.value > 0.0 ==> z * std.value == current - mean
    ensures z > 0.0 <==> std.Some? && std.value > 0.0 && current > mean
    ensures z < 0.0 <==> std.Some? && std.value > 0.0 && current < mean
  {
    if std.Some? && std.value > 0.0 then
      var z := (current - mean) / std.value;
      assert z * std.value == current - mean;
      assert z > 0.0 <==> current > mean by { SignOfQuotient(current - mean, std.value); }
      assert z < 0.0 <==> current < mean by { SignOfQuotient(current - mean, std.value); }
      z
    else 0.0
  }

  lemma SignOfQuotient(x: real, d: real)
    requires d > 0.0
    ensures x / d > 0.0 <==> x > 0.0
    ensures x / d < 0.0 <==> x < 0.0
  {
    var q := x / d;
    assert q * d == x;
    if q > 0.0 { MulPositive(q, d); }
    if q < 0.0 { MulPositive(-q, d); }
    if x > 0.0 && q <= 0.0 {
      MulNonNegative(-q, d);
      assert false;
    }
    if x < 0.0 && q >= 0.0 {
      MulNonNegative(q, d);
      assert false;
    }
  }

  /** The share, in percent, of historical days strictly cooler than today. */
  function PercentileBelow(history: seq<real>, current: real): (r: real)
    requires |history| > 0
    ensures 0.0 <= r <= 100.0
  {
    var n := |history| as real;
    var below := CountLt(history, current) as real;
    DivBetween(below * 100.0, n, 100.0);
    below * 100.0 / n
  }

  /** The percentile is 0 exactly when no day was cooler, and 100 exactly when every day was. */
  lemma PercentileBelowExtremes(history: seq<real>, current: real)
    requires |history| > 0
    ensures PercentileBelow(history, current) == 0.0 <==> forall i :: 0 <= i < |history| ==> history[i] >= current
    ensures PercentileBelow(history, current) == 100.0 <==> forall i :: 0 <= i < |history| ==> history[i] < current
  {
    var n := |history| as real;
    var c := CountLt(history, current);
    CountLtNone(history, current);
    CountLtEvery(history, current);
    assert PercentileBelow(history, current) == c as real * 100.0 / n;
    assert c as real * 100.0 / n == 0.0 <==> c == 0 by {
      QuotientZero(c as real * 100.0, n);
    }
    assert c as real * 100.0 / n == 100.0 <==> c == |history| by {
      QuotientHundred(c as real, n);
    }
  }

  lemma QuotientZero(x: real, n: real)
    requires n > 0.0
    ensures x / n == 0.0 <==> x == 0.0
  {
    SignOfQuotient(x, n);
  }

  lemma QuotientHundred(c: real, n: real)
    requires n > 0.0
    ensures c * 100.0 / n == 100.0 <==> c == n
  {
    var q := c * 100.0 / n;
    assert q * n == c * 100.0;
  }

  lemma {:induction false} CountLtNone(s: seq<real>, v: real)
    ensures CountLt(s, v) == 0 <==> forall i :: 0 <= i < |s| ==> s[i] >= v
  {
    if |s| > 0 {
      var init := s[..|s| - 1];
      CountLtNone(init, v);
      assert forall i :: 0 <= i < |init| ==> init[i] == s[i];
    }
  }

  lemma {:induction false} CountLtEvery(s: seq<real>, v: real)
    ensures CountLt(s, v) == |s| <==> forall i :: 0 <= i < |s| ==> s[i] < v
  {
    if |s| > 0 {
      var init := s[..|s| - 1];
      CountLtEvery(init, v);
      assert forall i :: 0 <= i < |init| ==> init[i] == s[i];
    }
  }

  /** The z-score flag: red beyond 2 sigma, yellow beyond 1.5 sigma, none otherwise. */
  function ZFlag(z: real): (r: Option<AnomalyFlag>)
    ensures r.Some? <==> Abs(z) > 1.5
    ensures r.Some? ==> r.value.ZScoreFlag? && r.value.sigma == Abs(z) && (r.value.warmer <==> z > 0.0)
    ensures r.Some? ==> (r.value.level == Red <==> Abs(z) > 2.0)
  {
    if Abs(z) > 2.0 then Some(ZScoreFlag(Red, Abs(z), z > 0.0))
    else if Abs(z) > 1.5 then Some(ZScoreFlag(Yellow, Abs(z), z > 0.0))
    else None
  }

  function FlagSentenceOf(flags: seq<AnomalyFlag>): (r: FlagSentence)
    ensures r == WithinNormal <==> |flags| == 0
    ensures r.FlagCount? ==> r.count == |flags|
  {
    if |flags| > 0 then FlagCount(|flags|) else WithinNormal
  }

  function OptionToSeq(x: Option<AnomalyFlag>): (r: seq<AnomalyFlag>)
    ensures |r| <= 1
    ensures x.Some? ==> r == [x.value]
    ensures x.None? <==> r == []
  {
    match x
    case Some(f) => [f]
    case None => []
  }

  /** The summary statistics, each rounded as displayed; the minimum, mean and maximum stay ordered. */
  function SummaryStats(m: Ops, s: seq<real>): (r: HistoricalStats)
    requires RoundLaws(m) && |s| >= 2
    ensures r.nDays == |s|
    ensures r.tempMin <= r.tempMean <= r.tempMax
    ensures r.tempStd.Some?
  {
    var mean := Mean(s);
    var lo := SeqMin(s);
    var hi := SeqMax(s);
    MeanBetweenExtremes(s);
    RoundMonotone(m, lo, mean, 1);
    RoundMonotone(m, mean, hi, 1);
    HistoricalStats(m.round(mean, 1), Some(m.round(m.sqrt(SqDev(s, mean) / (|s| - 1) as real), 2)),
                    m.round(lo, 1), m.round(hi, 1), |s|)
  }

  /** The flag list: the z-score flag if any, then the Isolation Forest flag if it found an outlier. */
  function Flags(z: real, isolation: Option<IsolationVerdict>): (r: seq<AnomalyFlag>)
    ensures |r| == |OptionToSeq(ZFlag(z))| || |r| == |OptionToSeq(ZFlag(z))| + 1
    ensures |r| <= 2 && forall j :: 1 <= j < |r| ==> r[j].IsolationForestFlag?
    ensures r[..|OptionToSeq(ZFlag(z))|] == OptionToSeq(ZFlag(z))
    ensures |r| == |OptionToSeq(ZFlag(z))| + 1 <==> isolation.Some? && isolation.value.anomalous
    ensures |r| == |OptionToSeq(ZFlag(z))| + 1 ==> r[|r| - 1] == IsolationForestFlag(isolation.value.score)
  {
    var zFlags := OptionToSeq(ZFlag(z));
    var isoFlags := if isolation.Some? && isolation.value.anomalous then [IsolationForestFlag(isolation.value.score)] else [];
    assert (zFlags + isoFlags)[..|zFlags|] == zFlags;
    zFlags + isoFlags
  }

  /**
   * The comparison of today's air temperature with the history. The other
   * current readings (water temperature, wind, rainfall, risk score) are
   * accepted by the source but not used, so they are not parameters here.
   */
  function BuildHistoricalComparison(m: Ops, history: Option<seq<real>>, currentAirTemp: real,
                                     isolation: Option<IsolationVerdict>): (r: HistoricalComparison)
    requires RoundLaws(m)
    ensures history.None? || |history.value| < MinHistoryRows ==> r == Unavailable
    ensures history.Some? && |history.value| >= MinHistoryRows ==>
              && r.available
              && r.stats == Some(SummaryStats(m, history.value))
              && r.airTemperaturePercentile.Some?
              && 0.0 <= r.airTemperaturePercentile.value <= 100.0
              && r.text.Summary?
              && r.text.observations == |history.value|
              && (r.text.flags == WithinNormal <==> |r.anomalyFlags| == 0)
              && (r.text.flags.FlagCount? ==> r.text.flags.count == |r.anomalyFlags|)
              && (r.isolationForestAnomaly <==> isolation.Some? && isolation.value.anomalous)
    ensures history.Some? && |history.value| >= MinHistoryRows ==>
              var s := history.value;
              var z := ZScore(currentAirTemp, Mean(s), SampleStd(m, s));
              && r.airTemperatureZ == Some(m.round(z, 2))
              && r.airTemperaturePercentile == Some(m.round(PercentileBelow(s, currentAirTemp), 1))
              && r.anomalyFlags == Flags(z, isolation)
  {
    if history.None? || |history.value| < MinHistoryRows then Unavailable
    else
      var s := history.value;
      var z := ZScore(currentAirTemp, Mean(s), SampleStd(m, s));
      var percentile := PercentileBelow(s, currentAirTemp);
      RoundPercent(m, percentile);
      var flags := Flags(z, isolation);
      HistoricalComparison(
        true, flags, Some(m.round(z, 2)), Some(m.round(percentile, 1)), Some(SummaryStats(m, s)),
        isolation.Some? && isolation.value.anomalous,
        if isolation.Some? then m.round(isolation.value.score, 4) else 0.0,
        Summary(currentAirTemp, percentile, |s|, FlagSentenceOf(flags)))
  }

  /** Rounding a percentage to one decimal keeps it a percentage. */
  lemma RoundPercent(m: Ops, p: real)
    requires RoundLaws(m) && 0.0 <= p <= 100.0
    ensures 0.0 <= m.round(p, 1) <= 100.0
  {
    RoundFixes(m, 0.0, 1);
    RoundFixes(m, 100.0, 1);
    RoundMonotone(m, 0.0, p, 1);
    RoundMonotone(m, p, 100.0, 1);
  }
}
