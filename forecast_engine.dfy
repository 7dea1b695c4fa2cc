/**
 * The 7-day risk forecast: the forecast window of the daily weather lists,
 * their None-safe padded slices, a per-day heuristic projection with a
 * momentum term that reads the previously stored score, and padding of the
 * scores to seven entries.
 */
module ForecastEngine {
  import opened Numerics

  /** The daily weather lists; a missing key is an empty list. */
  datatype DailyWeather = DailyWeather(
    time: seq<string>,
    temperatureMax: seq<Option<real>>,
    temperatureMin: seq<Option<real>>,
    precipitationSum: seq<Option<real>>,
    windSpeedMax: seq<Option<real>>,
    uvIndexMax: seq<Option<real>>)

  /** The number of forecast days, min(7, number of raw dates). */
  function ForecastDays(datesRaw: nat): (r: nat)
    ensures r <= 7 && r <= datesRaw
    ensures r == 7 || r == datesRaw
  {
    if datesRaw < 7 then datesRaw else 7
  }

  /**
   * The forecast slice of a list: its last seven entries when there are more
   * than seven raw dates (the first ones are past days), otherwise its first n.
   */
  function Window<T>(lst: seq<T>, datesRaw: nat): (r: seq<T>)
    ensures |r| <= ForecastDays(datesRaw)
    ensures datesRaw > 7 ==> r == LastN(lst, 7)
    ensures datesRaw <= 7 ==> r == lst[..if |lst| < datesRaw then |lst| else datesRaw]
  {
    if datesRaw > 7 then LastN(lst, 7)
    else lst[..if |lst| < datesRaw then |lst| else datesRaw]
  }

  /** The padded, None-replaced slice the forecast reads. */
  function SafeSliceOf(lst: seq<Option<real>>, datesRaw: nat, default: real): (r: seq<real>)
    ensures |r| == ForecastDays(datesRaw)
  {
    var w := Window(lst, datesRaw);
    seq(ForecastDays(datesRaw), i requires 0 <= i < ForecastDays(datesRaw) => if i < |w| then w[i].GetOr(default) else default)
  }

  /**
   * Slices a list to the forecast window, replaces None by the default and
   * pads with the default to exactly n = min(7, number of raw dates) entries.
   */
  method SafeSlice(lst: seq<Option<real>>, datesRaw: nat, default: real) returns (result: seq<real>)
    ensures |result| == ForecastDays(datesRaw)
    ensures result == SafeSliceOf(lst, datesRaw, default)
    ensures forall i :: 0 <= i < |result| && i < |Window(lst, datesRaw)| && Window(lst, datesRaw)[i].Some? ==>
              result[i] == Window(lst, datesRaw)[i].value
    ensures forall i :: 0 <= i < |result| && (i >= |Window(lst, datesRaw)| || Window(lst, datesRaw)[i].None?) ==>
              result[i] == default
  {
    var n := ForecastDays(datesRaw);
    if |lst| == 0 {
      result := seq(n, _ => default);
      return;
    }
    var w := Window(lst, datesRaw);
    result := [];
    var i := 0;
    while i < |w|
      invariant 0 <= i <= |w|
      invariant |result| == i
      invariant forall j :: 0 <= j < i ==> result[j] == w[j].GetOr(default)
    {
      result := result + [w[i].GetOr(default)];
      i := i + 1;
    }
    while |result| < n
      invariant |w| <= |result| <= n
      invariant forall j :: 0 <= j < |w| ==> result[j] == w[j].GetOr(default)
      invariant forall j :: |w| <= j < |result| ==> result[j] == default
    {
      result := result + [default];
    }
  }

  /** The seven dates: the forecast window of the raw dates when it has seven, else seven dates from today. */
  function ForecastDates(datesRaw: seq<string>, fromToday: seq<string>): (r: seq<string>)
    requires |fromToday| == 7
    ensures |r| == 7
    ensures |datesRaw| > 7 ==> r == datesRaw[|datesRaw| - 7..]
    ensures |datesRaw| == 7 ==> r == datesRaw
    ensures |datesRaw| < 7 ==> r == fromToday
  {
    var dates := Window(datesRaw, |datesRaw|);
    if |dates| < 7 then fromToday else dates
  }

  /** Python's `x or d` on a number: 0.0 is falsy, so it is replaced as well. */
  function OrDefault(x: real, d: real): (r: real)
    ensures x != 0.0 ==> r == x
    ensures x == 0.0 ==> r == d
  {
    if x == 0.0 then d else x
  }

  function TempFactor(tAvg: real): (r: real)
    ensures 0.0 <= r <= 1.0
  {
    Clip((tAvg - 15.0) / 20.0, 0.0, 1.0)
  }

  function RainFactor(rain: real): (r: real)
    ensures 0.0 <= r <= 1.0
  {
    Clip(1.0 - rain / 20.0, 0.0, 1.0)
  }

  function WindFactor(wind: real): (r: real)
    ensures 0.0 <= r <= 1.0
  {
    Clip(1.0 - wind / 30.0, 0.0, 1.0)
  }

  /** Half the current risk plus half of the weather projection, which is at most 65. */
  function DayProjection(currentRisk: real, tMax: real, tMin: real, precip: real, wind: real): (r: real)
    ensures currentRisk * 0.5 <= r <= currentRisk * 0.5 + 32.5
  {
    var tAvg := (OrDefault(tMax, 20.0) + OrDefault(tMin, 10.0)) / 2.0;
    var rain := OrDefault(precip, 0.0);
    var w := OrDefault(wind, 10.0);
    currentRisk * 0.5 + (TempFactor(tAvg) * 40.0 + RainFactor(rain) * 15.0 + WindFactor(w) * 10.0) * 0.5
  }

  /** The score stored for one day: the projection, blended 70/30 with the previous stored score after day 0, clipped and rounded. */
  function DayScore(m: Ops, projection: real, previous: Option<real>): (r: real)
    ensures previous.None? ==> r == m.round(Clip(projection, 0.0, 100.0), 1)
    ensures previous.Some? ==> r == m.round(Clip(projection * 0.7 + previous.value * 0.3, 0.0, 100.0), 1)
  {
    var p := match previous
      case None => projection
      case Some(q) => projection * 0.7 + q * 0.3;
    m.round(Clip(p, 0.0, 100.0), 1)
  }

  lemma DayScoreInRange(m: Ops, projection: real, previous: Option<real>)
    requires RoundLaws(m)
    ensures 0.0 <= DayScore(m, projection, previous) <= 100.0
  {
    var p := match previous
      case None => projection
      case Some(q) => projection * 0.7 + q * 0.3;
    RoundClipBounds(m, p, 0, 100, 1);
  }

  /** The scores computed for the first k days, each reading the one stored before it. */
  function ComputedScores(m: Ops, currentRisk: real, tMax: seq<real>, tMin: seq<real>, precip: seq<real>,
                          wind: seq<real>, k: nat): (r: seq<real>)
    requires k <= |tMax| && k <= |tMin| && k <= |precip| && k <= |wind|
    ensures |r| == k
  {
    if k == 0 then []
    else
      var prev := ComputedScores(m, currentRisk, tMax, tMin, precip, wind, k - 1);
      var projection := DayProjection(currentRisk, tMax[k - 1], tMin[k - 1], precip[k - 1], wind[k - 1]);
      prev + [DayScore(m, projection, if k == 1 then None else Some(prev[k - 2]))]
  }

  /** Every computed score lies in [0, 100]. */
  lemma {:induction false} ComputedScoresInRange(m: Ops, currentRisk: real, tMax: seq<real>, tMin: seq<real>,
                                                 precip: seq<real>, wind: seq<real>, k: nat)
    requires RoundLaws(m)
    requires k <= |tMax| && k <= |tMin| && k <= |precip| && k <= |wind|
    ensures forall i :: 0 <= i < k ==> 0.0 <= ComputedScores(m, currentRisk, tMax, tMin, precip, wind, k)[i] <= 100.0
  {
    if k > 0 {
      ComputedScoresInRange(m, currentRisk, tMax, tMin, precip, wind, k - 1);
      var prev := ComputedScores(m, currentRisk, tMax, tMin, precip, wind, k - 1);
      var projection := DayProjection(currentRisk, tMax[k - 1], tMin[k - 1], precip[k - 1], wind[k - 1]);
      DayScoreInRange(m, projection, if k == 1 then None else Some(prev[k - 2]));
    }
  }

  /** Pads with the last score, or with the current risk when there is none, up to seven entries. */
  function PadScores(s: seq<real>, currentRisk: real): (r: seq<real>)
    requires |s| <= 7
    ensures |r| == 7
    ensures r[..|s|] == s
    ensures forall i :: |s| <= i < 7 ==> r[i] == (if |s| > 0 then s[|s| - 1] else currentRisk)
  {
    s + seq(7 - |s|, _ => if |s| > 0 then s[|s| - 1] else currentRisk)
  }

  /** The forecast loop followed by the padding loop. */
  method ProjectRiskScores(m: Ops, currentRisk: real, tMax: seq<real>, tMin: seq<real>, precip: seq<real>,
                           wind: seq<real>) returns (scores: seq<real>)
    requires |tMax| <= |tMin| && |tMax| <= |precip| && |tMax| <= |wind|
    ensures |scores| == 7
    ensures scores == PadScores(ComputedScores(m, currentRisk, tMax, tMin, precip, wind, if |tMax| < 7 then |tMax| else 7), currentRisk)
  {
    var days := if |tMax| < 7 then |tMax| else 7;
    scores := [];
    for i := 0 to days
      invariant scores == ComputedScores(m, currentRisk, tMax, tMin, precip, wind, i)
    {
      var projected := DayProjection(currentRisk, tMax[i], tMin[i], precip[i], wind[i]);
      var previous := if i > 0 then Some(scores[|scores| - 1]) else None;
      scores := scores + [DayScore(m, projected, previous)];
    }
    ghost var computed := scores;
    while |scores| < 7
      invariant days <= |scores| <= 7
      invariant scores[..days] == computed
      invariant forall j :: days <= j < |scores| ==> scores[j] == (if days > 0 then computed[days - 1] else currentRisk)
    {
      scores := scores + [if |scores| > 0 then scores[|scores| - 1] else currentRisk];
    }
  }

  /** Every computed day after the first blends its projection with the score stored the day before. */
  lemma MomentumReadsPreviousScore(m: Ops, currentRisk: real, tMax: seq<real>, tMin: seq<real>, precip: seq<real>,
                                   wind: seq<real>, k: nat, i: nat)
    requires k <= |tMax| && k <= |tMin| && k <= |precip| && k <= |wind| && 0 < i < k
    ensures var s := ComputedScores(m, currentRisk, tMax, tMin, precip, wind, k);
            s[i] == m.round(Clip(DayProjection(currentRisk, tMax[i], tMin[i], precip[i], wind[i]) * 0.7 + s[i - 1] * 0.3, 0.0, 100.0), 1)
    ensures ComputedScores(m, currentRisk, tMax, tMin, precip, wind, k)[0]
              == m.round(Clip(DayProjection(currentRisk, tMax[0], tMin[0], precip[0], wind[0]), 0.0, 100.0), 1)
  {
    ComputedScoresPrefix(m, currentRisk, tMax, tMin, precip, wind, i + 1, k);
    ComputedScoresPrefix(m, currentRisk, tMax, tMin, precip, wind, 1, k);
  }

  /** Computing more days never changes the days already computed. */
  lemma {:induction false} ComputedScoresPrefix(m: Ops, currentRisk: real, tMax: seq<real>, tMin: seq<real>,
                                                precip: seq<real>, wind: seq<real>, j: nat, k: nat)
    requires j <= k <= |tMax| && k <= |tMin| && k <= |precip| && k <= |wind|
    ensures ComputedScores(m, currentRisk, tMax, tMin, precip, wind, k)[..j]
         == ComputedScores(m, currentRisk, tMax, tMin, precip, wind, j)
  {
    if j < k {
      var ck := ComputedScores(m, currentRisk, tMax, tMin, precip, wind, k);
      var ck1 := ComputedScores(m, currentRisk, tMax, tMin, precip, wind, k - 1);
      assert ck[..k - 1] == ck1;
      ComputedScoresPrefix(m, currentRisk, tMax, tMin, precip, wind, j, k - 1);
      assert ck[..j] == ck[..k - 1][..j];
      assert ck1[..j] == ComputedScores(m, currentRisk, tMax, tMin, precip, wind, j);
    } else {
      var ck := ComputedScores(m, currentRisk, tMax, tMin, precip, wind, k);
      assert |ck| == k;
      assert ck[..j] == ck;
    }
  }

  /** The forecast dict; the confidence-band keys are absent (`None`) until they are added. */
  class Forecast {
    var dates: seq<string>
    var riskScores: seq<real>
    var tempMax: seq<real>
    var tempMin: seq<real>
    var precip: seq<real>
    var windMax: seq<real>
    var uvMax: seq<real>
    var upperBand: Option<seq<real>>
    var lowerBand: Option<seq<real>>
    var bandConfidence: Option<string>

    constructor(dates: seq<string>, riskScores: seq<real>, tempMax: seq<real>, tempMin: seq<real>,
                precip: seq<real>, windMax: seq<real>, uvMax: seq<real>)
      ensures this.dates == dates && this.riskScores == riskScores
      ensures this.tempMax == tempMax && this.tempMin == tempMin && this.precip == precip
      ensures this.windMax == windMax && this.uvMax == uvMax
      ensures upperBand.None? && lowerBand.None? && bandConfidence.None?
    {
      this.dates := dates;
      this.riskScores := riskScores;
      this.tempMax := tempMax;
      this.tempMin := tempMin;
      this.precip := precip;
      this.windMax := windMax;
      this.uvMax := uvMax;
      upperBand := None;
      lowerBand := None;
      bandConfidence := None;
    }
  }

  /**
   * Builds the forecast. `fromToday` stands for the seven dates generated
   * from the clock when fewer than seven raw dates are available.
   */
  method Build7DayForecast(m: Ops, daily: DailyWeather, currentRisk: real, fromToday: seq<string>)
    returns (f: Forecast)
    requires |fromToday| == 7
    ensures fresh(f)
    ensures f.dates == ForecastDates(daily.time, fromToday)
    ensures var n := |daily.time|;
            && f.tempMax == SafeSliceOf(daily.temperatureMax, n, 20.0)
            && f.tempMin == SafeSliceOf(daily.temperatureMin, n, 10.0)
            && f.precip == SafeSliceOf(daily.precipitationSum, n, 0.0)
            && f.windMax == SafeSliceOf(daily.windSpeedMax, n, 10.0)
            && f.uvMax == SafeSliceOf(daily.uvIndexMax, n, 3.0)
            && f.riskScores == PadScores(ComputedScores(m, currentRisk, f.tempMax, f.tempMin, f.precip, f.windMax,
                                                        ForecastDays(n)), currentRisk)
    ensures |f.riskScores| == 7 && |f.dates| == 7
    ensures f.upperBand.None? && f.lowerBand.None? && f.bandConfidence.None?
  {
    var n := |daily.time|;
    var tMax := SafeSlice(daily.temperatureMax, n, 20.0);
    var tMin := SafeSlice(daily.temperatureMin, n, 10.0);
    var pSum := SafeSlice(daily.precipitationSum, n, 0.0);
    var wMax := SafeSlice(daily.windSpeedMax, n, 10.0);
    var uMax := SafeSlice(daily.uvIndexMax, n, 3.0);
    var scores := ProjectRiskScores(m, currentRisk, tMax, tMin, pSum, wMax);
    f := new Forecast(ForecastDates(daily.time, fromToday), scores, tMax, tMin, pSum, wMax, uMax);
  }

  /** Every stored score lies in [0, 100] whenever the current risk does (it is only used as padding when no day was computed). */
  lemma ForecastScoresInRange(m: Ops, currentRisk: real, tMax: seq<real>, tMin: seq<real>, precip: seq<real>, wind: seq<real>)
    requires RoundLaws(m) && 0.0 <= currentRisk <= 100.0
    requires |tMax| <= |tMin| && |tMax| <= |precip| && |tMax| <= |wind|
    ensures var s := PadScores(ComputedScores(m, currentRisk, tMax, tMin, precip, wind, if |tMax| < 7 then |tMax| else 7), currentRisk);
            forall i :: 0 <= i < 7 ==> 0.0 <= s[i] <= 100.0
  {
    var k := if |tMax| < 7 then |tMax| else 7;
    var c := ComputedScores(m, currentRisk, tMax, tMin, precip, wind, k);
    var s := PadScores(c, currentRisk);
    ComputedScoresInRange(m, currentRisk, tMax, tMin, precip, wind, k);
    forall i | 0 <= i < 7 ensures 0.0 <= s[i] <= 100.0 {
      if i < k {
        assert s[i] == s[..k][i] == c[i];
      }
    }
  }

  /** With no raw dates every one of the seven scores is the current risk. */
  lemma NoDatesGivesCurrentRisk(m: Ops, daily: DailyWeather, currentRisk: real)
    requires |daily.time| == 0
    ensures var n := |daily.time|;
            var s := PadScores(ComputedScores(m, currentRisk, SafeSliceOf(daily.temperatureMax, n, 20.0),
                                              SafeSliceOf(daily.temperatureMin, n, 10.0), SafeSliceOf(daily.precipitationSum, n, 0.0),
                                              SafeSliceOf(daily.windSpeedMax, n, 10.0), ForecastDays(n)), currentRisk);
            s == seq(7, _ => currentRisk)
  {
  }
}
