/**
 * Confidence bands around the forecast scores: a half-width that depends on
 * the data-quality tier and grows by 2.5 per forecast day, capped to
 * [0, 100]; the bands are added to the forecast dict in place.
 */
module Uncertainty {
  import opened Numerics
  import opened ForecastEngine

  /** The tier read from the data-quality dict; a missing key is read as MEDIUM. */
  function BaseWidth(confidence: Option<string>): (r: real)
    ensures confidence.None? || confidence.value == "MEDIUM" ==> r == 10.0
    ensures confidence == Some("HIGH") ==> r == 5.0
    ensures confidence == Some("LOW") ==> r == 18.0
    ensures confidence.Some? && confidence.value !in {"HIGH", "MEDIUM", "LOW"} ==> r == 12.0
  {
    match confidence.GetOr("MEDIUM")
    case "HIGH" => 5.0
    case "MEDIUM" => 10.0
    case "LOW" => 18.0
    case _ => 12.0
  }

  function DayWidth(base: real, i: nat): real {
    base + i as real * 2.5
  }

  function UpperAt(m: Ops, s: real, base: real, i: nat): real {
    m.round(Min(100.0, s + DayWidth(base, i)), 1)
  }

  function LowerAt(m: Ops, s: real, base: real, i: nat): real {
    m.round(Max(0.0, s - DayWidth(base, i)), 1)
  }

  /**
   * The upper bound never exceeds 100 and the lower bound is never negative;
   * a score in [0, 100] that one-decimal rounding leaves unchanged lies
   * between its two bounds.
   */
  lemma BandsBracketScore(m: Ops, s: real, base: real, i: nat)
    requires RoundLaws(m) && base >= 0.0
    ensures UpperAt(m, s, base, i) <= 100.0
    ensures LowerAt(m, s, base, i) >= 0.0
    ensures 0.0 <= s <= 100.0 && m.round(s, 1) == s ==> LowerAt(m, s, base, i) <= s <= UpperAt(m, s, base, i)
  {
    RoundFixes(m, 100.0, 1);
    RoundFixes(m, 0.0, 1);
    RoundMonotone(m, Min(100.0, s + DayWidth(base, i)), 100.0, 1);
    RoundMonotone(m, 0.0, Max(0.0, s - DayWidth(base, i)), 1);
    if 0.0 <= s <= 100.0 {
      RoundMonotone(m, Max(0.0, s - DayWidth(base, i)), s, 1);
      RoundMonotone(m, s, Min(100.0, s + DayWidth(base, i)), 1);
    }
  }

  /** Bands widen with the horizon: a later day's half-width is larger by 2.5 per day. */
  lemma DayWidthGrows(base: real, i: nat, j: nat)
    requires i <= j
    ensures DayWidth(base, j) - DayWidth(base, i) == (j - i) as real * 2.5
  {
  }

  /** The loop over the scores, appending one upper and one lower bound per day. */
  method BandsOf(m: Ops, scores: seq<real>, base: real) returns (upper: seq<real>, lower: seq<real>)
    ensures |upper| == |scores| && |lower| == |scores|
    ensures forall i :: 0 <= i < |scores| ==> upper[i] == UpperAt(m, scores[i], base, i) && lower[i] == LowerAt(m, scores[i], base, i)
  {
    upper, lower := [], [];
    for i := 0 to |scores|
      invariant |upper| == i && |lower| == i
      invariant forall j :: 0 <= j < i ==> upper[j] == UpperAt(m, scores[j], base, j) && lower[j] == LowerAt(m, scores[j], base, j)
    {
      var dayWidth := base + i as real * 2.5;
      upper := upper + [m.round(Min(100.0, scores[i] + dayWidth), 1)];
      lower := lower + [m.round(Max(0.0, scores[i] - dayWidth), 1)];
    }
  }

  /**
   * Adds upper_band, lower_band and band_confidence to the forecast in place
   * and returns the same object; every other key is left as it was.
   */
  method ComputeConfidenceBands(m: Ops, forecast: Forecast, confidence: Option<string>) returns (r: Forecast)
    modifies forecast`upperBand, forecast`lowerBand, forecast`bandConfidence
    ensures r == forecast
    ensures forecast.upperBand.Some? && forecast.lowerBand.Some?
    ensures |forecast.upperBand.value| == |forecast.riskScores| && |forecast.lowerBand.value| == |forecast.riskScores|
    ensures forall i :: 0 <= i < |forecast.riskScores| ==>
              && forecast.upperBand.value[i] == UpperAt(m, forecast.riskScores[i], BaseWidth(confidence), i)
              && forecast.lowerBand.value[i] == LowerAt(m, forecast.riskScores[i], BaseWidth(confidence), i)
    ensures forecast.bandConfidence == Some(confidence.GetOr("MEDIUM"))
    ensures unchanged(forecast`dates, forecast`riskScores, forecast`tempMax, forecast`tempMin)
    ensures unchanged(forecast`precip, forecast`windMax, forecast`uvMax)
  {
    var tier := confidence.GetOr("MEDIUM");
    var upper, lower := BandsOf(m, forecast.riskScores, BaseWidth(confidence));
    forecast.upperBand := Some(upper);
    forecast.lowerBand := Some(lower);
    forecast.bandConfidence := Some(tier);
    r := forecast;
  }
}
