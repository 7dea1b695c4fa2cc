/**
 * The feature pipeline: turns the raw data bundle (current weather, daily
 * and hourly series, rainfall history, land use, historical temperatures)
 * into the feature vector read by every model. Missing dict keys and `None`
 * list entries are `None`; the day of the year (from the clock) and the
 * seasonal least-squares fit are parameters.
 */
module FeaturePipeline {
  import opened Numerics
  import opened Stats
  import TemperatureFeatures

  // ---------------------------------------------------------------- raw input

  datatype HistoryRow = HistoryRow(tempMean: Option<real>, dayOfYear: real)

  datatype LandUse = LandUse(cropland: Option<real>, urban: Option<real>, forest: Option<real>, wetland: Option<real>)

  datatype RawData = RawData(
    currentTemperature: Option<real>,
    uvIndex: Option<real>,
    cloudCover: Option<real>,
    dailyTempMax: seq<Option<real>>,
    dailyTempMin: seq<Option<real>>,
    dailyPrecipitation: seq<Option<real>>,
    hourlyWind: seq<Option<real>>,
    historicalTemp: Option<seq<HistoryRow>>,
    rainfallHistory: Option<seq<Option<real>>>,
    landUse: LandUse,
    lat: Option<real>)

  // ---------------------------------------------------------------- feature vector

  datatype TemperatureFactor = WarmWater(waterTemp: real) | AboveNormal(anomaly: real) | BelowNormal(anomaly: real)

  datatype StagnationFactor = LowWind | DrySpell(days: nat)

  datatype NutrientFactor = HighAgriculture(pct: real) | UrbanRunoff(pct: real) | RecentRainFlush

  datatype LightFactor = HighUv(uv: real) | ClearSkies

  datatype TemperatureBlock = TemperatureBlock(
    currentAirTemp: real,
    waterTemp: real,
    seasonalBaseline: Option<real>,
    tempAnomalyC: Option<real>,
    diurnalRange: real,
    factors: seq<TemperatureFactor>)

  datatype StagnationBlock = StagnationBlock(
    avgWind7d: real,
    diurnalRange: real,
    waterTemp: real,
    rainfallDeficit30d: real,
    factors: seq<StagnationFactor>)

  datatype PrecipitationBlock = PrecipitationBlock(
    rainfall7d: real,
    rainfall48h: real,
    daysSinceSignificantRain: nat,
    rainfallDeficit30d: real,
    stagnationIndex: real)

  datatype NutrientBlock = NutrientBlock(
    agriculturalPct: real,
    urbanPct: real,
    forestPct: real,
    wetlandPct: real,
    factors: seq<NutrientFactor>)

  datatype LightBlock = LightBlock(uvIndex: real, cloudCover: real, latitude: real, dayOfYear: int, factors: seq<LightFactor>)

  datatype FeatureVector = FeatureVector(
    temperature: TemperatureBlock,
    nutrients: NutrientBlock,
    stagnation: StagnationBlock,
    light: LightBlock,
    precipitation: PrecipitationBlock,
    waterTemp: real,
    airTemp: real)

  // ---------------------------------------------------------------- days since significant rain

  /** A day with at least 5 mm of rain; a missing value counts as dry. */
  predicate Wet(v: Option<real>) {
    v.Some? && v.value >= 5.0
  }

  /**
   * Walk the series from the most recent day backwards and count the dry
   * days before the first wet one: the result is the length of the dry run
   * that ends the series.
   */
  method DaysSinceSignificantRain(precip: seq<Option<real>>) returns (days: nat)
    ensures days <= |precip|
    ensures forall k :: |precip| - days <= k < |precip| ==> !Wet(precip[k])
    ensures days < |precip| ==> Wet(precip[|precip| - 1 - days])
  {
    days := 0;
    while days < |precip| && !Wet(precip[|precip| - 1 - days])
      invariant days <= |precip|
      invariant forall k :: |precip| - days <= k < |precip| ==> !Wet(precip[k])
    {
      days := days + 1;
    }
  }

  /** `days` is the number of dry days that end the series. */
  ghost predicate DryRunLength(precip: seq<Option<real>>, days: nat) {
    && days <= |precip|
    && (forall k :: |precip| - days <= k < |precip| ==> !Wet(precip[k]))
    && (days < |precip| ==> Wet(precip[|precip| - 1 - days]))
  }

  /** The rainfall history when it has rows, otherwise the daily precipitation list. */
  function RainSeries(raw: RawData): (r: seq<Option<real>>)
    ensures raw.rainfallHistory.Some? && |raw.rainfallHistory.value| > 0 ==> r == raw.rainfallHistory.value
    ensures raw.rainfallHistory.None? || |raw.rainfallHistory.value| == 0 ==> r == raw.dailyPrecipitation
  {
    if raw.rainfallHistory.Some? && |raw.rainfallHistory.value| > 0 then raw.rainfallHistory.value
    else raw.dailyPrecipitation
  }

  // ---------------------------------------------------------------- rainfall sums and deficit

  /** The sum of the non-missing values among the last k entries. */
  function RecentRain(precip: seq<Option<real>>, k: nat): real {
    Sum(Present(LastN(precip, k)))
  }

  predicate NonNegative(s: seq<Option<real>>) {
    forall i :: 0 <= i < |s| ==> s[i].Some? ==> s[i].value >= 0.0
  }

  /** With no negative readings, the last 2 days never hold more rain than the last 7. */
  lemma Rain48hAtMost7d(precip: seq<Option<real>>)
    requires NonNegative(precip)
    ensures 0.0 <= RecentRain(precip, 2) <= RecentRain(precip, 7)
  {
    var last7 := LastN(precip, 7);
    var last2 := LastN(precip, 2);
    assert last2 == last7[|last7| - |last2|..];
    assert NonNegative(last7);
    PresentSumSuffix(last7, |last7| - |last2|);
  }

  lemma {:induction false} PresentSumNonNegative(s: seq<Option<real>>)
    requires NonNegative(s)
    ensures Sum(Present(s)) >= 0.0
  {
    if |s| > 0 {
      var init := s[..|s| - 1];
      assert NonNegative(init);
      PresentSumNonNegative(init);
      if s[|s| - 1].Some? {
        SumAppend(Present(init), s[|s| - 1].value);
      }
    }
  }

  /** Dropping a prefix of non-negative readings cannot raise the total. */
  lemma {:induction false} PresentSumSuffix(s: seq<Option<real>>, j: nat)
    requires j <= |s| && NonNegative(s)
    ensures 0.0 <= Sum(Present(s[j..])) <= Sum(Present(s))
    decreases |s|
  {
    if j == |s| {
      assert s[j..] == [];
      PresentSumNonNegative(s);
    } else {
      var init := s[..|s| - 1];
      assert NonNegative(init);
      PresentSumSuffix(init, j);
      assert s[j..][..|s[j..]| - 1] == init[j..];
      assert s[j..][|s[j..]| - 1] == s[|s| - 1];
      if s[|s| - 1].Some? {
        SumAppend(Present(init[j..]), s[|s| - 1].value);
        SumAppend(Present(init), s[|s| - 1].value);
      }
    }
  }

  /** 75 mm minus the 30-day total, never below 0; 30 mm when there is no rainfall history. */
  function RainfallDeficit(history: Option<seq<Option<real>>>): (r: real)
    ensures r >= 0.0
    ensures history.None? || |history.value| == 0 ==> r == 30.0
    ensures history.Some? && |history.value| > 0 ==>
              (r == 0.0 <==> Sum(Present(history.value)) >= 75.0)
              && r + Sum(Present(history.value)) >= 75.0
  {
    if history.Some? && |history.value| > 0 then Max(0.0, 75.0 - Sum(Present(history.value))) else 30.0
  }

  /** With non-negative readings the deficit is at most 75 mm. */
  lemma RainfallDeficitAtMost75(history: seq<Option<real>>)
    requires |history| > 0 && NonNegative(history)
    ensures RainfallDeficit(Some(history)) <= 75.0
  {
    PresentSumNonNegative(history);
  }

  // ---------------------------------------------------------------- wind, diurnal range, stagnation index

  /** The mean of the non-missing values among the last k entries, `None` when there are none. */
  function RecentMean(s: seq<Option<real>>, k: nat): (r: Option<real>)
    ensures r.None? <==> |Present(LastN(s, k))| == 0
    ensures r.Some? ==> SeqMin(Present(LastN(s, k))) <= r.value <= SeqMax(Present(LastN(s, k)))
  {
    var v := Present(LastN(s, k));
    if |v| == 0 then None
    else
      MeanBetweenExtremes(v);
      Some(Mean(v))
  }

  /** The mean hourly wind over the last 168 readings, 10 km/h when there is none. */
  function AvgWind7d(hourly: seq<Option<real>>): (r: real)
    ensures |Present(LastN(hourly, 168))| == 0 ==> r == 10.0
    ensures |Present(LastN(hourly, 168))| > 0 ==>
              SeqMin(Present(LastN(hourly, 168))) <= r <= SeqMax(Present(LastN(hourly, 168)))
  {
    RecentMean(hourly, 168).GetOr(10.0)
  }

  /**
   * Mean of the last 7 daily maxima minus mean of the last 7 daily minima;
   * 8 degrees when either list is empty or holds no value in its last 7.
   */
  function DiurnalRange(maxs: seq<Option<real>>, mins: seq<Option<real>>): (r: real)
    ensures RecentMean(maxs, 7).None? || RecentMean(mins, 7).None? ==> r == 8.0
    ensures RecentMean(maxs, 7).Some? && RecentMean(mins, 7).Some? ==>
              r == RecentMean(maxs, 7).value - RecentMean(mins, 7).value
  {
    if |maxs| > 0 && |mins| > 0 then
      match (RecentMean(maxs, 7), RecentMean(mins, 7))
      case (Some(hi), Some(lo)) => hi - lo
      case _ => 8.0
    else 8.0
  }

  /** When every recent maximum is at least every recent minimum, the range is not negative. */
  lemma DiurnalRangeNonNegative(maxs: seq<Option<real>>, mins: seq<Option<real>>)
    requires forall x, y :: x in Present(LastN(maxs, 7)) && y in Present(LastN(mins, 7)) ==> y <= x
    ensures DiurnalRange(maxs, mins) >= 0.0
  {
    var hi := Present(LastN(maxs, 7));
    var lo := Present(LastN(mins, 7));
    if |hi| > 0 && |lo| > 0 {
      assert SeqMax(lo) <= SeqMin(hi);
    }
  }

  /** min(1, days / 14 * 0.5 + (1 - min(wind, 20) / 20) * 0.5): always in [0, 1]. */
  function StagnationIndex(days: nat, wind: real): (r: real)
    ensures 0.0 <= r <= 1.0
    ensures days >= 14 && wind <= 0.0 ==> r == 1.0
  {
    Min(1.0, (days as real / 14.0) * 0.5 + (1.0 - Min(wind, 20.0) / 20.0) * 0.5)
  }

  /** A longer dry spell or calmer air never lowers the index. */
  lemma StagnationIndexMonotone(d1: nat, d2: nat, w1: real, w2: real)
    requires d1 <= d2 && w2 <= w1
    ensures StagnationIndex(d1, w1) <= StagnationIndex(d2, w2)
  {
  }

  /** The index rounded to three decimals keeps its range. */
  lemma RoundedStagnationIndexInRange(m: Ops, days: nat, wind: real)
    requires RoundLaws(m)
    ensures 0.0 <= m.round(StagnationIndex(days, wind), 3) <= 1.0
  {
    var x := StagnationIndex(days, wind);
    RoundFixes(m, 0.0, 3);
    RoundFixes(m, 1.0, 3);
    RoundMonotone(m, 0.0, x, 3);
    RoundMonotone(m, x, 1.0, 3);
  }

  // ---------------------------------------------------------------- factor lists

  /** Warm water at 25 degrees or more; above normal beyond +2, below normal beyond -2 (NaN raises neither). */
  function TemperatureFactors(waterTemp: real, anomaly: Option<real>): (r: seq<TemperatureFactor>)
    ensures |r| <= 2
    ensures WarmWater(waterTemp) in r <==> waterTemp >= 25.0
    ensures anomaly.Some? ==> (AboveNormal(anomaly.value) in r <==> anomaly.value > 2.0)
    ensures anomaly.Some? ==> (BelowNormal(anomaly.value) in r <==> anomaly.value < -2.0)
    ensures forall f :: f in r ==>
              f == WarmWater(waterTemp) || (anomaly.Some? && (f == AboveNormal(anomaly.value) || f == BelowNormal(anomaly.value)))
  {
    var warm := if waterTemp >= 25.0 then [WarmWater(waterTemp)] else [];
    var anomalyFactor :=
      if anomaly.Some? && anomaly.value > 2.0 then [AboveNormal(anomaly.value)]
      else if anomaly.Some? && anomaly.value < -2.0 then [BelowNormal(anomaly.value)]
      else [];
    assert forall f :: f in warm + anomalyFactor <==> f in warm || f in anomalyFactor;
    warm + anomalyFactor
  }

  /** Low wind below 8 km/h; a dry spell beyond 7 days. */
  function StagnationFactors(avgWind: real, days: nat): (r: seq<StagnationFactor>)
    ensures LowWind in r <==> avgWind < 8.0
    ensures DrySpell(days) in r <==> days > 7
    ensures forall f :: f in r ==> f == LowWind || f == DrySpell(days)
  {
    (if avgWind < 8.0 then [LowWind] else []) + (if days > 7 then [DrySpell(days)] else [])
  }

  /** High agriculture above 25 %, urban runoff above 10 %, and a rain flush after > 10 mm in 48 h within 2 days of rain. */
  function NutrientFactors(cropPct: real, urbanPct: real, days: nat, rain48h: real): (r: seq<NutrientFactor>)
    ensures HighAgriculture(cropPct) in r <==> cropPct > 25.0
    ensures UrbanRunoff(urbanPct) in r <==> urbanPct > 10.0
    ensures RecentRainFlush in r <==> days <= 2 && rain48h > 10.0
    ensures |r| <= 3
  {
    (if cropPct > 25.0 then [HighAgriculture(cropPct)] else [])
    + (if urbanPct > 10.0 then [UrbanRunoff(urbanPct)] else [])
    + (if days <= 2 && rain48h > 10.0 then [RecentRainFlush] else [])
  }

  /** High UV above 6; clear skies below 30 % cloud. */
  function LightFactors(uv: real, cloud: real): (r: seq<LightFactor>)
    ensures HighUv(uv) in r <==> uv > 6.0
    ensures ClearSkies in r <==> cloud < 30.0
    ensures |r| <= 2
  {
    (if uv > 6.0 then [HighUv(uv)] else []) + (if cloud < 30.0 then [ClearSkies] else [])
  }

  // ---------------------------------------------------------------- seasonal anomaly

  /** Fewer historical rows than this and the baseline is today's temperature. */
  const MinBaselineRows: nat := 30

  /**
   * The baseline and anomaly: today's temperature rounded and 0 when the
   * history is missing or short, otherwise the last-day baseline and the
   * anomaly of the temperature features.
   */
  function SeasonalAnomaly(m: Ops, history: Option<seq<HistoryRow>>, currentTemp: real, fit: Option<real -> real>)
    : (r: (Option<real>, Option<real>))
    requires ExpLaws(m) && RoundLaws(m)
    ensures history.None? || |history.value| < MinBaselineRows ==> r == (Some(m.round(currentTemp, 1)), Some(0.0))
    ensures history.Some? && |history.value| >= MinBaselineRows ==>
              r == HistoryFeatures(m, history.value, currentTemp, fit)
  {
    if history.None? || |history.value| < MinBaselineRows then (Some(m.round(currentTemp, 1)), Some(0.0))
    else HistoryFeatures(m, history.value, currentTemp, fit)
  }

  /** The last-day baseline and anomaly that the temperature features compute from the history columns. */
  function HistoryFeatures(m: Ops, h: seq<HistoryRow>, currentTemp: real, fit: Option<real -> real>)
    : (r: (Option<real>, Option<real>))
    requires ExpLaws(m) && RoundLaws(m)
  {
    var feats := TemperatureFeatures.ExtractAllFeatures(m, TempColumn(h), DoyColumn(h), currentTemp, fit);
    (feats.seasonalBaseline, feats.anomalyC)
  }

  function TempColumn(h: seq<HistoryRow>): (r: seq<Option<real>>)
    ensures |r| == |h| && forall i :: 0 <= i < |h| ==> r[i] == h[i].tempMean
  {
    seq(|h|, i requires 0 <= i < |h| => h[i].tempMean)
  }

  function DoyColumn(h: seq<HistoryRow>): (r: seq<Option<real>>)
    ensures |r| == |h| && forall i :: 0 <= i < |h| ==> r[i] == Some(h[i].dayOfYear)
  {
    seq(|h|, i requires 0 <= i < |h| => Some(h[i].dayOfYear))
  }

  // ---------------------------------------------------------------- the feature vector

  /**
   * The feature vector of a raw bundle. `dayOfYear` is today's day of the
   * year and `fit` the seasonal least-squares fit of the history.
   */
  method BuildFeatureVector(m: Ops, raw: RawData, dayOfYear: int, fit: Option<real -> real>) returns (fv: FeatureVector)
    requires ExpLaws(m) && RoundLaws(m)
    ensures fv.airTemp == raw.currentTemperature.GetOr(20.0)
    ensures fv.temperature.currentAirTemp == fv.airTemp
    ensures fv.waterTemp == TemperatureFeatures.EstimateWaterTemp(m, fv.airTemp) && fv.waterTemp >= 0.0
    ensures fv.temperature.waterTemp == fv.waterTemp == fv.stagnation.waterTemp
    ensures (fv.temperature.seasonalBaseline, fv.temperature.tempAnomalyC)
            == SeasonalAnomaly(m, raw.historicalTemp, fv.airTemp, fit)
    ensures fv.temperature.diurnalRange == fv.stagnation.diurnalRange == DiurnalRange(raw.dailyTempMax, raw.dailyTempMin)
    ensures fv.temperature.factors == TemperatureFactors(fv.waterTemp, fv.temperature.tempAnomalyC)
    ensures fv.stagnation.avgWind7d == AvgWind7d(raw.hourlyWind)
    ensures fv.precipitation.rainfall7d == RecentRain(raw.dailyPrecipitation, 7)
    ensures fv.precipitation.rainfall48h == RecentRain(raw.dailyPrecipitation, 2)
    ensures DryRunLength(RainSeries(raw), fv.precipitation.daysSinceSignificantRain)
    ensures fv.precipitation.rainfallDeficit30d == fv.stagnation.rainfallDeficit30d == RainfallDeficit(raw.rainfallHistory)
    ensures fv.precipitation.stagnationIndex
            == m.round(StagnationIndex(fv.precipitation.daysSinceSignificantRain, fv.stagnation.avgWind7d), 3)
    ensures 0.0 <= fv.precipitation.stagnationIndex <= 1.0
    ensures fv.stagnation.factors == StagnationFactors(fv.stagnation.avgWind7d, fv.precipitation.daysSinceSignificantRain)
    ensures fv.nutrients.agriculturalPct == raw.landUse.cropland.GetOr(0.0) * 100.0
    ensures fv.nutrients.urbanPct == raw.landUse.urban.GetOr(0.0) * 100.0
    ensures fv.nutrients.forestPct == raw.landUse.forest.GetOr(0.0) * 100.0
    ensures fv.nutrients.wetlandPct == raw.landUse.wetland.GetOr(0.0) * 100.0
    ensures fv.nutrients.factors == NutrientFactors(fv.nutrients.agriculturalPct, fv.nutrients.urbanPct,
                                                   fv.precipitation.daysSinceSignificantRain, fv.precipitation.rainfall48h)
    ensures fv.light == LightBlock(raw.uvIndex.GetOr(3.0), raw.cloudCover.GetOr(50.0), raw.lat.GetOr(45.0), dayOfYear,
                                   LightFactors(raw.uvIndex.GetOr(3.0), raw.cloudCover.GetOr(50.0)))
  {
    var airTemp := raw.currentTemperature.GetOr(20.0);
    var waterTemp := TemperatureFeatures.EstimateWaterTemp(m, airTemp);
    var seasonal := SeasonalAnomaly(m, raw.historicalTemp, airTemp, fit);
    var diurnal := DiurnalRange(raw.dailyTempMax, raw.dailyTempMin);
    var temperature := TemperatureBlock(airTemp, waterTemp, seasonal.0, seasonal.1, diurnal,
                                        TemperatureFactors(waterTemp, seasonal.1));

    var avgWind := AvgWind7d(raw.hourlyWind);
    var rain7d := RecentRain(raw.dailyPrecipitation, 7);
    var rain48h := RecentRain(raw.dailyPrecipitation, 2);
    var rain := RainSeries(raw);
    var days := DaysSinceSignificantRain(rain);
    assert DryRunLength(rain, days);
    var deficit := RainfallDeficit(raw.rainfallHistory);
    var stagIdx := StagnationIndex(days, avgWind);
    RoundedStagnationIndexInRange(m, days, avgWind);

    var stagnation := StagnationBlock(avgWind, diurnal, waterTemp, deficit, StagnationFactors(avgWind, days));
    var precipitation := PrecipitationBlock(rain7d, rain48h, days, deficit, m.round(stagIdx, 3));

    var cropPct := raw.landUse.cropland.GetOr(0.0) * 100.0;
    var urbanPct := raw.landUse.urban.GetOr(0.0) * 100.0;
    var nutrients := NutrientBlock(cropPct, urbanPct, raw.landUse.forest.GetOr(0.0) * 100.0,
                                   raw.landUse.wetland.GetOr(0.0) * 100.0,
                                   NutrientFactors(cropPct, urbanPct, days, rain48h));

    var uv := raw.uvIndex.GetOr(3.0);
    var cloud := raw.cloudCover.GetOr(50.0);
    var light := LightBlock(uv, cloud, raw.lat.GetOr(45.0), dayOfYear, LightFactors(uv, cloud));

    fv := FeatureVector(temperature, nutrients, stagnation, light, precipitation, waterTemp, airTemp);
  }
}
