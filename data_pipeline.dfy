/**
 * The data pipeline: fetches the five external sources for one location
 * (current weather with its forecast, five years of daily temperatures, the
 * last month of rainfall, land use, the CyFi satellite prediction), records
 * every failed source in the object's `errors` dictionary, builds the 5 x 5
 * synthetic thermal grid and rates the data quality by how many sources
 * failed.
 *
 * What each external call returned, or the message of the exception it
 * raised, is a parameter (`Fetch`); so are the random noise of the thermal
 * grid and the clock.
 */
module DataFetch {
  import opened Numerics
  import CyfiClient

  /** What an external call produced: its value, or the message of the exception it raised. */
  datatype Fetch<+T> = Got(value: T) | Raised(message: string)

  // ---------------------------------------------------------------- error keys

  /** The five sources; each records at most one error, under its own key. */
  datatype Source = WeatherKey | HistoricalKey | RainfallKey | LandUseKey | CyfiKey

  /** The key a source's error is recorded under. */
  function KeyName(s: Source): string
  {
    match s
    case WeatherKey => "weather"
    case HistoricalKey => "historical_temp"
    case RainfallKey => "rainfall_history"
    case LandUseKey => "land_use"
    case CyfiKey => "cyfi"
  }

  /** Distinct sources write distinct keys, so a dictionary keyed by `Source` is the dictionary keyed by name. */
  lemma KeyNamesDistinct(s: Source, t: Source)
    ensures KeyName(s) == KeyName(t) <==> s == t
  {
  }

  const SourceKeys: set<Source> := {WeatherKey, HistoricalKey, RainfallKey, LandUseKey, CyfiKey}

  const TotalSources: int := 5

  const LandUseMessage := "ESA WorldCover GeoTIFF not available; using heuristic fallback"
  const CyfiMessage := "CyFi API unavailable; no satellite bloom data"
  /** pandas refuses to build a frame from columns of different lengths. */
  const LengthMismatchMessage := "All arrays must be of the same length"

  // ---------------------------------------------------------------- data quality

  datatype Confidence = High | Medium | Low

  /** The tier of max(0, (5 - failed) / 5): HIGH from 0.8, MEDIUM from 0.5, LOW below. */
  function ConfidenceTier(failed: nat): (r: Confidence)
    ensures r == High <==> failed <= 1
    ensures r == Medium <==> failed == 2
    ensures r == Low <==> failed >= 3
  {
    var pct := Max(0.0, (TotalSources - failed) as real / TotalSources as real);
    if pct >= 0.8 then High else if pct >= 0.5 then Medium else Low
  }

  datatype DataQuality = DataQuality(confidence: Confidence, sourcesOk: int, sourcesTotal: int, errors: map<Source, string>)

  /** The data-quality block for a given error dictionary. */
  function QualityOf(errors: map<Source, string>): (q: DataQuality)
    ensures q.sourcesOk + |errors| == q.sourcesTotal == TotalSources
    ensures q.errors == errors
    ensures q.confidence == High <==> |errors| <= 1
  {
    DataQuality(ConfidenceTier(|errors|), TotalSources - |errors|, TotalSources, errors)
  }

  /** At most the five sources can be recorded as failed, so between 0 and 5 count as ok. */
  lemma SourcesOkInRange(errors: map<Source, string>)
    ensures 0 <= QualityOf(errors).sourcesOk <= TotalSources
  {
    assert errors.Keys <= SourceKeys by {
      forall s | s in errors.Keys
        ensures s in SourceKeys
      {
        match s
        case WeatherKey =>
        case HistoricalKey =>
        case RainfallKey =>
        case LandUseKey =>
        case CyfiKey =>
      }
    }
    SubsetCardinality(errors.Keys, SourceKeys);
    assert |SourceKeys| == 5;
  }

  lemma {:induction false} SubsetCardinality<T>(a: set<T>, b: set<T>)
    requires a <= b
    ensures |a| <= |b|
  {
    if a != {} {
      var x :| x in a;
      SubsetCardinality(a - {x}, b - {x});
    }
  }

  // ---------------------------------------------------------------- 1. weather

  /** The fields of the current-conditions answer; `None` is a missing key. */
  datatype CurrentResponse = CurrentResponse(
    temperature: Option<real>, humidity: Option<real>, windSpeed: Option<real>, windDirection: Option<real>,
    cloudCover: Option<real>, uvIndex: Option<real>, precipitation: Option<real>)

  datatype CurrentWeather = CurrentWeather(
    temperature: real, humidity: real, windSpeed: real, windDirection: real,
    cloudCover: real, uvIndex: real, precipitation: real)

  /** The lists of the daily forecast answer and its hourly block; `None` is a missing key. */
  datatype ForecastResponse = ForecastResponse(
    hourly: Option<map<string, seq<Option<real>>>>,
    dates: Option<seq<string>>,
    tempMax: Option<seq<Option<real>>>, tempMin: Option<seq<Option<real>>>,
    precipitation: Option<seq<Option<real>>>, windMax: Option<seq<Option<real>>>,
    uvMax: Option<seq<Option<real>>>)

  datatype DailyForecast = DailyForecast(
    time: seq<string>,
    temperature2mMax: seq<Option<real>>, temperature2mMin: seq<Option<real>>,
    precipitationSum: seq<Option<real>>, windSpeed10mMax: seq<Option<real>>,
    uvIndexMax: seq<Option<real>>)

  datatype Weather = Weather(current: CurrentWeather, hourly: map<string, seq<Option<real>>>, daily: DailyForecast)

  /**
   * The current block with its defaults: 0 everywhere except a wind direction
   * of 180 degrees. `None` is a missing key; a JSON null, which `.get` would
   * pass through unchanged, is not distinguished from it.
   */
  function CurrentOf(c: CurrentResponse): (r: CurrentWeather)
    ensures c.temperature.None? ==> r.temperature == 0.0
    ensures c.windDirection.None? ==> r.windDirection == 180.0
    ensures c.temperature.Some? ==> r.temperature == c.temperature.value
  {
    CurrentWeather(c.temperature.GetOr(0.0), c.humidity.GetOr(0.0), c.windSpeed.GetOr(0.0),
                   c.windDirection.GetOr(180.0), c.cloudCover.GetOr(0.0), c.uvIndex.GetOr(0.0),
                   c.precipitation.GetOr(0.0))
  }

  /** The daily block renamed to the feature pipeline's keys; a missing list is empty. */
  function DailyOf(f: ForecastResponse): (r: DailyForecast)
    ensures f.dates.Some? ==> r.time == f.dates.value
    ensures f.dates.None? ==> r.time == []
    ensures f.precipitation.None? ==> r.precipitationSum == []
  {
    DailyForecast(f.dates.GetOr([]), f.tempMax.GetOr([]), f.tempMin.GetOr([]),
                  f.precipitation.GetOr([]), f.windMax.GetOr([]), f.uvMax.GetOr([]))
  }

  // ---------------------------------------------------------------- 2. historical temperatures

  /** The daily archive answer; `None` is a missing key. */
  datatype HistoricalResponse = HistoricalResponse(
    dates: Option<seq<string>>, tempMean: Option<seq<Option<real>>>,
    tempMax: Option<seq<Option<real>>>, tempMin: Option<seq<Option<real>>>)

  /** One row of the historical frame before `dropna`. */
  datatype ArchiveRow = ArchiveRow(date: string, tempMean: Option<real>, tempMax: Option<real>, tempMin: Option<real>)

  /** One row of the historical frame after `dropna(subset=["temp_mean"])`. */
  datatype HistoricalRow = HistoricalRow(date: string, tempMean: real, tempMax: Option<real>, tempMin: Option<real>)

  function Measured(row: ArchiveRow): HistoricalRow
    requires row.tempMean.Some?
  {
    HistoricalRow(row.date, row.tempMean.value, row.tempMax, row.tempMin)
  }

  function Unmeasured(row: HistoricalRow): ArchiveRow
  {
    ArchiveRow(row.date, Some(row.tempMean), row.tempMax, row.tempMin)
  }

  /** `dropna` on the mean: the rows with a mean temperature, in their order. */
  function DropMissingMean(rows: seq<ArchiveRow>): (r: seq<HistoricalRow>)
    ensures |r| <= |rows|
    ensures forall i :: 0 <= i < |r| ==> Unmeasured(r[i]) in rows
    ensures forall i :: 0 <= i < |rows| && rows[i].tempMean.Some? ==> Measured(rows[i]) in r
    ensures (forall i :: 0 <= i < |rows| ==> rows[i].tempMean.Some?) ==> |r| == |rows|
  {
    if rows == [] then []
    else
      var rest := DropMissingMean(rows[1..]);
      assert forall i :: 1 <= i < |rows| ==> rows[i] == rows[1..][i - 1];
      if rows[0].tempMean.Some? then [Measured(rows[0])] + rest else rest
  }

  /** The historical frame, or the error pandas raises when the columns differ in length. */
  function HistoricalFrame(h: HistoricalResponse): (r: Result<seq<HistoricalRow>>)
    ensures r.Ok? <==> |h.dates.GetOr([])| == |h.tempMean.GetOr([])| == |h.tempMax.GetOr([])| == |h.tempMin.GetOr([])|
    ensures r.Ok? ==> |r.value| <= |h.dates.GetOr([])|
    ensures r.Ok? ==> forall i :: 0 <= i < |r.value| ==> r.value[i].date in h.dates.GetOr([])
  {
    var dates := h.dates.GetOr([]);
    var mean := h.tempMean.GetOr([]);
    var hi := h.tempMax.GetOr([]);
    var lo := h.tempMin.GetOr([]);
    if |dates| == |mean| == |hi| == |lo| then
      var rows := seq(|dates|, i requires 0 <= i < |dates| => ArchiveRow(dates[i], mean[i], hi[i], lo[i]));
      var kept := DropMissingMean(rows);
      assert forall i :: 0 <= i < |kept| ==> kept[i].date in dates by {
        forall i | 0 <= i < |kept| ensures kept[i].date in dates {
          var j :| 0 <= j < |rows| && rows[j] == Unmeasured(kept[i]);
          assert dates[j] == kept[i].date;
        }
      }
      Ok(kept)
    else Err(LengthMismatchMessage)
  }

  // ---------------------------------------------------------------- 3. rainfall history

  datatype RainfallResponse = RainfallResponse(
    dates: Option<seq<string>>, precipitation: Option<seq<Option<real>>>, windMax: Option<seq<Option<real>>>)

  datatype RainRow = RainRow(date: string, precipitation: Option<real>, windMax: Option<real>)

  /** The 30-day frame, one row per date, or the error raised for columns of different lengths. */
  function RainfallFrame(h: RainfallResponse): (r: Result<seq<RainRow>>)
    ensures r.Ok? <==> |h.dates.GetOr([])| == |h.precipitation.GetOr([])| == |h.windMax.GetOr([])|
    ensures r.Ok? ==> |r.value| == |h.dates.GetOr([])|
    ensures r.Ok? ==> forall i :: 0 <= i < |r.value| ==>
              r.value[i].date == h.dates.GetOr([])[i] && r.value[i].precipitation == h.precipitation.GetOr([])[i]
  {
    var dates := h.dates.GetOr([]);
    var rain := h.precipitation.GetOr([]);
    var wind := h.windMax.GetOr([]);
    if |dates| == |rain| == |wind| then
      Ok(seq(|dates|, i requires 0 <= i < |dates| => RainRow(dates[i], rain[i], wind[i])))
    else Err(LengthMismatchMessage)
  }

  // ---------------------------------------------------------------- 4. land use

  const Cropland := "Cropland"
  const Urban := "Urban"
  const Forest := "Forest"
  const Wetland := "Wetland"

  /** The latitude bands of the heuristic, by absolute latitude. */
  datatype LatitudeBand = Polar | Boreal | Temperate | Tropical

  function BandOf(lat: real): (b: LatitudeBand)
    ensures b == Polar <==> Abs(lat) > 60.0
    ensures b == Boreal <==> 45.0 < Abs(lat) <= 60.0
    ensures b == Temperate <==> 25.0 < Abs(lat) <= 45.0
    ensures b == Tropical <==> Abs(lat) <= 25.0
  {
    if Abs(lat) > 60.0 then Polar
    else if Abs(lat) > 45.0 then Boreal
    else if Abs(lat) > 25.0 then Temperate
    else Tropical
  }

  function LandUseSum(lu: map<string, real>): real
    requires Cropland in lu && Urban in lu && Forest in lu && Wetland in lu
  {
    lu[Cropland] + lu[Urban] + lu[Forest] + lu[Wetland]
  }

  /** Any land-use fraction is positive. */
  predicate AnyPositive(lu: map<string, real>)
  {
    exists k :: k in lu && lu[k] > 0.0
  }

  /**
   * The guess used without a raster: four fractions by latitude band, each
   * positive, summing to less than one, the same in both hemispheres.
   */
  function HeuristicLandUse(lat: real): (r: map<string, real>)
    ensures r.Keys == {Cropland, Urban, Forest, Wetland}
    ensures forall k :: k in r ==> 0.0 < r[k] < 1.0
    ensures LandUseSum(r) < 1.0
    ensures BandOf(lat) == Polar ==> r[Forest] > r[Cropland]
    ensures BandOf(lat) != Polar ==> r[Cropland] >= r[Forest]
  {
    match BandOf(lat)
    case Polar => map[Cropland := 0.05, Urban := 0.02, Forest := 0.60, Wetland := 0.15]
    case Boreal => map[Cropland := 0.35, Urban := 0.10, Forest := 0.30, Wetland := 0.10]
    case Temperate => map[Cropland := 0.40, Urban := 0.15, Forest := 0.20, Wetland := 0.08]
    case Tropical => map[Cropland := 0.30, Urban := 0.20, Forest := 0.25, Wetland := 0.12]
  }

  /** The guess depends on the latitude's magnitude only, so both hemispheres get the same one. */
  lemma HeuristicSymmetric(lat: real)
    ensures HeuristicLandUse(-lat) == HeuristicLandUse(lat)
  {
    assert Abs(-lat) == Abs(lat);
  }

  /** The heuristic would itself pass the raster's "any value positive" test. */
  lemma HeuristicIsPositive(lat: real)
    ensures AnyPositive(HeuristicLandUse(lat))
  {
    assert HeuristicLandUse(lat)[Cropland] > 0.0;
  }

  // ---------------------------------------------------------------- 5. CyFi

  /** The CyFi block: the prediction's three fields and where they came from. */
  datatype CyfiReport = CyfiReport(cellsPerMl: Option<real>, whoSeverity: Option<string>, timestamp: Option<string>, source: string)

  const NoCyfi := CyfiReport(None, None, None, "none")

  // ---------------------------------------------------------------- 6. thermal grid

  datatype GridPoint = GridPoint(lat: real, lon: real, temp: real)

  /** The grid's k-th point (row k / 5, column k % 5), drawn with the k-th noise value. */
  function GridPointAt(m: Ops, lat: real, lon: real, base: real, noise: nat -> real, k: nat): GridPoint
  {
    GridPoint(lat + ((k / 5) - 2) as real * 0.005, lon + ((k % 5) - 2) as real * 0.005, m.round(base + noise(k), 1))
  }

  /** The current temperature when the weather arrived, 20 degrees otherwise. */
  function GridBase(weather: Option<Weather>): real
  {
    if weather.Some? then weather.value.current.temperature else 20.0
  }

  /**
   * The grid is a 0.02-degree square centred on the location: every point is
   * within 0.01 degree of it on each axis, the middle point is the location
   * itself, and no two points coincide.
   */
  lemma GridGeometry(m: Ops, lat: real, lon: real, base: real, noise: nat -> real, k: nat, k2: nat)
    requires k < 25 && k2 < 25
    ensures Abs(GridPointAt(m, lat, lon, base, noise, k).lat - lat) <= 0.01
    ensures Abs(GridPointAt(m, lat, lon, base, noise, k).lon - lon) <= 0.01
    ensures k == 12 ==> GridPointAt(m, lat, lon, base, noise, k).lat == lat && GridPointAt(m, lat, lon, base, noise, k).lon == lon
    ensures k != k2 ==>
              (GridPointAt(m, lat, lon, base, noise, k).lat, GridPointAt(m, lat, lon, base, noise, k).lon)
              != (GridPointAt(m, lat, lon, base, noise, k2).lat, GridPointAt(m, lat, lon, base, noise, k2).lon)
  {
    assert 0 <= k / 5 < 5 && 0 <= k % 5 < 5;
    if k != k2 && k / 5 == k2 / 5 {
      assert k % 5 != k2 % 5;
    }
  }

  // ---------------------------------------------------------------- the pipeline object

  // ---------------------------------------------------------------- what each fetch yields and records

  /** Merging dictionaries one after another is merging their merge. */
  lemma MergeAssociative<K, V>(a: map<K, V>, b: map<K, V>, c: map<K, V>)
    ensures a + b + c == a + (b + c)
  {
  }

  /** The weather block, or `None` when either call raised. */
  function WeatherResult(current: Fetch<CurrentResponse>, forecast: Fetch<ForecastResponse>): (w: Option<Weather>)
    ensures w.None? <==> current.Raised? || forecast.Raised?
    ensures w.Some? ==> w.value.current == CurrentOf(current.value) && w.value.daily == DailyOf(forecast.value)
  {
    if current.Raised? || forecast.Raised? then None
    else Some(Weather(CurrentOf(current.value), forecast.value.hourly.GetOr(map[]), DailyOf(forecast.value)))
  }

  /** The weather error: the message of the first call that raised. */
  function WeatherError(current: Fetch<CurrentResponse>, forecast: Fetch<ForecastResponse>): (e: map<Source, string>)
    ensures e.Keys == (if WeatherResult(current, forecast).None? then {WeatherKey} else {})
    ensures current.Raised? ==> e[WeatherKey] == current.message
    ensures current.Got? && forecast.Raised? ==> e[WeatherKey] == forecast.message
  {
    if current.Raised? then map[WeatherKey := current.message]
    else if forecast.Raised? then map[WeatherKey := forecast.message]
    else map[]
  }

  /** The historical frame, or `None` when the call raised or the columns were ragged. */
  function HistoricalResult(archive: Fetch<HistoricalResponse>): (h: Option<seq<HistoricalRow>>)
    ensures h.None? <==> archive.Raised? || HistoricalFrame(archive.value).Err?
    ensures h.Some? ==> h.value == HistoricalFrame(archive.value).value
  {
    if archive.Raised? then None
    else match HistoricalFrame(archive.value)
      case Ok(rows) => Some(rows)
      case Err(_) => None
  }

  function HistoricalError(archive: Fetch<HistoricalResponse>): (e: map<Source, string>)
    ensures e.Keys == (if HistoricalResult(archive).None? then {HistoricalKey} else {})
    ensures archive.Raised? ==> e[HistoricalKey] == archive.message
    ensures archive.Got? && HistoricalFrame(archive.value).Err? ==> e[HistoricalKey] == LengthMismatchMessage
  {
    if archive.Raised? then map[HistoricalKey := archive.message]
    else match HistoricalFrame(archive.value)
      case Ok(_) => map[]
      case Err(msg) => map[HistoricalKey := msg]
  }

  /** The rainfall frame, or `None` when the call raised or the columns were ragged. */
  function RainfallResult(rainfall: Fetch<RainfallResponse>): (h: Option<seq<RainRow>>)
    ensures h.None? <==> rainfall.Raised? || RainfallFrame(rainfall.value).Err?
    ensures h.Some? ==> h.value == RainfallFrame(rainfall.value).value
  {
    if rainfall.Raised? then None
    else match RainfallFrame(rainfall.value)
      case Ok(rows) => Some(rows)
      case Err(_) => None
  }

  function RainfallError(rainfall: Fetch<RainfallResponse>): (e: map<Source, string>)
    ensures e.Keys == (if RainfallResult(rainfall).None? then {RainfallKey} else {})
    ensures rainfall.Raised? ==> e[RainfallKey] == rainfall.message
    ensures rainfall.Got? && RainfallFrame(rainfall.value).Err? ==> e[RainfallKey] == LengthMismatchMessage
  {
    if rainfall.Raised? then map[RainfallKey := rainfall.message]
    else match RainfallFrame(rainfall.value)
      case Ok(_) => map[]
      case Err(msg) => map[RainfallKey := msg]
  }

  /** The raster reader's answer is used when it worked and found some land use. */
  predicate RasterUsable(raster: Fetch<map<string, real>>)
  {
    raster.Got? && AnyPositive(raster.value)
  }

  /** The raster's percentages when usable, the latitude heuristic otherwise; some fraction is always positive. */
  function LandUseResult(lat: real, raster: Fetch<map<string, real>>): (lu: map<string, real>)
    ensures RasterUsable(raster) ==> lu == raster.value
    ensures !RasterUsable(raster) ==> lu == HeuristicLandUse(lat)
    ensures AnyPositive(lu)
  {
    if RasterUsable(raster) then raster.value
    else
      HeuristicIsPositive(lat);
      HeuristicLandUse(lat)
  }

  /** Falling back to the heuristic always records the land-use error. */
  function LandUseError(raster: Fetch<map<string, real>>): (e: map<Source, string>)
    ensures e.Keys == (if RasterUsable(raster) then {} else {LandUseKey})
    ensures !RasterUsable(raster) ==> e[LandUseKey] == LandUseMessage
  {
    if RasterUsable(raster) then map[] else map[LandUseKey := LandUseMessage]
  }

  /** A prediction is used when the call returned one with a cell count. */
  predicate PredictionUsable(prediction: Fetch<CyfiClient.Prediction>)
  {
    prediction.Got? && prediction.value.cellsPerMl.Some?
  }

  /** The prediction tagged "cyfi_api" when usable; otherwise all fields `None` and source "none". */
  function CyfiResult(prediction: Fetch<CyfiClient.Prediction>): (c: CyfiReport)
    ensures PredictionUsable(prediction) ==>
              c.cellsPerMl == prediction.value.cellsPerMl && c.whoSeverity == prediction.value.whoSeverity
              && c.timestamp == prediction.value.timestamp && c.source == "cyfi_api"
    ensures !PredictionUsable(prediction) ==> c == NoCyfi
    ensures c.cellsPerMl.Some? <==> c.source == "cyfi_api"
  {
    if PredictionUsable(prediction) then
      CyfiReport(prediction.value.cellsPerMl, prediction.value.whoSeverity, prediction.value.timestamp, "cyfi_api")
    else NoCyfi
  }

  /** Missing CyFi cells always record the CyFi error. */
  function CyfiError(prediction: Fetch<CyfiClient.Prediction>): (e: map<Source, string>)
    ensures e.Keys == (if PredictionUsable(prediction) then {} else {CyfiKey})
    ensures !PredictionUsable(prediction) ==> e[CyfiKey] == CyfiMessage
  {
    if PredictionUsable(prediction) then map[] else map[CyfiKey := CyfiMessage]
  }

  /** The errors one full fetch records, source by source. */
  function FetchErrors(current: Fetch<CurrentResponse>, forecast: Fetch<ForecastResponse>,
                       archive: Fetch<HistoricalResponse>, rainfall: Fetch<RainfallResponse>,
                       raster: Fetch<map<string, real>>, prediction: Fetch<CyfiClient.Prediction>): map<Source, string>
  {
    WeatherError(current, forecast) + HistoricalError(archive) + RainfallError(rainfall)
    + LandUseError(raster) + CyfiError(prediction)
  }

  /** A full fetch records a source's key exactly when that source fell back or came back empty. */
  lemma FetchErrorsRecordFailures(current: Fetch<CurrentResponse>, forecast: Fetch<ForecastResponse>,
                                  archive: Fetch<HistoricalResponse>, rainfall: Fetch<RainfallResponse>,
                                  raster: Fetch<map<string, real>>, prediction: Fetch<CyfiClient.Prediction>)
    ensures WeatherKey in FetchErrors(current, forecast, archive, rainfall, raster, prediction) <==> WeatherResult(current, forecast).None?
    ensures HistoricalKey in FetchErrors(current, forecast, archive, rainfall, raster, prediction) <==> HistoricalResult(archive).None?
    ensures RainfallKey in FetchErrors(current, forecast, archive, rainfall, raster, prediction) <==> RainfallResult(rainfall).None?
    ensures LandUseKey in FetchErrors(current, forecast, archive, rainfall, raster, prediction) <==> !RasterUsable(raster)
    ensures CyfiKey in FetchErrors(current, forecast, archive, rainfall, raster, prediction) <==> CyfiResult(prediction).source == "none"
  {
    var w, h, r, l, c := WeatherError(current, forecast), HistoricalError(archive), RainfallError(rainfall),
                         LandUseError(raster), CyfiError(prediction);
    MergedKeys(w, h, r, l, c);
  }

  /** In a merge of single-source dictionaries, each source's key comes from its own dictionary. */
  lemma MergedKeys(w: map<Source, string>, h: map<Source, string>, r: map<Source, string>,
                   l: map<Source, string>, c: map<Source, string>)
    requires w.Keys <= {WeatherKey} && h.Keys <= {HistoricalKey} && r.Keys <= {RainfallKey}
    requires l.Keys <= {LandUseKey} && c.Keys <= {CyfiKey}
    ensures WeatherKey in w + h + r + l + c <==> WeatherKey in w
    ensures HistoricalKey in w + h + r + l + c <==> HistoricalKey in h
    ensures RainfallKey in w + h + r + l + c <==> RainfallKey in r
    ensures LandUseKey in w + h + r + l + c <==> LandUseKey in l
    ensures CyfiKey in w + h + r + l + c <==> CyfiKey in c
  {
  }

  /** Everything fetched for one location. */
  datatype RawData = RawData(
    weather: Option<Weather>,
    historicalTemp: Option<seq<HistoricalRow>>,
    rainfallHistory: Option<seq<RainRow>>,
    landUse: map<string, real>,
    cyfi: CyfiReport,
    thermalGrid: seq<GridPoint>,
    dataQuality: DataQuality,
    fetchedAt: string,
    lat: real,
    lon: real)

  /** The pipeline; `errors` collects one message per failed source and is never cleared. */
  class DataPipeline {
    var errors: map<Source, string>

    constructor()
      ensures errors == map[]
    {
      errors := map[];
    }

    /** The current conditions, then the forecast; either raising records the weather error. */
    method FetchWeather(current: Fetch<CurrentResponse>, forecast: Fetch<ForecastResponse>) returns (w: Option<Weather>)
      modifies this
      ensures w == WeatherResult(current, forecast)
      ensures errors == old(errors) + WeatherError(current, forecast)
    {
      if current.Raised? {
        errors := errors[WeatherKey := current.message];
        return None;
      }
      if forecast.Raised? {
        errors := errors[WeatherKey := forecast.message];
        return None;
      }
      w := Some(Weather(CurrentOf(current.value), forecast.value.hourly.GetOr(map[]), DailyOf(forecast.value)));
    }

    /** The five-year daily archive; a raised call or ragged columns record the historical error. */
    method FetchHistorical(archive: Fetch<HistoricalResponse>) returns (h: Option<seq<HistoricalRow>>)
      modifies this
      ensures h == HistoricalResult(archive)
      ensures errors == old(errors) + HistoricalError(archive)
    {
      if archive.Raised? {
        errors := errors[HistoricalKey := archive.message];
        return None;
      }
      var frame := HistoricalFrame(archive.value);
      if frame.Err? {
        errors := errors[HistoricalKey := frame.msg];
        return None;
      }
      h := Some(frame.value);
    }

    /** The 30-day rainfall archive; a raised call or ragged columns record the rainfall error. */
    method FetchRainfallHistory(rainfall: Fetch<RainfallResponse>) returns (h: Option<seq<RainRow>>)
      modifies this
      ensures h == RainfallResult(rainfall)
      ensures errors == old(errors) + RainfallError(rainfall)
    {
      if rainfall.Raised? {
        errors := errors[RainfallKey := rainfall.message];
        return None;
      }
      var frame := RainfallFrame(rainfall.value);
      if frame.Err? {
        errors := errors[RainfallKey := frame.msg];
        return None;
      }
      h := Some(frame.value);
    }

    /** The raster's percentages when usable; otherwise the heuristic, recording the land-use error. */
    method FetchLandUse(lat: real, raster: Fetch<map<string, real>>) returns (lu: map<string, real>)
      modifies this
      ensures lu == LandUseResult(lat, raster)
      ensures errors == old(errors) + LandUseError(raster)
    {
      if raster.Got? && AnyPositive(raster.value) {
        return raster.value;
      }
      errors := errors[LandUseKey := LandUseMessage];
      lu := HeuristicLandUse(lat);
    }

    /** The CyFi prediction when it has a cell count; otherwise the empty block, recording the CyFi error. */
    method FetchCyfi(prediction: Fetch<CyfiClient.Prediction>) returns (c: CyfiReport)
      modifies this
      ensures c == CyfiResult(prediction)
      ensures errors == old(errors) + CyfiError(prediction)
    {
      if prediction.Got? && prediction.value.cellsPerMl.Some? {
        var p := prediction.value;
        return CyfiReport(p.cellsPerMl, p.whoSeverity, p.timestamp, "cyfi_api");
      }
      errors := errors[CyfiKey := CyfiMessage];
      c := NoCyfi;
    }

    /**
     * Five rows of five points around the location, 0.005 degree apart, each
     * at the base temperature plus its noise draw, rounded to one decimal.
     */
    static method BuildThermalGrid(m: Ops, lat: real, lon: real, weather: Option<Weather>, noise: nat -> real)
      returns (grid: seq<GridPoint>)
      ensures |grid| == 25
      ensures forall k :: 0 <= k < 25 ==> grid[k] == GridPointAt(m, lat, lon, GridBase(weather), noise, k)
    {
      var base := 20.0;
      if weather.Some? {
        base := weather.value.current.temperature;
      }
      grid := [];
      var i := 0;
      while i < 5
        invariant 0 <= i <= 5 && |grid| == 5 * i
        invariant forall k :: 0 <= k < |grid| ==> grid[k] == GridPointAt(m, lat, lon, base, noise, k)
      {
        var j := 0;
        while j < 5
          invariant 0 <= j <= 5 && |grid| == 5 * i + j
          invariant forall k :: 0 <= k < |grid| ==> grid[k] == GridPointAt(m, lat, lon, base, noise, k)
        {
          var k := 5 * i + j;
          assert k / 5 == i && k % 5 == j;
          grid := grid + [GridPoint(lat + (i - 2) as real * 0.005, lon + (j - 2) as real * 0.005,
                                    m.round(base + noise(k), 1))];
          j := j + 1;
        }
        i := i + 1;
      }
    }

    /** The five sources in order; the errors of this call are merged into those already recorded. */
    method FetchSources(lat: real,
                        current: Fetch<CurrentResponse>, forecast: Fetch<ForecastResponse>,
                        archive: Fetch<HistoricalResponse>, rainfall: Fetch<RainfallResponse>,
                        raster: Fetch<map<string, real>>, prediction: Fetch<CyfiClient.Prediction>)
      returns (weather: Option<Weather>, historical: Option<seq<HistoricalRow>>, rainfallHist: Option<seq<RainRow>>,
               landUse: map<string, real>, cyfi: CyfiReport)
      modifies this
      ensures errors == old(errors) + FetchErrors(current, forecast, archive, rainfall, raster, prediction)
      ensures weather == WeatherResult(current, forecast)
      ensures historical == HistoricalResult(archive)
      ensures rainfallHist == RainfallResult(rainfall)
      ensures landUse == LandUseResult(lat, raster)
      ensures cyfi == CyfiResult(prediction)
    {
      ghost var e0 := errors;
      weather := FetchWeather(current, forecast);
      historical := FetchHistorical(archive);
      rainfallHist := FetchRainfallHistory(rainfall);
      landUse := FetchLandUse(lat, raster);
      cyfi := FetchCyfi(prediction);
      var w, h, r, l, c := WeatherError(current, forecast), HistoricalError(archive), RainfallError(rainfall),
                           LandUseError(raster), CyfiError(prediction);
      MergeAssociative(e0, w, h);
      MergeAssociative(e0, w + h, r);
      MergeAssociative(e0, w + h + r, l);
      MergeAssociative(e0, w + h + r + l, c);
    }

    /**
     * All sources in order, then the grid and the data-quality block. The
     * block counts every error recorded on this object, including those of
     * earlier calls.
     */
    method FetchAll(m: Ops, lat: real, lon: real,
                    current: Fetch<CurrentResponse>, forecast: Fetch<ForecastResponse>,
                    archive: Fetch<HistoricalResponse>, rainfall: Fetch<RainfallResponse>,
                    raster: Fetch<map<string, real>>, prediction: Fetch<CyfiClient.Prediction>,
                    noise: nat -> real, fetchedAt: string) returns (raw: RawData)
      modifies this
      ensures errors == old(errors) + FetchErrors(current, forecast, archive, rainfall, raster, prediction)
      ensures raw.weather == WeatherResult(current, forecast)
      ensures raw.historicalTemp == HistoricalResult(archive)
      ensures raw.rainfallHistory == RainfallResult(rainfall)
      ensures raw.landUse == LandUseResult(lat, raster)
      ensures raw.cyfi == CyfiResult(prediction)
      ensures |raw.thermalGrid| == 25
      ensures forall k :: 0 <= k < 25 ==> raw.thermalGrid[k] == GridPointAt(m, lat, lon, GridBase(raw.weather), noise, k)
      ensures raw.dataQuality == QualityOf(errors)
      ensures 0 <= raw.dataQuality.sourcesOk <= TotalSources
      ensures raw.fetchedAt == fetchedAt && raw.lat == lat && raw.lon == lon
    {
      var weather, historical, rainfallHist, landUse, cyfi := FetchSources(lat, current, forecast, archive, rainfall, raster, prediction);
      var grid := BuildThermalGrid(m, lat, lon, weather, noise);
      SourcesOkInRange(errors);
      raw := RawData(weather, historical, rainfallHist, landUse, cyfi, grid, QualityOf(errors), fetchedAt, lat, lon);
    }
  }
}
