/**
 * The CyFi satellite cyanobacteria client: predictions keyed by location and
 * date, kept in a cache that is fresh for one hour, in front of an HTTP
 * endpoint. The order of the fallbacks is: a fresh cached entry, then the
 * endpoint, then a stale cached entry, then nothing.
 *
 * The clock readings, the endpoint's parsed answer and the fixed-point
 * rendering of a coordinate are parameters; reading and writing the JSON
 * cache file are not part of this model.
 */
module CyfiClient {
  import opened Numerics
  import Constants
  import BloomProbabilityModel

  /** A cached entry is fresh for one hour. */
  const CacheTtlSeconds: real := 3600.0

  /** A key of a JSON object: absent, present with `null`, or present with a value. */
  datatype Field<+T> = Missing | Null | Present(value: T) {
    /** `dict.get(key)`: `None` for an absent key and for a `null` value alike. */
    function Get(): (r: Option<T>)
      ensures r.Some? <==> Present?
    {
      if Present? then Some(value) else None
    }
  }

  /** The JSON body of a successful HTTP answer, as far as the client reads it. */
  datatype ApiBody = ApiBody(cellsPerMl: Field<real>, whoSeverity: Field<string>, timestamp: Field<string>)

  /** The three fields handed back to callers; `None` is Python's `None`. */
  datatype Prediction = Prediction(cellsPerMl: Option<real>, whoSeverity: Option<string>, timestamp: Option<string>)

  const NoPrediction := Prediction(None, None, None)

  /**
   * A cache entry. `EmptyEntry` is an empty JSON object read back from the
   * cache file: present under its key but false in a truth test.
   */
  datatype CacheEntry =
    | EmptyEntry
    | Entry(cellsPerMl: Option<real>, whoSeverity: Option<string>, timestamp: Option<string>, cacheTimestamp: Option<real>)

  /** `f"{lat:.5f}_{lon:.5f}_{date}"`, where `format5` renders a coordinate with five decimals. */
  function CacheKey(format5: real -> string, lat: real, lon: real, date: string): (k: string)
    ensures |k| == |format5(lat)| + |format5(lon)| + |date| + 2
  {
    format5(lat) + "_" + format5(lon) + "_" + date
  }

  /** Renderings that never contain the separator, as fixed-point numbers do not. */
  ghost predicate NoSeparator(format5: real -> string) {
    forall x: real :: '_' !in format5(x)
  }

  /** Two requests share a cache entry exactly when their rendered coordinates and dates agree. */
  lemma CacheKeyInjective(format5: real -> string, lat1: real, lon1: real, date1: string,
                          lat2: real, lon2: real, date2: string)
    requires NoSeparator(format5)
    ensures CacheKey(format5, lat1, lon1, date1) == CacheKey(format5, lat2, lon2, date2) <==>
              format5(lat1) == format5(lat2) && format5(lon1) == format5(lon2) && date1 == date2
  {
    if CacheKey(format5, lat1, lon1, date1) == CacheKey(format5, lat2, lon2, date2) {
      assert '_' !in format5(lat1) && '_' !in format5(lat2);
      assert CacheKey(format5, lat1, lon1, date1) == format5(lat1) + "_" + (format5(lon1) + "_" + date1);
      assert CacheKey(format5, lat2, lon2, date2) == format5(lat2) + "_" + (format5(lon2) + "_" + date2);
      SplitAtSeparator(format5(lat1), format5(lon1) + "_" + date1, format5(lat2), format5(lon2) + "_" + date2);
      assert '_' !in format5(lon1) && '_' !in format5(lon2);
      SplitAtSeparator(format5(lon1), date1, format5(lon2), date2);
    }
  }

  /** A prefix free of '_' followed by '_' is determined by the string it starts. */
  lemma SplitAtSeparator(a: string, rest1: string, b: string, rest2: string)
    requires '_' !in a && '_' !in b
    requires a + "_" + rest1 == b + "_" + rest2
    ensures a == b && rest1 == rest2
  {
    var s := a + "_" + rest1;
    assert s[|a|] == '_';
    assert s[|b|] == '_';
    NoSeparatorBefore(a, rest1);
    NoSeparatorBefore(b, rest2);
    assert |a| == |b|;
    assert a == s[..|a|] == b;
    assert rest1 == s[|a| + 1..] == rest2;
  }

  lemma NoSeparatorBefore(a: string, rest: string)
    requires '_' !in a
    ensures forall i :: 0 <= i < |a| ==> (a + "_" + rest)[i] != '_'
  {
    forall i | 0 <= i < |a|
      ensures (a + "_" + rest)[i] != '_'
    {
      assert (a + "_" + rest)[i] == a[i];
    }
  }

  /** The entry's timestamp is less than an hour old. */
  predicate IsFresh(now: real, timestamp: real)
  {
    now - timestamp < CacheTtlSeconds
  }

  /** The WHO severity of a cell density: the thresholds are those of the WHO table. */
  function ClassifyWhoSeverity(cells: real): (r: string)
    ensures r == "Low" <==> cells < Constants.WhoCyanoThresholds[0].cells as real
    ensures r == "Moderate" <==>
              Constants.WhoCyanoThresholds[0].cells as real <= cells < Constants.WhoCyanoThresholds[1].cells as real
    ensures r == "High" <==>
              Constants.WhoCyanoThresholds[1].cells as real <= cells < Constants.WhoCyanoThresholds[2].cells as real
    ensures r == "Very High" <==> Constants.WhoCyanoThresholds[2].cells as real <= cells
  {
    if cells < 20_000.0 then "Low"
    else if cells < 100_000.0 then "Moderate"
    else if cells < 10_000_000.0 then "High"
    else "Very High"
  }

  /** On whole cell counts the client's labels follow the bloom model's WHO severity levels. */
  lemma ClassifyAgreesWithBloomModel(cells: int)
    ensures ClassifyWhoSeverity(cells as real) == "Low" <==> BloomProbabilityModel.WhoSeverity(cells) == BloomProbabilityModel.LowRisk
    ensures ClassifyWhoSeverity(cells as real) == "Moderate" <==> BloomProbabilityModel.WhoSeverity(cells) == BloomProbabilityModel.ModerateRisk
    ensures ClassifyWhoSeverity(cells as real) == "High" <==> BloomProbabilityModel.WhoSeverity(cells) == BloomProbabilityModel.HighRisk
    ensures ClassifyWhoSeverity(cells as real) == "Very High" <==> BloomProbabilityModel.WhoSeverity(cells) == BloomProbabilityModel.VeryHighRisk
  {
  }

  /**
   * What the HTTP call yields: `None` when the request failed, timed out or
   * was not JSON (`body == None`), when the body has no `cells_per_mL` key,
   * and when that key is `null` while `who_severity` is absent (classifying
   * `None` raises, and the exception is swallowed). Otherwise the body with a
   * missing severity filled in by the classifier and a missing timestamp
   * filled in by the request date.
   */
  function ParseApiResponse(body: Option<ApiBody>, date: string): (r: Option<Prediction>)
    ensures r.Some? <==> body.Some? && !body.value.cellsPerMl.Missing? &&
                           (body.value.cellsPerMl.Present? || !body.value.whoSeverity.Missing?)
    ensures r.Some? ==> r.value.cellsPerMl == body.value.cellsPerMl.Get()
    ensures r.Some? && body.value.whoSeverity.Missing? ==>
              r.value.cellsPerMl.Some? && r.value.whoSeverity == Some(ClassifyWhoSeverity(r.value.cellsPerMl.value))
    ensures r.Some? && !body.value.whoSeverity.Missing? ==> r.value.whoSeverity == body.value.whoSeverity.Get()
    ensures r.Some? && body.value.timestamp.Missing? ==> r.value.timestamp == Some(date)
    ensures r.Some? && !body.value.timestamp.Missing? ==> r.value.timestamp == body.value.timestamp.Get()
  {
    match body
    case None => None
    case Some(b) =>
      if b.cellsPerMl.Missing? then None
      else if b.whoSeverity.Missing? && b.cellsPerMl.Null? then None
      else
        var severity := if b.whoSeverity.Missing? then Some(ClassifyWhoSeverity(b.cellsPerMl.value)) else b.whoSeverity.Get();
        var stamp := if b.timestamp.Missing? then Some(date) else b.timestamp.Get();
        Some(Prediction(b.cellsPerMl.Get(), severity, stamp))
  }

  /** The three fields of a cached entry. */
  function FieldsOf(e: CacheEntry): (r: Prediction)
    ensures e.Entry? ==> r.cellsPerMl == e.cellsPerMl && r.whoSeverity == e.whoSeverity && r.timestamp == e.timestamp
  {
    match e
    case EmptyEntry => NoPrediction
    case Entry(c, w, t, _) => Prediction(c, w, t)
  }

  /** The entry stored after a successful fetch, stamped with the clock at storing time. */
  function Stored(p: Prediction, fetchedAt: real): (e: CacheEntry)
    ensures e.Entry? && FieldsOf(e) == p && e.cacheTimestamp == Some(fetchedAt)
  {
    Entry(p.cellsPerMl, p.whoSeverity, p.timestamp, Some(fetchedAt))
  }

  /**
   * A truthy entry under `key` whose `cache_timestamp` (0 when absent) is less
   * than an hour before `now`. A null timestamp is read as absent here, where
   * the freshness test of the client would raise.
   */
  predicate FreshHit(cache: map<string, CacheEntry>, key: string, now: real)
  {
    key in cache && cache[key].Entry? && IsFresh(now, cache[key].cacheTimestamp.GetOr(0.0))
  }

  /** The answer to one request and the cache after it. */
  datatype Answer = Answer(result: Prediction, cache: map<string, CacheEntry>)

  /**
   * One request: `now` is the clock when freshness is checked, `body` what
   * the endpoint answered, and `fetchedAt` the clock when a fetched entry is
   * stored.
   */
  function Respond(cache: map<string, CacheEntry>, key: string, date: string, now: real,
                   body: Option<ApiBody>, fetchedAt: real): (a: Answer)
    ensures a.cache.Keys == cache.Keys || a.cache.Keys == cache.Keys + {key}
    ensures forall k :: k in cache && k != key ==> k in a.cache && a.cache[k] == cache[k]
    ensures FreshHit(cache, key, now) ==> a == Answer(FieldsOf(cache[key]), cache)
    ensures !FreshHit(cache, key, now) && ParseApiResponse(body, date).Some? ==>
              a == Answer(ParseApiResponse(body, date).value, cache[key := Stored(ParseApiResponse(body, date).value, fetchedAt)])
    ensures !FreshHit(cache, key, now) && ParseApiResponse(body, date).None? ==>
              a.cache == cache &&
              a.result == (if key in cache && cache[key].Entry? then FieldsOf(cache[key]) else NoPrediction)
  {
    if FreshHit(cache, key, now) then Answer(FieldsOf(cache[key]), cache)
    else
      match ParseApiResponse(body, date)
      case Some(p) => Answer(p, cache[key := Stored(p, fetchedAt)])
      case None =>
        if key in cache && cache[key].Entry? then Answer(FieldsOf(cache[key]), cache)
        else Answer(NoPrediction, cache)
  }

  /** A fresh hit answers from the cache whatever the endpoint would have said. */
  lemma FreshHitIgnoresEndpoint(cache: map<string, CacheEntry>, key: string, date: string, now: real,
                                body1: Option<ApiBody>, body2: Option<ApiBody>, t1: real, t2: real)
    requires FreshHit(cache, key, now)
    ensures Respond(cache, key, date, now, body1, t1) == Respond(cache, key, date, now, body2, t2)
  {
  }

  /**
   * After a successful fetch, the same request within the hour is answered
   * from the cache with the same fields, whatever the endpoint says then.
   */
  lemma FetchThenHit(cache: map<string, CacheEntry>, key: string, date: string, now: real,
                     body: Option<ApiBody>, fetchedAt: real,
                     later: real, body2: Option<ApiBody>, fetchedAt2: real)
    requires !FreshHit(cache, key, now) && ParseApiResponse(body, date).Some?
    requires later - fetchedAt < CacheTtlSeconds
    ensures FreshHit(Respond(cache, key, date, now, body, fetchedAt).cache, key, later)
    ensures Respond(Respond(cache, key, date, now, body, fetchedAt).cache, key, date, later, body2, fetchedAt2).result
            == Respond(cache, key, date, now, body, fetchedAt).result
  {
    var first := Respond(cache, key, date, now, body, fetchedAt);
    var p := ParseApiResponse(body, date).value;
    assert first.cache[key] == Stored(p, fetchedAt);
  }

  /** When the endpoint fails, a stale entry is still served; with no entry at all every field is `None`. */
  lemma FallbackOrder(cache: map<string, CacheEntry>, key: string, date: string, now: real, fetchedAt: real)
    ensures key in cache && cache[key].Entry? ==>
              Respond(cache, key, date, now, None, fetchedAt).result == FieldsOf(cache[key])
    ensures key !in cache ==> Respond(cache, key, date, now, None, fetchedAt) == Answer(NoPrediction, cache)
  {
  }

  /** The client object: its cache is loaded once and then updated by every successful fetch. */
  class CyFiClient {
    var cache: map<string, CacheEntry>

    /** `loaded` is the cache file's content, or empty when the file is absent or corrupt. */
    constructor(loaded: map<string, CacheEntry>)
      ensures cache == loaded
    {
      cache := loaded;
    }

    method GetCyfiPrediction(format5: real -> string, lat: real, lon: real, date: string, now: real,
                             body: Option<ApiBody>, fetchedAt: real) returns (r: Prediction)
      modifies this
      ensures r == Respond(old(cache), CacheKey(format5, lat, lon, date), date, now, body, fetchedAt).result
      ensures cache == Respond(old(cache), CacheKey(format5, lat, lon, date), date, now, body, fetchedAt).cache
    {
      var key := CacheKey(format5, lat, lon, date);
      if key in cache && cache[key].Entry? && IsFresh(now, cache[key].cacheTimestamp.GetOr(0.0)) {
        return FieldsOf(cache[key]);
      }
      var prediction := ParseApiResponse(body, date);
      if prediction.Some? {
        cache := cache[key := Stored(prediction.value, fetchedAt)];
        return prediction.value;
      }
      if key in cache && cache[key].Entry? {
        return FieldsOf(cache[key]);
      }
      return NoPrediction;
    }
  }
}
