/**
 * The light model: reads UV index, cloud cover, latitude and day of year
 * (with defaults), delegates to the light helper, and reports the clipped,
 * rounded score with its rounded components.
 */
module LightModel {
  import opened Numerics
  import opened LightFeatures

  /** The feature dict; `None` is a missing key. */
  datatype LightInput = LightInput(
    uvIndex: Option<real>,
    cloudCover: Option<real>,
    latitude: Option<real>,
    dayOfYear: Option<real>)

  /** Exactly the four keys the source returns. */
  datatype LightReport = LightReport(score: real, uvNorm: real, dayLengthH: real, cloudFactor: real)

  const DefaultUv: real := 3.0
  const DefaultCloud: real := 50.0
  const DefaultLatitude: real := 45.0
  const DefaultDayOfYear: real := 180.0

  function ComputeLightModelScore(m: Ops, f: LightInput): (r: LightReport)
    requires RoundLaws(m) && ArccosLaws(m)
    ensures 0.0 <= r.score <= 100.0
    ensures 0.0 <= r.uvNorm <= 1.0 && 0.0 <= r.cloudFactor <= 1.0
    ensures 0.0 <= r.dayLengthH <= 24.0
    ensures r.score == m.round(ComputeLightScore(m, f.uvIndex.GetOr(DefaultUv), f.cloudCover.GetOr(DefaultCloud),
                                                 f.latitude.GetOr(DefaultLatitude), f.dayOfYear.GetOr(DefaultDayOfYear)), 1)
    ensures r.uvNorm == m.round(NormalizeUv(f.uvIndex.GetOr(DefaultUv)), 3)
    ensures r.cloudFactor == m.round(CloudSuppression(f.cloudCover.GetOr(DefaultCloud)), 3)
    ensures r.dayLengthH == m.round(Photoperiod(m, f.latitude.GetOr(DefaultLatitude), f.dayOfYear.GetOr(DefaultDayOfYear)), 1)
  {
    var uv := f.uvIndex.GetOr(DefaultUv);
    var cloud := f.cloudCover.GetOr(DefaultCloud);
    var lat := f.latitude.GetOr(DefaultLatitude);
    var doy := f.dayOfYear.GetOr(DefaultDayOfYear);
    var combined := ComputeLightScore(m, uv, cloud, lat, doy);
    var uvNorm := NormalizeUv(uv);
    var dayLength := Photoperiod(m, lat, doy);
    var cloudFactor := CloudSuppression(cloud);
    RoundClipBounds(m, combined, 0, 100, 1);
    RoundClipBounds(m, uvNorm, 0, 1, 3);
    RoundClipBounds(m, dayLength, 0, 24, 1);
    RoundClipBounds(m, cloudFactor, 0, 1, 3);
    LightReport(m.round(Clip(combined, 0.0, 100.0), 1), m.round(uvNorm, 3), m.round(dayLength, 1), m.round(cloudFactor, 3))
  }

  /** A UV index of 0 or below, or full cloud cover, gives a score of exactly 0. */
  lemma DarkGivesZero(m: Ops, f: LightInput)
    requires RoundLaws(m) && ArccosLaws(m)
    requires f.uvIndex.GetOr(DefaultUv) <= 0.0 || f.cloudCover.GetOr(DefaultCloud) >= 100.0
    ensures ComputeLightModelScore(m, f).score == 0.0
  {
    RoundFixes(m, 0.0, 1);
  }

  /** With every key missing, uv_norm is round(3/11, 3) and cloud_factor (50 % cover) is round(0.5, 3). */
  lemma DefaultFactors(m: Ops)
    requires RoundLaws(m) && ArccosLaws(m)
    ensures ComputeLightModelScore(m, LightInput(None, None, None, None)).cloudFactor == m.round(0.5, 3)
    ensures ComputeLightModelScore(m, LightInput(None, None, None, None)).uvNorm == m.round(3.0 / 11.0, 3)
  {
  }
}
