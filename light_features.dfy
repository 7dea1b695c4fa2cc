/**
 * Light availability: UV normalised by 11, day length from latitude and day
 * of year (trigonometry through `Ops`), and cloud suppression; their product
 * scaled to 0-100.
 */
module LightFeatures {
  import opened Numerics

  /** UV index over the typical maximum 11, clipped to [0, 1]. */
  function NormalizeUv(uv: real): (r: real)
    ensures 0.0 <= r <= 1.0
    ensures 0.0 <= uv <= 11.0 ==> r == uv / 11.0
    ensures uv <= 0.0 ==> r == 0.0
    ensures uv >= 11.0 ==> r == 1.0
  {
    Clip(uv / 11.0, 0.0, 1.0)
  }

  function Radians(m: Ops, deg: real): real {
    deg * m.pi / 180.0
  }

  /**
   * The cosine of the sunset hour angle, -tan(lat) tan(decl), clipped to
   * [-1, 1] so that arccos is always defined.
   */
  function CosHourAngle(m: Ops, latitude: real, dayOfYear: real): (r: real)
    ensures -1.0 <= r <= 1.0
  {
    var latRad := Radians(m, latitude);
    var decl := 23.44 * m.cos(Radians(m, (172.0 - dayOfYear) * 360.0 / 365.0));
    var declRad := Radians(m, decl);
    Clip(-m.tan(latRad) * m.tan(declRad), -1.0, 1.0)
  }

  /** Day length in hours, 24 * arccos(cos_ha) / pi; always within [0, 24]. */
  function Photoperiod(m: Ops, latitude: real, dayOfYear: real): (r: real)
    requires ArccosLaws(m)
    ensures 0.0 <= r <= 24.0
  {
    var ha := m.arccos(CosHourAngle(m, latitude, dayOfYear));
    FractionOfPi(ha, m.pi);
    24.0 * ha / m.pi
  }

  lemma FractionOfPi(ha: real, pi: real)
    requires pi > 0.0 && 0.0 <= ha <= pi
    ensures 0.0 <= 24.0 * ha / pi <= 24.0
  {
    DivBetween(24.0 * ha, pi, 24.0);
  }

  /**
   * 1 - cloud fraction, clipped to [0, 1]. Values up to 1 are read as a
   * fraction and larger ones as a percentage, so the map jumps at 1.
   */
  function CloudSuppression(cloudCover: real): (r: real)
    ensures 0.0 <= r <= 1.0
    ensures 0.0 <= cloudCover <= 1.0 ==> r == 1.0 - cloudCover
    ensures 1.0 < cloudCover <= 100.0 ==> r == 1.0 - cloudCover / 100.0
    ensures cloudCover >= 100.0 ==> r == 0.0
  {
    var frac := if cloudCover <= 1.0 then cloudCover else cloudCover / 100.0;
    Clip(1.0 - frac, 0.0, 1.0)
  }

  /** The discontinuity at 1: full cover written as a fraction gives 0, but 1.5 (read as 1.5 %) gives 0.985. */
  lemma CloudSuppressionJump()
    ensures CloudSuppression(1.0) == 0.0 && CloudSuppression(1.5) == 0.985
  {
  }

  /** 100 times the product of the three factors, each in [0, 1]. */
  function ComputeLightScore(m: Ops, uv: real, cloudCover: real, latitude: real, dayOfYear: real): (r: real)
    requires ArccosLaws(m)
    ensures 0.0 <= r <= 100.0
    ensures uv <= 0.0 ==> r == 0.0
    ensures cloudCover == 1.0 || cloudCover >= 100.0 ==> r == 0.0
    ensures r <= 100.0 * NormalizeUv(uv) && r <= 100.0 * CloudSuppression(cloudCover)
  {
    UnitMul(UnitMul(NormalizeUv(uv), DayFraction(m, latitude, dayOfYear)), CloudSuppression(cloudCover)) * 100.0
  }

  /** Day length over 24 h, clipped to [0, 1]. */
  function DayFraction(m: Ops, latitude: real, dayOfYear: real): (r: real)
    requires ArccosLaws(m)
    ensures 0.0 <= r <= 1.0
  {
    Clip(Photoperiod(m, latitude, dayOfYear) / 24.0, 0.0, 1.0)
  }

  /** More UV never lowers the light score; the other inputs fixed. */
  lemma LightScoreMonotoneInUv(m: Ops, uv1: real, uv2: real, cloudCover: real, latitude: real, dayOfYear: real)
    requires ArccosLaws(m) && uv1 <= uv2
    ensures ComputeLightScore(m, uv1, cloudCover, latitude, dayOfYear)
            <= ComputeLightScore(m, uv2, cloudCover, latitude, dayOfYear)
  {
    ClipMonotone(uv1 / 11.0, uv2 / 11.0, 0.0, 1.0);
    var d := DayFraction(m, latitude, dayOfYear);
    var c := CloudSuppression(cloudCover);
    UnitMulMonotone(NormalizeUv(uv1), NormalizeUv(uv2), d, d);
    UnitMulMonotone(UnitMul(NormalizeUv(uv1), d), UnitMul(NormalizeUv(uv2), d), c, c);
  }
}
