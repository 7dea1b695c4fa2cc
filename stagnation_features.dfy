/**
 * Stagnation sub-score: wind mixing, hydrological stagnation (30-day rainfall
 * deficit) and a thermal-stratification proxy, combined 40/30/30 into 0-100.
 *
 * The wind breakpoints 1 and 5 are the helper's own (documented as m/s); the
 * pipeline feeds km/h. The model keeps the code as written.
 */
module StagnationFeatures {
  import opened Numerics

  /** Lower wind means more stagnation: 100 up to 1, 0 from 5, linear in between. */
  function WindMixingScore(wind: real): (r: real)
    ensures 0.0 <= r <= 100.0
    ensures wind <= 1.0 ==> r == 100.0
    ensures wind >= 5.0 ==> r == 0.0
  {
    if wind <= 1.0 then 100.0
    else if wind >= 5.0 then 0.0
    else 100.0 * (5.0 - wind) / 4.0
  }

  /** WindMixingScore never increases with wind. */
  lemma WindMixingNonIncreasing(w1: real, w2: real)
    requires w1 <= w2
    ensures WindMixingScore(w2) <= WindMixingScore(w1)
  {
  }

  /** WindMixingScore is continuous, breakpoints included: it is 25-Lipschitz. */
  lemma WindMixingLipschitz(w1: real, w2: real)
    ensures Abs(WindMixingScore(w1) - WindMixingScore(w2)) <= 25.0 * Abs(w1 - w2)
  {
    if w1 <= w2 {
      WindMixingOrderedStep(w1, w2);
    } else {
      WindMixingOrderedStep(w2, w1);
    }
  }

  lemma WindMixingOrderedStep(w1: real, w2: real)
    requires w1 <= w2
    ensures 0.0 <= WindMixingScore(w1) - WindMixingScore(w2) <= 25.0 * (w2 - w1)
  {
    var a, b := WindMixingScore(w1), WindMixingScore(w2);
    if w1 <= 1.0 && w2 >= 5.0 {
      assert a - b == 100.0;
    } else if w1 <= 1.0 && w2 > 1.0 {
      assert a - b == 25.0 * (w2 - 1.0);
    } else if w1 < 5.0 && w2 >= 5.0 {
      assert a - b == 25.0 * (5.0 - w1);
    }
  }

  /** A 30-day deficit in mm, clamped to [0, 100]; the identity inside that range. */
  function HydrologicalStagnation(deficit: real): (r: real)
    ensures 0.0 <= r <= 100.0
    ensures 0.0 <= deficit <= 100.0 ==> r == deficit
    ensures deficit <= 0.0 ==> r == 0.0
    ensures deficit >= 100.0 ==> r == 100.0
  {
    if deficit <= 0.0 then 0.0
    else if deficit >= 100.0 then 100.0
    else 100.0 * deficit / 100.0
  }

  /** The diurnal-range term of the stratification proxy, 6 points per degree, capped at 60. */
  function DiurnalTerm(diurnal: real): (r: real)
    ensures 0.0 <= r <= 60.0
  {
    Max(0.0, Min(60.0, 6.0 * diurnal))
  }

  /** The water-temperature term, linear to 40 at 30 degrees. */
  function WaterTempTerm(waterTemp: real): (r: real)
    ensures 0.0 <= r <= 40.0
  {
    Max(0.0, Min(40.0, (waterTemp / 30.0) * 40.0))
  }

  function StratificationProxy(diurnal: real, waterTemp: real): (r: real)
    ensures 0.0 <= r <= 100.0
    ensures r == DiurnalTerm(diurnal) + WaterTempTerm(waterTemp)
  {
    DiurnalTerm(diurnal) + WaterTempTerm(waterTemp)
  }

  /** Larger diurnal range and warmer water never lower the proxy. */
  lemma StratificationMonotone(d1: real, d2: real, w1: real, w2: real)
    requires d1 <= d2 && w1 <= w2
    ensures StratificationProxy(d1, w1) <= StratificationProxy(d2, w2)
  {
  }

  function CombinedStagnationIndex(windScore: real, hydroScore: real, stratScore: real): (r: real)
    ensures 0.0 <= r <= 100.0
  {
    var combined := 0.4 * windScore + 0.3 * hydroScore + 0.3 * stratScore;
    Max(0.0, Min(100.0, combined))
  }

  /** The weights sum to 1, so for sub-scores already in [0, 100] the clamp changes nothing. */
  lemma CombinedClampIsNoOp(w: real, h: real, s: real)
    requires 0.0 <= w <= 100.0 && 0.0 <= h <= 100.0 && 0.0 <= s <= 100.0
    ensures CombinedStagnationIndex(w, h, s) == 0.4 * w + 0.3 * h + 0.3 * s
  {
  }

  function StagnationScore(wind: real, deficit: real, diurnal: real, waterTemp: real): (r: real)
    ensures 0.0 <= r <= 100.0
    ensures r == 0.4 * WindMixingScore(wind) + 0.3 * HydrologicalStagnation(deficit)
                 + 0.3 * StratificationProxy(diurnal, waterTemp)
  {
    var windSc := WindMixingScore(wind);
    var hydroSc := HydrologicalStagnation(deficit);
    var stratSc := StratificationProxy(diurnal, waterTemp);
    CombinedClampIsNoOp(windSc, hydroSc, stratSc);
    CombinedStagnationIndex(windSc, hydroSc, stratSc)
  }

  /** More wind never raises the stagnation score; a larger deficit, diurnal range or water temperature never lowers it. */
  lemma StagnationScoreMonotone(w1: real, w2: real, f1: real, f2: real, d1: real, d2: real, t1: real, t2: real)
    requires w2 <= w1 && f1 <= f2 && d1 <= d2 && t1 <= t2
    ensures StagnationScore(w1, f1, d1, t1) <= StagnationScore(w2, f2, d2, t2)
  {
    WindMixingNonIncreasing(w2, w1);
    StratificationMonotone(d1, d2, t1, t2);
  }
}
