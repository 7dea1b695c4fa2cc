/**
 * Monod-style growth: mu = MU_MAX * f(T) f(N) f(L) f(S) * correction, where
 * each factor is a sub-score over 100 clipped to [0.01, 1] and the
 * correction is the cardinal-temperature model of Rosso et al. (1993) with
 * minimum 5, optimum 28 and maximum 40 degrees. Also the doubling time, the
 * 8-point biomass trajectory and the limiting factor.
 */
module GrowthRateModel {
  import opened Numerics

  const MuMax: real := 1.2

  /** A sub-score over 100, clipped to [0.01, 1]. */
  function Factor(score: real): (r: real)
    ensures 0.01 <= r <= 1.0
    ensures 1.0 <= score <= 100.0 ==> r == score / 100.0
  {
    Clip(score / 100.0, 0.01, 1.0)
  }

  // ---------------------------------------------------------------- temperature correction

  /** The numerator (T - Tmax)(T - Tmin)^2. */
  function CardinalNumerator(t: real): real {
    (t - 40.0) * ((t - 5.0) * (t - 5.0))
  }

  /** The denominator (Topt - Tmin)((Topt - Tmin)(T - Topt) - (Topt - Tmax)(Topt + Tmin - 2T)). */
  function CardinalDenominator(t: real): real {
    (28.0 - 5.0) * ((28.0 - 5.0) * (t - 28.0) - (28.0 - 40.0) * (28.0 + 5.0 - 2.0 * t))
  }

  /** 0.01 outside (5, 40) or on a zero denominator; otherwise num / den clipped to [0.01, 1]. */
  function ArrheniusCorrection(t: real): (r: real)
    ensures 0.01 <= r <= 1.0
    ensures t <= 5.0 || t >= 40.0 ==> r == 0.01
  {
    if t <= 5.0 || t >= 40.0 then 0.01
    else
      var den := CardinalDenominator(t);
      if den == 0.0 then 0.01 else Clip(CardinalNumerator(t) / den, 0.01, 1.0)
  }

  /** The denominator is -23 (T + 248), so it never vanishes on (5, 40) and the zero guard is dead. */
  lemma DenominatorSimplifies(t: real)
    ensures CardinalDenominator(t) == -23.0 * (t + 248.0)
    ensures 5.0 < t < 40.0 ==> CardinalDenominator(t) < 0.0
  {
  }

  /** d^2 e: never negative when e is not, and positive when also d is not zero. */
  function SquareTimes(d: real, e: real): (r: real)
    ensures e >= 0.0 ==> r >= 0.0
  {
    d * d * e
  }

  lemma SquareTimesPositive(d: real, e: real)
    requires d != 0.0 && e > 0.0
    ensures SquareTimes(d, e) > 0.0
  {
    calc {
      SquareTimes(d, e);
      d * d * e;
    > { CubePositive(d, e); }
      0.0;
    }
  }

  lemma CubePositive(d: real, e: real)
    requires d != 0.0 && e > 0.0
    ensures d * d * e > 0.0
  {
  }

  /** num - den = (T - 28)^2 (T + 6). */
  lemma NumeratorMinusDenominator(t: real)
    ensures CardinalNumerator(t) - CardinalDenominator(t) == SquareTimes(t - 28.0, t + 6.0)
  {
  }

  lemma QuotientAtMostOne(num: real, den: real)
    requires den < 0.0 && num >= den
    ensures num / den <= 1.0
    ensures num / den == 1.0 <==> num == den
  {
    var q := num / den;
    assert q * den == num;
    calc {
      (1.0 - q) * den;
      den - q * den;
      den - num;
    <=
      0.0;
    }
  }

  /**
   * On (5, 40) the raw cardinal ratio never exceeds 1 and reaches it only at
   * the optimum 28 degrees, where numerator and denominator are both -6348.
   */
  lemma RawRatioAtMostOne(t: real)
    requires 5.0 < t < 40.0
    ensures CardinalNumerator(t) / CardinalDenominator(t) <= 1.0
    ensures CardinalNumerator(t) / CardinalDenominator(t) == 1.0 <==> t == 28.0
  {
    DenominatorSimplifies(t);
    NumeratorMinusDenominator(t);
    if t != 28.0 {
      SquareTimesPositive(t - 28.0, t + 6.0);
    }
    QuotientAtMostOne(CardinalNumerator(t), CardinalDenominator(t));
  }

  /**
   * So on (5, 40) the upper clip of the correction never fires: the correction
   * is the raw ratio raised to 0.01 where smaller, and it is 1 only at 28 degrees.
   */
  lemma CorrectionOnlyClippedBelow(t: real)
    requires 5.0 < t < 40.0
    ensures ArrheniusCorrection(t) == Max(0.01, CardinalNumerator(t) / CardinalDenominator(t))
    ensures ArrheniusCorrection(t) == 1.0 <==> t == 28.0
  {
    DenominatorSimplifies(t);
    RawRatioAtMostOne(t);
  }

  lemma MulNonnegative(a: real, b: real)
    requires a >= 0.0 && b >= 0.0
    ensures a * b >= 0.0
  {
  }

  /** The correction is exactly 1 at 28 degrees. */
  lemma CorrectionAtOptimum()
    ensures CardinalNumerator(28.0) == -6348.0 && CardinalDenominator(28.0) == -6348.0
    ensures ArrheniusCorrection(28.0) == 1.0
  {
  }

  // ---------------------------------------------------------------- growth rate

  /** mu before rounding: in (0, 1.2], so the clip to [0, 1.2] never changes it. */
  function GrowthMu(ft: real, fn: real, fl: real, fs: real, correction: real): (r: real)
    requires 0.01 <= ft <= 1.0 && 0.01 <= fn <= 1.0 && 0.01 <= fl <= 1.0 && 0.01 <= fs <= 1.0
    requires 0.01 <= correction <= 1.0
    ensures 0.0 < r <= MuMax
    ensures r <= MuMax * ft && r <= MuMax * fn && r <= MuMax * fl && r <= MuMax * fs && r <= MuMax * correction
  {
    // MU_MAX * f_t * f_n * f_l * f_s * correction, grouped as in the source (left to right).
    var p := UnitMul(UnitMul(UnitMul(UnitMul(ft, fn), fl), fs), correction);
    Clip(MuMax * p, 0.0, MuMax)
  }

  /** Doubling time in hours, ln 2 / mu * 24; none when mu is at most 0.001. */
  function DoublingTime(m: Ops, mu: real): (r: Option<real>)
    requires LnLaws(m) && RoundLaws(m)
    ensures r.None? <==> mu <= 0.001
    ensures r.Some? ==> r.value >= 0.0
  {
    if mu > 0.001 then
      var h := m.ln(2.0) / mu * 24.0;
      assert m.ln(2.0) > 0.0;
      assert h > 0.0;
      RoundFixes(m, 0.0, 1);
      RoundMonotone(m, 0.0, h, 1);
      Some(m.round(h, 1))
    else None
  }

  // ---------------------------------------------------------------- biomass trajectory

  /** Biomass after k days, multiplied by e^mu once per day. */
  function Biomass(m: Ops, mu: real, k: nat): real {
    if k == 0 then 1.0 else Biomass(m, mu, k - 1) * m.exp(mu)
  }

  lemma {:induction false} BiomassGrows(m: Ops, mu: real, k: nat)
    requires ExpLaws(m) && mu >= 0.0
    ensures 1.0 <= Biomass(m, mu, k) <= Biomass(m, mu, k + 1)
  {
    ExpMonotone(m, 0.0, mu);
    if k > 0 {
      BiomassGrows(m, mu, k - 1);
    }
    var b := Biomass(m, mu, k);
    calc {
      Biomass(m, mu, k + 1);
      b * m.exp(mu);
    >= { MulNonnegative(b, m.exp(mu) - 1.0); }
      b;
    }
  }

  /** The reported trajectory: 1.0, then the biomass of days 1..7 rounded to 3 decimals. */
  function TrajectoryAt(m: Ops, mu: real, k: nat): real {
    if k == 0 then 1.0 else m.round(Biomass(m, mu, k), 3)
  }

  /** The source's loop: multiply by e^mu seven times, appending each rounded value. */
  method BiomassTrajectory(m: Ops, mu: real) returns (trajectory: seq<real>)
    ensures |trajectory| == 8
    ensures trajectory[0] == 1.0
    ensures forall k :: 0 <= k < 8 ==> trajectory[k] == TrajectoryAt(m, mu, k)
  {
    trajectory := [1.0];
    var biomass := 1.0;
    var day := 0;
    while day < 7
      invariant 0 <= day <= 7
      invariant |trajectory| == day + 1
      invariant biomass == Biomass(m, mu, day)
      invariant forall k :: 0 <= k <= day ==> trajectory[k] == TrajectoryAt(m, mu, k)
    {
      biomass := biomass * m.exp(mu);
      day := day + 1;
      trajectory := trajectory + [m.round(biomass, 3)];
    }
  }

  /** With mu >= 0 the trajectory never decreases. */
  lemma TrajectoryNonDecreasing(m: Ops, mu: real, k: nat)
    requires ExpLaws(m) && RoundLaws(m) && mu >= 0.0
    ensures TrajectoryAt(m, mu, k) <= TrajectoryAt(m, mu, k + 1)
  {
    BiomassGrows(m, mu, k);
    if k == 0 {
      RoundFixes(m, 1.0, 3);
      RoundMonotone(m, 1.0, Biomass(m, mu, 1), 3);
    } else {
      RoundMonotone(m, Biomass(m, mu, k), Biomass(m, mu, k + 1), 3);
    }
  }

  // ---------------------------------------------------------------- limiting factor

  datatype Limiting = Temperature | Nutrients | Light | Stagnation

  function ValueOf(f: Limiting, ft: real, fn: real, fl: real, fs: real): real {
    match f
    case Temperature => ft
    case Nutrients => fn
    case Light => fl
    case Stagnation => fs
  }

  /** Position in the source's dict order. */
  function Rank(f: Limiting): nat {
    match f
    case Temperature => 0
    case Nutrients => 1
    case Light => 2
    case Stagnation => 3
  }

  /**
   * Python's min over the dict keys by value: the smallest factor, and among
   * equal smallest the first in the order Temperature, Nutrients, Light,
   * Stagnation. The temperature correction is not a candidate.
   */
  function LimitingFactor(ft: real, fn: real, fl: real, fs: real): (r: Limiting)
    ensures forall f: Limiting :: ValueOf(r, ft, fn, fl, fs) <= ValueOf(f, ft, fn, fl, fs)
    ensures forall f: Limiting :: Rank(f) < Rank(r) ==> ValueOf(f, ft, fn, fl, fs) > ValueOf(r, ft, fn, fl, fs)
  {
    var best := Temperature;
    var best := if fn < ValueOf(best, ft, fn, fl, fs) then Nutrients else best;
    var best := if fl < ValueOf(best, ft, fn, fl, fs) then Light else best;
    if fs < ValueOf(best, ft, fn, fl, fs) then Stagnation else best
  }

  // ---------------------------------------------------------------- the whole result

  datatype FactorValues = FactorValues(temperature: real, nutrients: real, light: real, stagnation: real)

  datatype GrowthReport = GrowthReport(
    muPerDay: real,
    doublingTimeHours: Option<real>,
    limitingFactor: Limiting,
    factorValues: FactorValues,
    biomassTrajectory: seq<real>,
    tempCorrection: real)

  method ComputeGrowthRate(m: Ops, tScore: real, nScore: real, lScore: real, sScore: real, waterTemp: real)
    returns (r: GrowthReport)
    requires ExpLaws(m) && RoundLaws(m) && LnLaws(m)
    ensures 0.0 <= r.muPerDay <= MuMax
    ensures |r.biomassTrajectory| == 8 && r.biomassTrajectory[0] == 1.0
    ensures var mu := GrowthMu(Factor(tScore), Factor(nScore), Factor(lScore), Factor(sScore), ArrheniusCorrection(waterTemp));
            && r.muPerDay == m.round(mu, 4)
            && r.doublingTimeHours == DoublingTime(m, mu)
            && (r.doublingTimeHours.None? <==> mu <= 0.001)
            && forall k :: 0 <= k < 8 ==> r.biomassTrajectory[k] == TrajectoryAt(m, mu, k)
    ensures forall k :: 0 <= k < 7 ==> r.biomassTrajectory[k] <= r.biomassTrajectory[k + 1]
    ensures r.limitingFactor == LimitingFactor(Factor(tScore), Factor(nScore), Factor(lScore), Factor(sScore))
    ensures 0.0 <= r.factorValues.temperature <= 1.0 && 0.0 <= r.factorValues.nutrients <= 1.0
    ensures 0.0 <= r.factorValues.light <= 1.0 && 0.0 <= r.factorValues.stagnation <= 1.0
    ensures 0.0 <= r.tempCorrection <= 1.0
    ensures r.factorValues == FactorValues(m.round(Factor(tScore), 3), m.round(Factor(nScore), 3),
                                           m.round(Factor(lScore), 3), m.round(Factor(sScore), 3))
    ensures r.tempCorrection == m.round(ArrheniusCorrection(waterTemp), 3)
  {
    var ft, fn, fl, fs := Factor(tScore), Factor(nScore), Factor(lScore), Factor(sScore);
    var correction := ArrheniusCorrection(waterTemp);
    var mu := GrowthMu(ft, fn, fl, fs, correction);
    var doubling := DoublingTime(m, mu);
    var trajectory := BiomassTrajectory(m, mu);
    forall k | 0 <= k < 7 ensures trajectory[k] <= trajectory[k + 1] {
      TrajectoryNonDecreasing(m, mu, k);
    }
    var limiting := LimitingFactor(ft, fn, fl, fs);
    RoundUnitBounds(m, mu, MuMax, 4);
    RoundUnitBounds(m, ft, 1.0, 3);
    RoundUnitBounds(m, fn, 1.0, 3);
    RoundUnitBounds(m, fl, 1.0, 3);
    RoundUnitBounds(m, fs, 1.0, 3);
    RoundUnitBounds(m, correction, 1.0, 3);
    r := GrowthReport(
      m.round(mu, 4),
      doubling,
      limiting,
      FactorValues(m.round(ft, 3), m.round(fn, 3), m.round(fl, 3), m.round(fs, 3)),
      trajectory,
      m.round(correction, 3));
  }

  /** Rounding to at least one decimal keeps a value of [0, 1] or [0, 1.2] in that range. */
  lemma RoundUnitBounds(m: Ops, x: real, hi: real, k: int)
    requires RoundLaws(m) && 0.0 <= x <= hi && (hi == 1.0 || hi == MuMax) && k >= 1
    ensures 0.0 <= m.round(x, k) <= hi
  {
    RoundFixes(m, 0.0, k);
    if hi == 1.0 {
      RoundFixes(m, 1.0, k);
    } else {
      RoundMonotone(m, x, MuMax, k);
      assert (MuMax * 10.0).Floor == 12;
      RoundFixes(m, MuMax, k);
    }
    RoundMonotone(m, 0.0, x, k);
    RoundMonotone(m, x, hi, k);
  }
}
