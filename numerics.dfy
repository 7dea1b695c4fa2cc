/**
 * Shared numeric vocabulary of the model.
 *
 * The scoring code calls transcendental functions (exp, log, sqrt, powers,
 * trigonometry, the standard normal CDF) and Python's `round(x, k)`. None of
 * them is re-implemented here: they are fields of the record `Ops`, and each
 * group of laws the proofs rely on is a separate predicate, so that a member
 * asks only for the laws it uses.
 *
 * NaN and Python's `None` are both `None` of `Option<real>`.
 */
module Numerics {

  datatype Option<+T> = None | Some(value: T) {
    function GetOr(default: T): T {
      match this
      case Some(v) => v
      case None => default
    }
  }

  datatype Result<+T> = Ok(value: T) | Err(msg: string)

  /** The transcendental functions and rounding used by the source. */
  datatype Ops = Ops(
    exp: real -> real,
    ln: real -> real,
    sqrt: real -> real,
    pow: (real, real) -> real,
    cos: real -> real,
    tan: real -> real,
    arccos: real -> real,
    pi: real,
    normCdf: real -> real,
    round: (real, int) -> real)

  /** exp is positive, monotone, exp(0) = 1, and 100 * e^11.5 (about 9.87 million) is below ten million. */
  ghost predicate ExpLaws(m: Ops) {
    && (forall x: real :: m.exp(x) > 0.0)
    && (forall x: real, y: real :: x <= y ==> ExpOrdered(m, x, y))
    && m.exp(0.0) == 1.0
    && m.exp(11.5) < 100000.0
  }

  /**
   * Python's round(x, k) is monotone in x, leaves whole numbers alone when it
   * keeps zero or more decimals (round(15.0, -1) is 20.0), and leaves numbers
   * with one decimal alone when it keeps at least one decimal.
   */
  ghost predicate RoundLaws(m: Ops) {
    && (forall x: real, k: int :: k >= 0 && x == x.Floor as real ==> RoundKeeps(m, x, k))
    && (forall x: real, k: int :: k >= 1 && x == (x * 10.0).Floor as real / 10.0 ==> RoundKeeps(m, x, k))
    && (forall x: real, y: real, k: int :: x <= y ==> RoundOrdered(m, x, y, k))
  }

  /**
   * The two facts the laws are about, named so that a law is instantiated
   * only where a proof asks for it (see RoundFixes and RoundMonotone).
   */
  ghost predicate RoundKeeps(m: Ops, x: real, k: int) {
    m.round(x, k) == x
  }

  ghost predicate RoundOrdered(m: Ops, x: real, y: real, k: int) {
    m.round(x, k) <= m.round(y, k)
  }

  lemma RoundFixes(m: Ops, x: real, k: int)
    requires RoundLaws(m)
    requires (k >= 0 && x == x.Floor as real) || (k >= 1 && x == (x * 10.0).Floor as real / 10.0)
    ensures m.round(x, k) == x
  {
    assert RoundKeeps(m, x, k);
  }

  ghost predicate SqrtLaws(m: Ops) {
    && m.sqrt(0.0) == 0.0
    && (forall x: real :: x > 0.0 ==> m.sqrt(x) > 0.0)
  }

  /** The natural logarithm is positive above 1 and monotone on the positive reals. */
  ghost predicate LnLaws(m: Ops) {
    && (forall x: real :: x > 1.0 ==> m.ln(x) > 0.0)
    && (forall x: real, y: real :: 0.0 < x <= y ==> LnOrdered(m, x, y))
  }

  /** Monotonicity of exp and ln, named so that it is instantiated only through ExpMonotone and LnMonotone. */
  ghost predicate ExpOrdered(m: Ops, x: real, y: real) {
    m.exp(x) <= m.exp(y)
  }

  ghost predicate LnOrdered(m: Ops, x: real, y: real) {
    m.ln(x) <= m.ln(y)
  }

  lemma ExpMonotone(m: Ops, x: real, y: real)
    requires ExpLaws(m) && x <= y
    ensures m.exp(x) <= m.exp(y)
  {
    assert ExpOrdered(m, x, y);
  }

  lemma LnMonotone(m: Ops, x: real, y: real)
    requires LnLaws(m) && 0.0 < x <= y
    ensures m.ln(x) <= m.ln(y)
  {
    assert LnOrdered(m, x, y);
  }

  ghost predicate ArccosLaws(m: Ops) {
    && m.pi > 0.0
    && (forall x: real :: -1.0 <= x <= 1.0 ==> 0.0 <= m.arccos(x) <= m.pi)
  }

  ghost predicate CdfLaws(m: Ops) {
    && m.normCdf(0.0) == 0.5
    && (forall x: real :: 0.0 <= m.normCdf(x) <= 1.0)
  }

  /** numpy.clip(x, lo, hi) for lo <= hi. */
  function Clip(x: real, lo: real, hi: real): (r: real)
    requires lo <= hi
    ensures lo <= r <= hi
    ensures lo <= x <= hi ==> r == x
    ensures x < lo ==> r == lo
    ensures x > hi ==> r == hi
  {
    if x < lo then lo else if x > hi then hi else x
  }

  lemma ClipMonotone(x: real, y: real, lo: real, hi: real)
    requires lo <= hi && x <= y
    ensures Clip(x, lo, hi) <= Clip(y, lo, hi)
  {
  }

  function Abs(x: real): (r: real)
    ensures r >= 0.0 && (r == x || r == -x)
  {
    if x < 0.0 then -x else x
  }

  function Min(x: real, y: real): (r: real)
    ensures r <= x && r <= y && (r == x || r == y)
  {
    if x <= y then x else y
  }

  function Max(x: real, y: real): (r: real)
    ensures r >= x && r >= y && (r == x || r == y)
  {
    if x >= y then x else y
  }

  /** Python's `round(x, k)` applied after clipping to [lo, hi] stays in [lo, hi] for whole-number bounds. */
  lemma RoundClipBounds(m: Ops, x: real, lo: int, hi: int, k: int)
    requires RoundLaws(m) && lo <= hi && k >= 0
    ensures lo as real <= m.round(Clip(x, lo as real, hi as real), k) <= hi as real
  {
    var c := Clip(x, lo as real, hi as real);
    RoundFixes(m, lo as real, k);
    RoundFixes(m, hi as real, k);
    RoundMonotone(m, lo as real, c, k);
    RoundMonotone(m, c, hi as real, k);
  }

  lemma RoundMonotone(m: Ops, x: real, y: real, k: int)
    requires RoundLaws(m) && x <= y
    ensures m.round(x, k) <= m.round(y, k)
  {
    assert RoundOrdered(m, x, y, k);
  }

  /** The logistic function 1/(1+e^-x) (scipy.special.expit) stated through exp. */
  function Expit(m: Ops, x: real): (r: real)
    requires ExpLaws(m)
    ensures 0.0 < r < 1.0
  {
    assert m.exp(-x) > 0.0;
    1.0 / (1.0 + m.exp(-x))
  }

  /** Sum of a sequence of reals, accumulated from the front as a loop would. */
  function Sum(s: seq<real>): real
  {
    if |s| == 0 then 0.0 else Sum(s[..|s| - 1]) + s[|s| - 1]
  }

  lemma {:induction false} SumAppend(s: seq<real>, x: real)
    ensures Sum(s + [x]) == Sum(s) + x
  {
    assert (s + [x])[..|s|] == s;
  }

  /** The arithmetic mean of a non-empty sequence. */
  function Mean(s: seq<real>): real
    requires |s| > 0
  {
    Sum(s) / |s| as real
  }

  /** The values that are not NaN / None, in order. */
  function Present(s: seq<Option<real>>): (r: seq<real>)
    ensures |r| <= |s|
    ensures forall x :: x in r <==> Some(x) in s
  {
    if |s| == 0 then []
    else
      var rest := Present(s[..|s| - 1]);
      assert forall x :: Some(x) in s <==> Some(x) in s[..|s| - 1] || s[|s| - 1] == Some(x);
      match s[|s| - 1]
      case Some(v) => rest + [v]
      case None => rest
  }

  lemma {:induction false} PresentAllSome(s: seq<real>)
    ensures Present(seq(|s|, i requires 0 <= i < |s| => Some(s[i]))) == s
  {
    if |s| > 0 {
      var w := seq(|s|, i requires 0 <= i < |s| => Some(s[i]));
      assert w[..|s| - 1] == seq(|s| - 1, i requires 0 <= i < |s| - 1 => Some(s[..|s| - 1][i]));
      PresentAllSome(s[..|s| - 1]);
      assert s[..|s| - 1] + [s[|s| - 1]] == s;
    }
  }

  /** The last `k` elements (Python's `s[-k:]`, which is the whole list when it is shorter). */
  function LastN<T>(s: seq<T>, k: nat): (r: seq<T>)
    ensures |r| == if |s| < k then |s| else k
    ensures forall i :: 0 <= i < |r| ==> r[i] == s[|s| - |r| + i]
  {
    if |s| <= k then s else s[|s| - k..]
  }

  lemma MulAtMost(u: real, d: real)
    requires 0.0 <= u <= 1.0 && 0.0 <= d <= 1.0
    ensures u * d <= u
  {
    assert u * (1.0 - d) >= 0.0;
  }

  lemma MulNonNegative(u: real, d: real)
    requires 0.0 <= u && 0.0 <= d
    ensures 0.0 <= u * d
  {
  }

  lemma MulPositive(u: real, d: real)
    requires u > 0.0 && d > 0.0
    ensures u * d > 0.0
  {
  }

  /** Dividing by a positive b a value between 0 and c * b gives a value between 0 and c. */
  lemma DivBetween(x: real, b: real, c: real)
    requires b > 0.0 && 0.0 <= x <= c * b
    ensures 0.0 <= x / b
    ensures x / b <= c
  {
    var q := x / b;
    assert q * b == x;
    if q < 0.0 {
      MulPositive(-q, b);
      assert false;
    }
    if q > c {
      MulPositive(q - c, b);
      assert false;
    }
  }

  /** The product of two fractions in [0, 1]: again in [0, 1] and at most either factor. */
  function UnitMul(a: real, b: real): (r: real)
    requires 0.0 <= a <= 1.0 && 0.0 <= b <= 1.0
    ensures 0.0 <= r
    ensures r <= a
    ensures r <= b
    ensures a == 0.0 || b == 0.0 ==> r == 0.0
    ensures a > 0.0 && b > 0.0 ==> r > 0.0
    ensures a == 1.0 ==> r == b
    ensures b == 1.0 ==> r == a
  {
    var p := a * b;
    assert 0.0 <= p by { MulNonNegative(a, b); }
    assert p <= a by { MulAtMost(a, b); }
    assert p <= b by { MulAtMost(b, a); }
    assert a > 0.0 && b > 0.0 ==> p > 0.0 by {
      if a > 0.0 && b > 0.0 { MulPositive(a, b); }
    }
    p
  }

  lemma UnitMulMonotone(a1: real, a2: real, b1: real, b2: real)
    requires 0.0 <= a1 <= a2 <= 1.0 && 0.0 <= b1 <= b2 <= 1.0
    ensures UnitMul(a1, b1) <= UnitMul(a2, b2)
  {
    calc {
      UnitMul(a1, b1);
      a1 * b1;
    <= { assert (a2 - a1) * b1 >= 0.0; }
      a2 * b1;
    <= { assert a2 * (b2 - b1) >= 0.0; }
      a2 * b2;
      UnitMul(a2, b2);
    }
  }
}
