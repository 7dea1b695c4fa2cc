/**
 * Descriptive statistics shared by the trend, temperature and comparison
 * modules: sums of squared deviations, ordinary least squares against the
 * index 0..n-1, minimum/maximum, sorting and the median (numpy's definition:
 * the middle element, or the mean of the two middle elements).
 */
module Stats {
  import opened Numerics

  // ---------------------------------------------------------------- spread

  function Sq(x: real): (r: real)
    ensures r >= 0.0
  {
    x * x
  }

  lemma PosMul(a: real, b: real)
    requires a > 0.0 && b > 0.0
    ensures a * b > 0.0
  {
  }

  lemma SqPositive(x: real)
    requires x > 0.0
    ensures 0.0 < Sq(x)
  {
    var r := Sq(x);
    PosMul(x, x);
    calc {
      r;
      x * x;
    >
      0.0;
    }
  }

  /** Sum of (x - c)^2 over a sequence. */
  function SqDev(s: seq<real>, c: real): (r: real)
    ensures r >= 0.0
  {
    if |s| == 0 then 0.0 else SqDev(s[..|s| - 1], c) + Sq(s[|s| - 1] - c)
  }

  /** numpy.std (population, ddof = 0) of a non-empty sequence. */
  function PopStd(m: Ops, s: seq<real>): real
    requires |s| > 0
  {
    m.sqrt(SqDev(s, Mean(s)) / |s| as real)
  }

  /** pandas Series.std (sample, ddof = 1); NaN (None) below two values. */
  function SampleStd(m: Ops, s: seq<real>): Option<real>
  {
    if |s| < 2 then None else Some(m.sqrt(SqDev(s, Mean(s)) / (|s| - 1) as real))
  }

  ghost predicate AllEqual(s: seq<real>, c: real) {
    forall i :: 0 <= i < |s| ==> s[i] == c
  }

  lemma {:induction false} SumConstant(s: seq<real>, c: real)
    requires AllEqual(s, c)
    ensures Sum(s) == |s| as real * c
  {
    if |s| > 0 {
      SumConstant(s[..|s| - 1], c);
    }
  }

  lemma MeanConstant(s: seq<real>, c: real)
    requires |s| > 0 && AllEqual(s, c)
    ensures Mean(s) == c
  {
    SumConstant(s, c);
  }

  lemma {:induction false} SqDevConstant(s: seq<real>, c: real)
    requires AllEqual(s, c)
    ensures SqDev(s, c) == 0.0
  {
    if |s| > 0 {
      SqDevConstant(s[..|s| - 1], c);
    }
  }

  /** A constant series has zero standard deviation. */
  lemma PopStdConstant(m: Ops, s: seq<real>, c: real)
    requires SqrtLaws(m) && |s| > 0 && AllEqual(s, c)
    ensures PopStd(m, s) == 0.0
  {
    MeanConstant(s, c);
    SqDevConstant(s, c);
  }

  // ---------------------------------------------------------------- extremes

  function SeqMin(s: seq<real>): (r: real)
    requires |s| > 0
    ensures r in s && forall i :: 0 <= i < |s| ==> r <= s[i]
  {
    if |s| == 1 then s[0]
    else
      var p := SeqMin(s[..|s| - 1]);
      assert forall i :: 0 <= i < |s| - 1 ==> s[..|s| - 1][i] == s[i];
      Min(p, s[|s| - 1])
  }

  function SeqMax(s: seq<real>): (r: real)
    requires |s| > 0
    ensures r in s && forall i :: 0 <= i < |s| ==> s[i] <= r
  {
    if |s| == 1 then s[0]
    else
      var p := SeqMax(s[..|s| - 1]);
      assert forall i :: 0 <= i < |s| - 1 ==> s[..|s| - 1][i] == s[i];
      Max(p, s[|s| - 1])
  }

  lemma {:induction false} SumBetween(s: seq<real>, lo: real, hi: real)
    requires forall i :: 0 <= i < |s| ==> lo <= s[i] <= hi
    ensures |s| as real * lo <= Sum(s) <= |s| as real * hi
  {
    if |s| > 0 {
      SumBetween(s[..|s| - 1], lo, hi);
    }
  }

  /** The mean of values in [lo, hi] is in [lo, hi]. */
  lemma MeanBounds(s: seq<real>, lo: real, hi: real)
    requires |s| > 0
    requires forall i :: 0 <= i < |s| ==> lo <= s[i] <= hi
    ensures lo <= Mean(s) <= hi
  {
    SumBetween(s, lo, hi);
    DivideBounds(Sum(s), |s| as real, lo, hi);
  }

  /** The mean lies between the minimum and the maximum. */
  lemma MeanBetweenExtremes(s: seq<real>)
    requires |s| > 0
    ensures SeqMin(s) <= Mean(s) <= SeqMax(s)
  {
    MeanBounds(s, SeqMin(s), SeqMax(s));
  }

  lemma DivideBounds(total: real, n: real, lo: real, hi: real)
    requires n > 0.0 && n * lo <= total <= n * hi
    ensures lo <= total / n <= hi
  {
    var q := total / n;
    assert q * n == total;
  }

  // ---------------------------------------------------------------- least squares

  /** The mean of 0, 1, ..., n-1. */
  function IndexMean(n: nat): real
    requires n > 0
  {
    (n - 1) as real / 2.0
  }

  /** Sum over i < k of (i - xm)^2. */
  function SsXX(k: nat, xm: real): (r: real)
    ensures r >= 0.0
  {
    if k == 0 then 0.0 else SsXX(k - 1, xm) + Sq((k - 1) as real - xm)
  }

  /** Sum over i < k of (i - xm)(y[i] - ym). */
  function SsXY(y: seq<real>, k: nat, xm: real, ym: real): real
    requires k <= |y|
  {
    if k == 0 then 0.0 else SsXY(y, k - 1, xm, ym) + ((k - 1) as real - xm) * (y[k - 1] - ym)
  }

  /** Sum over i < k of the squared residual of y[i] against slope * i + icept. */
  function SsRes(y: seq<real>, k: nat, slope: real, icept: real): (r: real)
    requires k <= |y|
    ensures r >= 0.0
  {
    if k == 0 then 0.0
    else
      var e := y[k - 1] - (slope * (k - 1) as real + icept);
      SsRes(y, k - 1, slope, icept) + Sq(e)
  }

  /** y is the line a + b * i. */
  ghost predicate Linear(y: seq<real>, a: real, b: real) {
    forall i :: 0 <= i < |y| ==> y[i] == a + b * i as real
  }

  lemma {:induction false} SumLinear(y: seq<real>, a: real, b: real)
    requires Linear(y, a, b)
    ensures Sum(y) == |y| as real * a + b * (|y| as real * (|y| as real - 1.0)) / 2.0
  {
    if |y| > 0 {
      var k := |y| - 1;
      SumLinear(y[..k], a, b);
      assert Sum(y) == Sum(y[..k]) + y[k];
      var kr := k as real;
      assert |y| as real == kr + 1.0;
      assert (kr + 1.0) * kr == kr * (kr - 1.0) + 2.0 * kr;
    }
  }

  lemma MeanLinear(y: seq<real>, a: real, b: real)
    requires |y| > 0 && Linear(y, a, b)
    ensures Mean(y) == a + b * IndexMean(|y|)
  {
    var n := |y| as real;
    SumLinear(y, a, b);
    assert Sum(y) == n * (a + b * IndexMean(|y|));
    assert Sum(y) / n == a + b * IndexMean(|y|);
  }

  lemma {:induction false} SsXYLinear(y: seq<real>, k: nat, a: real, b: real, xm: real)
    requires k <= |y| && Linear(y, a, b)
    ensures SsXY(y, k, xm, a + b * xm) == b * SsXX(k, xm)
  {
    if k > 0 {
      SsXYLinear(y, k - 1, a, b, xm);
      var i := (k - 1) as real;
      assert y[k - 1] - (a + b * xm) == b * (i - xm);
    }
  }

  /** For two or more points the index spread is positive, so the OLS slope is defined. */
  lemma IndexSpreadPositive(n: nat)
    requires n >= 2
    ensures SsXX(n, IndexMean(n)) > 0.0
  {
    var xm := IndexMean(n);
    var d := (n - 1) as real - xm;
    assert d == xm;
    SqPositive(d);
  }

  /** The OLS slope of y against 0..n-1 (0 when the index spread vanishes). */
  function OlsSlope(y: seq<real>): real
    requires |y| > 0
  {
    var xm := IndexMean(|y|);
    var sxx := SsXX(|y|, xm);
    if sxx == 0.0 then 0.0 else SsXY(y, |y|, xm, Mean(y)) / sxx
  }

  lemma SlopeFromCovariance(y: seq<real>, b: real)
    requires |y| >= 2
    requires SsXY(y, |y|, IndexMean(|y|), Mean(y)) == b * SsXX(|y|, IndexMean(|y|))
    ensures OlsSlope(y) == b
  {
    var xm := IndexMean(|y|);
    IndexSpreadPositive(|y|);
    QuotientOf(SsXY(y, |y|, xm, Mean(y)), b, SsXX(|y|, xm));
  }

  lemma QuotientOf(num: real, b: real, x: real)
    requires x != 0.0 && num == b * x
    ensures num / x == b
  {
  }

  /** OLS recovers the slope of a line exactly. */
  lemma OlsSlopeLinear(y: seq<real>, a: real, b: real)
    requires |y| >= 2 && Linear(y, a, b)
    ensures OlsSlope(y) == b
  {
    var xm := IndexMean(|y|);
    var ym := Mean(y);
    MeanLinear(y, a, b);
    assert ym == a + b * xm;
    SsXYLinear(y, |y|, a, b, xm);
    assert SsXY(y, |y|, xm, ym) == b * SsXX(|y|, xm);
    SlopeFromCovariance(y, b);
  }

  lemma {:induction false} SsResLinear(y: seq<real>, k: nat, a: real, b: real)
    requires k <= |y| && Linear(y, a, b)
    ensures SsRes(y, k, b, a) == 0.0
  {
    if k > 0 {
      SsResLinear(y, k - 1, a, b);
    }
  }

  // ---------------------------------------------------------------- counting

  /** How many elements of s are <= v (numpy's `np.sum(s <= v)`). */
  function CountLe(s: seq<real>, v: real): (r: nat)
    ensures r <= |s|
  {
    if |s| == 0 then 0 else CountLe(s[..|s| - 1], v) + (if s[|s| - 1] <= v then 1 else 0)
  }

  /** How many elements of s are < v. */
  function CountLt(s: seq<real>, v: real): (r: nat)
    ensures r <= |s|
  {
    if |s| == 0 then 0 else CountLt(s[..|s| - 1], v) + (if s[|s| - 1] < v then 1 else 0)
  }

  lemma {:induction false} CountLePositive(s: seq<real>, v: real)
    requires v in s
    ensures CountLe(s, v) >= 1
  {
    var k := |s| - 1;
    if s[k] != v {
      assert v in s[..k] by {
        var j :| 0 <= j < |s| && s[j] == v;
        assert j < k && s[..k][j] == v;
      }
      CountLePositive(s[..k], v);
    }
  }

  lemma {:induction false} CountLeMonotone(s: seq<real>, v: real, w: real)
    requires v <= w
    ensures CountLe(s, v) <= CountLe(s, w)
  {
    if |s| > 0 {
      CountLeMonotone(s[..|s| - 1], v, w);
    }
  }

  lemma {:induction false} CountLeAll(s: seq<real>, v: real)
    requires forall i :: 0 <= i < |s| ==> s[i] <= v
    ensures CountLe(s, v) == |s|
  {
    if |s| > 0 {
      CountLeAll(s[..|s| - 1], v);
    }
  }

  // ---------------------------------------------------------------- sorting and median

  ghost predicate Sorted(s: seq<real>) {
    forall i, j :: 0 <= i < j < |s| ==> s[i] <= s[j]
  }

  /** Insertion of x into a list, before the first element not smaller than x. */
  function Insert(x: real, s: seq<real>): (r: seq<real>)
    ensures |r| == |s| + 1
  {
    if |s| == 0 then [x]
    else if x <= s[0] then [x] + s
    else [s[0]] + Insert(x, s[1..])
  }

  /** Insertion adds exactly x to the multiset of elements. */
  lemma {:induction false} InsertPerm(x: real, s: seq<real>)
    ensures multiset(Insert(x, s)) == multiset(s) + multiset{x}
  {
    if |s| > 0 && x > s[0] {
      InsertPerm(x, s[1..]);
      assert s == [s[0]] + s[1..];
    }
  }

  /** Insertion into a sorted list keeps it sorted. */
  lemma {:induction false} InsertSorted(x: real, s: seq<real>)
    requires Sorted(s)
    ensures Sorted(Insert(x, s))
  {
    if |s| > 0 {
      var r := Insert(x, s);
      if x <= s[0] {
        forall i, j | 0 <= i < j < |r| ensures r[i] <= r[j] {
          if i > 0 { assert r[i] == s[i - 1] && r[j] == s[j - 1]; }
        }
      } else {
        var t := Insert(x, s[1..]);
        InsertSorted(x, s[1..]);
        assert forall k :: 0 <= k < |t| ==> s[0] <= t[k] by {
          InsertPerm(x, s[1..]);
          forall k | 0 <= k < |t| ensures s[0] <= t[k] {
            assert t[k] in multiset(t);
            if t[k] != x {
              assert t[k] in multiset(s[1..]);
              assert t[k] in s[1..];
            }
          }
        }
        assert r == [s[0]] + t;
      }
    }
  }

  /** Insertion sort. */
  function Sort(s: seq<real>): (r: seq<real>)
    ensures |r| == |s|
  {
    if |s| == 0 then [] else Insert(s[|s| - 1], Sort(s[..|s| - 1]))
  }

  /** The sort is an ascending permutation of its input. */
  lemma {:induction false} SortSpec(s: seq<real>)
    ensures Sorted(Sort(s))
    ensures multiset(Sort(s)) == multiset(s)
  {
    if |s| > 0 {
      var p := s[..|s| - 1];
      SortSpec(p);
      InsertSorted(s[|s| - 1], Sort(p));
      InsertPerm(s[|s| - 1], Sort(p));
      assert s == p + [s[|s| - 1]];
    }
  }

  /** numpy.median of a non-empty sequence. */
  function Median(s: seq<real>): real
    requires |s| > 0
  {
    var t := Sort(s);
    var h := |t| / 2;
    if |t| % 2 == 1 then t[h] else (t[h - 1] + t[h]) / 2.0
  }

  lemma SortConstant(s: seq<real>, c: real)
    requires AllEqual(s, c)
    ensures AllEqual(Sort(s), c)
  {
    var t := Sort(s);
    SortSpec(s);
    forall i | 0 <= i < |t| ensures t[i] == c {
      assert t[i] in multiset(t);
      assert t[i] in multiset(s);
    }
  }

  /** The median of a constant sequence is that constant. */
  lemma MedianConstant(s: seq<real>, c: real)
    requires |s| > 0 && AllEqual(s, c)
    ensures Median(s) == c
  {
    SortConstant(s, c);
  }
}
