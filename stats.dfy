/**
 * The arithmetic the policy relies on, over exact reals: Python's abs, int() on a float
 * (truncation toward zero), statistics.mean and the sample variance behind statistics.stdev.
 *
 * Standard deviations are never formed (there is no square root): a comparison
 * |d| > stdev is decided as d² > variance, which ExceedsStdevIff justifies.
 */
module Stats {

  function Abs(x: real): (r: real)
    ensures r >= 0.0 && (r == x || r == -x)
  {
    if x < 0.0 then -x else x
  }

  function Max(a: int, b: int): (m: int)
    ensures m >= a && m >= b && (m == a || m == b)
  {
    if a >= b then a else b
  }

  /** Python's int(x) on a float: truncation toward zero. */
  function Trunc(x: real): (t: int)
    ensures x >= 0.0 ==> t as real <= x < t as real + 1.0
    ensures x < 0.0 ==> t as real - 1.0 < x <= t as real
  {
    if x >= 0.0 then x.Floor else -((-x).Floor)
  }

  lemma TruncMonotone(x: real, y: real)
    requires x <= y
    ensures Trunc(x) <= Trunc(y)
  {
  }

  /**
   * Real multiplication as a function of its own, so that the solver treats a square
   * as a term rather than rewriting it (its facts about x * x are unreliable).
   */
  function Product(a: real, b: real): real
  {
    a * b
  }

  lemma ProductPositive(a: real, b: real)
    requires a > 0.0 && b > 0.0
    ensures Product(a, b) > 0.0
  {
  }

  lemma ProductNegative(a: real, b: real)
    requires a < 0.0 && b < 0.0
    ensures Product(a, b) > 0.0
  {
    ProductPositive(-a, -b);
  }

  function Square(x: real): (r: real)
    ensures x != 0.0 ==> r > 0.0
    ensures x == 0.0 ==> r == 0.0
  {
    if x > 0.0 then
      ProductPositive(x, x);
      Product(x, x)
    else if x < 0.0 then
      ProductNegative(x, x);
      Product(x, x)
    else
      Product(x, x)
  }

  lemma SquareIs(x: real)
    ensures Square(x) == x * x
  {
  }

  lemma SquareOfAbs(x: real)
    ensures Square(Abs(x)) == Square(x)
  {
    SquareIs(x);
    SquareIs(Abs(x));
  }

  /** Squaring is strictly monotone on the non-negative reals. */
  lemma SquareMonotone(s: real, a: real)
    requires 0.0 <= s < a
    ensures Square(s) < Square(a)
  {
    SquareIs(a);
    SquareIs(s);
    assert Square(a) - Square(s) == (a - s) * (a + s);
    ProductPositive(a - s, a + s);
  }

  function Sum(s: seq<real>): real
  {
    if |s| == 0 then 0.0 else s[0] + Sum(s[1..])
  }

  /** statistics.mean; Python raises for an empty list, so the caller must exclude it. */
  function Mean(s: seq<real>): real
    requires |s| > 0
  {
    Sum(s) / (|s| as real)
  }

  /** The sum of squared deviations of `s` from `m`. */
  function SquaredDeviations(s: seq<real>, m: real): (r: real)
    ensures r >= 0.0
  {
    if |s| == 0 then 0.0 else Square(s[0] - m) + SquaredDeviations(s[1..], m)
  }

  /** statistics.variance: the sample variance (denominator n - 1); statistics.stdev is its square root. */
  function Variance(s: seq<real>): (v: real)
    requires |s| >= 2
    ensures v >= 0.0
  {
    SquaredDeviations(s, Mean(s)) / ((|s| - 1) as real)
  }

  /**
   * Whether a deviation `d` is larger in magnitude than the standard deviation whose
   * square is the variance `v`.
   */
  predicate ExceedsStdev(d: real, v: real)
  {
    Square(d) > v
  }

  /** For the non-negative square root `s` of `v` (the stdev of a variance v): d² > v exactly when |d| > s. */
  lemma ExceedsStdevIff(d: real, v: real, s: real)
    requires s >= 0.0 && Square(s) == v
    ensures ExceedsStdev(d, v) <==> Abs(d) > s
  {
    SquareOfAbs(d);
    if Abs(d) > s {
      SquareMonotone(s, Abs(d));
    } else if Abs(d) < s {
      SquareMonotone(Abs(d), s);
    }
  }

  ghost predicate Constant(s: seq<real>, c: real)
  {
    forall i :: 0 <= i < |s| ==> s[i] == c
  }

  lemma {:induction false} SumConstant(s: seq<real>, c: real)
    requires Constant(s, c)
    ensures Sum(s) == |s| as real * c
  {
    if |s| > 0 {
      SumConstant(s[1..], c);
    }
  }

  lemma {:induction false} SquaredDeviationsConstant(s: seq<real>, c: real)
    requires Constant(s, c)
    ensures SquaredDeviations(s, c) == 0.0
  {
    if |s| > 0 {
      SquaredDeviationsConstant(s[1..], c);
    }
  }

  /** A series whose every value is `c` has mean `c` and sample variance 0. */
  lemma ConstantStatistics(s: seq<real>, c: real)
    requires |s| > 0 && Constant(s, c)
    ensures Mean(s) == c
    ensures |s| >= 2 ==> Variance(s) == 0.0
  {
    SumConstant(s, c);
    SquaredDeviationsConstant(s, c);
  }

  /** A series with a value different from `m` has a positive sum of squared deviations from `m`. */
  lemma {:induction false} SquaredDeviationsPositive(s: seq<real>, m: real, i: int)
    requires 0 <= i < |s| && s[i] != m
    ensures SquaredDeviations(s, m) > 0.0
  {
    if i > 0 {
      assert s[1..][i - 1] == s[i];
      SquaredDeviationsPositive(s[1..], m, i - 1);
    }
  }
}
