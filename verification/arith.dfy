/** Integer arithmetic shared by the score computations: clamping, the rounding of
    JavaScript's `Math.round` applied to a quotient, and sums. */
module Arith {

  function Min(a: int, b: int): int { if a <= b then a else b }

  function Max(a: int, b: int): int { if a >= b then a else b }

  /** `Math.max(lo, Math.min(hi, x))`. */
  function Clamp(lo: int, hi: int, x: int): (r: int)
    requires lo <= hi
    ensures lo <= r <= hi
    ensures lo <= x <= hi ==> r == x
    ensures x < lo ==> r == lo
    ensures x > hi ==> r == hi
  {
    Max(lo, Min(hi, x))
  }

  /** `Math.round(a / b)` for `b > 0`: the nearest integer to a/b, halves rounded
      up. Dafny's `/` on a positive divisor is floor division. */
  function RoundDiv(a: int, b: int): (r: int)
    requires b > 0
    ensures 2 * b * r - b <= 2 * a < 2 * b * r + b
  {
    (2 * a + b) / (2 * b)
  }

  /** Multiplying by a positive factor keeps a gap of at least one step. */
  lemma {:induction false} MulGap(m: int, x: int, y: int)
    requires m > 0 && x < y
    ensures m * x + m <= m * y
    decreases y - x
  {
    if y - x > 1 {
      MulGap(m, x, y - 1);
      assert m * (y - 1) + m == m * y;
    } else {
      assert y == x + 1;
      assert m * y == m * x + m;
    }
  }

  /** Any integer meeting the rounding bounds is the rounded quotient. */
  lemma RoundDivUnique(a: int, b: int, r: int)
    requires b > 0
    requires 2 * b * r - b <= 2 * a < 2 * b * r + b
    ensures RoundDiv(a, b) == r
  {
    var q := RoundDiv(a, b);
    if q < r {
      MulGap(2 * b, q, r);
    } else if q > r {
      MulGap(2 * b, r, q);
    }
  }

  /** The rounded quotient is monotone in the dividend. */
  lemma RoundDivMonotone(a1: int, a2: int, b: int)
    requires b > 0 && a1 <= a2
    ensures RoundDiv(a1, b) <= RoundDiv(a2, b)
  {
    var q1, q2 := RoundDiv(a1, b), RoundDiv(a2, b);
    if q1 > q2 {
      MulGap(2 * b, q2, q1);
    }
  }

  /** A rounded mean of values in [lo, hi] lies in [lo, hi]. */
  lemma RoundDivBetween(a: int, b: int, lo: int, hi: int)
    requires b > 0 && lo * b <= a <= hi * b
    ensures lo <= RoundDiv(a, b) <= hi
  {
    var q := RoundDiv(a, b);
    if q < lo {
      MulGap(2 * b, q, lo);
    } else if q > hi {
      MulGap(2 * b, hi, q);
    }
  }

  function Sum(s: seq<int>): int {
    if s == [] then 0 else Sum(s[..|s| - 1]) + s[|s| - 1]
  }

  lemma {:induction false} SumBounds(s: seq<int>, lo: int, hi: int)
    requires forall k :: 0 <= k < |s| ==> lo <= s[k] <= hi
    ensures lo * |s| <= Sum(s) <= hi * |s|
  {
    if s != [] {
      var n := |s| - 1;
      SumBounds(s[..n], lo, hi);
      assert lo * |s| == lo * n + lo && hi * |s| == hi * n + hi;
    }
  }

  /** Replacing one element changes the sum by the difference. */
  lemma {:induction false} SumUpdate(s: seq<int>, i: nat, v: int)
    requires i < |s|
    ensures Sum(s[i := v]) == Sum(s) - s[i] + v
  {
    var n := |s| - 1;
    if i == n {
      assert s[i := v][..n] == s[..n];
    } else {
      assert s[i := v][..n] == s[..n][i := v];
      SumUpdate(s[..n], i, v);
    }
  }
}
