/**
 * Python's `round(x, 2)` and `round(x, 3)` on exact reals: scale, round to the
 * nearest integer with ties to the even one, scale back.  The float rounding
 * error of the binary representation is not modelled.
 */
module Numeric {

  /** Python's `round(y)`: the nearest integer, ties to the even neighbour. */
  function RoundHalfEven(y: real): (n: int)
    ensures y - 0.5 <= n as real <= y + 0.5
  {
    var f := y.Floor;
    var frac := y - f as real;
    if frac > 0.5 then f + 1
    else if frac < 0.5 then f
    else if f % 2 == 0 then f
    else f + 1
  }

  /** An integer bound on `y` is also a bound on its rounding. */
  lemma RoundHalfEvenWithin(y: real, lo: int, hi: int)
    requires lo as real <= y <= hi as real
    ensures lo <= RoundHalfEven(y) <= hi
  {
    var f := y.Floor;
    assert lo <= f <= hi;
    if f == hi {
      assert y == hi as real;
    }
  }

  /** Rounding an integer gives it back. */
  lemma RoundHalfEvenOfInt(k: int)
    ensures RoundHalfEven(k as real) == k
  {
    assert (k as real).Floor == k;
  }

  /** `round(x, 2)`. */
  function Round2(x: real): (r: real)
    ensures x - 0.005 <= r <= x + 0.005
  {
    RoundHalfEven(x * 100.0) as real / 100.0
  }

  /** `round(x, 3)`. */
  function Round3(x: real): (r: real)
    ensures x - 0.0005 <= r <= x + 0.0005
  {
    RoundHalfEven(x * 1000.0) as real / 1000.0
  }

  /** Bounds that are whole hundredths survive `round(x, 2)`. */
  lemma Round2Within(x: real, lo: int, hi: int)
    requires lo as real / 100.0 <= x <= hi as real / 100.0
    ensures lo as real / 100.0 <= Round2(x) <= hi as real / 100.0
  {
    RoundHalfEvenWithin(x * 100.0, lo, hi);
  }

  /** Bounds that are whole thousandths survive `round(x, 3)`. */
  lemma Round3Within(x: real, lo: int, hi: int)
    requires lo as real / 1000.0 <= x <= hi as real / 1000.0
    ensures lo as real / 1000.0 <= Round3(x) <= hi as real / 1000.0
  {
    RoundHalfEvenWithin(x * 1000.0, lo, hi);
  }

  /** A sign survives `round(x, 3)` in the weak sense: positive stays non-negative. */
  lemma Round3Sign(x: real)
    ensures x >= 0.0 ==> Round3(x) >= 0.0
    ensures x <= 0.0 ==> Round3(x) <= 0.0
  {
    if x >= 0.0 { RoundHalfEvenWithin(x * 1000.0, 0, (x * 1000.0).Floor + 1); }
    if x <= 0.0 { RoundHalfEvenWithin(x * 1000.0, (x * 1000.0).Floor, 0); }
  }

  /** A mean of `n` whole numbers each in [lo, hi] lies in [lo, hi]. */
  lemma MeanWithin(sum: int, n: int, lo: int, hi: int)
    requires n > 0 && lo * n <= sum <= hi * n
    ensures lo as real <= sum as real / n as real <= hi as real
  {
    var m := sum as real / n as real;
    assert m * n as real == sum as real;
    assert (lo as real) * (n as real) <= sum as real <= (hi as real) * (n as real);
  }

  /** A mean of `n` reals each in [lo, hi] lies in [lo, hi]. */
  lemma RealMeanWithin(sum: real, n: nat, lo: real, hi: real)
    requires n > 0 && lo * n as real <= sum <= hi * n as real
    ensures lo <= sum / n as real <= hi
  {
    var m := sum / n as real;
    assert m * n as real == sum;
  }

  function Min(a: real, b: real): real { if a <= b then a else b }
  function Max(a: real, b: real): real { if a >= b then a else b }

  /** Scaling by a non-negative factor keeps an interval's bounds. */
  lemma ScaleWithin(x: real, lo: real, hi: real, c: real)
    requires 0.0 <= c && lo <= x <= hi
    ensures lo * c <= x * c <= hi * c
  {
    assert (x - lo) * c >= 0.0;
    assert (hi - x) * c >= 0.0;
  }
}
