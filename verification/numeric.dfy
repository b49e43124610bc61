/** The conventional optional value, used for the pipeline's "no data" outcomes. */
module Wrappers {
  datatype Option<+T> = None | Some(value: T)
}

/**
 * The two numeric conversions the pipeline borrows from Python, on exact
 * rationals: `int(x)` on a float (truncation toward zero) and `round(x, 2)` on
 * a NumPy float (round half to even after scaling by 100).
 */
module Numeric {

  /** Python's `int(x)`: the integer part of `x`, truncating toward zero. */
  function Trunc(x: real): (r: int)
    ensures 0.0 <= x ==> r as real <= x < r as real + 1.0
    ensures x < 0.0 ==> r as real - 1.0 < x <= r as real
  {
    if x >= 0.0 then x.Floor else -((-x).Floor)
  }

  /** Truncation never moves two values out of order. */
  lemma TruncMonotone(x: real, y: real)
    requires x <= y
    ensures Trunc(x) <= Trunc(y)
  {
    if x < 0.0 && 0.0 <= y {
      assert Trunc(x) as real - 1.0 < 0.0;
    }
  }

  /** On a non-negative quotient of integers, truncation is integer division. */
  lemma TruncOfQuotient(n: int, d: int)
    requires 0 <= n && 0 < d
    ensures Trunc(n as real / d as real) == n / d
  {
    var q, m := n / d, n % d;
    var x := n as real / d as real;
    assert n as real == q as real * d as real + m as real;
    assert x == q as real + m as real / d as real;
    assert 0.0 <= m as real / d as real < 1.0;
  }

  /** The integer part of `n * num / den` is integer division of the magnitudes, signed like `n`. */
  lemma TruncScaled(n: int, num: int, den: int)
    requires num > 0 && den > 0
    ensures n >= 0 ==> Trunc((num * n) as real / den as real) == num * n / den
    ensures n < 0 ==> Trunc((num * n) as real / den as real) == -((-num * n) / den)
  {
    if n >= 0 {
      TruncOfQuotient(num * n, den);
    } else {
      TruncOfQuotient(-num * n, den);
      var x := (num * n) as real / den as real;
      assert x == -((-num * n) as real / den as real);
      assert Trunc(x) == -Trunc(-x);
    }
  }

  /** The integer nearest `x`; a tie goes to the even neighbour. */
  function RoundHalfEven(x: real): (r: int)
    ensures r as real - 0.5 <= x <= r as real + 0.5
    ensures (x == r as real - 0.5 || x == r as real + 0.5) ==> r % 2 == 0
  {
    var f := x.Floor;
    var frac := x - f as real;
    if frac < 0.5 then f
    else if frac > 0.5 then f + 1
    else if f % 2 == 0 then f
    else f + 1
  }

  /** A value with at most two decimals: a whole number of hundredths. */
  predicate HasTwoDecimals(x: real)
  {
    (x * 100.0).Floor as real == x * 100.0
  }

  /** `round(x, 2)`: the nearest multiple of 0.01, ties to an even number of hundredths. */
  function Round2(x: real): (r: real)
    ensures HasTwoDecimals(r)
    ensures -0.005 <= r - x <= 0.005
  {
    var n := RoundHalfEven(x * 100.0);
    var r := n as real / 100.0;
    assert r * 100.0 == n as real;
    assert (n as real).Floor == n;
    assert n as real - 0.5 <= x * 100.0 <= n as real + 0.5;
    r
  }

  /** A whole number of hundredths rounds to itself. */
  lemma RoundHalfEvenOfInteger(n: int)
    ensures RoundHalfEven(n as real) == n
  {
    var r := RoundHalfEven(n as real);
    assert r - 1 < n < r + 1;
  }

  /** Rounding a value that already has two decimals changes nothing. */
  lemma Round2Exact(x: real)
    requires HasTwoDecimals(x)
    ensures Round2(x) == x
  {
    var n := (x * 100.0).Floor;
    RoundHalfEvenOfInteger(n);
  }

  /** Rounding twice is rounding once. */
  lemma Round2Idempotent(x: real)
    ensures Round2(Round2(x)) == Round2(x)
  {
    Round2Exact(Round2(x));
  }
}
