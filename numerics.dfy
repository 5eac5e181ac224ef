/**
 * Python's numeric conversions, written out over Dafny's unbounded `int`
 * and exact `real`: `int()` on a float truncates toward zero and `round()`
 * rounds half to even. Python's `//` with a positive divisor floors, which
 * is what Dafny's Euclidean `/` does for a positive divisor, so the model
 * uses `/` directly wherever the source divides by a positive constant.
 */
module Numerics {

  /** Python `int(r)` for a float `r`: the integer part, rounding toward zero. */
  function Trunc(r: real): (n: int)
    ensures r >= 0.0 ==> n as real <= r < n as real + 1.0
    ensures r < 0.0 ==> n as real - 1.0 < r <= n as real
    ensures n == 0 || (n > 0 <==> r > 0.0)
  {
    if r >= 0.0 then r.Floor else -((-r).Floor)
  }

  lemma TruncOfInt(n: int)
    ensures Trunc(n as real) == n
  {
  }

  /** Python `round(r)` with no digits argument: nearest integer, ties to even. */
  function RoundHalfEven(r: real): (n: int)
    ensures -0.5 <= r - n as real <= 0.5
    ensures r - n as real == 0.5 || r - n as real == -0.5 ==> n % 2 == 0
  {
    var f := r.Floor;
    var frac := r - f as real;
    if frac < 0.5 then f
    else if frac > 0.5 then f + 1
    else if f % 2 == 0 then f else f + 1
  }

  /** Rounding an integer gives it back. */
  lemma RoundHalfEvenOfInt(n: int)
    ensures RoundHalfEven(n as real) == n
  {
  }

  /** Rounding never reverses the order of two values. */
  lemma RoundHalfEvenMonotone(a: real, b: real)
    requires a <= b
    ensures RoundHalfEven(a) <= RoundHalfEven(b)
  {
  }

  /** Multiplying by a positive factor keeps a strict order. */
  lemma ScaleKeepsOrder(a: real, b: real, c: real)
    requires c > 0.0
    ensures a > b <==> a * c > b * c
  {
    if a > b {
      assert (a - b) * c > 0.0;
    } else {
      assert (b - a) * c >= 0.0;
    }
  }

  function MaxInt(a: int, b: int): int { if a >= b then a else b }
  function MinInt(a: int, b: int): int { if a <= b then a else b }
  function MaxReal(a: real, b: real): real { if a >= b then a else b }
  function MinReal(a: real, b: real): real { if a <= b then a else b }
  function AbsInt(a: int): nat { if a >= 0 then a else -a }
  function AbsReal(a: real): real { if a >= 0.0 then a else -a }

  /** The source's `max(lo, min(hi, v))` saturation, for reals. */
  function ClampReal(lo: real, hi: real, v: real): (c: real)
    requires lo <= hi
    ensures lo <= c <= hi
    ensures lo <= v <= hi ==> c == v
    ensures v < lo ==> c == lo
    ensures v > hi ==> c == hi
  {
    MaxReal(lo, MinReal(hi, v))
  }
}
