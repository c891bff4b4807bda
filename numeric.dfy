/**
 * The numeric helpers of the advisor: `max`/`min` on two numbers, `clamp`,
 * Python 3's `round` to an integer (round half to even) and `round(x, 2)`
 * used to echo the soil readings. Floating-point numbers are modelled as
 * exact `real`s.
 */
module Numeric {

  /** Python's `max(a, b)` on two numbers. */
  function Max(a: real, b: real): (m: real)
    ensures a <= m && b <= m
    ensures m == a || m == b
  {
    if b > a then b else a
  }

  /** Python's `min(a, b)` on two numbers. */
  function Min(a: real, b: real): (m: real)
    ensures m <= a && m <= b
    ensures m == a || m == b
  {
    if b < a then b else a
  }

  /** `clamp(x, lo, hi)`: `max(lo, min(hi, x))`. */
  function Clamp(x: real, lo: real, hi: real): (r: real)
    ensures lo <= r
    ensures lo <= hi ==> r <= hi
    ensures lo <= x <= hi ==> r == x
    ensures x <= lo ==> r == lo
    ensures lo <= hi <= x ==> r == hi
    ensures hi < lo ==> r == lo
  {
    Max(lo, Min(hi, x))
  }

  /** For a well-formed interval, clamping never reverses the order of two points. */
  lemma ClampMonotone(x: real, y: real, lo: real, hi: real)
    requires x <= y && lo <= hi
    ensures Clamp(x, lo, hi) <= Clamp(y, lo, hi)
  {
  }

  /**
   * Python 3's `round(x)`: the nearest integer, and on a tie (`x` exactly
   * halfway between two integers) the even one.
   */
  function Round(x: real): (r: int)
    ensures x - 0.5 <= r as real <= x + 0.5
    ensures (r as real - x == 0.5 || x - r as real == 0.5) ==> r % 2 == 0
  {
    var f := x.Floor;
    var d := x - f as real;
    if d < 0.5 then f
    else if d > 0.5 then f + 1
    else if f % 2 == 0 then f
    else f + 1
  }

  /** The two properties in `Round`'s contract pin its result down: any integer having both is `Round(x)`. */
  lemma RoundUnique(x: real, k: int)
    requires x - 0.5 <= k as real <= x + 0.5
    requires (k as real - x == 0.5 || x - k as real == 0.5) ==> k % 2 == 0
    ensures k == Round(x)
  {
  }

  /** Rounding is monotone: it never reverses the order of two reals. */
  lemma RoundMonotone(x: real, y: real)
    requires x <= y
    ensures Round(x) <= Round(y)
  {
    if x.Floor < y.Floor {
      assert Round(x) <= x.Floor + 1 <= y.Floor <= Round(y);
    }
  }

  /** Scaling by a non-negative factor keeps the order of two reals. */
  lemma ScaleMonotone(c: real, x: real, y: real)
    requires 0.0 <= c && x <= y
    ensures c * x <= c * y
  {
    assert c * y - c * x == c * (y - x);
  }

  /** Python 3's `round(x, 2)`, used only to echo the readings: the nearest multiple of 1/100, ties to even. */
  function RoundTo2(x: real): (r: real)
    ensures x - 0.005 <= r <= x + 0.005
  {
    Round(x * 100.0) as real / 100.0
  }
}
