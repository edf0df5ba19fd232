/**
 * Prices are exact reals. The pages round only for display or when storing an order,
 * through `Number.prototype.toFixed(2)` (cents) or `toFixed(1)` (tenths of a star); the
 * model rounds the exact value to the nearest step, ties away from zero, which is
 * what `toFixed` specifies for a value it can represent exactly.
 */
module Money {

  /** The integer nearest to `y`; on a tie, the one farther from zero. */
  function RoundHalfAwayFromZero(y: real): (n: int)
    ensures -0.5 <= n as real - y <= 0.5
    ensures y >= 0.0 ==> n >= 0
    ensures y <= 0.0 ==> n <= 0
  {
    if y >= 0.0 then (y + 0.5).Floor else -((-y + 0.5).Floor)
  }

  lemma RoundOfInteger(n: int)
    ensures RoundHalfAwayFromZero(n as real) == n
  {
  }

  lemma RoundMonotone(x: real, y: real)
    requires x <= y
    ensures RoundHalfAwayFromZero(x) <= RoundHalfAwayFromZero(y)
  {
  }

  /** `parseFloat(x.toFixed(2))`: `x` rounded to cents. */
  function ToFixed2(x: real): (r: real)
    ensures -0.005 <= r - x <= 0.005
    ensures (r * 100.0).Floor as real == r * 100.0
  {
    RoundHalfAwayFromZero(x * 100.0) as real / 100.0
  }

  /** `parseFloat(x.toFixed(1))`: `x` rounded to tenths. */
  function ToFixed1(x: real): (r: real)
    ensures -0.05 <= r - x <= 0.05
    ensures (r * 10.0).Floor as real == r * 10.0
  {
    RoundHalfAwayFromZero(x * 10.0) as real / 10.0
  }

  /** A value that is already a whole number of cents is not changed by rounding. */
  lemma ToFixed2OfCents(x: real)
    requires (x * 100.0).Floor as real == x * 100.0
    ensures ToFixed2(x) == x
  {
    RoundOfInteger((x * 100.0).Floor);
  }

  /** Rounding an already rounded amount changes nothing: a stored order total
      displays as itself. */
  lemma ToFixed2Idempotent(x: real)
    ensures ToFixed2(ToFixed2(x)) == ToFixed2(x)
  {
    ToFixed2OfCents(ToFixed2(x));
  }

  lemma ToFixed2Monotone(x: real, y: real)
    requires x <= y
    ensures ToFixed2(x) <= ToFixed2(y)
  {
    RoundMonotone(x * 100.0, y * 100.0);
  }

  lemma ToFixed1Monotone(x: real, y: real)
    requires x <= y
    ensures ToFixed1(x) <= ToFixed1(y)
  {
    RoundMonotone(x * 10.0, y * 10.0);
  }
}
