/** The numeric built-ins the dashboard uses (`Math.round`, `Math.min`, `Math.max`,
  * `Number.prototype.toFixed(1)`), over exact reals. */
module JsMath {

  /** `Math.round`: the nearest integer, halves rounded toward +infinity. */
  function Round(x: real): (n: int)
    ensures x - 0.5 < n as real <= x + 0.5
  {
    (x + 0.5).Floor
  }

  lemma RoundMonotone(x: real, y: real)
    requires x <= y
    ensures Round(x) <= Round(y)
  {
  }

  /** `Math.round` leaves integers unchanged. */
  lemma RoundOfInteger(n: int)
    ensures Round(n as real) == n
  {
  }

  function Min(a: real, b: real): real { if a <= b then a else b }
  function Max(a: real, b: real): real { if a >= b then a else b }

  /** The numeric value shown by `x.toFixed(1)`: the nearest multiple of 0.1,
    * halves rounded away from zero (the magnitude is rounded, then the sign restored). */
  function ToFixed1(x: real): (r: real)
    ensures -0.05 <= r - x <= 0.05
    ensures x >= 0.0 ==> -0.05 < r - x
    ensures x < 0.0 ==> r - x < 0.05
    ensures x >= 0.0 ==> r >= 0.0
    ensures (r * 10.0).Floor as real == r * 10.0
  {
    var n := if x < 0.0 then -Round(-x * 10.0) else Round(x * 10.0);
    assert (n as real / 10.0) * 10.0 == n as real;
    n as real / 10.0
  }
}
