/**
 * Rounding as the dashboard and the analysis service perform it, over exact rationals.
 * JavaScript's `Math.round` rounds halves up; `Number.prototype.toFixed` rounds the
 * magnitude with halves up; Python's `round` and `format(x, '.1f')` round halves to even.
 */
module Rounding {

  /** `Math.floor`. */
  function Floor(x: real): (n: int)
    ensures n as real <= x < n as real + 1.0
  {
    x.Floor
  }

  /** `Math.ceil`. */
  function Ceil(x: real): (n: int)
    ensures n as real - 1.0 < x <= n as real
  {
    -((-x).Floor)
  }

  /** `Math.round`: the nearest integer, a half rounded towards +infinity. */
  function JsRound(x: real): (n: int)
    ensures n as real - 0.5 <= x < n as real + 0.5
  {
    (x + 0.5).Floor
  }

  lemma JsRoundMonotone(x: real, y: real)
    requires x <= y
    ensures JsRound(x) <= JsRound(y)
  {
  }

  lemma JsRoundOfInt(n: int)
    ensures JsRound(n as real) == n
  {
  }

  /** JavaScript's `x % 1`: the remainder truncates, so it has the sign of `x`. */
  function JsFrac(x: real): (f: real)
    ensures x >= 0.0 ==> 0.0 <= f < 1.0 && f == x - Floor(x) as real
    ensures x < 0.0 ==> -1.0 < f <= 0.0
  {
    if x >= 0.0 then x - Floor(x) as real else x - Ceil(x) as real
  }

  /**
   * `x.toFixed(1)`, as a number of tenths: the magnitude is rounded to the nearest
   * tenth with halves away from zero, and the sign is put back.
   */
  function JsFixed1(x: real): (t: int)
    ensures x >= 0.0 ==> t >= 0 && t as real - 0.5 <= 10.0 * x < t as real + 0.5
    ensures x < 0.0 ==> t <= 0 && t as real - 0.5 < 10.0 * x <= t as real + 0.5
  {
    if x >= 0.0 then JsRound(10.0 * x) else -JsRound(-10.0 * x)
  }

  lemma JsFixed1Monotone(x: real, y: real)
    requires x <= y
    ensures JsFixed1(x) <= JsFixed1(y)
  {
    if x < 0.0 && y < 0.0 {
      JsRoundMonotone(-10.0 * y, -10.0 * x);
    } else if x >= 0.0 && y >= 0.0 {
      JsRoundMonotone(10.0 * x, 10.0 * y);
    }
  }

  lemma PyRoundOfInt(n: int)
    ensures PyRound(n as real) == n
  {
    assert (n as real).Floor == n;
  }

  /** Python's `round(x)`: the nearest integer, a half rounded to the even neighbour. */
  function PyRound(x: real): (n: int)
    ensures n as real - 0.5 <= x <= n as real + 0.5
    ensures (x == n as real + 0.5 || x == n as real - 0.5) ==> n % 2 == 0
  {
    var f := x.Floor;
    var d := x - f as real;
    if d < 0.5 then f
    else if d > 0.5 then f + 1
    else if f % 2 == 0 then f
    else f + 1
  }

  /** Python's `round(x, 3)`. */
  function PyRound3(x: real): (r: real)
    ensures -0.0005 <= r - x <= 0.0005
    ensures -1.0 <= x <= 1.0 ==> -1.0 <= r <= 1.0
  {
    PyRound(1000.0 * x) as real / 1000.0
  }
}
