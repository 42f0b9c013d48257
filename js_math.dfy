/**
 * JavaScript's numeric rounding primitives, stated over exact reals.
 * The source computes with IEEE-754 doubles; this model keeps the exact
 * rational value and applies each rounding rule as the ECMAScript standard
 * defines it for the mathematical value.
 */
module JsMath {

  /** 10^n as an integer. */
  function Pow10(n: nat): (r: nat)
    ensures r >= 1
  {
    if n == 0 then 1 else 10 * Pow10(n - 1)
  }

  /** `Math.round(x)`: the nearest integer, ties rounded towards +infinity. */
  function Round(x: real): (r: int)
    ensures x - 0.5 < r as real <= x + 0.5
  {
    (x + 0.5).Floor
  }

  /** `Math.ceil(x)`: the least integer not below x. */
  function Ceil(x: real): (r: int)
    ensures x <= r as real < x + 1.0
  {
    -((-x).Floor)
  }

  /**
   * The integer `toFixed` prints for a scaled value: the magnitude is rounded
   * half up and the sign put back, so ties go away from zero.
   */
  function RoundHalfAway(y: real): (r: int)
    ensures -0.5 <= r as real - y <= 0.5
    ensures y >= 0.0 ==> r == Round(y)
  {
    if y < 0.0 then -Round(-y) else Round(y)
  }

  /**
   * `parseFloat(x.toFixed(digits))`: x rounded to `digits` decimals. The
   * engine uses two and three decimals; the lemmas below state the rounding
   * error and the grid of each.
   */
  function ToFixed(x: real, digits: nat): real
  {
    RoundHalfAway(x * Pow10(digits) as real) as real / Pow10(digits) as real
  }

  /** Two decimals: within half a hundredth of x, and a whole number of hundredths. */
  lemma ToFixedTwoDecimals(x: real)
    ensures -0.005 <= ToFixed(x, 2) - x <= 0.005
    ensures (ToFixed(x, 2) * 100.0).Floor as real == ToFixed(x, 2) * 100.0
  {
    assert Pow10(2) == 100;
  }

  /** Three decimals: within half a thousandth of x, and a whole number of thousandths. */
  lemma ToFixedThreeDecimals(x: real)
    ensures -0.0005 <= ToFixed(x, 3) - x <= 0.0005
    ensures (ToFixed(x, 3) * 1000.0).Floor as real == ToFixed(x, 3) * 1000.0
  {
    assert Pow10(3) == 1000;
  }

  /** Rounding is monotone: a larger value never rounds to a smaller integer. */
  lemma RoundMonotone(x: real, y: real)
    requires x <= y
    ensures Round(x) <= Round(y)
  {
  }

  /** Values at least one apart round to different integers. */
  lemma RoundStrictlyMonotone(x: real, y: real)
    requires x + 1.0 <= y
    ensures Round(x) < Round(y)
  {
  }

  /** Rounding half away from zero is monotone. */
  lemma RoundHalfAwayMonotone(x: real, y: real)
    requires x <= y
    ensures RoundHalfAway(x) <= RoundHalfAway(y)
  {
    if x < 0.0 && y < 0.0 {
      RoundMonotone(-y, -x);
    } else if 0.0 <= x {
      RoundMonotone(x, y);
    }
  }

  /** Rounding to two decimals is monotone. */
  lemma ToFixedTwoDecimalsMonotone(x: real, y: real)
    requires x <= y
    ensures ToFixed(x, 2) <= ToFixed(y, 2)
  {
    assert Pow10(2) == 100;
    RoundHalfAwayMonotone(x * 100.0, y * 100.0);
  }
}
