/** Python's `round(x, 1)`, taken on exact real numbers: the nearest multiple
    of 0.1, with a tie going to the even multiple (banker's rounding).
    Binary floating-point representation error is not modelled. */
module Rounding {

  /** `round(x, 1) * 10` as an integer: the nearest whole number of tenths. */
  function Round1Tenths(x: real): (n: int)
    ensures n as real - 0.5 <= x * 10.0 <= n as real + 0.5
    ensures (x * 10.0 == n as real - 0.5 || x * 10.0 == n as real + 0.5) ==> n % 2 == 0
  {
    var t := x * 10.0;
    var f := t.Floor;
    var d := t - f as real;
    if d < 0.5 then f
    else if d > 0.5 then f + 1
    else if f % 2 == 0 then f
    else f + 1
  }

  /** `round(x, 1)`: a whole number of tenths, at most half a tenth away
      from `x`. */
  function Round1(x: real): (r: real)
    ensures -0.05 <= r - x <= 0.05
    ensures r * 10.0 == Round1Tenths(x) as real
  {
    Round1Tenths(x) as real / 10.0
  }

  /** `round(x, 1) == 0` holds exactly on the closed interval [-0.05, 0.05]:
      both ends are ties and go to the even neighbour 0. */
  lemma RoundsToZeroIff(x: real)
    ensures Round1(x) == 0.0 <==> -0.05 <= x <= 0.05
  {
    var n := Round1Tenths(x);
    if -0.05 <= x <= 0.05 {
      assert -1 <= n <= 1;
    }
  }

  /** `round(x, 1) > 0` holds exactly when `x` exceeds 0.05. */
  lemma RoundsPositiveIff(x: real)
    ensures Round1(x) > 0.0 <==> x > 0.05
  {
    var n := Round1Tenths(x);
    if x <= 0.05 {
      assert n <= 1;
    }
  }
}
