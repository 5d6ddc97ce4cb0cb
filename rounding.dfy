/** `round(x, 5)` on an exact real: to the nearest multiple of 10^-5, ties
    to the even multiple, as Python rounds a value that lies exactly halfway. */
module Rounding {

  const Scale: real := 100000.0

  function Round5(x: real): (r: real)
    ensures -1.0 / (2.0 * Scale) <= r - x <= 1.0 / (2.0 * Scale)
    ensures (r * Scale).Floor as real == r * Scale
  {
    var y := x * Scale;
    var f := y.Floor;
    var d := y - f as real;
    var n := if d < 0.5 then f else if d > 0.5 then f + 1 else if f % 2 == 0 then f else f + 1;
    assert (n as real / Scale) * Scale == n as real;
    n as real / Scale
  }

  /** Rounding keeps a value that lies in [0, 1] in [0, 1]. */
  lemma Round5Unit(x: real)
    requires 0.0 <= x <= 1.0
    ensures 0.0 <= Round5(x) <= 1.0
  {
    var y := x * Scale;
    assert 0.0 <= y <= Scale;
    assert 0 <= y.Floor <= 100000;
    if y.Floor == 100000 {
      assert y == Scale;
    }
  }
}
