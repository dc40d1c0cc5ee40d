/**
 * Math.random() results. The model never draws a number itself: every
 * random value is a parameter, and `IsDraw` states the range Math.random()
 * guarantees.
 */
module Draws {

  /** A Math.random() result: a real in [0, 1). */
  predicate IsDraw(r: real) { 0.0 <= r < 1.0 }

  /** `Math.floor(r * n)`: the index a draw selects from a list of n elements. */
  function Pick(r: real, n: nat): (k: nat)
    requires IsDraw(r) && n > 0
    ensures k < n
  {
    var m := n as real;
    var x := r * m;
    assert 0.0 <= x < m by {
      assert m - x == (1.0 - r) * m;
      assert (1.0 - r) * m > 0.0;
    }
    x.Floor
  }

  /** `Math.random() * 100`: a position in percent. */
  function Percent(r: real): (p: real)
    requires IsDraw(r)
    ensures 0.0 <= p < 100.0
  {
    r * 100.0
  }
}
