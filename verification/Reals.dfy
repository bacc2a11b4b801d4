/** Nonlinear facts about reals, stated once because the solver finds them only when asked. */
module Reals {
  lemma ProductSign(x: real, y: real)
    requires x >= 0.0 && y >= 0.0
    ensures x * y >= 0.0
    ensures x > 0.0 && y > 0.0 ==> x * y > 0.0
  {
  }

  lemma ProductOfDifference(x: real, y: real, z: real)
    ensures x * (y - z) == x * y - x * z
    ensures (y - z) * x == y * x - z * x
  {
  }
}
