/** Monotonicity of multiplication, which the solver does not apply on its own. */
module Arith {
  lemma MulMonotone(a: int, b: int, s: int)
    requires a <= b && s > 0
    ensures a * s <= b * s
  {
  }

  lemma MulStrict(a: int, b: int, s: int)
    requires a < b && s > 0
    ensures a * s < b * s
  {
  }
}
