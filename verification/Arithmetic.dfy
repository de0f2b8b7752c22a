/** Machine ranges and the arithmetic several modules need. */
module Arithmetic {
  const U32_RANGE: nat := 0x1_0000_0000

  lemma MulMonotone(a: nat, b: nat, v: nat)
    requires a <= b
    ensures a * v <= b * v
  {
    assert b * v == a * v + (b - a) * v;
  }
}
