/**
 * Single bits of an 8-bit port or bitmap, and the walking one-bit mask the
 * scan loops shift left once per bit.
 */
module Bits {

  /** The mask with only bit `i` set, `1 << i` on an 8-bit value; shifted past bit 7 it is 0. */
  function Mask(i: nat): bv8
    requires i <= 8
  {
    if i == 0 then 0x01 else if i == 1 then 0x02 else if i == 2 then 0x04 else if i == 3 then 0x08
    else if i == 4 then 0x10 else if i == 5 then 0x20 else if i == 6 then 0x40 else if i == 7 then 0x80
    else 0x00
  }

  /** Bit `i` of `x` is 1. */
  predicate Bit(x: bv8, i: nat)
    requires i < 8
  {
    x & Mask(i) != 0
  }

  /** Bit `i` went from 1 in `before` to 0 in `now`: a falling edge. */
  predicate Falls(now: bv8, before: bv8, i: nat)
    requires i < 8
  {
    !Bit(now, i) && Bit(before, i)
  }

  /** Shifting the mask left by one moves its bit up by one. */
  lemma MaskStep(i: nat)
    requires i < 8
    ensures Mask(i) << 1 == Mask(i + 1)
  {
  }

  /** Every bit of the all-ones byte is 1. */
  lemma AllOnes(i: nat)
    requires i < 8
    ensures Bit(0xFF, i)
  {
  }
}
