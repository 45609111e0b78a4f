/** The 8-bit field operations the register routines are built from:
    `reg &= ~mask`, `reg |= mask`, and `reg = (reg & ~field) | value`. */
module Bits {
  import opened Avr

  /** `r & ~mask`: the bits of `mask` end up clear, every other bit keeps its value. */
  function ClearBits(r: bv8, mask: bv8): (n: bv8)
    ensures n & mask == 0
    ensures n & !mask == r & !mask
  {
    r & !mask
  }

  /** `r | mask`: the bits of `mask` end up set, every other bit keeps its value. */
  function SetBits(r: bv8, mask: bv8): (n: bv8)
    ensures n & mask == mask
    ensures n & !mask == r & !mask
  {
    r | mask
  }

  /** `(r & ~field) | v`: the read-modify-write every sleep-mode and
      prescaler setter performs. Inside `field` the result is `v`; outside it
      is the old contents with any stray bits of `v` ORed in. */
  function Splice(r: bv8, field: bv8, v: bv8): (n: bv8)
    ensures n & field == v & field
    ensures n & !field == (r & !field) | (v & !field)
  {
    (r & !field) | v
  }

  /** When `v` lies inside `field`, the splice changes exactly the field:
      the bits outside it are the old ones and the field reads back as `v`. */
  lemma SpliceInField(r: bv8, field: bv8, v: bv8)
    requires v & !field == 0
    ensures Splice(r, field, v) & !field == r & !field
    ensures Splice(r, field, v) & field == v
  {
  }

  /** Splicing the same value twice is the same as splicing it once. */
  lemma SpliceIdempotent(r: bv8, field: bv8, v: bv8)
    ensures Splice(Splice(r, field, v), field, v) == Splice(r, field, v)
  {
  }

  /** The last of two splices wins, provided the first value stayed inside
      the field. */
  lemma SpliceLastWins(r: bv8, field: bv8, v1: bv8, v2: bv8)
    requires v1 & !field == 0
    ensures Splice(Splice(r, field, v1), field, v2) == Splice(r, field, v2)
  {
  }

  /** Clearing bits is idempotent, and so is setting them. */
  lemma ClearSetIdempotent(r: bv8, mask: bv8)
    ensures ClearBits(ClearBits(r, mask), mask) == ClearBits(r, mask)
    ensures SetBits(SetBits(r, mask), mask) == SetBits(r, mask)
  {
  }

  /** Setting bits and then clearing the same bits leaves the original value
      with those bits clear; setting undoes a clear in the same way. */
  lemma SetThenClear(r: bv8, mask: bv8)
    ensures ClearBits(SetBits(r, mask), mask) == ClearBits(r, mask)
    ensures SetBits(ClearBits(r, mask), mask) == SetBits(r, mask)
  {
  }
}
