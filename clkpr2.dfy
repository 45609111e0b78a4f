/** power-clkpr-2.h: a two-bit CLKPS1..0 prescaler field in CLKPR,
    unlocked by storing `_BV(CLKPCE)`. */
module ClockPrescale2 {
  import opened Avr
  import opened Bits
  import opened Prescale

  /** The values of `clock_div_t`: clock_div_1 .. clock_div_8 are 0 .. 3. */
  predicate IsClockDiv(x: bv8) { x <= 3 }

  /** The CLKPS1..0 select bits. */
  function Field(ps0: BitPos, ps1: BitPos): bv8 { Bit(ps0) | Bit(ps1) }

  /** `clock_prescale_get()`: CLKPR masked to CLKPS0|CLKPS1. */
  function PrescaleGet(clkpr: bv8, ps0: BitPos, ps1: BitPos): (r: bv8)
    ensures r & !Field(ps0, ps1) == 0
  {
    clkpr & (Bit(ps0) | Bit(ps1))
  }

  /** `clock_prescale_set(x)`: `_BV(CLKPCE)` then `x` stored to CLKPR back
      to back with interrupts disabled, then the I flag restored. */
  method PrescaleSet(m: Mcu, x: bv8, clkpce: BitPos)
    requires CLKPR in m.io
    modifies m
    ensures m.io == old(m.io)[CLKPR := x]
    ensures m.ie == old(m.ie)
    ensures m.trace == old(m.trace) + [Write(CLKPR, Bit(clkpce), false), Write(CLKPR, x, false)]
  {
    UnlockedWrite(m, CLKPR, Bit(clkpce), CLKPR, x);
  }

  /** With CLKPS1..0 in bits 1..0 every `clock_div_t` value reads back
      unchanged, and a value with any higher bit set does not. */
  lemma SetGetRoundTrip(x: bv8, ps0: BitPos, ps1: BitPos)
    requires Field(ps0, ps1) == 0x03
    ensures PrescaleGet(x, ps0, ps1) == x <==> IsClockDiv(x)
  {
  }
}
