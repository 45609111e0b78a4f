/** power-clkpr-1.h: the System Clock Prescale Register with a four-bit
    CLKPS3..0 field, unlocked by storing `_BV(CLKPCE)` to CLKPR. */
module ClockPrescale1 {
  import opened Avr
  import opened Bits
  import opened Prescale

  /** The values of `clock_div_t`: clock_div_1 .. clock_div_256 are 0 .. 8,
      and clock_div_1_rc = 15 exists only on devices that define
      `__AVR_HAVE_CLOCK_DIV_1_RC` (`haveRc`). */
  predicate IsClockDiv(x: bv8, haveRc: bool) { x <= 8 || (haveRc && x == 15) }

  /** The CLKPS3..0 select bits. */
  function Field(ps0: BitPos, ps1: BitPos, ps2: BitPos, ps3: BitPos): bv8
  {
    Bit(ps0) | Bit(ps1) | Bit(ps2) | Bit(ps3)
  }

  /** `clock_prescale_get()`: CLKPR masked to CLKPS0..CLKPS3. Only select
      bits can be set in the result. */
  function PrescaleGet(clkpr: bv8, ps0: BitPos, ps1: BitPos, ps2: BitPos, ps3: BitPos): (r: bv8)
    ensures r & !Field(ps0, ps1, ps2, ps3) == 0
  {
    clkpr & (Bit(ps0) | Bit(ps1) | Bit(ps2) | Bit(ps3))
  }

  /** `clock_prescale_set(x)`: `_BV(CLKPCE)` and then `x`, unmasked, are
      stored to CLKPR back to back with interrupts disabled; the I flag is
      restored afterwards and no other register is written. */
  method PrescaleSet(m: Mcu, x: bv8, clkpce: BitPos)
    requires CLKPR in m.io
    modifies m
    ensures m.io == old(m.io)[CLKPR := x]
    ensures m.ie == old(m.ie)
    ensures m.trace == old(m.trace) + [Write(CLKPR, Bit(clkpce), false), Write(CLKPR, x, false)]
  {
    UnlockedWrite(m, CLKPR, Bit(clkpce), CLKPR, x);
  }

  /** With CLKPS3..0 in the low nibble, reading back after a set gives the
      value set exactly when it has no bit outside the nibble; in particular
      every `clock_div_t` value comes back unchanged. */
  lemma SetGetRoundTrip(x: bv8, haveRc: bool, ps0: BitPos, ps1: BitPos, ps2: BitPos, ps3: BitPos)
    requires Field(ps0, ps1, ps2, ps3) == 0x0F
    ensures PrescaleGet(x, ps0, ps1, ps2, ps3) == x <==> x & 0xF0 == 0
    ensures IsClockDiv(x, haveRc) ==> PrescaleGet(x, ps0, ps1, ps2, ps3) == x
  {
  }
}
