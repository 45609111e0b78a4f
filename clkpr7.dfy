/** power-clkpr-7.h: the clock prescaler of the CCP-protected devices. The
    signature 0xD8 stored to CCP unlocks CLKPSR for the next store. */
module ClockPrescale7 {
  import opened Avr
  import opened Bits
  import opened Prescale

  /** The configuration change protection signature for I/O registers. */
  const CCP_SIGNATURE: bv8 := 0xD8

  /** The values of `clock_div_t`: clock_div_1 .. clock_div_256 are 0 .. 8. */
  predicate IsClockDiv(x: bv8) { x <= 8 }

  /** The CLKPS3..0 select bits. */
  function Field(ps0: BitPos, ps1: BitPos, ps2: BitPos, ps3: BitPos): bv8
  {
    Bit(ps0) | Bit(ps1) | Bit(ps2) | Bit(ps3)
  }

  /** `clock_prescale_get()`: CLKPSR masked to CLKPS0..CLKPS3. */
  function PrescaleGet(clkpsr: bv8, ps0: BitPos, ps1: BitPos, ps2: BitPos, ps3: BitPos): (r: bv8)
    ensures r & !Field(ps0, ps1, ps2, ps3) == 0
  {
    clkpsr & (Bit(ps0) | Bit(ps1) | Bit(ps2) | Bit(ps3))
  }

  /** `clock_prescale_set(x)`: 0xD8 to CCP and then `x` to CLKPSR, back to
      back with interrupts disabled; only those two registers change, and
      the I flag is restored. */
  method PrescaleSet(m: Mcu, x: bv8)
    requires CCP in m.io && CLKPSR in m.io
    modifies m
    ensures m.io == old(m.io)[CCP := CCP_SIGNATURE][CLKPSR := x]
    ensures m.ie == old(m.ie)
    ensures m.trace == old(m.trace) + [Write(CCP, CCP_SIGNATURE, false), Write(CLKPSR, x, false)]
  {
    UnlockedWrite(m, CCP, CCP_SIGNATURE, CLKPSR, x);
  }

  /** With CLKPS3..0 in the low nibble every `clock_div_t` value reads back
      unchanged. */
  lemma SetGetRoundTrip(x: bv8, ps0: BitPos, ps1: BitPos, ps2: BitPos, ps3: BitPos)
    requires Field(ps0, ps1, ps2, ps3) == 0x0F
    requires IsClockDiv(x)
    ensures PrescaleGet(x, ps0, ps1, ps2, ps3) == x
  {
  }
}
