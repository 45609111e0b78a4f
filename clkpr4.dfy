/** power-clkpr-4.h: CLKPR holds a system prescaler CLKPS2..0 and a timer
    prescaler CLTPS2..0, unlocked by `_BV(CLPCE)`. Both setters replace
    only their own field. */
module ClockPrescale4 {
  import opened Avr
  import opened Bits
  import opened Prescale
  import ClockPrescale3

  /** `system_clock_prescale_get()`: CLKPR masked to CLKPS0..CLKPS2. */
  function SystemPrescaleGet(clkpr: bv8, ps0: BitPos, ps1: BitPos, ps2: BitPos): (r: bv8)
    ensures r & !ClockPrescale3.SystemField(ps0, ps1, ps2) == 0
  {
    clkpr & (Bit(ps0) | Bit(ps1) | Bit(ps2))
  }

  /** `system_clock_prescale_set(x)`: CLKPR is read, `_BV(CLPCE)` stored,
      then the old contents with CLKPS2..0 replaced by `x & 7`. */
  method SystemPrescaleSet(m: Mcu, x: bv8, clpce: BitPos, ps0: BitPos, ps1: BitPos, ps2: BitPos)
    requires CLKPR in m.io
    modifies m
    ensures m.io == old(m.io)[CLKPR := Splice(old(m.io)[CLKPR], ClockPrescale3.SystemField(ps0, ps1, ps2), x & 7)]
    ensures m.ie == old(m.ie)
    ensures m.trace == old(m.trace)
      + [Write(CLKPR, Bit(clpce), false), Write(CLKPR, m.io[CLKPR], false)]
  {
    ReadModifyWrite(m, CLKPR, Bit(clpce), Bit(ps0) | Bit(ps1) | Bit(ps2), x & 7);
  }

  /** `timer_clock_prescale_set(x)`: the same sequence as in
      power-clkpr-3.h, unlocked by `_BV(CLPCE)`. */
  method TimerPrescaleSet(m: Mcu, x: bv8, clpce: BitPos, tps0: BitPos, tps1: BitPos, tps2: BitPos)
    requires CLKPR in m.io
    modifies m
    ensures m.io == old(m.io)[CLKPR := Splice(old(m.io)[CLKPR],
      ClockPrescale3.TimerField(tps0, tps1, tps2), ClockPrescale3.TimerValue(x))]
    ensures m.ie == old(m.ie)
    ensures m.trace == old(m.trace)
      + [Write(CLKPR, Bit(clpce), false), Write(CLKPR, m.io[CLKPR], false)]
  {
    ClockPrescale3.TimerPrescaleSet(m, x, clpce, tps0, tps1, tps2);
  }

  /** With CLKPS2..0 in bits 2..0 and CLTPS2..0 in bits 5..3, the system
      setter keeps every bit outside its field (the timer setting among
      them), truncates its argument to three bits rather than rejecting it,
      reads back as `x` for every `clock_div_t` value, and is idempotent. */
  lemma SystemSetEffect(r: bv8, x: bv8, ps0: BitPos, ps1: BitPos, ps2: BitPos, tps0: BitPos, tps1: BitPos, tps2: BitPos)
    requires ClockPrescale3.SystemField(ps0, ps1, ps2) == 0x07
    requires ClockPrescale3.TimerField(tps0, tps1, tps2) == 0x38
    ensures var n := Splice(r, 0x07, x & 7);
      && n & !0x07 == r & !0x07
      && ClockPrescale3.TimerPrescaleGet(n, tps0, tps1, tps2) == ClockPrescale3.TimerPrescaleGet(r, tps0, tps1, tps2)
      && SystemPrescaleGet(n, ps0, ps1, ps2) == x & 7
      && (ClockPrescale3.IsDiv(x) ==> SystemPrescaleGet(n, ps0, ps1, ps2) == x)
      && Splice(n, 0x07, x & 7) == n
  {
    SpliceInField(r, 0x07, x & 7);
    SpliceIdempotent(r, 0x07, x & 7);
  }
}
