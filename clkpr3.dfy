/** power-clkpr-3.h: CLKPR holds a system prescaler CLKPS2..0 and a timer
    prescaler CLTPS2..0, both unlocked by `_BV(CLKPCE)`. The system setter
    stores its argument over the whole register; the timer setter replaces
    only its own field. */
module ClockPrescale3 {
  import opened Avr
  import opened Bits
  import opened Prescale

  /** The values of `clock_div_t` (clock_div_1 .. clock_div_128) and of
      `timer_clock_div_t` (timer_clock_div_reset .. timer_clock_div_64):
      0 .. 7 in both. */
  predicate IsDiv(x: bv8) { x <= 7 }

  /** The CLKPS2..0 select bits. */
  function SystemField(ps0: BitPos, ps1: BitPos, ps2: BitPos): bv8 { Bit(ps0) | Bit(ps1) | Bit(ps2) }

  /** The CLTPS2..0 select bits. */
  function TimerField(tps0: BitPos, tps1: BitPos, tps2: BitPos): bv8 { Bit(tps0) | Bit(tps1) | Bit(tps2) }

  /** `system_clock_prescale_get()`: CLKPR masked to CLKPS0..CLKPS2. */
  function SystemPrescaleGet(clkpr: bv8, ps0: BitPos, ps1: BitPos, ps2: BitPos): (r: bv8)
    ensures r & !SystemField(ps0, ps1, ps2) == 0
  {
    clkpr & (Bit(ps0) | Bit(ps1) | Bit(ps2))
  }

  /** `timer_clock_prescale_get()`: CLKPR masked to CLTPS0..CLTPS2, left
      where the bits sit (not shifted down). */
  function TimerPrescaleGet(clkpr: bv8, tps0: BitPos, tps1: BitPos, tps2: BitPos): (r: bv8)
    ensures r & !TimerField(tps0, tps1, tps2) == 0
  {
    clkpr & (Bit(tps0) | Bit(tps1) | Bit(tps2))
  }

  /** `(x & 7) << 3`: the argument truncated to three bits and moved to
      bits 5..3, where CLTPS2..0 sit. */
  function TimerValue(x: bv8): (v: bv8)
    ensures v & !0x38 == 0
    ensures v >> 3 == x & 7
  {
    (x & 7) << 3
  }

  /** `system_clock_prescale_set(x)`: `_BV(CLKPCE)` then `x` stored to CLKPR
      back to back with interrupts disabled, then the I flag restored. */
  method SystemPrescaleSet(m: Mcu, x: bv8, clkpce: BitPos)
    requires CLKPR in m.io
    modifies m
    ensures m.io == old(m.io)[CLKPR := x]
    ensures m.ie == old(m.ie)
    ensures m.trace == old(m.trace) + [Write(CLKPR, Bit(clkpce), false), Write(CLKPR, x, false)]
  {
    UnlockedWrite(m, CLKPR, Bit(clkpce), CLKPR, x);
  }

  /** `timer_clock_prescale_set(x)`: CLKPR is read, `_BV(CLKPCE)` stored,
      then the old contents with CLTPS2..0 replaced by `(x & 7) << 3`. */
  method TimerPrescaleSet(m: Mcu, x: bv8, clkpce: BitPos, tps0: BitPos, tps1: BitPos, tps2: BitPos)
    requires CLKPR in m.io
    modifies m
    ensures m.io == old(m.io)[CLKPR := Splice(old(m.io)[CLKPR], TimerField(tps0, tps1, tps2), TimerValue(x))]
    ensures m.ie == old(m.ie)
    ensures m.trace == old(m.trace)
      + [Write(CLKPR, Bit(clkpce), false), Write(CLKPR, m.io[CLKPR], false)]
  {
    ReadModifyWrite(m, CLKPR, Bit(clkpce), Bit(tps0) | Bit(tps1) | Bit(tps2), TimerValue(x));
  }

  /** With CLKPS2..0 in bits 2..0 and CLTPS2..0 in bits 5..3: a system
      setting reads back unchanged, and since the whole register is
      overwritten the timer field reads back as 0 afterwards. */
  lemma SystemSetEffect(x: bv8, ps0: BitPos, ps1: BitPos, ps2: BitPos, tps0: BitPos, tps1: BitPos, tps2: BitPos)
    requires SystemField(ps0, ps1, ps2) == 0x07 && TimerField(tps0, tps1, tps2) == 0x38
    requires IsDiv(x)
    ensures SystemPrescaleGet(x, ps0, ps1, ps2) == x
    ensures TimerPrescaleGet(x, tps0, tps1, tps2) == 0
  {
  }

  /** With CLTPS2..0 in bits 5..3, the timer setter changes only the timer
      field, truncates its argument to three bits, is idempotent, and the
      timer getter then returns the setting shifted left by three, which is
      the argument itself only for timer_clock_div_reset. */
  lemma TimerSetEffect(r: bv8, x: bv8, tps0: BitPos, tps1: BitPos, tps2: BitPos)
    requires TimerField(tps0, tps1, tps2) == 0x38
    ensures var n := Splice(r, 0x38, TimerValue(x));
      && n & !0x38 == r & !0x38
      && TimerPrescaleGet(n, tps0, tps1, tps2) == TimerValue(x)
      && TimerPrescaleGet(n, tps0, tps1, tps2) >> 3 == x & 7
      && Splice(n, 0x38, TimerValue(x)) == n
      && (IsDiv(x) ==> (TimerPrescaleGet(n, tps0, tps1, tps2) == x <==> x == 0))
  {
    SpliceInField(r, 0x38, TimerValue(x));
    SpliceIdempotent(r, 0x38, TimerValue(x));
  }

  /** The timer setting `timer_clock_prescale_get()` evidently means to
      return: CLTPS2..0 shifted down to a `timer_clock_div_t` value. */
  function TimerPrescaleSetting(clkpr: bv8, tps0: BitPos, tps1: BitPos, tps2: BitPos): (r: bv8)
    ensures tps0 == 3 && TimerField(tps0, tps1, tps2) == 0x38 ==>
      r <= 7 && TimerValue(r) == TimerPrescaleGet(clkpr, tps0, tps1, tps2)
  {
    (clkpr & TimerField(tps0, tps1, tps2)) >> tps0
  }

  /** With CLTPS2..0 in bits 5..3, the intended getter reads back every
      `timer_clock_div_t` value the timer setter stores, keeps only the
      field, and setting what it returns leaves the field as it was. */
  lemma TimerSettingRoundTrip(r: bv8, x: bv8, tps0: BitPos, tps1: BitPos, tps2: BitPos)
    requires TimerField(tps0, tps1, tps2) == 0x38 && tps0 == 3
    ensures IsDiv(x) ==> TimerPrescaleSetting(Splice(r, 0x38, TimerValue(x)), tps0, tps1, tps2) == x
    ensures IsDiv(TimerPrescaleSetting(r, tps0, tps1, tps2))
    ensures Splice(r, 0x38, TimerValue(TimerPrescaleSetting(r, tps0, tps1, tps2))) == r
  {
    TimerSetEffect(r, x, tps0, tps1, tps2);
  }
}
