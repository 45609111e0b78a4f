/** sleep-1.h: the sleep mode is split across two registers, SM1 in MCUCR
    and SM0 in EMCUCR. */
module Sleep1 {
  import opened Avr
  import opened Bits

  /** SLEEP_MODE_IDLE, SLEEP_MODE_PWR_DOWN and SLEEP_MODE_PWR_SAVE. */
  const IDLE: int := 0
  const PWR_DOWN: int := 1
  const PWR_SAVE: int := 2

  /** The new MCUCR: SM1 set for power-down and power-save, clear otherwise. */
  function McucrFor(mcucr: bv8, mode: int, sm1: BitPos): bv8
  {
    (mcucr & !Bit(sm1)) | (if mode == PWR_DOWN || mode == PWR_SAVE then Bit(sm1) else 0)
  }

  /** The new EMCUCR: SM0 set for power-save only. */
  function EmcucrFor(emcucr: bv8, mode: int, sm0: BitPos): bv8
  {
    (emcucr & !Bit(sm0)) | (if mode == PWR_SAVE then Bit(sm0) else 0)
  }

  /** `set_sleep_mode(mode)`: two read-modify-writes, MCUCR first, then EMCUCR. */
  method SetSleepMode(m: Mcu, mode: int, sm0: BitPos, sm1: BitPos)
    requires MCUCR in m.io && EMCUCR in m.io
    modifies m
    ensures m.io == old(m.io)[MCUCR := McucrFor(old(m.io)[MCUCR], mode, sm1)]
                             [EMCUCR := EmcucrFor(old(m.io)[EMCUCR], mode, sm0)]
    ensures m.ie == old(m.ie)
    ensures m.trace == old(m.trace) + [Write(MCUCR, m.io[MCUCR], m.ie), Write(EMCUCR, m.io[EMCUCR], m.ie)]
  {
    var r := m.In(MCUCR);
    m.Out(MCUCR, McucrFor(r, mode, sm1));
    r := m.In(EMCUCR);
    m.Out(EMCUCR, EmcucrFor(r, mode, sm0));
  }

  /** SM1 ends set exactly for power-down and power-save (so idle, and any
      other value, leaves it clear), every other MCUCR bit is unchanged,
      and the result depends only on the last mode set. */
  lemma McucrEffect(mcucr: bv8, mode: int, earlier: int, sm1: BitPos)
    ensures McucrFor(mcucr, mode, sm1) & Bit(sm1) != 0 <==> mode == PWR_DOWN || mode == PWR_SAVE
    ensures McucrFor(mcucr, mode, sm1) & !Bit(sm1) == mcucr & !Bit(sm1)
    ensures McucrFor(McucrFor(mcucr, earlier, sm1), mode, sm1) == McucrFor(mcucr, mode, sm1)
  {
  }

  /** SM0 ends set exactly for power-save, every other EMCUCR bit is
      unchanged, and the result depends only on the last mode set. */
  lemma EmcucrEffect(emcucr: bv8, mode: int, earlier: int, sm0: BitPos)
    ensures EmcucrFor(emcucr, mode, sm0) & Bit(sm0) != 0 <==> mode == PWR_SAVE
    ensures EmcucrFor(emcucr, mode, sm0) & !Bit(sm0) == emcucr & !Bit(sm0)
    ensures EmcucrFor(EmcucrFor(emcucr, earlier, sm0), mode, sm0) == EmcucrFor(emcucr, mode, sm0)
  {
  }
}
