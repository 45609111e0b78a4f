/** sleep-3.h: a one-bit sleep-mode field SM with two modes. */
module Sleep3 {
  import opened Avr
  import opened Bits

  /** SLEEP_MODE_IDLE and SLEEP_MODE_PWR_DOWN. */
  datatype SleepMode = Idle | PwrDown

  /** The value of each SLEEP_MODE_* constant; it always lies inside the SM bit. */
  function ModeValue(mode: SleepMode, sm: BitPos): (v: bv8)
    ensures v & !Bit(sm) == 0
  {
    match mode
    case Idle => 0
    case PwrDown => Bit(sm)
  }

  /** The mode a sleep control register value selects. */
  function ModeOf(ctrl: bv8, sm: BitPos): SleepMode
  {
    if ctrl & Bit(sm) == 0 then Idle else PwrDown
  }

  /** `set_sleep_mode(mode)`: `_SLEEP_CONTROL_REG = (_SLEEP_CONTROL_REG &
      ~_BV(SM)) | mode`, on the device's sleep control register `ctrl`. */
  method SetSleepMode(m: Mcu, ctrl: Reg, mode: bv8, sm: BitPos)
    requires ctrl in m.io
    modifies m
    ensures m.io == old(m.io)[ctrl := Splice(old(m.io)[ctrl], Bit(sm), mode)]
    ensures m.ie == old(m.ie)
    ensures m.trace == old(m.trace) + [Write(ctrl, m.io[ctrl], m.ie)]
  {
    var r := m.In(ctrl);
    m.Out(ctrl, (r & !Bit(sm)) | mode);
  }

  /** After `set_sleep_mode` with a constant, SM is set exactly when the mode
      is SLEEP_MODE_PWR_DOWN, every other bit is unchanged, repeating the
      call changes nothing, and a later call overrides an earlier one. */
  lemma SetSleepModeEffect(r: bv8, mode: SleepMode, later: bv8, sm: BitPos)
    ensures var n := Splice(r, Bit(sm), ModeValue(mode, sm));
      && (n & Bit(sm) != 0 <==> mode == PwrDown)
      && ModeOf(n, sm) == mode
      && n & !Bit(sm) == r & !Bit(sm)
      && Splice(n, Bit(sm), ModeValue(mode, sm)) == n
      && Splice(n, Bit(sm), later) == Splice(r, Bit(sm), later)
  {
    var v := ModeValue(mode, sm);
    SpliceInField(r, Bit(sm), v);
    SpliceIdempotent(r, Bit(sm), v);
    SpliceLastWins(r, Bit(sm), v, later);
  }
}
