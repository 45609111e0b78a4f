/** sleep-8.h: a two-bit sleep-mode field SM1:SM0 in the sleep control
    register, with four modes that use all four values of the field. */
module Sleep8 {
  import opened Avr
  import opened Bits

  /** SLEEP_MODE_IDLE, SLEEP_MODE_ADC, SLEEP_MODE_PWR_DOWN, SLEEP_MODE_STANDBY. */
  datatype SleepMode = Idle | Adc | PwrDown | Standby

  /** The bits `set_sleep_mode` clears before ORing in the mode. */
  function Field(sm0: BitPos, sm1: BitPos): bv8 { Bit(sm0) | Bit(sm1) }

  /** The value of each SLEEP_MODE_* constant; it always lies inside the field. */
  function ModeValue(mode: SleepMode, sm0: BitPos, sm1: BitPos): (v: bv8)
    ensures v & !Field(sm0, sm1) == 0
  {
    match mode
    case Idle => 0
    case Adc => Bit(sm0)
    case PwrDown => Bit(sm1)
    case Standby => Bit(sm0) | Bit(sm1)
  }

  /** The mode a sleep control register value selects. */
  function ModeOf(ctrl: bv8, sm0: BitPos, sm1: BitPos): SleepMode
  {
    var f := ctrl & Field(sm0, sm1);
    if f == 0 then Idle
    else if f == Bit(sm0) then Adc
    else if f == Bit(sm1) then PwrDown
    else Standby
  }

  /** The four constants are distinct and cover every value of SM1:SM0:
      reading any register value back as a mode and taking that mode's
      constant gives the field, and a constant reads back as its own mode. */
  lemma ModesCoverField(ctrl: bv8, mode: SleepMode, sm0: BitPos, sm1: BitPos)
    requires sm0 != sm1
    ensures ModeValue(ModeOf(ctrl, sm0, sm1), sm0, sm1) == ctrl & Field(sm0, sm1)
    ensures ModeOf(ModeValue(mode, sm0, sm1), sm0, sm1) == mode
  {
  }

  /** `set_sleep_mode(mode)`: `_SLEEP_CONTROL_REG = (_SLEEP_CONTROL_REG &
      ~(SM0|SM1)) | mode`. The sleep control register (SMCR or MCUCR,
      decided by the device) is the parameter `ctrl`. */
  method SetSleepMode(m: Mcu, ctrl: Reg, mode: bv8, sm0: BitPos, sm1: BitPos)
    requires ctrl in m.io
    modifies m
    ensures m.io == old(m.io)[ctrl := Splice(old(m.io)[ctrl], Field(sm0, sm1), mode)]
    ensures m.ie == old(m.ie)
    ensures m.trace == old(m.trace) + [Write(ctrl, m.io[ctrl], m.ie)]
  {
    var r := m.In(ctrl);
    m.Out(ctrl, (r & !(Bit(sm0) | Bit(sm1))) | mode);
  }

  /** After `set_sleep_mode` with a constant the register selects that mode,
      every bit outside SM1:SM0 is unchanged, repeating the call changes
      nothing, and a later call overrides an earlier one. */
  lemma SetSleepModeEffect(r: bv8, mode: SleepMode, later: bv8, sm0: BitPos, sm1: BitPos)
    requires sm0 != sm1
    ensures var n := Splice(r, Field(sm0, sm1), ModeValue(mode, sm0, sm1));
      && ModeOf(n, sm0, sm1) == mode
      && n & Field(sm0, sm1) == ModeValue(mode, sm0, sm1)
      && n & !Field(sm0, sm1) == r & !Field(sm0, sm1)
      && Splice(n, Field(sm0, sm1), ModeValue(mode, sm0, sm1)) == n
      && Splice(n, Field(sm0, sm1), later) == Splice(r, Field(sm0, sm1), later)
  {
    var v := ModeValue(mode, sm0, sm1);
    SpliceInField(r, Field(sm0, sm1), v);
    SpliceIdempotent(r, Field(sm0, sm1), v);
    SpliceLastWins(r, Field(sm0, sm1), v, later);
    ModesCoverField(v, mode, sm0, sm1);
  }
}
