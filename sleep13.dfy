/** sleep-13.h: a three-bit sleep-mode field SM2:SM0 of which the three
    modes use only SM1 and SM0. */
module Sleep13 {
  import opened Avr
  import opened Bits
  import opened Chains

  /** SLEEP_MODE_IDLE, SLEEP_MODE_SENSOR_NOISE_REDUCTION, SLEEP_MODE_PWR_DOWN. */
  datatype SleepMode = Idle | SensorNoiseReduction | PwrDown

  /** The bits `set_sleep_mode` clears before ORing in the mode. */
  function Field(sm0: BitPos, sm1: BitPos, sm2: BitPos): bv8 { Bit(sm0) | Bit(sm1) | Bit(sm2) }

  /** The value of each SLEEP_MODE_* constant: inside the field, and never
      with SM2 set. */
  function ModeValue(mode: SleepMode, sm0: BitPos, sm1: BitPos, sm2: BitPos): (v: bv8)
    requires Distinct3(sm0, sm1, sm2)
    ensures v & !Field(sm0, sm1, sm2) == 0
    ensures v & Bit(sm2) == 0
  {
    match mode
    case Idle => 0
    case SensorNoiseReduction => Bit(sm0)
    case PwrDown => Bit(sm1)
  }

  /** The mode a sleep control register value selects, if any. */
  function ModeOf(ctrl: bv8, sm0: BitPos, sm1: BitPos, sm2: BitPos): Option<SleepMode>
  {
    var f := ctrl & Field(sm0, sm1, sm2);
    if f == 0 then Some(Idle)
    else if f == Bit(sm0) then Some(SensorNoiseReduction)
    else if f == Bit(sm1) then Some(PwrDown)
    else None
  }

  /** The constants are distinct: each reads back as its own mode, and a
      register value reads back as a mode exactly when its field holds that
      mode's constant. */
  lemma ModesDistinct(ctrl: bv8, mode: SleepMode, sm0: BitPos, sm1: BitPos, sm2: BitPos)
    requires Distinct3(sm0, sm1, sm2)
    ensures ModeOf(ModeValue(mode, sm0, sm1, sm2), sm0, sm1, sm2) == Some(mode)
    ensures ModeOf(ctrl, sm0, sm1, sm2) == Some(mode) <==> ctrl & Field(sm0, sm1, sm2) == ModeValue(mode, sm0, sm1, sm2)
  {
  }

  /** `set_sleep_mode(mode)`: `_SLEEP_CONTROL_REG = (_SLEEP_CONTROL_REG &
      ~(SM0|SM1|SM2)) | mode`, on the device's sleep control register `ctrl`. */
  method SetSleepMode(m: Mcu, ctrl: Reg, mode: bv8, sm0: BitPos, sm1: BitPos, sm2: BitPos)
    requires ctrl in m.io
    modifies m
    ensures m.io == old(m.io)[ctrl := Splice(old(m.io)[ctrl], Field(sm0, sm1, sm2), mode)]
    ensures m.ie == old(m.ie)
    ensures m.trace == old(m.trace) + [Write(ctrl, m.io[ctrl], m.ie)]
  {
    var r := m.In(ctrl);
    m.Out(ctrl, (r & !(Bit(sm0) | Bit(sm1) | Bit(sm2))) | mode);
  }

  /** After `set_sleep_mode` with a constant the register selects that mode
      with SM2 clear, every bit outside SM2:SM0 is unchanged, repeating the
      call changes nothing, and a later call overrides an earlier one. */
  lemma SetSleepModeEffect(r: bv8, mode: SleepMode, later: bv8, sm0: BitPos, sm1: BitPos, sm2: BitPos)
    requires Distinct3(sm0, sm1, sm2)
    ensures var n := Splice(r, Field(sm0, sm1, sm2), ModeValue(mode, sm0, sm1, sm2));
      && ModeOf(n, sm0, sm1, sm2) == Some(mode)
      && n & Bit(sm2) == 0
      && n & !Field(sm0, sm1, sm2) == r & !Field(sm0, sm1, sm2)
      && Splice(n, Field(sm0, sm1, sm2), ModeValue(mode, sm0, sm1, sm2)) == n
      && Splice(n, Field(sm0, sm1, sm2), later) == Splice(r, Field(sm0, sm1, sm2), later)
  {
    var f, v := Field(sm0, sm1, sm2), ModeValue(mode, sm0, sm1, sm2);
    SpliceInField(r, f, v);
    SpliceIdempotent(r, f, v);
    SpliceLastWins(r, f, v, later);
    ModesDistinct(Splice(r, f, v), mode, sm0, sm1, sm2);
  }
}
