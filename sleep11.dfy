/** sleep-11.h (xmega): the sleep-mode field SMODE2:SMODE0 of SLEEP_CTRL,
    given by the bit masks SLEEP_SMODEn_bm, with five modes. */
module Sleep11 {
  import opened Avr
  import opened Bits
  import opened Chains

  /** SLEEP_MODE_IDLE, _PWR_DOWN, _PWR_SAVE, _STANDBY, _EXT_STANDBY. */
  datatype SleepMode = Idle | PwrDown | PwrSave | Standby | ExtStandby

  /** The bits `set_sleep_mode` clears; `s0`..`s2` are the positions of the
      SLEEP_SMODE0_bm..SLEEP_SMODE2_bm masks. */
  function Field(s0: BitPos, s1: BitPos, s2: BitPos): bv8 { Bit(s2) | Bit(s1) | Bit(s0) }

  /** The value of each SLEEP_MODE_* constant; it always lies inside the field. */
  function ModeValue(mode: SleepMode, s0: BitPos, s1: BitPos, s2: BitPos): (v: bv8)
    ensures v & !Field(s0, s1, s2) == 0
  {
    match mode
    case Idle => 0
    case PwrDown => Bit(s1)
    case PwrSave => Bit(s1) | Bit(s0)
    case Standby => Bit(s2) | Bit(s1)
    case ExtStandby => Bit(s2) | Bit(s1) | Bit(s0)
  }

  /** The mode a sleep control register value selects, if any. */
  function ModeOf(ctrl: bv8, s0: BitPos, s1: BitPos, s2: BitPos): Option<SleepMode>
  {
    var f := ctrl & Field(s0, s1, s2);
    if f == 0 then Some(Idle)
    else if f == Bit(s1) then Some(PwrDown)
    else if f == Bit(s1) | Bit(s0) then Some(PwrSave)
    else if f == Bit(s2) | Bit(s1) then Some(Standby)
    else if f == Bit(s2) | Bit(s1) | Bit(s0) then Some(ExtStandby)
    else None
  }

  /** Each constant reads back as its own mode, so the five constants are
      pairwise different. */
  lemma ValueReadsBack(mode: SleepMode, s0: BitPos, s1: BitPos, s2: BitPos)
    requires Distinct3(s0, s1, s2)
    ensures ModeOf(ModeValue(mode, s0, s1, s2), s0, s1, s2) == Some(mode)
  {
    var b0, b1, b2 := Bit(s0), Bit(s1), Bit(s2);
    assert b0 & b1 == 0 && b0 & b2 == 0 && b1 & b2 == 0;
    match mode
    case Idle =>
    case PwrDown => assert b1 != 0;
    case PwrSave => assert b1 | b0 != 0 && b1 | b0 != b1;
    case Standby => assert b2 | b1 != 0 && b2 | b1 != b1 && b2 | b1 != b1 | b0;
    case ExtStandby =>
      assert b2 | b1 | b0 != 0 && b2 | b1 | b0 != b1;
      assert b2 | b1 | b0 != b1 | b0 && b2 | b1 | b0 != b2 | b1;
  }

  /** A register value reads back as a mode exactly when its field holds
      that mode's constant. */
  lemma ModesDistinct(ctrl: bv8, mode: SleepMode, s0: BitPos, s1: BitPos, s2: BitPos)
    requires Distinct3(s0, s1, s2)
    ensures ModeOf(ctrl, s0, s1, s2) == Some(mode) <==> ctrl & Field(s0, s1, s2) == ModeValue(mode, s0, s1, s2)
  {
    var f, v := ctrl & Field(s0, s1, s2), ModeValue(mode, s0, s1, s2);
    if f == v {
      ValueReadsBack(mode, s0, s1, s2);
      assert v & Field(s0, s1, s2) == v;
    }
  }

  /** `set_sleep_mode(mode)`: `_SLEEP_CONTROL_REG = (_SLEEP_CONTROL_REG &
      ~(SMODE2|SMODE1|SMODE0)) | mode`. The mode is not checked: bits of
      `mode` outside the field are ORed into the register as well. */
  method SetSleepMode(m: Mcu, ctrl: Reg, mode: bv8, s0: BitPos, s1: BitPos, s2: BitPos)
    requires ctrl in m.io
    modifies m
    ensures m.io == old(m.io)[ctrl := Splice(old(m.io)[ctrl], Field(s0, s1, s2), mode)]
    ensures m.ie == old(m.ie)
    ensures m.trace == old(m.trace) + [Write(ctrl, m.io[ctrl], m.ie)]
  {
    var r := m.In(ctrl);
    m.Out(ctrl, (r & !(Bit(s2) | Bit(s1) | Bit(s0))) | mode);
  }

  /** After `set_sleep_mode` with a constant the register selects that mode,
      every bit outside the field is unchanged, repeating the call changes
      nothing, and a later call overrides an earlier one. */
  lemma SetSleepModeEffect(r: bv8, mode: SleepMode, later: bv8, s0: BitPos, s1: BitPos, s2: BitPos)
    requires Distinct3(s0, s1, s2)
    ensures var n := Splice(r, Field(s0, s1, s2), ModeValue(mode, s0, s1, s2));
      && ModeOf(n, s0, s1, s2) == Some(mode)
      && n & !Field(s0, s1, s2) == r & !Field(s0, s1, s2)
      && Splice(n, Field(s0, s1, s2), ModeValue(mode, s0, s1, s2)) == n
      && Splice(n, Field(s0, s1, s2), later) == Splice(r, Field(s0, s1, s2), later)
  {
    var f, v := Field(s0, s1, s2), ModeValue(mode, s0, s1, s2);
    SpliceInField(r, f, v);
    SpliceIdempotent(r, f, v);
    SpliceLastWins(r, f, v, later);
    ModesDistinct(Splice(r, f, v), mode, s0, s1, s2);
  }

  /** Because the mode is not validated, a value with a bit outside the
      field leaves that bit set in the register, and a later call with a
      proper constant does not clear it again. */
  lemma UncheckedModeSticks(r: bv8, s0: BitPos, s1: BitPos, s2: BitPos, k: BitPos)
    requires Distinct3(s0, s1, s2) && k != s0 && k != s1 && k != s2
    ensures Splice(r, Field(s0, s1, s2), Bit(k)) & Bit(k) != 0
    ensures Splice(Splice(r, Field(s0, s1, s2), Bit(k)), Field(s0, s1, s2), ModeValue(Idle, s0, s1, s2)) & Bit(k) != 0
  {
  }
}
