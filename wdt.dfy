/** wdt.h: the watchdog timer. The device header decides which control
    register, change-enable bit and WDP3 bit exist and which of four timed
    write protocols the device needs; `wdt_enable` and `wdt_disable` are
    those protocols. */
module Watchdog {
  import opened Avr
  import opened Bits
  import opened Chains

  /** What the device header defines that wdt.h tests. Bit positions are
      those of the device; an absent bit is `None`. `wdce` is only used on
      devices without WDTOE. */
  datatype WdtChip = WdtChip(
    have1Sts: bool,         // __AVR_HAVE_WDT_ENABLE_1STS (xmega)
    have2Sts: bool,         // __AVR_HAVE_WDT_ENABLE_2STS
    haveOut1: bool,         // __AVR_HAVE_WDT_ENABLE_OUT1
    hasWdtcsr: bool,
    hasWdtcr: bool,
    wdtoe: Option<BitPos>,
    wdce: BitPos,
    wdp3: Option<BitPos>,
    wde: BitPos)

  /** The four `wdt_enable`/`wdt_disable` implementations. */
  datatype Protocol =
    | Xmega    // CCP signature, one sts to WDT.CTRL, SYNCBUSY wait
    | TwoSts   // change-enable store then value store, with sts
    | CcpOut   // CCP signature then one out
    | TwoOut   // change-enable store then value store, with out

  /** The protocol the `#if/#elif/#else` chain picks: the first feature
      macro the device defines, in the order 1STS, 2STS, OUT1, and the
      plain `out` sequence when it defines none. */
  function ProtocolOf(c: WdtChip): (p: Protocol)
    ensures p == Xmega <==> c.have1Sts
    ensures p == TwoSts <==> !c.have1Sts && c.have2Sts
    ensures p == CcpOut <==> !c.have1Sts && !c.have2Sts && c.haveOut1
    ensures p == TwoOut <==> !c.have1Sts && !c.have2Sts && !c.haveOut1
  {
    var chain := [(c.have1Sts, Xmega), (c.have2Sts, TwoSts), (c.haveOut1, CcpOut)];
    if c.have1Sts then SelectFirstMatch(chain, TwoOut, 0); Select(chain, TwoOut)
    else if c.have2Sts then SelectFirstMatch(chain, TwoOut, 1); Select(chain, TwoOut)
    else if c.haveOut1 then SelectFirstMatch(chain, TwoOut, 2); Select(chain, TwoOut)
    else SelectOtherwise(chain, TwoOut); Select(chain, TwoOut)
  }

  /** `_WD_CONTROL_REG`: WDTCSR if the device has it, else WDTCR, else the
      xmega WDT. */
  function ControlReg(c: WdtChip): (r: Reg)
    ensures r == WDTCSR <==> c.hasWdtcsr
    ensures r == WDTCR <==> !c.hasWdtcsr && c.hasWdtcr
    ensures r == WDT <==> !c.hasWdtcsr && !c.hasWdtcr
  {
    var chain := [(c.hasWdtcsr, WDTCSR), (c.hasWdtcr, WDTCR)];
    if c.hasWdtcsr then SelectFirstMatch(chain, WDT, 0); Select(chain, WDT)
    else if c.hasWdtcr then SelectFirstMatch(chain, WDT, 1); Select(chain, WDT)
    else SelectOtherwise(chain, WDT); Select(chain, WDT)
  }

  /** `_WD_CHANGE_BIT`: WDTOE if the device has it, else WDCE. */
  function ChangeBit(c: WdtChip): (b: BitPos)
    ensures c.wdtoe.Some? ==> b == c.wdtoe.value
    ensures c.wdtoe.None? ==> b == c.wdce
  {
    match c.wdtoe
    case Some(b) => b
    case None => c.wdce
  }

  /** `_WD_PS3_MASK`: `_BV(WDP3)`, or 0 on devices without WDP3. */
  function Ps3Mask(c: WdtChip): (mask: bv8)
    ensures c.wdp3.None? <==> mask == 0
    ensures c.wdp3.Some? ==> mask == Bit(c.wdp3.value)
  {
    match c.wdp3
    case Some(b) => Bit(b)
    case None => 0
  }

  /** The `WDTO_*` timeouts. */
  datatype Timeout = To15ms | To30ms | To60ms | To120ms | To250ms | To500ms | To1s | To2s | To4s | To8s

  /** The value of each `WDTO_*` macro. */
  function Code(t: Timeout): bv8
  {
    match t
    case To15ms => 0  case To30ms => 1  case To60ms => 2  case To120ms => 3
    case To250ms => 4 case To500ms => 5 case To1s => 6    case To2s => 7
    case To4s => 8    case To8s => 9
  }

  /** WDTO_4S and WDTO_8S are defined only on devices with WDP3. */
  predicate Defined(t: Timeout, hasWdp3: bool) { hasWdp3 || (t != To4s && t != To8s) }

  /** The `WDTO_*` macro a number is the value of, on a device with or
      without WDP3. */
  function TimeoutOf(code: bv8, hasWdp3: bool): Option<Timeout>
  {
    if code == 0 then Some(To15ms) else if code == 1 then Some(To30ms)
    else if code == 2 then Some(To60ms) else if code == 3 then Some(To120ms)
    else if code == 4 then Some(To250ms) else if code == 5 then Some(To500ms)
    else if code == 6 then Some(To1s) else if code == 7 then Some(To2s)
    else if code == 8 && hasWdp3 then Some(To4s)
    else if code == 9 && hasWdp3 then Some(To8s)
    else None
  }

  /** The defined `WDTO_*` values are exactly 0 .. 7, plus 8 and 9 with
      WDP3, and each names one timeout. */
  lemma TimeoutCodes(t: Timeout, code: bv8, hasWdp3: bool)
    ensures Defined(t, hasWdp3) ==> TimeoutOf(Code(t), hasWdp3) == Some(t)
    ensures TimeoutOf(code, hasWdp3) == Some(t) ==> Code(t) == code && Defined(t, hasWdp3)
    ensures TimeoutOf(code, hasWdp3).Some? <==> code <= 7 || (hasWdp3 && code <= 9)
  {
  }

  /** `_BV(_WD_CHANGE_BIT) | _BV(WDE)`: the store that opens the timed
      change window. */
  function ChangeEnable(c: WdtChip): bv8 { Bit(ChangeBit(c)) | Bit(c.wde) }

  /** The control value of the two-store protocols:
      `(value & 0x08 ? _WD_PS3_MASK : 0) | _BV(WDE) | (value & 0x07)`. */
  function EnableValue(c: WdtChip, value: bv8): bv8
  {
    (if value & 0x08 != 0 then Ps3Mask(c) else 0) | Bit(c.wde) | (value & 0x07)
  }

  /** The control value of the CCP protocol, where `value` is ORed in
      whole: `(value & 0x08 ? _WD_PS3_MASK : 0) | _BV(WDE) | value`. */
  function CcpEnableValue(c: WdtChip, value: bv8): bv8
  {
    (if value & 0x08 != 0 then Ps3Mask(c) else 0) | Bit(c.wde) | value
  }

  /** The prescaler a control register value selects: WDP3 (when the
      device has it) above WDP2..0 in bits 2..0. */
  function PrescalerOf(c: WdtChip, ctrl: bv8): bv8
  {
    (if c.wdp3.Some? && ctrl & Ps3Mask(c) != 0 then 8 else 0) | (ctrl & 0x07)
  }

  /** On the classic layout (WDP2..0 in bits 2..0, WDE in bit 3, WDP3 in
      bit 5 if present) the two-store protocols' value enables the
      watchdog and selects exactly the timeout asked for; the CCP value
      differs only in also ORing bit 3 of the code, which is WDE. */
  lemma EnableSelectsTimeout(c: WdtChip, t: Timeout)
    requires c.wde == 3 && (c.wdp3 == None || c.wdp3 == Some(5))
    requires Defined(t, c.wdp3.Some?)
    ensures EnableValue(c, Code(t)) & Bit(c.wde) != 0
    ensures TimeoutOf(PrescalerOf(c, EnableValue(c, Code(t))), c.wdp3.Some?) == Some(t)
    ensures CcpEnableValue(c, Code(t)) == EnableValue(c, Code(t))
  {
    TimeoutCodes(t, Code(t), c.wdp3.Some?);
    var v := EnableValue(c, Code(t));
    assert v & 0x07 == Code(t) & 0x07;
    if c.wdp3.Some? {
      assert Ps3Mask(c) == 0x20;
      assert v & 0x20 != 0 <==> Code(t) & 0x08 != 0;
    }
  }

  /** `wdt_enable(value)` of the TwoSts and TwoOut protocols: save SREG,
      `cli`, `wdr`, store the change-enable pattern, restore SREG, then
      store the value. The final store comes after the restore, so it is
      made with the caller's I flag. */
  method TimedEnable(m: Mcu, c: WdtChip, value: bv8)
    requires ControlReg(c) in m.io
    modifies m
    ensures m.io == old(m.io)[ControlReg(c) := EnableValue(c, value)]
    ensures m.ie == old(m.ie)
    ensures m.trace == old(m.trace) + [Wdr(false), Write(ControlReg(c), ChangeEnable(c), false),
                                       Write(ControlReg(c), EnableValue(c, value), m.ie)]
  {
    var reg := ControlReg(c);
    var saved := m.ie;
    m.Cli();
    m.WatchdogReset();
    m.Out(reg, ChangeEnable(c));
    m.RestoreSreg(saved);
    m.Out(reg, EnableValue(c, value));
  }

  /** `wdt_disable()` of the TwoSts and TwoOut protocols: with interrupts
      disabled, the change-enable pattern and then 0 are stored, so the
      control register ends at 0. */
  method TimedDisable(m: Mcu, c: WdtChip)
    requires ControlReg(c) in m.io
    modifies m
    ensures m.io == old(m.io)[ControlReg(c) := 0]
    ensures m.ie == old(m.ie)
    ensures m.trace == old(m.trace) + [Write(ControlReg(c), ChangeEnable(c), false),
                                       Write(ControlReg(c), 0, false)]
  {
    var reg := ControlReg(c);
    var saved := m.ie;
    m.Cli();
    m.Out(reg, ChangeEnable(c));
    m.Out(reg, 0);
    m.RestoreSreg(saved);
  }

  /** The signature that unlocks a protected I/O register for one store. */
  const CCP_SIGNATURE: bv8 := 0xD8

  /** `wdt_enable(value)` of the CcpOut protocol: save SREG, `cli`, `wdr`,
      0xD8 to CCP, the value to the control register, restore SREG. */
  method CcpEnable(m: Mcu, c: WdtChip, value: bv8)
    requires CCP in m.io && ControlReg(c) in m.io
    modifies m
    ensures m.io == old(m.io)[CCP := CCP_SIGNATURE][ControlReg(c) := CcpEnableValue(c, value)]
    ensures m.ie == old(m.ie)
    ensures m.trace == old(m.trace) + [Wdr(false), Write(CCP, CCP_SIGNATURE, false),
                                       Write(ControlReg(c), CcpEnableValue(c, value), false)]
  {
    var reg := ControlReg(c);
    var saved := m.ie;
    m.Cli();
    m.WatchdogReset();
    m.Out(CCP, CCP_SIGNATURE);
    m.Out(reg, CcpEnableValue(c, value));
    m.RestoreSreg(saved);
  }

  /** `wdt_disable()` of the CcpOut protocol: after `wdr` and the 0xD8
      signature, the control register is read and stored back with only
      WDE cleared. */
  method CcpDisable(m: Mcu, c: WdtChip)
    requires CCP in m.io && ControlReg(c) in m.io
    modifies m
    ensures m.io == old(m.io)[CCP := CCP_SIGNATURE][ControlReg(c) := ClearBits(old(m.io)[ControlReg(c)], Bit(c.wde))]
    ensures m.ie == old(m.ie)
    ensures m.trace == old(m.trace) + [Wdr(false), Write(CCP, CCP_SIGNATURE, false),
                                       Write(ControlReg(c), m.io[ControlReg(c)], false)]
  {
    var reg := ControlReg(c);
    var saved := m.ie;
    m.Cli();
    m.WatchdogReset();
    m.Out(CCP, CCP_SIGNATURE);
    var t := m.In(reg);
    t := t & !Bit(c.wde);
    m.Out(reg, t);
    m.RestoreSreg(saved);
  }

  /** Bit masks and positions of the xmega CCP and WDT modules, as the
      xmega device headers define them. */
  const CCP_IOREG: bv8 := 0xD8      // CCP_IOREG_gc
  const WDT_CEN: bv8 := 0x01        // WDT_CEN_bm
  const WDT_ENABLE: bv8 := 0x02     // WDT_ENABLE_bm
  const SYNCBUSY_BP: BitPos := 0    // WDT_SYNCBUSY_bp
  const SYNCBUSY_BM: bv8 := 0x01    // WDT_SYNCBUSY_bm

  /** The `1: lds tmp, WDT_STATUS; sbrc tmp, bitNo; rjmp 1b` spin.
      `status` is the sequence of values successive loads of WDT.STATUS
      return; that the hardware eventually clears the bit is the
      precondition. The loop stops at the first sample whose bit `bitNo`
      is clear. */
  /** Sample `polls` is the first of `status` whose bit `bitNo` is clear. */
  predicate FirstClear(status: seq<bv8>, bitNo: BitPos, polls: nat)
  {
    && polls < |status|
    && status[polls] & Bit(bitNo) == 0
    && forall j :: 0 <= j < polls ==> status[j] & Bit(bitNo) != 0
  }

  method WaitBitClear(status: seq<bv8>, bitNo: BitPos) returns (polls: nat)
    requires exists k :: 0 <= k < |status| && status[k] & Bit(bitNo) == 0
    ensures FirstClear(status, bitNo, polls)
  {
    ghost var k :| 0 <= k < |status| && status[k] & Bit(bitNo) == 0;
    polls := 0;
    while status[polls] & Bit(bitNo) != 0
      invariant polls <= k
      invariant forall j :: 0 <= j < polls ==> status[j] & Bit(bitNo) != 0
      decreases k - polls
    {
      polls := polls + 1;
    }
  }

  /** The stores of xmega `wdt_enable(timeout)`, all made with the
      caller's I flag (this protocol leaves SREG alone): the CCP signature,
      then `CEN | ENABLE | timeout` to WDT.CTRL, then, after the wait,
      `wdr`. */
  function XmegaEnableTrace(timeout: bv8, ie: bool): seq<Event>
  {
    [Write(CCP, CCP_IOREG, ie), Write(WDT_CTRL, WDT_CEN | WDT_ENABLE | timeout, ie), Wdr(ie)]
  }

  /** xmega `wdt_enable(timeout)` as written: the `sbrc` is given
      WDT_SYNCBUSY_bm, a mask, where it expects a bit number, so the spin
      tests bit 1 of WDT.STATUS rather than SYNCBUSY. */
  method XmegaEnableAsWritten(m: Mcu, timeout: bv8, status: seq<bv8>) returns (polls: nat)
    requires CCP in m.io && WDT_CTRL in m.io
    requires exists k :: 0 <= k < |status| && status[k] & Bit(SYNCBUSY_BM as BitPos) == 0
    modifies m
    ensures m.io == old(m.io)[CCP := CCP_IOREG][WDT_CTRL := WDT_CEN | WDT_ENABLE | timeout]
    ensures m.ie == old(m.ie)
    ensures m.trace == old(m.trace) + XmegaEnableTrace(timeout, m.ie)
    ensures FirstClear(status, SYNCBUSY_BM as BitPos, polls)
  {
    m.Out(CCP, CCP_IOREG);
    m.Out(WDT_CTRL, WDT_CEN | WDT_ENABLE | timeout);
    polls := WaitBitClear(status, SYNCBUSY_BM as BitPos);
    m.WatchdogReset();
  }

  /** Whatever WDT.STATUS holds, the spin as written stops at the first
      sample with bit 1 clear, so a first sample with bit 1 clear ends it
      at once, SYNCBUSY set or not; the corrected spin goes on past a
      first sample with SYNCBUSY set. When both happen, `wdr` runs before
      the new setting has reached the watchdog. */
  lemma SyncBusyWaitSkipped(status: seq<bv8>, asWritten: nat, corrected: nat)
    requires FirstClear(status, SYNCBUSY_BM as BitPos, asWritten)
    requires FirstClear(status, SYNCBUSY_BP, corrected)
    ensures status[0] & 0x02 == 0 ==> asWritten == 0
    ensures status[0] & SYNCBUSY_BM != 0 ==> corrected > 0
    ensures status[0] & 0x02 == 0 && status[0] & SYNCBUSY_BM != 0 ==> asWritten < corrected
  {
  }

  /** xmega `wdt_enable(timeout)` with the spin on the SYNCBUSY bit: `wdr`
      runs only once a sample of WDT.STATUS shows synchronisation done,
      and every earlier sample showed it busy. */
  method XmegaEnable(m: Mcu, timeout: bv8, status: seq<bv8>) returns (polls: nat)
    requires CCP in m.io && WDT_CTRL in m.io
    requires exists k :: 0 <= k < |status| && status[k] & Bit(SYNCBUSY_BP) == 0
    modifies m
    ensures m.io == old(m.io)[CCP := CCP_IOREG][WDT_CTRL := WDT_CEN | WDT_ENABLE | timeout]
    ensures m.ie == old(m.ie)
    ensures m.trace == old(m.trace) + XmegaEnableTrace(timeout, m.ie)
    ensures FirstClear(status, SYNCBUSY_BP, polls)
  {
    m.Out(CCP, CCP_IOREG);
    m.Out(WDT_CTRL, WDT_CEN | WDT_ENABLE | timeout);
    polls := WaitBitClear(status, SYNCBUSY_BP);
    m.WatchdogReset();
  }

  /** The value xmega `wdt_disable()` as written stores to WDT.CTRL. */
  function DisableValueAsWritten(temp: bv8): bv8 { temp | WDT_CEN }

  /** xmega `wdt_disable()` as written: the value stored to WDT.CTRL is
      `temp | CEN` computed from the uninitialised variable `temp` before
      the assembly runs; the load and `andi` inside it do not reach the
      store. `temp` is whatever the register happened to hold. */
  method XmegaDisableAsWritten(m: Mcu, temp: bv8)
    requires CCP in m.io && WDT_CTRL in m.io
    modifies m
    ensures m.io == old(m.io)[CCP := CCP_IOREG][WDT_CTRL := DisableValueAsWritten(temp)]
    ensures m.ie == old(m.ie)
    ensures m.trace == old(m.trace) + [Write(CCP, CCP_IOREG, m.ie), Write(WDT_CTRL, DisableValueAsWritten(temp), m.ie)]
  {
    m.Out(CCP, CCP_IOREG);
    m.Out(WDT_CTRL, temp | WDT_CEN);
  }

  /** The disable as written leaves the watchdog enabled exactly when the
      uninitialised `temp` happens to hold the ENABLE bit. */
  lemma DisableKeepsEnable(temp: bv8)
    ensures DisableValueAsWritten(temp) & WDT_ENABLE != 0 <==> temp & WDT_ENABLE != 0
  {
  }

  /** The value xmega `wdt_disable()` evidently means to store: the current
      WDT.CTRL with ENABLE cleared and CEN set. */
  function DisableValue(ctrl: bv8): bv8 { (ctrl & !WDT_ENABLE) | WDT_CEN }

  /** The intended disable value turns the watchdog off, sets the change
      enable, and keeps the timeout period and every other bit. */
  lemma DisableValueClearsEnable(ctrl: bv8)
    ensures DisableValue(ctrl) & WDT_ENABLE == 0
    ensures DisableValue(ctrl) & WDT_CEN != 0
    ensures DisableValue(ctrl) & !(WDT_ENABLE | WDT_CEN) == ctrl & !(WDT_ENABLE | WDT_CEN)
  {
  }

  /** xmega `wdt_disable()` reading WDT.CTRL after the CCP signature,
      clearing ENABLE and storing the result with CEN set. */
  method XmegaDisable(m: Mcu)
    requires CCP in m.io && WDT_CTRL in m.io
    modifies m
    ensures m.io == old(m.io)[CCP := CCP_IOREG][WDT_CTRL := DisableValue(old(m.io)[WDT_CTRL])]
    ensures m.ie == old(m.ie)
    ensures m.trace == old(m.trace) + [Write(CCP, CCP_IOREG, m.ie), Write(WDT_CTRL, m.io[WDT_CTRL], m.ie)]
  {
    m.Out(CCP, CCP_IOREG);
    var t := m.In(WDT_CTRL);
    t := t & !WDT_ENABLE;
    m.Out(WDT_CTRL, t | WDT_CEN);
  }

  /** `wdt_enable(value)`: the implementation the device's `#if` chain
      selects, with the xmega spin on the SYNCBUSY bit. The two-store
      protocols differ only in using `sts` or `out`, which store the same
      values. `status` is only read on xmega; `polls` is 0 elsewhere. */
  method WdtEnable(m: Mcu, c: WdtChip, value: bv8, status: seq<bv8>) returns (polls: nat)
    requires ProtocolOf(c) == Xmega ==>
      && CCP in m.io && WDT_CTRL in m.io
      && exists k :: 0 <= k < |status| && status[k] & Bit(SYNCBUSY_BP) == 0
    requires ProtocolOf(c) == CcpOut ==> CCP in m.io && ControlReg(c) in m.io
    requires ProtocolOf(c) == TwoSts || ProtocolOf(c) == TwoOut ==> ControlReg(c) in m.io
    modifies m
    ensures m.ie == old(m.ie)
    ensures ProtocolOf(c) == Xmega ==>
      && m.io == old(m.io)[CCP := CCP_IOREG][WDT_CTRL := WDT_CEN | WDT_ENABLE | value]
      && m.trace == old(m.trace) + XmegaEnableTrace(value, m.ie)
      && FirstClear(status, SYNCBUSY_BP, polls)
    ensures ProtocolOf(c) == CcpOut ==>
      && m.io == old(m.io)[CCP := CCP_SIGNATURE][ControlReg(c) := CcpEnableValue(c, value)]
      && m.trace == old(m.trace) + [Wdr(false), Write(CCP, CCP_SIGNATURE, false),
                                    Write(ControlReg(c), CcpEnableValue(c, value), false)]
    ensures ProtocolOf(c) == TwoSts || ProtocolOf(c) == TwoOut ==>
      && m.io == old(m.io)[ControlReg(c) := EnableValue(c, value)]
      && m.trace == old(m.trace) + [Wdr(false), Write(ControlReg(c), ChangeEnable(c), false),
                                    Write(ControlReg(c), EnableValue(c, value), m.ie)]
  {
    match ProtocolOf(c) {
      case Xmega =>
        polls := XmegaEnable(m, value, status);
      case CcpOut =>
        CcpEnable(m, c, value);
        polls := 0;
      case TwoSts =>
        TimedEnable(m, c, value);
        polls := 0;
      case TwoOut =>
        TimedEnable(m, c, value);
        polls := 0;
    }
  }

  /** `wdt_disable()`: the implementation the device's `#if` chain
      selects, with the xmega store of the current WDT.CTRL with ENABLE
      cleared. */
  method WdtDisable(m: Mcu, c: WdtChip)
    requires ProtocolOf(c) == Xmega ==> CCP in m.io && WDT_CTRL in m.io
    requires ProtocolOf(c) == CcpOut ==> CCP in m.io && ControlReg(c) in m.io
    requires ProtocolOf(c) == TwoSts || ProtocolOf(c) == TwoOut ==> ControlReg(c) in m.io
    modifies m
    ensures m.ie == old(m.ie)
    ensures ProtocolOf(c) == Xmega ==>
      && m.io == old(m.io)[CCP := CCP_IOREG][WDT_CTRL := DisableValue(old(m.io)[WDT_CTRL])]
      && m.trace == old(m.trace) + [Write(CCP, CCP_IOREG, m.ie), Write(WDT_CTRL, m.io[WDT_CTRL], m.ie)]
    ensures ProtocolOf(c) == CcpOut ==>
      && m.io == old(m.io)[CCP := CCP_SIGNATURE][ControlReg(c) := ClearBits(old(m.io)[ControlReg(c)], Bit(c.wde))]
      && m.trace == old(m.trace) + [Wdr(false), Write(CCP, CCP_SIGNATURE, false),
                                    Write(ControlReg(c), m.io[ControlReg(c)], false)]
    ensures ProtocolOf(c) == TwoSts || ProtocolOf(c) == TwoOut ==>
      && m.io == old(m.io)[ControlReg(c) := 0]
      && m.trace == old(m.trace) + [Write(ControlReg(c), ChangeEnable(c), false),
                                    Write(ControlReg(c), 0, false)]
  {
    match ProtocolOf(c) {
      case Xmega =>
        XmegaDisable(m);
      case CcpOut =>
        CcpDisable(m, c);
      case TwoSts =>
        TimedDisable(m, c);
      case TwoOut =>
        TimedDisable(m, c);
    }
  }
}
