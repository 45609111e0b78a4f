/** The two register sequences the clock prescale headers are built from.
    Both run with interrupts disabled and put the saved I flag back at the
    end, so that the second store lands inside the four-cycle window the
    first one opens. */
module Prescale {
  import opened Avr
  import opened Bits

  /** `in __tmp_reg__,__SREG__; cli; <unlock store>; <value store>;
      out __SREG__,__tmp_reg__`: an unlock value stored to `unlockReg`,
      immediately followed by `x` stored whole to `reg`. The two registers
      are the same (CLKPR, unlocked by CLKPCE) or CCP and CLKPSR. */
  method UnlockedWrite(m: Mcu, unlockReg: Reg, unlock: bv8, reg: Reg, x: bv8)
    requires unlockReg in m.io && reg in m.io
    modifies m
    ensures m.io == old(m.io)[unlockReg := unlock][reg := x]
    ensures m.ie == old(m.ie)
    ensures m.trace == old(m.trace) + [Write(unlockReg, unlock, false), Write(reg, x, false)]
  {
    var saved := m.ie;
    m.Cli();
    m.Out(unlockReg, unlock);
    m.Out(reg, x);
    m.RestoreSreg(saved);
  }

  /** `in __tmp_reg__,__SREG__; cli; in t,R; out R,enable; andi t,~field;
      or t,value; out R,t; sei; out __SREG__,__tmp_reg__`: the register is
      read before the enable store, and the stored value is that old
      contents with `field` replaced by `value`. The transient `sei` is
      overwritten by the SREG restore. */
  method ReadModifyWrite(m: Mcu, reg: Reg, enable: bv8, field: bv8, value: bv8)
    requires reg in m.io
    modifies m
    ensures m.io == old(m.io)[reg := Splice(old(m.io)[reg], field, value)]
    ensures m.ie == old(m.ie)
    ensures m.trace == old(m.trace)
      + [Write(reg, enable, false), Write(reg, Splice(old(m.io)[reg], field, value), false)]
  {
    ghost var io0, tr0 := m.io, m.trace;
    var saved := m.ie;
    m.Cli();
    var t := m.In(reg);
    m.Out(reg, enable);
    t := Splice(t, field, value);
    m.Out(reg, t);
    assert m.io == io0[reg := t];
    assert m.trace == tr0 + [Write(reg, enable, false), Write(reg, t, false)];
    m.Sei();
    m.RestoreSreg(saved);
  }
}
