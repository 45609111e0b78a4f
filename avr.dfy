/** The machine every routine of the core acts on: the 8-bit special-function
    registers it reads and writes, the I (global interrupt enable) flag of
    SREG, and the order in which register stores and `wdr` instructions
    happen. Register addresses and the in/out versus lds/sts addressing forms
    are collapsed to "read or write register R". */
module Avr {

  /** A bit position inside an 8-bit register (SM0, CLKPCE, WDE, ...). The
      positions themselves come from the per-chip device headers, so every
      routine takes them as parameters. */
  type BitPos = p: bv8 | p < 8

  /** `_BV(p)`, that is `(uint8_t)(1 << p)`. */
  function Bit(p: BitPos): bv8 { (1 as bv8) << p }

  /** Three bit positions of one field, pairwise different. */
  predicate Distinct3(a: BitPos, b: BitPos, c: BitPos) { a != b && a != c && b != c }

  /** The registers the power, clock-prescale, watchdog and sleep routines touch. */
  datatype Reg =
    // power reduction registers (classic and xmega)
    | PRR | PRR0 | PRR1 | PRR2
    | PR_PRGEN | PR_PRPA | PR_PRPB | PR_PRPC | PR_PRPD | PR_PRPE | PR_PRPF
    // clock prescaler and the configuration change protection register
    | CLKPR | CLKPSR | XDIV | CCP
    // watchdog control (classic names) and the xmega watchdog
    | WDTCSR | WDTCR | WDT | WDT_CTRL | WDT_STATUS
    // sleep control
    | MCUCR | EMCUCR | SMCR | SLEEP_CTRL

  /** One observable step of a routine: a register store, tagged with the I
      flag at the moment it happens, or a watchdog reset instruction. */
  datatype Event =
    | Write(reg: Reg, value: bv8, ie: bool)
    | Wdr(ie: bool)

  /** The MCU state. `io` holds the registers the chip has, `ie` is SREG's I
      flag, and `trace` records every store and `wdr` in program order. */
  class Mcu {
    var io: map<Reg, bv8>
    var ie: bool
    ghost var trace: seq<Event>

    constructor (io0: map<Reg, bv8>, ie0: bool)
      ensures io == io0 && ie == ie0 && trace == []
    {
      io, ie, trace := io0, ie0, [];
    }

    /** A store to register `r` (`out`/`sts`). */
    method Out(r: Reg, v: bv8)
      requires r in io
      modifies this
      ensures io == old(io)[r := v] && ie == old(ie)
      ensures trace == old(trace) + [Write(r, v, ie)]
    {
      io := io[r := v];
      trace := trace + [Write(r, v, ie)];
    }

    /** A load from register `r` (`in`/`lds`). */
    method In(r: Reg) returns (v: bv8)
      requires r in io
      ensures v == io[r]
    {
      v := io[r];
    }

    /** `cli`: clear the I flag. */
    method Cli()
      modifies this
      ensures !ie && io == old(io) && trace == old(trace)
    {
      ie := false;
    }

    /** `sei`: set the I flag. */
    method Sei()
      modifies this
      ensures ie && io == old(io) && trace == old(trace)
    {
      ie := true;
    }

    /** `out __SREG__, __tmp_reg__`: put back the I flag saved on entry. */
    method RestoreSreg(saved: bool)
      modifies this
      ensures ie == saved && io == old(io) && trace == old(trace)
    {
      ie := saved;
    }

    /** `wdr`: restart the watchdog timer. */
    method WatchdogReset()
      modifies this
      ensures io == old(io) && ie == old(ie)
      ensures trace == old(trace) + [Wdr(ie)]
    {
      trace := trace + [Wdr(ie)];
    }
  }
}
