/** power.h, per-peripheral part: `power_<p>_enable()` clears and
    `power_<p>_disable()` sets one power reduction bit. Which register and
    bit a macro uses is decided at build time by a run of `#if` blocks,
    each guarded by `!defined(power_<p>_enable)` so that the device header,
    or an earlier block of power.h itself, takes precedence. */
module Power {
  import opened Avr
  import opened Bits

  /** Bit-position macros of the classic devices (`PRADC`, ...). */
  datatype PosName =
    | PRADC | PRCAN | PRLCD | PRLIN | PRPSC | PRPSC0 | PRPSC1 | PRPSC2 | PRPSCR
    | PRSPI | PRTIM0 | PRTIM1 | PRTIM2 | PRTIM3 | PRTIM4 | PRTIM5 | PRTWI
    | PRUSART | PRUSART0 | PRUSART1 | PRUSART2 | PRUSART3 | PRUSI | PRVADC
    | PRVRM | PRVM | PRDS | PRCU | PRTM | PRT1 | PRT2 | PRT3 | PRLFR | PRTRX24
    | PRCI | PRUSBH | PRUSB | PRHSSPI | PRSCI | PRAES | PRKB | PRPGA
    | PRRAM0 | PRRAM1 | PRRAM2 | PRRAM3

  /** Bit-mask macros of the xmega devices (`PR_AES_bm`, ...). */
  datatype MaskName =
    | PR_AES_bm | PR_EBI_bm | PR_RTC_bm | PR_EVSYS_bm | PR_DMA_bm | PR_USB_bm | PR_LCD_bm
    | PR_ADC_bm | PR_AC_bm | PR_DAC_bm
    | PR_USART0_bm | PR_TC0_bm | PR_TWI_bm | PR_USART1_bm | PR_SPI_bm | PR_HIRES_bm | PR_TC1_bm

  /** Feature macros a device header may define. `HaveUsart1Prr1` and
      `HavePrr1Usart1` are the two different spellings power.h tests
      (`__AVR_HAVE_USART1_PRR1` for the macro, `__AVR_HAVE_PRR1_USART1` for
      `power_all`), and likewise for PRR0. */
  datatype Flag =
    | HaveUsart1Def    // __AVR_HAVE_USART1_DEF
    | HaveHiresDef     // __AVR_HAVE_HIRES_DEF
    | HaveTc1Def       // __AVR_HAVE_TC1_DEF
    | HaveSpiD         // __AVR_HAVE_SPI_D
    | HaveSpiEF        // __AVR_HAVE_SPI_EF
    | HaveTwiDF        // __AVR_HAVE_TWI_DF
    | HaveTwiE         // __AVR_HAVE_TWI_E
    | HaveUsart1Prr1   // __AVR_HAVE_USART1_PRR1
    | HaveUsart1Prr0   // __AVR_HAVE_USART1_PRR0
    | HavePrr1Usart1   // __AVR_HAVE_PRR1_USART1
    | HavePrr0Usart1   // __AVR_HAVE_PRR0_USART1

  /** What a device header defines: its power reduction registers, the
      bit positions and masks with their values, its feature macros, and
      the `power_<p>_enable` macros it defines itself. */
  datatype Chip = Chip(
    regs: set<Reg>,
    pos: map<PosName, BitPos>,
    masks: map<MaskName, bv8>,
    flags: set<Flag>,
    overridden: set<Periph>)

  /** Every `power_<p>` macro pair power.h can define. */
  datatype Periph =
    | Aes | Ebi | Dma | DacA | DacB | UsartC1 | UsartD1 | UsartE1 | UsartF1 | Usb | Rtc | Evsys
    | AdcA | AdcB | AcA | AcB | TwiC | TwiE | TwiD | TwiF | SpiC | SpiD | SpiE | SpiF
    | HiresC | HiresD | HiresE | HiresF | Tc1C | Tc1D | Tc1E | Tc1F | Tc0C | Tc0D | Tc0E | Tc0F | Lcd
    | Adc | Spi | Twi | Timer0 | Timer1 | Timer2 | Timer3 | Timer4 | Timer5
    | Usart0 | Usart1 | Usart2 | Usart3 | Pga | Transceiver | Ram0 | Ram1 | Ram2 | Ram3
    | Psc0 | Psc1 | Psc2 | Usart | Pscr | Vadc | Usi | Vrm | Vmonitor | IrDriver | Crypto
    | TimerModulator | CInterface | LfReceiver | Lin | Psc | Can | Usbh | Hsspi | Sci | Kb

  /** The bit a macro touches: `1 << PRx` or an xmega `PR_x_bm`. */
  datatype BitRef = Pos(p: PosName) | Mask(m: MaskName)

  /** The condition of one `#if` block besides its `!defined` guard:
      `defined(REG) && defined(BIT)`, `defined(REG) && defined(FLAG)`, or
      only `defined(FLAG)`. */
  datatype Cond = RegAndBit | RegAndFlag(f: Flag) | FlagOnly(g: Flag)

  /** One `#if` block: the register and bit its macros use and when it
      applies. */
  datatype Candidate = Candidate(reg: Reg, bit: BitRef, cond: Cond)

  /** Whether the device defines the bit macro. */
  predicate BitDefined(chip: Chip, b: BitRef)
  {
    match b
    case Pos(p) => p in chip.pos
    case Mask(n) => n in chip.masks
  }

  /** The value of `(uint8_t)(1 << PRx)` or of `PR_x_bm`. */
  function MaskOf(chip: Chip, b: BitRef): bv8
    requires BitDefined(chip, b)
  {
    match b
    case Pos(p) => Bit(chip.pos[p])
    case Mask(n) => chip.masks[n]
  }

  /** Whether a block's condition holds on the device. */
  predicate Holds(chip: Chip, c: Candidate)
  {
    match c.cond
    case RegAndBit => c.reg in chip.regs && BitDefined(chip, c.bit)
    case RegAndFlag(f) => c.reg in chip.regs && f in chip.flags
    case FlagOnly(g) => g in chip.flags
  }

  function P(reg: Reg, p: PosName): Candidate { Candidate(reg, Pos(p), RegAndBit) }
  function M(reg: Reg, n: MaskName): Candidate { Candidate(reg, Mask(n), RegAndBit) }
  function MF(reg: Reg, n: MaskName, f: Flag): Candidate { Candidate(reg, Mask(n), RegAndFlag(f)) }

  /** The blocks that can define `power_<p>_enable`, in source order. */
  function Chain(p: Periph): seq<Candidate>
  {
    match p
    case Aes => [M(PR_PRGEN, PR_AES_bm), P(PRR1, PRAES)]
    case Ebi => [M(PR_PRGEN, PR_EBI_bm)]
    case Dma => [M(PR_PRGEN, PR_DMA_bm)]
    case DacA => [M(PR_PRPA, PR_DAC_bm)]
    case DacB => [M(PR_PRPB, PR_DAC_bm)]
    case UsartC1 => [M(PR_PRPC, PR_USART1_bm)]
    case UsartD1 => [MF(PR_PRPD, PR_USART1_bm, HaveUsart1Def)]
    case UsartE1 => [MF(PR_PRPE, PR_USART1_bm, HaveUsart1Def)]
    case UsartF1 => [MF(PR_PRPF, PR_USART1_bm, HaveUsart1Def)]
    case Usb => [M(PR_PRGEN, PR_USB_bm), P(PRR1, PRUSB)]
    case Rtc => [M(PR_PRGEN, PR_RTC_bm)]
    case Evsys => [M(PR_PRGEN, PR_EVSYS_bm)]
    case AdcA => [M(PR_PRPA, PR_ADC_bm)]
    case AdcB => [M(PR_PRPB, PR_ADC_bm)]
    case AcA => [M(PR_PRPA, PR_AC_bm)]
    case AcB => [M(PR_PRPB, PR_AC_bm)]
    case TwiC => [M(PR_PRPC, PR_TWI_bm)]
    case TwiE => [MF(PR_PRPE, PR_TWI_bm, HaveTwiE)]
    case TwiD => [MF(PR_PRPD, PR_TWI_bm, HaveTwiDF)]
    case TwiF => [MF(PR_PRPF, PR_TWI_bm, HaveTwiDF)]
    case SpiC => [M(PR_PRPC, PR_SPI_bm)]
    case SpiD => [MF(PR_PRPD, PR_SPI_bm, HaveSpiD)]
    case SpiE => [MF(PR_PRPE, PR_SPI_bm, HaveSpiEF)]
    case SpiF => [MF(PR_PRPF, PR_SPI_bm, HaveSpiEF)]
    case HiresC => [M(PR_PRPC, PR_HIRES_bm)]
    case HiresD => [MF(PR_PRPD, PR_HIRES_bm, HaveHiresDef)]
    case HiresE => [MF(PR_PRPE, PR_HIRES_bm, HaveHiresDef)]
    case HiresF => [MF(PR_PRPF, PR_HIRES_bm, HaveHiresDef)]
    case Tc1C => [M(PR_PRPC, PR_TC1_bm)]
    case Tc1D => [MF(PR_PRPD, PR_TC1_bm, HaveTc1Def)]
    case Tc1E => [MF(PR_PRPE, PR_TC1_bm, HaveTc1Def)]
    case Tc1F => [MF(PR_PRPF, PR_TC1_bm, HaveTc1Def)]
    case Tc0C => [M(PR_PRPC, PR_TC0_bm)]
    case Tc0D => [M(PR_PRPD, PR_TC0_bm)]
    case Tc0E => [M(PR_PRPE, PR_TC0_bm)]
    case Tc0F => [M(PR_PRPF, PR_TC0_bm)]
    case Lcd => [M(PR_PRGEN, PR_LCD_bm), P(PRR, PRLCD)]
    case Adc => [P(PRR0, PRADC), P(PRR, PRADC)]
    case Spi => [P(PRR0, PRSPI), P(PRR, PRSPI), P(PRR, PRSPI)]
    case Twi => [P(PRR0, PRTWI), P(PRR, PRTWI)]
    case Timer0 => [P(PRR0, PRTIM0), P(PRR, PRTIM0)]
    case Timer1 => [P(PRR0, PRTIM1), P(PRR, PRTIM1), P(PRR0, PRT1)]
    case Timer2 => [P(PRR0, PRTIM2), P(PRR, PRTIM2), P(PRR0, PRT2)]
    case Timer3 => [P(PRR1, PRTIM3), P(PRR0, PRT3)]
    case Timer4 => [P(PRR1, PRTIM4)]
    case Timer5 => [P(PRR1, PRTIM5)]
    case Usart0 => [P(PRR0, PRUSART0), P(PRR, PRUSART0)]
    case Usart1 => [Candidate(PRR1, Pos(PRUSART1), FlagOnly(HaveUsart1Prr1)),
                    Candidate(PRR0, Pos(PRUSART1), FlagOnly(HaveUsart1Prr0)),
                    P(PRR, PRUSART1)]
    case Usart2 => [P(PRR1, PRUSART2)]
    case Usart3 => [P(PRR1, PRUSART3)]
    case Pga => [P(PRR0, PRPGA)]
    case Transceiver => [P(PRR1, PRTRX24)]
    case Ram0 => [P(PRR2, PRRAM0)]
    case Ram1 => [P(PRR2, PRRAM1)]
    case Ram2 => [P(PRR2, PRRAM2)]
    case Ram3 => [P(PRR2, PRRAM3)]
    case Psc0 => [P(PRR, PRPSC0)]
    case Psc1 => [P(PRR, PRPSC1)]
    case Psc2 => [P(PRR, PRPSC2)]
    case Usart => [P(PRR, PRUSART)]
    case Pscr => [P(PRR, PRPSCR)]
    case Vadc => [P(PRR0, PRVADC)]
    case Usi => [P(PRR, PRUSI)]
    case Vrm => [P(PRR0, PRVRM)]
    case Vmonitor => [P(PRR0, PRVM)]
    case IrDriver => [P(PRR0, PRDS)]
    case Crypto => [P(PRR0, PRCU)]
    case TimerModulator => [P(PRR0, PRTM)]
    case CInterface => [P(PRR1, PRCI)]
    case LfReceiver => [P(PRR0, PRLFR)]
    case Lin => [P(PRR, PRLIN)]
    case Psc => [P(PRR, PRPSC)]
    case Can => [P(PRR, PRCAN)]
    case Usbh => [P(PRR1, PRUSBH)]
    case Hsspi => [P(PRR1, PRHSSPI)]
    case Sci => [P(PRR1, PRSCI)]
    case Kb => [P(PRR1, PRKB)]
  }

  /** Every block carries the `!defined(power_<p>_enable)` guard except
      the one for the RTC. */
  predicate Guarded(p: Periph) { p != Rtc }

  /** Who defines `power_<p>_enable` at a point of the preprocessing. */
  datatype Binding = NotDefined | DeviceHeader | Library(reg: Reg, bit: BitRef)

  /** The preprocessor passing over the blocks in order: a block whose
      condition holds defines the macros, unless it is guarded and they
      are defined already. */
  function Walk(chip: Chip, guarded: bool, cands: seq<Candidate>, sofar: Binding): Binding
    decreases |cands|
  {
    if cands == [] then sofar
    else
      var next := if (guarded && !sofar.NotDefined?) || !Holds(chip, cands[0]) then sofar
                  else Library(cands[0].reg, cands[0].bit);
      Walk(chip, guarded, cands[1..], next)
  }

  /** The definition of `power_<p>_enable` in effect after power.h. */
  function Resolve(chip: Chip, p: Periph): Binding
  {
    Walk(chip, Guarded(p), Chain(p), if p in chip.overridden then DeviceHeader else NotDefined)
  }

  /** Under the guard, a definition already made is never replaced. */
  lemma {:induction false} WalkKeepsDefinition(chip: Chip, cands: seq<Candidate>, sofar: Binding)
    requires !sofar.NotDefined?
    ensures Walk(chip, true, cands, sofar) == sofar
    decreases |cands|
  {
    if cands != [] {
      WalkKeepsDefinition(chip, cands[1..], sofar);
    }
  }

  /** Under the guard, starting undefined, the first block whose condition
      holds is the one that defines the macros; when none holds they stay
      undefined. */
  lemma {:induction false} WalkFirstMatch(chip: Chip, cands: seq<Candidate>, k: nat)
    requires k <= |cands|
    requires forall j :: 0 <= j < k ==> !Holds(chip, cands[j])
    requires k < |cands| ==> Holds(chip, cands[k])
    ensures k < |cands| ==> Walk(chip, true, cands, NotDefined) == Library(cands[k].reg, cands[k].bit)
    ensures k == |cands| ==> Walk(chip, true, cands, NotDefined) == NotDefined
    decreases |cands|
  {
    if cands != [] {
      if k == 0 {
        WalkKeepsDefinition(chip, cands[1..], Library(cands[0].reg, cands[0].bit));
      } else {
        WalkFirstMatch(chip, cands[1..], k - 1);
      }
    }
  }

  /** Whatever the guard, the macros end up as they were before the
      blocks or as defined by one block whose condition holds. */
  lemma {:induction false} WalkOutcome(chip: Chip, guarded: bool, cands: seq<Candidate>, sofar: Binding)
    ensures var b := Walk(chip, guarded, cands, sofar);
      b == sofar || exists i :: 0 <= i < |cands| && Holds(chip, cands[i]) && b == Library(cands[i].reg, cands[i].bit)
    decreases |cands|
  {
    if cands != [] {
      var next := if (guarded && !sofar.NotDefined?) || !Holds(chip, cands[0]) then sofar
                  else Library(cands[0].reg, cands[0].bit);
      WalkOutcome(chip, guarded, cands[1..], next);
      var b := Walk(chip, guarded, cands, sofar);
      if b != sofar && b != next {
        var i :| 0 <= i < |cands[1..]| && Holds(chip, cands[1..][i]) && b == Library(cands[1..][i].reg, cands[1..][i].bit);
        assert cands[1..][i] == cands[i + 1];
      }
    }
  }

  /** A macro power.h defines uses the register and bit of one of its
      blocks, and that block's condition holds on the device. */
  lemma ResolveIsCandidate(chip: Chip, p: Periph)
    requires Resolve(chip, p).Library?
    ensures exists i :: 0 <= i < |Chain(p)| && Holds(chip, Chain(p)[i])
                        && Resolve(chip, p) == Library(Chain(p)[i].reg, Chain(p)[i].bit)
  {
    WalkOutcome(chip, Guarded(p), Chain(p), if p in chip.overridden then DeviceHeader else NotDefined);
  }

  /** The guarded macros: a device header definition wins; otherwise the
      first applicable block of power.h wins, and a macro with no
      applicable block is not defined. */
  lemma ResolveFirstMatch(chip: Chip, p: Periph, k: nat)
    requires Guarded(p)
    requires k <= |Chain(p)|
    requires forall j :: 0 <= j < k ==> !Holds(chip, Chain(p)[j])
    requires k < |Chain(p)| ==> Holds(chip, Chain(p)[k])
    ensures p in chip.overridden ==> Resolve(chip, p) == DeviceHeader
    ensures p !in chip.overridden && k < |Chain(p)| ==> Resolve(chip, p) == Library(Chain(p)[k].reg, Chain(p)[k].bit)
    ensures p !in chip.overridden && k == |Chain(p)| ==> Resolve(chip, p) == NotDefined
  {
    if p in chip.overridden {
      WalkKeepsDefinition(chip, Chain(p), DeviceHeader);
    } else {
      WalkFirstMatch(chip, Chain(p), k);
    }
  }

  /** `power_rtc_*` has no `!defined` guard: when PR_PRGEN and PR_RTC_bm
      exist, power.h's definition replaces the device header's. */
  lemma RtcReplacesOverride(chip: Chip)
    requires PR_PRGEN in chip.regs && PR_RTC_bm in chip.masks
    ensures Resolve(chip, Rtc) == Library(PR_PRGEN, Mask(PR_RTC_bm))
  {
    var sofar := if Rtc in chip.overridden then DeviceHeader else NotDefined;
    assert Chain(Rtc)[1..] == [];
    assert Walk(chip, false, Chain(Rtc), sofar) == Walk(chip, false, [], Library(PR_PRGEN, Mask(PR_RTC_bm)));
  }

  /** AES and USB: an xmega PR.PRGEN bit is preferred to the PRR1 bit, and
      PRR1 is used only when the PR_PRGEN form does not apply. */
  lemma AesUsbPreferPrgen(chip: Chip, p: Periph)
    requires p == Aes || p == Usb
    requires p !in chip.overridden
    ensures var n := if p == Aes then PR_AES_bm else PR_USB_bm;
            var q := if p == Aes then PRAES else PRUSB;
      && (PR_PRGEN in chip.regs && n in chip.masks ==> Resolve(chip, p) == Library(PR_PRGEN, Mask(n)))
      && (!(PR_PRGEN in chip.regs && n in chip.masks) && PRR1 in chip.regs && q in chip.pos
          ==> Resolve(chip, p) == Library(PRR1, Pos(q)))
  {
    if Holds(chip, Chain(p)[0]) {
      ResolveFirstMatch(chip, p, 0);
    } else if Holds(chip, Chain(p)[1]) {
      ResolveFirstMatch(chip, p, 1);
    }
  }

  /** Under the guard, a PRR0 block followed by a PRR block for the same
      bit resolves to PRR0 when the device has it, and to PRR otherwise. */
  lemma WalkPrr0ThenPrr(chip: Chip, cands: seq<Candidate>, q: PosName)
    requires |cands| >= 2 && cands[0] == P(PRR0, q) && cands[1] == P(PRR, q)
    ensures PRR0 in chip.regs && q in chip.pos ==> Walk(chip, true, cands, NotDefined) == Library(PRR0, Pos(q))
    ensures PRR0 !in chip.regs && PRR in chip.regs && q in chip.pos
            ==> Walk(chip, true, cands, NotDefined) == Library(PRR, Pos(q))
  {
    if Holds(chip, cands[0]) {
      WalkFirstMatch(chip, cands, 0);
    } else if Holds(chip, cands[1]) {
      WalkFirstMatch(chip, cands, 1);
    }
  }

  /** For the peripherals whose first two blocks are a PRR0 block and a
      PRR block for the same bit (the ADC, SPI, TWI, timers 0 to 2 and
      USART0), PRR0 wins when the device has it, and PRR is the fallback. */
  lemma Prr0BeforePrr(chip: Chip, p: Periph, q: PosName)
    requires p != Rtc && p !in chip.overridden
    requires |Chain(p)| >= 2 && Chain(p)[0] == P(PRR0, q) && Chain(p)[1] == P(PRR, q)
    ensures PRR0 in chip.regs && q in chip.pos ==> Resolve(chip, p) == Library(PRR0, Pos(q))
    ensures PRR0 !in chip.regs && PRR in chip.regs && q in chip.pos ==> Resolve(chip, p) == Library(PRR, Pos(q))
  {
    WalkPrr0ThenPrr(chip, Chain(p), q);
  }

  /** `REG &= (uint8_t)~mask` when enabling, `REG |= mask` when disabling:
      the read-modify-write every power macro performs. */
  function Apply(r: bv8, mask: bv8, enable: bool): (n: bv8)
    ensures n & !mask == r & !mask
    ensures enable ==> n & mask == 0
    ensures !enable ==> n & mask == mask
  {
    if enable then ClearBits(r, mask) else SetBits(r, mask)
  }

  /** One in-place read-modify-write of a power reduction register. */
  method Update(m: Mcu, reg: Reg, mask: bv8, enable: bool)
    requires reg in m.io
    modifies m
    ensures m.io == old(m.io)[reg := Apply(old(m.io)[reg], mask, enable)]
    ensures m.ie == old(m.ie)
    ensures m.trace == old(m.trace) + [Write(reg, m.io[reg], m.ie)]
  {
    var v := m.In(reg);
    if enable {
      m.Out(reg, ClearBits(v, mask));
    } else {
      m.Out(reg, SetBits(v, mask));
    }
  }

  /** `power_<p>_enable()` as power.h defines it: the bound register loses
      the peripheral's power reduction bit, turning the module on; no other
      register and no other bit changes. */
  method PowerEnable(m: Mcu, chip: Chip, p: Periph)
    requires Resolve(chip, p).Library?
    requires Resolve(chip, p).reg in m.io && BitDefined(chip, Resolve(chip, p).bit)
    modifies m
    ensures var b := Resolve(chip, p);
      m.io == old(m.io)[b.reg := ClearBits(old(m.io)[b.reg], MaskOf(chip, b.bit))]
    ensures m.ie == old(m.ie)
    ensures m.trace == old(m.trace) + [Write(Resolve(chip, p).reg, m.io[Resolve(chip, p).reg], m.ie)]
  {
    var b := Resolve(chip, p);
    Update(m, b.reg, MaskOf(chip, b.bit), true);
  }

  /** `power_<p>_disable()` as power.h defines it: the bound register gains
      the peripheral's power reduction bit; nothing else changes. */
  method PowerDisable(m: Mcu, chip: Chip, p: Periph)
    requires Resolve(chip, p).Library?
    requires Resolve(chip, p).reg in m.io && BitDefined(chip, Resolve(chip, p).bit)
    modifies m
    ensures var b := Resolve(chip, p);
      m.io == old(m.io)[b.reg := SetBits(old(m.io)[b.reg], MaskOf(chip, b.bit))]
    ensures m.ie == old(m.ie)
    ensures m.trace == old(m.trace) + [Write(Resolve(chip, p).reg, m.io[Resolve(chip, p).reg], m.ie)]
  {
    var b := Resolve(chip, p);
    Update(m, b.reg, MaskOf(chip, b.bit), false);
  }

  /** For a classic `1 << PRx` bit the macros touch exactly bit `x`:
      enable clears it, disable sets it, and every other bit keeps its
      value. Each is idempotent, and disable followed by enable gives the
      original value with that bit clear. */
  lemma SingleBitEffect(r: bv8, k: BitPos, j: BitPos)
    ensures ClearBits(r, Bit(k)) & Bit(k) == 0
    ensures SetBits(r, Bit(k)) & Bit(k) == Bit(k)
    ensures j != k ==> ClearBits(r, Bit(k)) & Bit(j) == r & Bit(j)
    ensures j != k ==> SetBits(r, Bit(k)) & Bit(j) == r & Bit(j)
    ensures ClearBits(ClearBits(r, Bit(k)), Bit(k)) == ClearBits(r, Bit(k))
    ensures SetBits(SetBits(r, Bit(k)), Bit(k)) == SetBits(r, Bit(k))
    ensures ClearBits(SetBits(r, Bit(k)), Bit(k)) == ClearBits(r, Bit(k))
  {
    if j != k {
      assert Bit(j) & Bit(k) == 0;
      assert Bit(j) & !Bit(k) == Bit(j);
    }
    ClearSetIdempotent(r, Bit(k));
    SetThenClear(r, Bit(k));
  }
}
