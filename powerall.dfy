/** power.h, `__power_all_enable(enable)` with its wrappers
    `power_all_enable` and `power_all_disable`: a union mask is built for
    every power reduction register the device has, from the bit macros it
    defines, and cleared (enable) or set (disable) in that register. */
module PowerAll {
  import opened Avr
  import opened Bits
  import opened Power

  /** `PR_x_bm` when the device defines it, else nothing (0). */
  function MaskIf(chip: Chip, n: MaskName): bv8
  {
    if n in chip.masks then chip.masks[n] else 0
  }

  /** `(1 << PRx)` when the device defines PRx, else nothing (0). */
  function PosIf(chip: Chip, q: PosName): bv8
  {
    if q in chip.pos then Bit(chip.pos[q]) else 0
  }

  /** `PR_x_bm` when the feature macro is defined, else nothing. */
  function FlagMask(chip: Chip, f: Flag, n: MaskName): bv8
  {
    if f in chip.flags then MaskIf(chip, n) else 0
  }

  /** The OR of the `#ifdef PR_x_bm` terms of a union mask. */
  function OrMask(chip: Chip, names: seq<MaskName>): bv8
  {
    if names == [] then 0 else MaskIf(chip, names[0]) | OrMask(chip, names[1..])
  }

  /** The OR of the `#ifdef PRx` terms `(1 << PRx)` of a union mask. */
  function OrPos(chip: Chip, names: seq<PosName>): bv8
  {
    if names == [] then 0 else PosIf(chip, names[0]) | OrPos(chip, names[1..])
  }

  /** A listed mask the device defines is included in the union. */
  lemma {:induction false} OrMaskHas(chip: Chip, names: seq<MaskName>, n: MaskName)
    requires n in names && n in chip.masks
    ensures chip.masks[n] & !OrMask(chip, names) == 0
    decreases |names|
  {
    if names[0] != n {
      OrMaskHas(chip, names[1..], n);
    }
  }

  /** A listed bit position the device defines is included in the union. */
  lemma {:induction false} OrPosHas(chip: Chip, names: seq<PosName>, q: PosName)
    requires q in names && q in chip.pos
    ensures Bit(chip.pos[q]) & !OrPos(chip, names) == 0
    decreases |names|
  {
    if names[0] != q {
      OrPosHas(chip, names[1..], q);
    }
  }

  /** The union of masks the device defines none of is empty. */
  lemma {:induction false} OrMaskNone(chip: Chip, names: seq<MaskName>)
    requires forall n :: n in chip.masks ==> n !in names
    ensures OrMask(chip, names) == 0
    decreases |names|
  {
    if names != [] {
      OrMaskNone(chip, names[1..]);
    }
  }

  /** The union of bit positions the device defines none of is empty. */
  lemma {:induction false} OrPosNone(chip: Chip, names: seq<PosName>)
    requires forall q :: q in chip.pos ==> q !in names
    ensures OrPos(chip, names) == 0
    decreases |names|
  {
    if names != [] {
      OrPosNone(chip, names[1..]);
    }
  }

  /** The PR.PRGEN terms before the RTC term ... */
  const GenHead: seq<MaskName> := [PR_AES_bm, PR_EBI_bm]
  /** ... and after it. */
  const GenTail: seq<MaskName> := [PR_EVSYS_bm, PR_DMA_bm, PR_USB_bm, PR_LCD_bm]

  /** The PR.PRGEN mask: AES, EBI, RTC, EVSYS, DMA, USB and LCD. As
      written, the RTC term sits under `#ifdef PR_RC_bm`, a macro no device
      defines, so it never contributes. */
  function GenMask(chip: Chip, asWritten: bool): bv8
  {
    OrMask(chip, GenHead) | (if asWritten then 0 else MaskIf(chip, PR_RTC_bm)) | OrMask(chip, GenTail)
  }

  const PortNames: seq<MaskName> := [PR_ADC_bm, PR_AC_bm, PR_DAC_bm]

  /** The mask for PR.PRPA and PR.PRPB: ADC, AC and DAC. */
  function PortMask(chip: Chip): bv8
  {
    OrMask(chip, PortNames)
  }

  const BaseNames: seq<MaskName> := [PR_USART0_bm, PR_TC0_bm]

  /** The part every port C .. F mask shares: USART0 and TC0. */
  function BaseMask(chip: Chip): bv8
  {
    OrMask(chip, BaseNames)
  }

  const CNames: seq<MaskName> := [PR_TWI_bm, PR_USART1_bm, PR_SPI_bm, PR_HIRES_bm, PR_TC1_bm]

  /** `cmask`: the base plus TWI, USART1, SPI, HIRES and TC1. */
  function CMask(chip: Chip): bv8
  {
    BaseMask(chip) | OrMask(chip, CNames)
  }

  /** The common start of `dmask`, `emask` and `fmask`: the base plus
      USART1, HIRES and TC1 where the device says ports D .. F have them. */
  function DefMask(chip: Chip): bv8
  {
    BaseMask(chip) | FlagMask(chip, HaveUsart1Def, PR_USART1_bm)
    | FlagMask(chip, HaveHiresDef, PR_HIRES_bm) | FlagMask(chip, HaveTc1Def, PR_TC1_bm)
  }

  /** `dmask`: with SPI under `__AVR_HAVE_SPI_D` and TWI under `__AVR_HAVE_TWI_DF`. */
  function DMask(chip: Chip): bv8
  {
    DefMask(chip) | FlagMask(chip, HaveSpiD, PR_SPI_bm) | FlagMask(chip, HaveTwiDF, PR_TWI_bm)
  }

  /** `emask`: with SPI under `__AVR_HAVE_SPI_EF` and TWI under `__AVR_HAVE_TWI_E`. */
  function EMask(chip: Chip): bv8
  {
    DefMask(chip) | FlagMask(chip, HaveSpiEF, PR_SPI_bm) | FlagMask(chip, HaveTwiE, PR_TWI_bm)
  }

  /** `fmask`: with SPI under `__AVR_HAVE_SPI_EF` and TWI under `__AVR_HAVE_TWI_DF`. */
  function FMask(chip: Chip): bv8
  {
    DefMask(chip) | FlagMask(chip, HaveSpiEF, PR_SPI_bm) | FlagMask(chip, HaveTwiDF, PR_TWI_bm)
  }

  /** The PRR0 (or PRR) terms before the PRUSART1 term ... */
  const Prr0Head: seq<PosName> :=
    [PRADC, PRCAN, PRLCD, PRLIN, PRPSC, PRPSC0, PRPSC1, PRPSC2, PRPSCR, PRSPI, PRTIM0, PRTIM1,
     PRTIM2, PRTWI, PRUSART, PRUSART0]
  /** ... and after it. */
  const Prr0Tail: seq<PosName> := [PRUSI, PRVADC, PRVRM, PRVM, PRDS, PRCU, PRTM, PRT3, PRT2, PRT1, PRLFR]

  /** The PRR0 (or PRR) mask. PRUSART1 is included when the device defines
      `__AVR_HAVE_PRR0_USART1`, or has no PRR0 but has PRUSART1. */
  function Prr0Mask(chip: Chip): bv8
  {
    OrPos(chip, Prr0Head)
    | (if HavePrr0Usart1 in chip.flags || (PRR0 !in chip.regs && PRUSART1 in chip.pos)
       then PosIf(chip, PRUSART1) else 0)
    | OrPos(chip, Prr0Tail)
  }

  /** The PRR1 terms before the PRUSART1 term ... */
  const Prr1Head: seq<PosName> := [PRTIM3, PRTIM4, PRTIM5]
  /** ... and after it. */
  const Prr1Tail: seq<PosName> :=
    [PRUSART2, PRUSART3, PRTRX24, PRSPI, PRCI, PRUSBH, PRUSB, PRHSSPI, PRSCI, PRAES, PRKB]

  /** The PRR1 mask. PRUSART1 is included under `__AVR_HAVE_PRR1_USART1`;
      PRSPI is included whenever it is defined. */
  function Prr1Mask(chip: Chip): bv8
  {
    OrPos(chip, Prr1Head)
    | (if HavePrr1Usart1 in chip.flags then PosIf(chip, PRUSART1) else 0)
    | OrPos(chip, Prr1Tail)
  }

  const Prr2Names: seq<PosName> := [PRRAM0, PRRAM1, PRRAM2, PRRAM3]

  /** The PRR2 mask: the four RAM blocks. */
  function Prr2Mask(chip: Chip): bv8
  {
    OrPos(chip, Prr2Names)
  }

  /** The masks `__power_all_enable` computes, one per register group. */
  datatype Masks = Masks(gen: bv8, port: bv8, c: bv8, d: bv8, e: bv8, f: bv8,
                         prr0: bv8, prr1: bv8, prr2: bv8)

  /** The mask the xmega half ends up applying to each PR register:
      nothing for a register the device lacks and, as written, `cmask`
      lands on PR.PRPB instead of PR.PRPC. */
  function XmegaMask(chip: Chip, k: Masks, r: Reg, asWritten: bool): bv8
  {
    if r !in chip.regs then 0
    else match r
      case PR_PRGEN => k.gen
      case PR_PRPA => k.port
      case PR_PRPB => if asWritten && PR_PRPC in chip.regs then k.port | k.c else k.port
      case PR_PRPC => if asWritten then 0 else k.c
      case PR_PRPD => k.d
      case PR_PRPE => k.e
      case PR_PRPF => k.f
      case _ => 0
  }

  /** The mask the classic half applies to each PRRn register: PRR only
      when there is no PRR0. */
  function PrrMask(chip: Chip, k: Masks, r: Reg): bv8
  {
    if r !in chip.regs then 0
    else match r
      case PRR0 => k.prr0
      case PRR => if PRR0 in chip.regs then 0 else k.prr0
      case PRR1 => k.prr1
      case PRR2 => k.prr2
      case _ => 0
  }

  /** The PR registers of the xmega devices; the rest are the classic
      PRRn registers or registers power_all does not touch. */
  predicate IsXmegaReg(r: Reg)
  {
    r in {PR_PRGEN, PR_PRPA, PR_PRPB, PR_PRPC, PR_PRPD, PR_PRPE, PR_PRPF}
  }

  /** Each register gets its mask from one of the two halves only. */
  function MaskFor(chip: Chip, k: Masks, r: Reg, asWritten: bool): bv8
  {
    if IsXmegaReg(r) then XmegaMask(chip, k, r, asWritten) else PrrMask(chip, k, r)
  }
  /** The mask `__power_all_enable` ends up applying to register `r`:
      nothing for a register the device lacks; PRR only when there is no
      PRR0; and, as written, `cmask` lands on PR.PRPB instead of PR.PRPC. */
  function RegisterMask(chip: Chip, r: Reg, asWritten: bool): bv8
  {
    if r !in chip.regs then 0
    else match r
      case PR_PRGEN => GenMask(chip, asWritten)
      case PR_PRPA => PortMask(chip)
      case PR_PRPB => if asWritten && PR_PRPC in chip.regs then PortMask(chip) | CMask(chip) else PortMask(chip)
      case PR_PRPC => if asWritten then 0 else CMask(chip)
      case PR_PRPD => DMask(chip)
      case PR_PRPE => EMask(chip)
      case PR_PRPF => FMask(chip)
      case PRR0 => Prr0Mask(chip)
      case PRR => if PRR0 in chip.regs then 0 else Prr0Mask(chip)
      case PRR1 => Prr1Mask(chip)
      case PRR2 => Prr2Mask(chip)
      case _ => 0
  }

  /** The masks computed once and split by register group give the same
      mask for every register: the xmega group ... */
  lemma XmegaRegisterMaskIs(chip: Chip, r: Reg, asWritten: bool, k: Masks)
    requires IsXmegaReg(r)
    requires k.gen == GenMask(chip, asWritten) && k.port == PortMask(chip) && k.c == CMask(chip)
    requires k.d == DMask(chip) && k.e == EMask(chip) && k.f == FMask(chip)
    ensures RegisterMask(chip, r, asWritten) == MaskFor(chip, k, r, asWritten)
  {
  }

  /** ... and the PRRn group. */
  lemma PrrRegisterMaskIs(chip: Chip, r: Reg, asWritten: bool, k: Masks)
    requires !IsXmegaReg(r)
    requires k.prr0 == Prr0Mask(chip) && k.prr1 == Prr1Mask(chip) && k.prr2 == Prr2Mask(chip)
    ensures RegisterMask(chip, r, asWritten) == MaskFor(chip, k, r, asWritten)
  {
  }

  /** The registers `__power_all_enable` stores to: each PR and PRRn
      register the device has, PRR only when there is no PRR0, and, as
      written, not PR.PRPC. */
  predicate Target(chip: Chip, asWritten: bool, r: Reg)
  {
    r in chip.regs
    && match r
       case PR_PRGEN | PR_PRPA | PR_PRPB | PR_PRPD | PR_PRPE | PR_PRPF | PRR0 | PRR1 | PRR2 => true
       case PR_PRPC => !asWritten
       case PRR => PRR0 !in chip.regs
       case _ => false
  }

  /** Clearing (or setting) one mask and then another is clearing (or
      setting) their union. */
  lemma ApplyTwice(r: bv8, a: bv8, b: bv8, enable: bool)
    ensures Apply(Apply(r, a, enable), b, enable) == Apply(r, a | b, enable)
  {
  }

  /** One store of the sequence: the register is a `Target`, and the I
      flag is the caller's. */
  predicate TargetWrite(e: Event, chip: Chip, asWritten: bool, ie: bool)
  {
    e.Write? && Target(chip, asWritten, e.reg) && e.ie == ie
  }

  /** The stores appended to `trace` since `tr0` all hit targets with the
      I flag `ie`. */
  predicate TargetsOnly(trace: seq<Event>, tr0: seq<Event>, chip: Chip, asWritten: bool, ie: bool)
  {
    |tr0| <= |trace| && trace[..|tr0|] == tr0
    && forall i :: |tr0| <= i < |trace| ==> TargetWrite(trace[i], chip, asWritten, ie)
  }

  /** Appending a target store keeps `TargetsOnly`. */
  lemma TargetsOnlySnoc(trace: seq<Event>, tr0: seq<Event>, e: Event, chip: Chip, asWritten: bool, ie: bool)
    requires TargetsOnly(trace, tr0, chip, asWritten, ie)
    requires TargetWrite(e, chip, asWritten, ie)
    ensures TargetsOnly(trace + [e], tr0, chip, asWritten, ie)
  {
    assert (trace + [e])[..|tr0|] == trace[..|tr0|];
  }

  /** What one `if (enable) REG &= ~mask; else REG |= mask;` does to the
      contents `v` of register `r`: only the targeted register changes, and
      only when the device has it. */
  function StoreAt(v: bv8, r: Reg, present: bool, reg: Reg, mask: bv8, enable: bool): bv8
  {
    if present && r == reg then Apply(v, mask, enable) else v
  }

  /** The contents of register `r` after PR.PRGEN, PR.PRPA and PR.PRPB. */
  function GenPortValue(v: bv8, r: Reg, chip: Chip, k: Masks, enable: bool): bv8
  {
    var v1 := StoreAt(v, r, PR_PRGEN in chip.regs, PR_PRGEN, k.gen, enable);
    var v2 := StoreAt(v1, r, PR_PRPA in chip.regs, PR_PRPA, k.port, enable);
    StoreAt(v2, r, PR_PRPB in chip.regs, PR_PRPB, k.port, enable)
  }

  /** The contents of register `r` after the `cmask`, `dmask`, `emask` and
      `fmask` stores; as written, `cmask` goes to PR.PRPB. */
  function CdefValue(v: bv8, r: Reg, chip: Chip, k: Masks, enable: bool, asWritten: bool): bv8
  {
    var v1 := StoreAt(v, r, PR_PRPC in chip.regs, if asWritten then PR_PRPB else PR_PRPC, k.c, enable);
    var v2 := StoreAt(v1, r, PR_PRPD in chip.regs, PR_PRPD, k.d, enable);
    var v3 := StoreAt(v2, r, PR_PRPE in chip.regs, PR_PRPE, k.e, enable);
    StoreAt(v3, r, PR_PRPF in chip.regs, PR_PRPF, k.f, enable)
  }

  /** The contents of register `r` after the xmega half. */
  function XmegaValue(v: bv8, r: Reg, chip: Chip, k: Masks, enable: bool, asWritten: bool): bv8
  {
    CdefValue(GenPortValue(v, r, chip, k, enable), r, chip, k, enable, asWritten)
  }

  /** The contents of register `r` after the classic half: PRR0 (or PRR
      when there is no PRR0), PRR1, PRR2. */
  function PrrValue(v: bv8, r: Reg, chip: Chip, k: Masks, enable: bool): bv8
  {
    var v1 := StoreAt(v, r, PRR0 in chip.regs, PRR0, k.prr0, enable);
    var v2 := StoreAt(v1, r, PRR0 !in chip.regs && PRR in chip.regs, PRR, k.prr0, enable);
    var v3 := StoreAt(v2, r, PRR1 in chip.regs, PRR1, k.prr1, enable);
    StoreAt(v3, r, PRR2 in chip.regs, PRR2, k.prr2, enable)
  }

  /** Clearing or setting no bits changes nothing. */
  lemma ApplyNone(r: bv8, enable: bool)
    ensures Apply(r, 0, enable) == r
  {
  }

  /** The mask the PR.PRGEN, PR.PRPA and PR.PRPB stores apply to `r`. */
  function GenPortMask(chip: Chip, k: Masks, r: Reg): bv8
  {
    if r !in chip.regs then 0
    else if r == PR_PRGEN then k.gen
    else if r == PR_PRPA || r == PR_PRPB then k.port
    else 0
  }

  /** The mask the `cmask` .. `fmask` stores apply to `r`. */
  function CdefMask(chip: Chip, k: Masks, r: Reg, asWritten: bool): bv8
  {
    if PR_PRPC in chip.regs && r == (if asWritten then PR_PRPB else PR_PRPC) then k.c
    else if r !in chip.regs then 0
    else if r == PR_PRPD then k.d
    else if r == PR_PRPE then k.e
    else if r == PR_PRPF then k.f
    else 0
  }

  lemma GenPortValueIs(v: bv8, r: Reg, chip: Chip, k: Masks, enable: bool)
    ensures GenPortValue(v, r, chip, k, enable) == Apply(v, GenPortMask(chip, k, r), enable)
  {
    var mask := GenPortMask(chip, k, r);
    if r in chip.regs && r == PR_PRGEN {
      assert mask == k.gen;
    } else if r in chip.regs && (r == PR_PRPA || r == PR_PRPB) {
      assert mask == k.port;
    } else {
      assert mask == 0;
      ApplyNone(v, enable);
    }
  }

  lemma CdefValueIs(v: bv8, r: Reg, chip: Chip, k: Masks, enable: bool, asWritten: bool)
    ensures CdefValue(v, r, chip, k, enable, asWritten) == Apply(v, CdefMask(chip, k, r, asWritten), enable)
  {
    if PR_PRPC in chip.regs && r == (if asWritten then PR_PRPB else PR_PRPC) {
      CdefHitC(v, r, chip, k, enable, asWritten);
    } else if r in chip.regs && (r == PR_PRPD || r == PR_PRPE || r == PR_PRPF) {
      CdefHitDef(v, r, chip, k, enable, asWritten);
    } else {
      CdefMiss(v, r, chip, k, enable, asWritten);
      ApplyNone(v, enable);
    }
  }

  /** The `cmask` store is the one that reaches its target. */
  lemma CdefHitC(v: bv8, r: Reg, chip: Chip, k: Masks, enable: bool, asWritten: bool)
    requires PR_PRPC in chip.regs && r == (if asWritten then PR_PRPB else PR_PRPC)
    ensures CdefValue(v, r, chip, k, enable, asWritten) == Apply(v, k.c, enable)
    ensures CdefMask(chip, k, r, asWritten) == k.c
  {
  }

  /** Ports D, E and F each get exactly their own store. */
  lemma CdefHitDef(v: bv8, r: Reg, chip: Chip, k: Masks, enable: bool, asWritten: bool)
    requires !(PR_PRPC in chip.regs && r == (if asWritten then PR_PRPB else PR_PRPC))
    requires r in chip.regs && (r == PR_PRPD || r == PR_PRPE || r == PR_PRPF)
    ensures var mask := if r == PR_PRPD then k.d else if r == PR_PRPE then k.e else k.f;
      CdefValue(v, r, chip, k, enable, asWritten) == Apply(v, mask, enable)
      && CdefMask(chip, k, r, asWritten) == mask
  {
  }

  /** Any other register is left alone. */
  lemma CdefMiss(v: bv8, r: Reg, chip: Chip, k: Masks, enable: bool, asWritten: bool)
    requires !(PR_PRPC in chip.regs && r == (if asWritten then PR_PRPB else PR_PRPC))
    requires !(r in chip.regs && (r == PR_PRPD || r == PR_PRPE || r == PR_PRPF))
    ensures CdefValue(v, r, chip, k, enable, asWritten) == v
    ensures CdefMask(chip, k, r, asWritten) == 0
  {
  }

  /** After the xmega half, each PR register of the device has exactly its
      mask cleared (enable) or set (disable); every other register keeps
      its value. */
  lemma XmegaValueIs(v: bv8, r: Reg, chip: Chip, k: Masks, enable: bool, asWritten: bool)
    requires asWritten && PR_PRPC in chip.regs ==> PR_PRPB in chip.regs
    ensures XmegaValue(v, r, chip, k, enable, asWritten) == Apply(v, XmegaMask(chip, k, r, asWritten), enable)
  {
    var a, b := GenPortMask(chip, k, r), CdefMask(chip, k, r, asWritten);
    GenPortValueIs(v, r, chip, k, enable);
    CdefValueIs(Apply(v, a, enable), r, chip, k, enable, asWritten);
    ApplyTwice(v, a, b, enable);
    XmegaMaskSplit(chip, k, r, asWritten);
  }

  /** ORing in nothing changes nothing. */
  lemma OrNothing(x: bv8)
    ensures x | 0 == x && 0 | x == x
  {
  }

  /** The xmega mask of a register is the union of what the two groups of
      stores apply to it. */
  lemma XmegaMaskSplit(chip: Chip, k: Masks, r: Reg, asWritten: bool)
    requires asWritten && PR_PRPC in chip.regs ==> PR_PRPB in chip.regs
    ensures XmegaMask(chip, k, r, asWritten) == GenPortMask(chip, k, r) | CdefMask(chip, k, r, asWritten)
  {
    var g, c := GenPortMask(chip, k, r), CdefMask(chip, k, r, asWritten);
    if r == PR_PRPB && asWritten && PR_PRPC in chip.regs {
    } else if r == PR_PRGEN || r == PR_PRPA || r == PR_PRPB {
      GenPortOnly(chip, k, r, asWritten);
      OrNothing(g);
    } else {
      CdefOnly(chip, k, r, asWritten);
      OrNothing(c);
    }
  }

  /** PR.PRGEN, PR.PRPA and PR.PRPB get their mask from the first group
      only, except for PR.PRPB as written. */
  lemma GenPortOnly(chip: Chip, k: Masks, r: Reg, asWritten: bool)
    requires r == PR_PRGEN || r == PR_PRPA || r == PR_PRPB
    requires !(r == PR_PRPB && asWritten && PR_PRPC in chip.regs)
    ensures XmegaMask(chip, k, r, asWritten) == GenPortMask(chip, k, r)
    ensures CdefMask(chip, k, r, asWritten) == 0
  {
  }

  /** The other registers get their mask from the second group only. */
  lemma CdefOnly(chip: Chip, k: Masks, r: Reg, asWritten: bool)
    requires r != PR_PRGEN && r != PR_PRPA && r != PR_PRPB
    ensures XmegaMask(chip, k, r, asWritten) == CdefMask(chip, k, r, asWritten)
    ensures GenPortMask(chip, k, r) == 0
  {
  }

  /** After the classic half, each PRRn register of the device has exactly
      its mask cleared or set; every other register keeps its value. */
  lemma PrrValueIs(v: bv8, r: Reg, chip: Chip, k: Masks, enable: bool)
    ensures PrrValue(v, r, chip, k, enable) == Apply(v, PrrMask(chip, k, r), enable)
  {
    var mask := PrrMask(chip, k, r);
    if r in chip.regs && r == PRR0 {
      assert mask == k.prr0;
    } else if r in chip.regs && r == PRR && PRR0 !in chip.regs {
      assert mask == k.prr0;
    } else if r in chip.regs && r == PRR1 {
      assert mask == k.prr1;
    } else if r in chip.regs && r == PRR2 {
      assert mask == k.prr2;
    } else {
      assert mask == 0;
      ApplyNone(v, enable);
    }
  }

  /** One `if (enable) REG &= ~mask; else REG |= mask;` of the sequence. */
  method Step(m: Mcu, chip: Chip, asWritten: bool, enable: bool, ghost tr0: seq<Event>,
              present: bool, reg: Reg, mask: bv8)
    requires present ==> Target(chip, asWritten, reg) && reg in m.io
    requires TargetsOnly(m.trace, tr0, chip, asWritten, m.ie)
    modifies m
    ensures m.io.Keys == old(m.io).Keys && m.ie == old(m.ie)
    ensures forall r :: r in m.io ==> m.io[r] == StoreAt(old(m.io)[r], r, present, reg, mask, enable)
    ensures TargetsOnly(m.trace, tr0, chip, asWritten, m.ie)
  {
    if present {
      ghost var t := m.trace;
      Update(m, reg, mask, enable);
      TargetsOnlySnoc(t, tr0, Write(reg, m.io[reg], m.ie), chip, asWritten, m.ie);
    }
  }

  /** The first stores of the xmega half: PR.PRGEN, PR.PRPA, PR.PRPB. */
  method GenPortSteps(m: Mcu, chip: Chip, k: Masks, enable: bool, asWritten: bool, ghost tr0: seq<Event>)
    requires chip.regs <= m.io.Keys
    requires TargetsOnly(m.trace, tr0, chip, asWritten, m.ie)
    modifies m
    ensures m.io.Keys == old(m.io).Keys && m.ie == old(m.ie)
    ensures forall r :: r in m.io ==> m.io[r] == GenPortValue(old(m.io)[r], r, chip, k, enable)
    ensures TargetsOnly(m.trace, tr0, chip, asWritten, m.ie)
  {
    Step(m, chip, asWritten, enable, tr0, PR_PRGEN in chip.regs, PR_PRGEN, k.gen);
    Step(m, chip, asWritten, enable, tr0, PR_PRPA in chip.regs, PR_PRPA, k.port);
    Step(m, chip, asWritten, enable, tr0, PR_PRPB in chip.regs, PR_PRPB, k.port);
  }

  /** The `cmask`, `dmask`, `emask` and `fmask` stores. */
  method CdefSteps(m: Mcu, chip: Chip, k: Masks, enable: bool, asWritten: bool, ghost tr0: seq<Event>)
    requires chip.regs <= m.io.Keys
    requires asWritten && PR_PRPC in chip.regs ==> PR_PRPB in chip.regs
    requires TargetsOnly(m.trace, tr0, chip, asWritten, m.ie)
    modifies m
    ensures m.io.Keys == old(m.io).Keys && m.ie == old(m.ie)
    ensures forall r :: r in m.io ==> m.io[r] == CdefValue(old(m.io)[r], r, chip, k, enable, asWritten)
    ensures TargetsOnly(m.trace, tr0, chip, asWritten, m.ie)
  {
    var cReg := if asWritten then PR_PRPB else PR_PRPC;
    assert PR_PRPC in chip.regs ==> Target(chip, asWritten, cReg);
    Step(m, chip, asWritten, enable, tr0, PR_PRPC in chip.regs, cReg, k.c);
    Step(m, chip, asWritten, enable, tr0, PR_PRPD in chip.regs, PR_PRPD, k.d);
    Step(m, chip, asWritten, enable, tr0, PR_PRPE in chip.regs, PR_PRPE, k.e);
    Step(m, chip, asWritten, enable, tr0, PR_PRPF in chip.regs, PR_PRPF, k.f);
  }

  /** The xmega half: PR.PRGEN, then ports A to F. */
  method XmegaSteps(m: Mcu, chip: Chip, k: Masks, enable: bool, asWritten: bool, ghost tr0: seq<Event>)
    requires chip.regs <= m.io.Keys
    requires asWritten && PR_PRPC in chip.regs ==> PR_PRPB in chip.regs
    requires TargetsOnly(m.trace, tr0, chip, asWritten, m.ie)
    modifies m
    ensures m.io.Keys == old(m.io).Keys && m.ie == old(m.ie)
    ensures forall r :: r in m.io ==> m.io[r] == XmegaValue(old(m.io)[r], r, chip, k, enable, asWritten)
    ensures TargetsOnly(m.trace, tr0, chip, asWritten, m.ie)
  {
    GenPortSteps(m, chip, k, enable, asWritten, tr0);
    CdefSteps(m, chip, k, enable, asWritten, tr0);
  }

  /** The classic half: PRR0 (or PRR when there is no PRR0), PRR1, PRR2. */
  method PrrSteps(m: Mcu, chip: Chip, k: Masks, enable: bool, asWritten: bool, ghost tr0: seq<Event>)
    requires chip.regs <= m.io.Keys
    requires TargetsOnly(m.trace, tr0, chip, asWritten, m.ie)
    modifies m
    ensures m.io.Keys == old(m.io).Keys && m.ie == old(m.ie)
    ensures forall r :: r in m.io ==> m.io[r] == PrrValue(old(m.io)[r], r, chip, k, enable)
    ensures TargetsOnly(m.trace, tr0, chip, asWritten, m.ie)
  {
    Step(m, chip, asWritten, enable, tr0, PRR0 in chip.regs, PRR0, k.prr0);
    Step(m, chip, asWritten, enable, tr0, PRR0 !in chip.regs && PRR in chip.regs, PRR, k.prr0);
    Step(m, chip, asWritten, enable, tr0, PRR1 in chip.regs, PRR1, k.prr1);
    Step(m, chip, asWritten, enable, tr0, PRR2 in chip.regs, PRR2, k.prr2);
  }

  /** `__power_all_enable(enable)`: for each register the device has, its
      mask is cleared when enabling and set when disabling; every bit
      outside the masks, and every other register, keeps its value, and
      only `Target` registers are stored to. */
  method RunPowerAll(m: Mcu, chip: Chip, enable: bool, asWritten: bool)
    requires chip.regs <= m.io.Keys
    requires asWritten && PR_PRPC in chip.regs ==> PR_PRPB in chip.regs
    modifies m
    ensures m.io.Keys == old(m.io).Keys
    ensures forall r :: r in m.io ==> m.io[r] == Apply(old(m.io)[r], RegisterMask(chip, r, asWritten), enable)
    ensures m.ie == old(m.ie)
    ensures TargetsOnly(m.trace, old(m.trace), chip, asWritten, m.ie)
  {
    var k := Masks(GenMask(chip, asWritten), PortMask(chip), CMask(chip), DMask(chip), EMask(chip), FMask(chip),
                   Prr0Mask(chip), Prr1Mask(chip), Prr2Mask(chip));
    ghost var io0 := m.io;
    assert m.trace[..|m.trace|] == m.trace;
    XmegaSteps(m, chip, k, enable, asWritten, old(m.trace));
    ghost var io1 := m.io;
    PrrSteps(m, chip, k, enable, asWritten, old(m.trace));
    forall r | r in m.io
      ensures m.io[r] == Apply(io0[r], RegisterMask(chip, r, asWritten), enable)
    {
      if IsXmegaReg(r) {
        XmegaRegisterMaskIs(chip, r, asWritten, k);
      } else {
        PrrRegisterMaskIs(chip, r, asWritten, k);
      }
      XmegaValueIs(io0[r], r, chip, k, enable, asWritten);
      PrrValueIs(io1[r], r, chip, k, enable);
      MasksDisjointHalves(chip, k, r, asWritten, io0[r], enable);
    }
  }

  /** No register gets a mask from both halves. */
  lemma MasksDisjointHalves(chip: Chip, k: Masks, r: Reg, asWritten: bool, v: bv8, enable: bool)
    ensures Apply(Apply(v, XmegaMask(chip, k, r, asWritten), enable), PrrMask(chip, k, r), enable)
            == Apply(v, MaskFor(chip, k, r, asWritten), enable)
  {
    if IsXmegaReg(r) {
      ApplyNone(Apply(v, XmegaMask(chip, k, r, asWritten), enable), enable);
    } else {
      ApplyNone(v, enable);
    }
  }
  /** As written, no store targets PR.PRPC: its mask is 0 and `cmask` is
      applied to PR.PRPB on top of PR.PRPB's own mask. */
  lemma PrpcSkippedAsWritten(chip: Chip)
    ensures !Target(chip, true, PR_PRPC)
    ensures RegisterMask(chip, PR_PRPC, true) == 0
    ensures PR_PRPB in chip.regs && PR_PRPC in chip.regs
            ==> RegisterMask(chip, PR_PRPB, true) == PortMask(chip) | CMask(chip)
  {
  }

  /** On a device with ports B and C and a port C TWI, `power_twic_enable`
      clears PR.PRPC's TWI bit, but the as-written `power_all_enable`
      leaves PR.PRPC alone and clears that bit in PR.PRPB instead;
      corrected, PR.PRPC's mask holds it. */
  lemma TwicLeftOffAsWritten(chip: Chip)
    requires PR_PRPB in chip.regs && PR_PRPC in chip.regs && PR_TWI_bm in chip.masks
    requires TwiC !in chip.overridden
    ensures Resolve(chip, TwiC) == Library(PR_PRPC, Mask(PR_TWI_bm))
    ensures RegisterMask(chip, PR_PRPC, true) == 0
    ensures chip.masks[PR_TWI_bm] & !RegisterMask(chip, PR_PRPB, true) == 0
    ensures chip.masks[PR_TWI_bm] & !RegisterMask(chip, PR_PRPC, false) == 0
  {
    ResolveFirstMatch(chip, TwiC, 0);
    OrMaskHas(chip, CNames, PR_TWI_bm);
  }

  /** Corrected: `cmask` goes to PR.PRPC and PR.PRPB keeps its own mask. */
  lemma PrpcWritten(chip: Chip)
    requires PR_PRPC in chip.regs
    ensures Target(chip, false, PR_PRPC)
    ensures RegisterMask(chip, PR_PRPC, false) == CMask(chip)
    ensures PR_PRPB in chip.regs ==> RegisterMask(chip, PR_PRPB, false) == PortMask(chip)
  {
  }

  /** None of the PR.PRGEN modules but the RTC is defined. */
  predicate OnlyRtcInPrgen(chip: Chip)
  {
    forall n :: n in GenHead + GenTail ==> n !in chip.masks
  }

  /** `power_rtc_enable` clears PR_RTC_bm in PR.PRGEN whenever the device
      has both, but as written the PR.PRGEN mask of `power_all_enable`
      never holds it: on a device whose only PR.PRGEN module is the RTC,
      that mask is empty. */
  lemma RtcLeftOutAsWritten(chip: Chip)
    requires PR_PRGEN in chip.regs && PR_RTC_bm in chip.masks
    ensures Resolve(chip, Rtc) == Library(PR_PRGEN, Mask(PR_RTC_bm))
    ensures OnlyRtcInPrgen(chip) ==> RegisterMask(chip, PR_PRGEN, true) == 0
  {
    RtcReplacesOverride(chip);
    if OnlyRtcInPrgen(chip) {
      OrMaskNone(chip, GenHead);
      OrMaskNone(chip, GenTail);
    }
  }

  /** Corrected, the PR.PRGEN mask holds the RTC bit, and holds nothing
      more than the as-written mask and that bit. */
  lemma RtcInCorrectedMask(chip: Chip)
    requires PR_PRGEN in chip.regs && PR_RTC_bm in chip.masks
    ensures chip.masks[PR_RTC_bm] & !RegisterMask(chip, PR_PRGEN, false) == 0
    ensures RegisterMask(chip, PR_PRGEN, false) == RegisterMask(chip, PR_PRGEN, true) | chip.masks[PR_RTC_bm]
  {
  }

  /** The feature macro that puts mask `n` into port `reg`'s mask, for
      ports D, E and F. */
  predicate PortFlag(reg: Reg, n: MaskName, f: Flag)
  {
    (n == PR_USART1_bm && f == HaveUsart1Def) || (n == PR_HIRES_bm && f == HaveHiresDef)
    || (n == PR_TC1_bm && f == HaveTc1Def)
    || (n == PR_SPI_bm && f == (if reg == PR_PRPD then HaveSpiD else HaveSpiEF))
    || (n == PR_TWI_bm && f == (if reg == PR_PRPE then HaveTwiE else HaveTwiDF))
  }

  /** The bit positions the PRR0 (or PRR) mask lists ... */
  predicate ListedInPrr0(q: PosName)
  {
    q == PRADC || q == PRCAN || q == PRLCD || q == PRLIN || q == PRPSC || q == PRPSC0 || q == PRPSC1
      || q == PRPSC2 || q == PRPSCR || q == PRSPI || q == PRTIM0 || q == PRTIM1 || q == PRTIM2
      || q == PRTWI || q == PRUSART || q == PRUSART0 || q == PRUSI || q == PRVADC || q == PRVRM
      || q == PRVM || q == PRDS || q == PRCU || q == PRTM || q == PRT3 || q == PRT2 || q == PRT1
      || q == PRLFR
  }

  /** ... the ones the PRR1 mask lists ... */
  predicate ListedInPrr1(q: PosName)
  {
    q == PRTIM3 || q == PRTIM4 || q == PRTIM5 || q == PRUSART2 || q == PRUSART3 || q == PRTRX24
      || q == PRSPI || q == PRCI || q == PRUSBH || q == PRUSB || q == PRHSSPI || q == PRSCI
      || q == PRAES || q == PRKB
  }

  /** ... and the ones the PRR2 mask lists. */
  predicate ListedInPrr2(q: PosName)
  {
    q == PRRAM0 || q == PRRAM1 || q == PRRAM2 || q == PRRAM3
  }

  /** The masks the corrected PR.PRGEN mask lists ... */
  predicate ListedInGen(n: MaskName)
  {
    n == PR_AES_bm || n == PR_EBI_bm || n == PR_RTC_bm || n == PR_EVSYS_bm || n == PR_DMA_bm
      || n == PR_USB_bm || n == PR_LCD_bm
  }

  /** ... the ones the port A and B mask lists ... */
  predicate ListedInPort(n: MaskName)
  {
    n == PR_ADC_bm || n == PR_AC_bm || n == PR_DAC_bm
  }

  /** ... the ones every port C .. F mask lists ... */
  predicate ListedInBase(n: MaskName)
  {
    n == PR_USART0_bm || n == PR_TC0_bm
  }

  /** ... and the ones `cmask` lists. */
  predicate ListedInC(n: MaskName)
  {
    n == PR_USART0_bm || n == PR_TC0_bm || n == PR_TWI_bm || n == PR_USART1_bm || n == PR_SPI_bm
      || n == PR_HIRES_bm || n == PR_TC1_bm
  }

  /** The names listed above are the ones the masks are built from. */
  lemma Prr0Listed(q: PosName)
    requires ListedInPrr0(q)
    ensures q in Prr0Head || q in Prr0Tail
  {
  }

  lemma Prr1Listed(q: PosName)
    requires ListedInPrr1(q)
    ensures q in Prr1Head || q in Prr1Tail
  {
  }

  lemma Prr2Listed(q: PosName)
    requires ListedInPrr2(q)
    ensures q in Prr2Names
  {
  }

  lemma GenListed(n: MaskName)
    requires ListedInGen(n)
    ensures n in GenHead || n == PR_RTC_bm || n in GenTail
  {
  }

  lemma PortListed(n: MaskName)
    requires ListedInPort(n)
    ensures n in PortNames
  {
  }

  lemma CListed(n: MaskName)
    requires ListedInC(n)
    ensures n in BaseNames || n in CNames
  {
  }

  /** The blocks whose bit the corrected `power_all_enable` mask for the
      block's register holds. */
  predicate Shaped(c: Candidate)
  {
    match c.bit
    case Pos(q) => c.cond == RegAndBit && PosListedFor(c.reg, q)
    case Mask(n) =>
      match c.cond
      case RegAndBit => MaskListedFor(c.reg, n)
      case RegAndFlag(f) => (c.reg == PR_PRPD || c.reg == PR_PRPE || c.reg == PR_PRPF) && PortFlag(c.reg, n, f)
      case FlagOnly(_) => false
  }

  /** The PRRn list that the mask for `reg` is built from holds `q`
      (PRR shares the PRR0 list, plus PRUSART1). */
  predicate PosListedFor(reg: Reg, q: PosName)
  {
    match reg
    case PRR0 => ListedInPrr0(q)
    case PRR => ListedInPrr0(q) || q == PRUSART1
    case PRR1 => ListedInPrr1(q)
    case PRR2 => ListedInPrr2(q)
    case _ => false
  }

  /** The PR list that the corrected mask for `reg` is built from holds `n`. */
  predicate MaskListedFor(reg: Reg, n: MaskName)
  {
    match reg
    case PR_PRGEN => ListedInGen(n)
    case PR_PRPA | PR_PRPB => ListedInPort(n)
    case PR_PRPC => ListedInC(n)
    case PR_PRPD | PR_PRPE | PR_PRPF => ListedInBase(n)
    case _ => false
  }

  /** The peripherals in batches of about ten, so that each check that
      their blocks are of that kind stays small. */
  predicate InBatch0(p: Periph)
  {
    match p
    case Aes | Ebi | Dma | DacA | DacB | UsartC1 | UsartD1 | UsartE1 | UsartF1 | Usb => true
    case _ => false
  }

  predicate InBatch1(p: Periph)
  {
    match p
    case Rtc | Evsys | AdcA | AdcB | AcA | AcB | TwiC | TwiE | TwiD | TwiF => true
    case _ => false
  }

  predicate InBatch2(p: Periph)
  {
    match p
    case SpiC | SpiD | SpiE | SpiF | HiresC | HiresD | HiresE | HiresF | Tc1C | Tc1D => true
    case _ => false
  }

  predicate InBatch3(p: Periph)
  {
    match p
    case Tc1E | Tc1F | Tc0C | Tc0D | Tc0E | Tc0F | Lcd | Adc | Spi | Twi => true
    case _ => false
  }

  predicate InBatch4(p: Periph)
  {
    match p
    case Timer0 | Timer1 | Timer2 | Timer3 | Timer4 | Timer5 | Usart0 | Usart1 | Usart2 | Usart3 => true
    case _ => false
  }

  predicate InBatch5(p: Periph)
  {
    match p
    case Transceiver | Ram0 | Ram1 | Ram2 | Ram3 | Psc0 | Psc1 | Psc2 | Usart | Pscr => true
    case _ => false
  }

  predicate InBatch6(p: Periph)
  {
    match p
    case Vadc | Usi | Vrm | Vmonitor | IrDriver | Crypto | TimerModulator | CInterface | LfReceiver | Lin => true
    case _ => false
  }

  predicate InBatch7(p: Periph)
  {
    match p
    case Psc | Can | Usbh | Hsspi | Sci | Kb => true
    case _ => false
  }

  /** A block of `p`'s chain is of that kind, or is a USART1 block chosen
      by a feature macro alone. */
  predicate Fits(p: Periph, c: Candidate)
  {
    Shaped(c) || (p == Usart1 && (c.cond == FlagOnly(HaveUsart1Prr1) || c.cond == FlagOnly(HaveUsart1Prr0)))
  }

  /** Every block of power.h is of that kind, except the PGA block and the
      two USART1 blocks selected by a feature macro alone. */
  lemma ChainShaped(p: Periph, i: nat)
    requires i < |Chain(p)| && p != Pga
    ensures Fits(p, Chain(p)[i])
  {
    if InBatch0(p) {
      ChainShaped0(p);
    } else if InBatch1(p) {
      ChainShaped1(p);
    } else if InBatch2(p) {
      ChainShaped2(p);
    } else if InBatch3(p) {
      ChainShaped3(p);
    } else if InBatch4(p) {
      ChainShaped4(p);
    } else if InBatch5(p) {
      ChainShaped5(p);
    } else if InBatch6(p) {
      ChainShaped6(p);
    } else if InBatch7(p) {
      ChainShaped7(p);
    } else {
      assert false;
    }
    assert Chain(p)[i] in Chain(p);
  }

  /** Batch 0, one case per peripheral. */
  lemma ChainShaped0(p: Periph)
    requires InBatch0(p)
    ensures forall c | c in Chain(p) :: Fits(p, c)
  {
    match p
    case Aes => case Ebi => case Dma => case DacA => case DacB => case UsartC1 => case UsartD1 =>
    case UsartE1 => case UsartF1 => case Usb =>
  }

  /** Batch 1, one case per peripheral. */
  lemma ChainShaped1(p: Periph)
    requires InBatch1(p)
    ensures forall c | c in Chain(p) :: Fits(p, c)
  {
    match p
    case Rtc => case Evsys => case AdcA => case AdcB => case AcA => case AcB => case TwiC =>
    case TwiE => case TwiD => case TwiF =>
  }

  /** Batch 2, one case per peripheral. */
  lemma ChainShaped2(p: Periph)
    requires InBatch2(p)
    ensures forall c | c in Chain(p) :: Fits(p, c)
  {
    match p
    case SpiC => case SpiD => case SpiE => case SpiF => case HiresC => case HiresD => case HiresE =>
    case HiresF => case Tc1C => case Tc1D =>
  }

  /** Batch 3, one case per peripheral. */
  lemma ChainShaped3(p: Periph)
    requires InBatch3(p)
    ensures forall c | c in Chain(p) :: Fits(p, c)
  {
    match p
    case Tc1E => case Tc1F => case Tc0C => case Tc0D => case Tc0E => case Tc0F => case Lcd =>
    case Adc => case Spi => case Twi =>
  }

  /** Batch 4, one case per peripheral. */
  lemma ChainShaped4(p: Periph)
    requires InBatch4(p)
    ensures forall c | c in Chain(p) :: Fits(p, c)
  {
    match p
    case Timer0 => case Timer1 => case Timer2 => case Timer3 => case Timer4 => case Timer5 =>
    case Usart0 => case Usart1 => case Usart2 => case Usart3 =>
  }

  /** Batch 5, one case per peripheral. */
  lemma ChainShaped5(p: Periph)
    requires InBatch5(p)
    ensures forall c | c in Chain(p) :: Fits(p, c)
  {
    match p
    case Transceiver => case Ram0 => case Ram1 => case Ram2 => case Ram3 => case Psc0 =>
    case Psc1 => case Psc2 => case Usart => case Pscr =>
  }

  /** Batch 6, one case per peripheral. */
  lemma ChainShaped6(p: Periph)
    requires InBatch6(p)
    ensures forall c | c in Chain(p) :: Fits(p, c)
  {
    match p
    case Vadc => case Usi => case Vrm => case Vmonitor => case IrDriver => case Crypto =>
    case TimerModulator => case CInterface => case LfReceiver => case Lin =>
  }

  /** Batch 7, one case per peripheral. */
  lemma ChainShaped7(p: Periph)
    requires InBatch7(p)
    ensures forall c | c in Chain(p) :: Fits(p, c)
  {
    match p
    case Psc => case Can => case Usbh => case Hsspi => case Sci => case Kb =>
  }

  /** A device never has both PRR0 and PRR. */
  predicate OnePrr0(chip: Chip)
  {
    !(PRR0 in chip.regs && PRR in chip.regs)
  }

  /** The PRR0 (or PRR) mask holds every bit it lists. */
  lemma InPrr0Mask(chip: Chip, q: PosName)
    requires q in chip.pos
    requires ListedInPrr0(q) || (q == PRUSART1 && PRR0 !in chip.regs)
    ensures Bit(chip.pos[q]) & !Prr0Mask(chip) == 0
  {
    if ListedInPrr0(q) {
      Prr0Listed(q);
    }
    if q in Prr0Head {
      OrPosHas(chip, Prr0Head, q);
    } else if q in Prr0Tail {
      OrPosHas(chip, Prr0Tail, q);
    }
  }

  /** The PRR1 mask holds every bit it lists. */
  lemma InPrr1Mask(chip: Chip, q: PosName)
    requires q in chip.pos && ListedInPrr1(q)
    ensures Bit(chip.pos[q]) & !Prr1Mask(chip) == 0
  {
    Prr1Listed(q);
    if q in Prr1Head {
      OrPosHas(chip, Prr1Head, q);
    } else {
      OrPosHas(chip, Prr1Tail, q);
    }
  }

  /** The corrected PR.PRGEN mask holds every mask it lists. */
  lemma InGenMask(chip: Chip, n: MaskName)
    requires n in chip.masks && ListedInGen(n)
    ensures chip.masks[n] & !GenMask(chip, false) == 0
  {
    GenListed(n);
    if n in GenHead {
      OrMaskHas(chip, GenHead, n);
    } else if n in GenTail {
      OrMaskHas(chip, GenTail, n);
    }
  }

  /** `cmask` holds every mask it lists. */
  lemma InCMask(chip: Chip, n: MaskName)
    requires n in chip.masks && ListedInC(n)
    ensures chip.masks[n] & !CMask(chip) == 0
  {
    CListed(n);
    if n in BaseNames {
      OrMaskHas(chip, BaseNames, n);
    } else {
      OrMaskHas(chip, CNames, n);
    }
  }

  /** The port D, E or F mask of `power_all_enable`. */
  function DefPortMask(chip: Chip, reg: Reg): bv8
  {
    if reg == PR_PRPD then DMask(chip) else if reg == PR_PRPE then EMask(chip) else FMask(chip)
  }

  /** `dmask`, `emask` and `fmask` hold the base masks and every mask whose
      feature macro the device defines for that port. */
  lemma InPortDefMask(chip: Chip, reg: Reg, n: MaskName, f: Flag)
    requires reg == PR_PRPD || reg == PR_PRPE || reg == PR_PRPF
    requires n in chip.masks
    requires ListedInBase(n) || (f in chip.flags && PortFlag(reg, n, f))
    ensures chip.masks[n] & !DefPortMask(chip, reg) == 0
  {
    if ListedInBase(n) {
      OrMaskHas(chip, BaseNames, n);
    }
  }

  /** The (corrected) mask of a PRRn block's register holds the block's bit. */
  lemma PosCovered(chip: Chip, c: Candidate)
    requires c.bit.Pos? && Shaped(c) && c.bit.p in chip.pos && (c.reg == PRR ==> PRR0 !in chip.regs)
    requires c.reg in chip.regs
    ensures Bit(chip.pos[c.bit.p]) & !RegisterMask(chip, c.reg, false) == 0
  {
    var q := c.bit.p;
    if c.reg == PRR0 || c.reg == PRR {
      InPrr0Mask(chip, q);
    } else if c.reg == PRR1 {
      InPrr1Mask(chip, q);
    } else {
      Prr2Listed(q);
      OrPosHas(chip, Prr2Names, q);
    }
  }

  /** The (corrected) mask of a PR block's register holds the block's mask. */
  lemma MaskCovered(chip: Chip, c: Candidate)
    requires c.bit.Mask? && Shaped(c) && c.bit.m in chip.masks && c.reg in chip.regs
    requires c.cond.RegAndFlag? ==> c.cond.f in chip.flags
    ensures chip.masks[c.bit.m] & !RegisterMask(chip, c.reg, false) == 0
  {
    var n := c.bit.m;
    match c.reg
    case PR_PRGEN => InGenMask(chip, n);
    case PR_PRPA | PR_PRPB =>
      PortListed(n);
      OrMaskHas(chip, PortNames, n);
    case PR_PRPC => InCMask(chip, n);
    case PR_PRPD | PR_PRPE | PR_PRPF =>
      var f := if c.cond.RegAndFlag? then c.cond.f else HaveSpiD;
      InPortDefMask(chip, c.reg, n, f);
  }

  /** The (corrected) mask of a block's register holds the block's bit. */
  lemma CandidateCovered(chip: Chip, c: Candidate)
    requires OnePrr0(chip) && Shaped(c) && Holds(chip, c) && BitDefined(chip, c.bit)
    ensures MaskOf(chip, c.bit) & !RegisterMask(chip, c.reg, false) == 0
  {
    if c.bit.Pos? {
      PosCovered(chip, c);
    } else {
      MaskCovered(chip, c);
    }
  }

  /** `power_all_enable` turns on everything the single macros turn on:
      whenever power.h defines `power_<p>_enable` as clearing a bit of a
      register, the (corrected) `power_all_enable` mask for that register
      holds the bit. The PGA and the USART1 blocks chosen by a feature
      macro alone are the exceptions (see `PgaNotInPowerAll` and
      `Usart1FlagSpellings`). */
  lemma PowerAllCoversMacros(chip: Chip, p: Periph)
    requires OnePrr0(chip) && p != Pga
    requires p == Usart1 ==> HaveUsart1Prr1 !in chip.flags && HaveUsart1Prr0 !in chip.flags
    requires Resolve(chip, p).Library? && BitDefined(chip, Resolve(chip, p).bit)
    ensures MaskOf(chip, Resolve(chip, p).bit) & !RegisterMask(chip, Resolve(chip, p).reg, false) == 0
  {
    ResolveIsCandidate(chip, p);
    var i :| 0 <= i < |Chain(p)| && Holds(chip, Chain(p)[i])
             && Resolve(chip, p) == Library(Chain(p)[i].reg, Chain(p)[i].bit);
    ChainShaped(p, i);
    CandidateCovered(chip, Chain(p)[i]);
  }

  /** The PRR0 mask of a device that defines no bit it lists is empty. */
  lemma Prr0MaskEmpty(chip: Chip)
    requires forall q :: q in chip.pos ==> q == PRPGA
    ensures Prr0Mask(chip) == 0
  {
    assert PRPGA !in Prr0Head && PRPGA !in Prr0Tail;
    OrPosNone(chip, Prr0Head);
    OrPosNone(chip, Prr0Tail);
  }

  /** The exceptions: a device with PRR0 whose only bit is PRPGA has the PGA
      macros, but `power_all_enable`'s PRR0 mask is empty. */
  lemma PgaNotInPowerAll(chip: Chip)
    requires PRR0 in chip.regs && chip.pos.Keys == {PRPGA} && Pga !in chip.overridden
    ensures Resolve(chip, Pga) == Library(PRR0, Pos(PRPGA))
    ensures RegisterMask(chip, PRR0, false) == 0
  {
    ResolveFirstMatch(chip, Pga, 0);
    Prr0MaskEmpty(chip);
  }

  /** The PRR1 mask of a device whose only bit is PRUSART1 is empty
      unless `__AVR_HAVE_PRR1_USART1` is defined. */
  lemma Prr1MaskEmpty(chip: Chip)
    requires forall q :: q in chip.pos ==> q == PRUSART1
    requires HavePrr1Usart1 !in chip.flags
    ensures Prr1Mask(chip) == 0
  {
    assert PRUSART1 !in Prr1Head && PRUSART1 !in Prr1Tail;
    OrPosNone(chip, Prr1Head);
    OrPosNone(chip, Prr1Tail);
  }

  /** `power_usart1_*` is selected by `__AVR_HAVE_USART1_PRR1`, the
      `power_all` mask by `__AVR_HAVE_PRR1_USART1`: a device defining only
      the first gets the macro but not the bit in the mask. */
  lemma Usart1FlagSpellings(chip: Chip)
    requires PRR1 in chip.regs && chip.pos.Keys == {PRUSART1} && Usart1 !in chip.overridden
    requires HaveUsart1Prr1 in chip.flags && HavePrr1Usart1 !in chip.flags
    ensures Resolve(chip, Usart1) == Library(PRR1, Pos(PRUSART1))
    ensures RegisterMask(chip, PRR1, false) == 0
  {
    ResolveFirstMatch(chip, Usart1, 0);
    Prr1MaskEmpty(chip);
  }

  /** `power_all_enable` as written: every module of the device powered
      on, with the PRPC mask applied to PR_PRPB. The source stores to
      PR_PRPB whenever PR_PRPC exists, which the precondition states. */
  method PowerAllEnable(m: Mcu, chip: Chip)
    requires chip.regs <= m.io.Keys
    requires PR_PRPC in chip.regs ==> PR_PRPB in chip.regs
    modifies m
    ensures m.io.Keys == old(m.io).Keys
    ensures forall r :: r in m.io ==> m.io[r] == ClearBits(old(m.io)[r], RegisterMask(chip, r, true))
    ensures m.ie == old(m.ie)
    ensures TargetsOnly(m.trace, old(m.trace), chip, true, m.ie)
  {
    RunPowerAll(m, chip, true, true);
  }

  /** `power_all_disable` as written: every module of the device powered
      off, with the PRPC mask applied to PR_PRPB. */
  method PowerAllDisable(m: Mcu, chip: Chip)
    requires chip.regs <= m.io.Keys
    requires PR_PRPC in chip.regs ==> PR_PRPB in chip.regs
    modifies m
    ensures m.io.Keys == old(m.io).Keys
    ensures forall r :: r in m.io ==> m.io[r] == SetBits(old(m.io)[r], RegisterMask(chip, r, true))
    ensures m.ie == old(m.ie)
    ensures TargetsOnly(m.trace, old(m.trace), chip, true, m.ie)
  {
    RunPowerAll(m, chip, false, true);
  }

  /** `power_all_enable` with the masks corrected: every module of the
      device powered on, each mask applied to its own register. */
  method PowerAllEnableCorrected(m: Mcu, chip: Chip)
    requires chip.regs <= m.io.Keys
    modifies m
    ensures m.io.Keys == old(m.io).Keys
    ensures forall r :: r in m.io ==> m.io[r] == ClearBits(old(m.io)[r], RegisterMask(chip, r, false))
    ensures m.ie == old(m.ie)
    ensures TargetsOnly(m.trace, old(m.trace), chip, false, m.ie)
  {
    RunPowerAll(m, chip, true, false);
  }

  /** `power_all_disable` with the masks corrected: every module of the
      device powered off, each mask applied to its own register. */
  method PowerAllDisableCorrected(m: Mcu, chip: Chip)
    requires chip.regs <= m.io.Keys
    modifies m
    ensures m.io.Keys == old(m.io).Keys
    ensures forall r :: r in m.io ==> m.io[r] == SetBits(old(m.io)[r], RegisterMask(chip, r, false))
    ensures m.ie == old(m.ie)
    ensures TargetsOnly(m.trace, old(m.trace), chip, false, m.ie)
  {
    RunPowerAll(m, chip, false, false);
  }
}
