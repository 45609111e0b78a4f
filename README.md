# avr-libc power, watchdog, clock prescale and sleep headers in Dafny

This project models the register-level macros and inline functions of
avr-libc that control AVR power management:

- `power.h`:
  - `power_<p>_enable()` clears one power reduction bit and turns module `p` on.
  - `power_<p>_disable()` sets that bit.
  - The `#if`/`#elif` blocks and `!defined` guards decide at build time which register and bit each macro uses.
  - `__power_all_enable(enable)` applies one union mask to every power reduction register. `power_all_enable` and `power_all_disable` are its two wrappers.
- `wdt.h`:
  - the control register, change bit and WDP3 mask it resolves;
  - the four `wdt_enable`/`wdt_disable` protocols: xmega CCP with a SYNCBUSY wait, two `sts` stores, CCP with one `out`, and two `out` stores;
  - the `WDTO_*` timeout codes.
- `power-clkpr-{1,2,3,4,6,7}.h`: `clock_prescale_set`/`clock_prescale_get` and their system and timer variants, built on the timed CLKPR or CCP unlock sequences and on the XDIV divider.
- `sleep-{1,3,7,8,11,13,14}.h`: the `SLEEP_MODE_*` constants and `set_sleep_mode`.

## Structure

- Module `Avr` holds the machine. Class `Mcu` has:
  - `io`, the 8-bit registers the chip has;
  - `ie`, SREG's I flag;
  - a ghost `trace` that records every register store with the I flag at that moment, and every `wdr`.
  Every method that changes the machine states the new register contents. It also states the exact sequence of stores, which fixes the order of stores and whether interrupts were disabled during a timed sequence. The exception is `__power_all_enable` and its wrappers, whose contracts state only that every store goes to a power reduction register of the device, made with the caller's I flag.
- Module `Bits` holds the clear, set and splice read-modify-writes.
- Module `Chains` holds first-match `#if/#elif/#else` selection.
- Modules `Power` and `PowerAll` model `power.h`:
  - A device is a `Chip` value: the registers, bit macros, masks and feature macros its header defines, and the `power_<p>_enable` macros it defines itself.
  - `Chain(p)` lists the blocks that can define each macro, in source order.
  - `Resolve` runs them the way the preprocessor does.
- Module `Watchdog` models `wdt.h`. Module `Prescale` holds the two timed sequences shared by the prescaler headers. There is one module per `power-clkpr-N.h` (`ClockPrescaleN`) and one per `sleep-N.h` (`SleepN`).

Bit positions such as SM0, CLKPS0 and WDE come from the device headers, so they are parameters. A round-trip lemma assumes the layout the header's comments describe, for example CLKPS3..0 in the low nibble.

## Model

| member | source | states |
|---|---|---|
| Bits.ClearBits | avr-libc/include/avr/power.h:1136-1139 | `r & ~mask` leaves the mask's bits clear and every other bit unchanged |
| Bits.SetBits | avr-libc/include/avr/power.h:1136-1139 | `r \| mask` leaves the mask's bits set and every other bit unchanged |
| Bits.Splice | avr-libc/include/avr/sleep-7.h:7 | `(r & ~field) \| v` gives `v` inside the field; outside it the old bits plus any stray bits of `v` |
| Bits.SpliceInField | avr-libc/include/avr/sleep-7.h:7 | when `v` lies inside the field, the splice changes only the field and the field reads back as `v` |
| Bits.SpliceIdempotent | avr-libc/include/avr/sleep-7.h:7 | applying the same `set_sleep_mode` twice equals applying it once |
| Bits.SpliceLastWins | avr-libc/include/avr/sleep-7.h:7 | of two in-field splices, the second one wins |
| Bits.ClearSetIdempotent | avr-libc/include/avr/power.h:1136-1139 | enabling twice equals enabling once; disabling twice equals disabling once |
| Bits.SetThenClear | avr-libc/include/avr/power.h:1136-1139 | disable then enable leaves the register as enable alone would, and the reverse holds too |
| Chains.FirstTrue | avr-libc/include/avr/wdt.h:108-114 | the chosen index is the first whose condition holds, or the end of the chain when none does |
| Chains.SelectFirstMatch | avr-libc/include/avr/wdt.h:108-114 | an `#if/#elif` chain yields the branch of the first true condition |
| Chains.SelectOtherwise | avr-libc/include/avr/wdt.h:108-114 | when no condition holds, the `#else` branch is chosen |
| Avr.Mcu.Out | avr-libc/include/avr/power-clkpr-7.h:22-23 | a store changes only its register and is appended to the trace with the current I flag |
| Avr.Mcu.In | avr-libc/include/avr/power-clkpr-3.h:53 | a load returns the register's contents |
| Avr.Mcu.Cli | avr-libc/include/avr/power-clkpr-7.h:21 | `cli` clears the I flag and nothing else |
| Avr.Mcu.Sei | avr-libc/include/avr/power-clkpr-3.h:58 | `sei` sets the I flag and nothing else |
| Avr.Mcu.RestoreSreg | avr-libc/include/avr/power-clkpr-7.h:24 | `out __SREG__,__tmp_reg__` puts back the saved I flag |
| Avr.Mcu.WatchdogReset | avr-libc/include/avr/wdt.h:99 | `wdr` appends a watchdog reset to the trace and changes no register |
| Power.WalkKeepsDefinition | avr-libc/include/avr/power.h:1136-1144 | under the `!defined` guard, a macro already defined is never redefined |
| Power.WalkFirstMatch | avr-libc/include/avr/power.h:1136-1144 | under the guard, the first block whose condition holds defines the macro; with none it stays undefined |
| Power.WalkOutcome | avr-libc/include/avr/power.h:699-702 | guarded or not, the macro ends up as before, or as defined by a block whose condition holds |
| Power.ResolveIsCandidate | avr-libc/include/avr/power.h:646-1405 | a macro power.h defines uses the register and bit of one of that peripheral's blocks, and that block's condition holds |
| Power.ResolveFirstMatch | avr-libc/include/avr/power.h:646-1405 | a device-header definition wins; otherwise the first applicable block wins; with no applicable block the macro is undefined |
| Power.RtcReplacesOverride | avr-libc/include/avr/power.h:699-702 | the unguarded RTC block replaces a device header's `power_rtc_*` whenever PR_PRGEN and PR_RTC_bm exist |
| Power.AesUsbPreferPrgen | avr-libc/include/avr/power.h:646-652 | AES and USB use PR.PRGEN when available, and PRR1 only when the PR.PRGEN block does not apply |
| Power.WalkPrr0ThenPrr | avr-libc/include/avr/power.h:1136-1244 | a PRR0 block followed by a PRR block for the same bit resolves to PRR0 when present, else to PRR |
| Power.Prr0BeforePrr | avr-libc/include/avr/power.h:1136-1244 | ADC, SPI, TWI, timers 0-2 and USART0 are bound to PRR0 when the device has it, and to PRR otherwise |
| Power.Apply | avr-libc/include/avr/power.h:1136-1139 | `REG &= ~mask` clears exactly the mask; `REG \|= mask` sets exactly the mask; other bits are kept |
| Power.Update | avr-libc/include/avr/power.h:1136-1139 | one read-modify-write store of a power reduction register, with that register's new value |
| Power.PowerEnable | avr-libc/include/avr/power.h:646-1405 | `power_<p>_enable()` clears the resolved bit in the resolved register; nothing else changes |
| Power.PowerDisable | avr-libc/include/avr/power.h:646-1405 | `power_<p>_disable()` sets the resolved bit in the resolved register; nothing else changes |
| Power.SingleBitEffect | avr-libc/include/avr/power.h:1136-1139 | a `1 << PRx` macro touches exactly bit x; enable and disable are idempotent; disable then enable clears the bit |
| PowerAll.OrMaskHas | avr-libc/include/avr/power.h:827-854 | an `#ifdef PR_x_bm \| PR_x_bm` term the device defines is in the union mask |
| PowerAll.OrPosHas | avr-libc/include/avr/power.h:954-1036 | an `#ifdef PRx \| (1<<PRx)` term the device defines is in the union mask |
| PowerAll.OrMaskNone | avr-libc/include/avr/power.h:856-864 | a union of masks the device defines none of is 0 |
| PowerAll.OrPosNone | avr-libc/include/avr/power.h:1102-1123 | a union of bit positions the device defines none of is 0 |
| PowerAll.XmegaRegisterMaskIs | avr-libc/include/avr/power.h:827-952 | the masks computed once and applied per PR register give each register its intended mask |
| PowerAll.PrrRegisterMaskIs | avr-libc/include/avr/power.h:954-1123 | the same for PRR0/PRR, PRR1 and PRR2 |
| PowerAll.ApplyTwice | avr-libc/include/avr/power.h:903-907 | two clears (or two sets) of one register equal one clear (or set) of the union |
| PowerAll.TargetsOnlySnoc | avr-libc/include/avr/power.h:822-1125 | each store of the sequence goes to a register of the device and keeps the caller's I flag |
| PowerAll.GenPortValueIs | avr-libc/include/avr/power.h:827-877 | after the PR.PRGEN, PRPA and PRPB stores, each register has had exactly its mask applied |
| PowerAll.CdefValueIs | avr-libc/include/avr/power.h:879-952 | after the `cmask`..`fmask` stores, each register has had exactly its mask applied |
| PowerAll.XmegaValueIs | avr-libc/include/avr/power.h:827-952 | after the xmega half, each PR register has had exactly its mask applied |
| PowerAll.XmegaMaskSplit | avr-libc/include/avr/power.h:827-952 | a register's xmega mask is the union of the masks the two store groups apply to it |
| PowerAll.PrrValueIs | avr-libc/include/avr/power.h:1038-1123 | after the classic half, each PRRn register has had exactly its mask applied; PRR only without PRR0 |
| PowerAll.Step | avr-libc/include/avr/power.h:849-852 | one `if (enable) REG &= ~mask; else REG \|= mask;` changes only that register, and only when the device has it |
| PowerAll.GenPortSteps | avr-libc/include/avr/power.h:827-877 | the first three stores as a method, ending in the state `GenPortValue` describes |
| PowerAll.CdefSteps | avr-libc/include/avr/power.h:879-952 | the port C..F stores as a method, ending in the state `CdefValue` describes |
| PowerAll.XmegaSteps | avr-libc/include/avr/power.h:827-952 | the xmega half as a method |
| PowerAll.PrrSteps | avr-libc/include/avr/power.h:954-1123 | the classic half as a method |
| PowerAll.RunPowerAll | avr-libc/include/avr/power.h:822-1125 | `__power_all_enable(enable)` clears (or sets) on every register the device has exactly that register's union mask; it stores to nothing else and keeps the I flag |
| PowerAll.MasksDisjointHalves | avr-libc/include/avr/power.h:822-1125 | no register receives a mask from both halves |
| PowerAll.PrpcSkippedAsWritten | avr-libc/include/avr/power.h:886-908 | as written, PR.PRPC is never stored to and its mask is 0 |
| PowerAll.TwicLeftOffAsWritten | avr-libc/include/avr/power.h:886-908 | as written, `power_twic_enable` uses PR.PRPC, but `power_all_enable` puts the TWI bit into PR.PRPB and never touches PR.PRPC |
| PowerAll.PrpcWritten | avr-libc/include/avr/power.h:886-908 | corrected, `cmask` goes to PR.PRPC and PR.PRPB keeps its port mask |
| PowerAll.RtcLeftOutAsWritten | avr-libc/include/avr/power.h:834-836 | as written, the RTC bit that `power_rtc_enable` clears is never in the PR.PRGEN mask |
| PowerAll.RtcInCorrectedMask | avr-libc/include/avr/power.h:834-836 | corrected, the PR.PRGEN mask holds the RTC bit and is otherwise the mask as written |
| PowerAll.Prr0Listed | avr-libc/include/avr/power.h:954-1036 | the listed PRR0 bits are the ones the PRR0 mask is built from |
| PowerAll.Prr1Listed | avr-libc/include/avr/power.h:1050-1100 | the listed PRR1 bits are the ones the PRR1 mask is built from |
| PowerAll.Prr2Listed | avr-libc/include/avr/power.h:1102-1123 | the listed PRR2 bits are the ones the PRR2 mask is built from |
| PowerAll.GenListed | avr-libc/include/avr/power.h:827-854 | the listed PR.PRGEN masks are the ones that mask is built from |
| PowerAll.PortListed | avr-libc/include/avr/power.h:856-864 | the listed port A/B masks are the ones that mask is built from |
| PowerAll.CListed | avr-libc/include/avr/power.h:879-902 | the listed `cmask` masks are the ones `cmask` is built from |
| PowerAll.ChainShaped | avr-libc/include/avr/power.h:646-1405 | every `power_<p>` block except PGA names a bit that the `power_all` mask for its register lists, or is a USART1 block selected by a feature macro |
| PowerAll.InPrr0Mask | avr-libc/include/avr/power.h:954-1036 | the PRR0 mask holds every bit it lists that the device defines, including PRUSART1 on devices without PRR0 |
| PowerAll.InPrr1Mask | avr-libc/include/avr/power.h:1050-1100 | the PRR1 mask holds every bit it lists that the device defines |
| PowerAll.InGenMask | avr-libc/include/avr/power.h:827-854 | the corrected PR.PRGEN mask holds every mask it lists |
| PowerAll.InCMask | avr-libc/include/avr/power.h:879-902 | `cmask` holds the base masks and TWI, USART1, SPI, HIRES, TC1 |
| PowerAll.InPortDefMask | avr-libc/include/avr/power.h:909-952 | `dmask`/`emask`/`fmask` hold the base masks and each mask whose feature macro the device defines |
| PowerAll.PosCovered | avr-libc/include/avr/power.h:954-1123 | the mask `power_all` applies to a classic block's register holds that block's bit |
| PowerAll.MaskCovered | avr-libc/include/avr/power.h:827-952 | the corrected mask `power_all` applies to an xmega block's register holds that block's mask |
| PowerAll.CandidateCovered | avr-libc/include/avr/power.h:646-1405 | for any block that applies, the corrected `power_all` mask of its register holds its bit |
| PowerAll.PowerAllCoversMacros | avr-libc/include/avr/power.h:1127-1129 | whatever bit `power_<p>_enable` clears, corrected `power_all_enable` clears it too |
| PowerAll.Prr0MaskEmpty | avr-libc/include/avr/power.h:954-1036 | a device whose only bit is PRPGA gets an empty PRR0 mask, since PRPGA is not listed |
| PowerAll.PgaNotInPowerAll | avr-libc/include/avr/power.h:1201-1204 | on such a device `power_pga_enable` uses PRR0, but `power_all_enable` leaves PRPGA alone |
| PowerAll.Prr1MaskEmpty | avr-libc/include/avr/power.h:1050-1100 | the PRR1 mask omits PRUSART1 unless `__AVR_HAVE_PRR1_USART1` is defined |
| PowerAll.Usart1FlagSpellings | avr-libc/include/avr/power.h:1186-1189 | `power_usart1_*` tests `__AVR_HAVE_USART1_PRR1` but the mask tests `__AVR_HAVE_PRR1_USART1`; with only the former, `power_all_enable` misses USART1 |
| PowerAll.PowerAllEnable | avr-libc/include/avr/power.h:1127-1129 | as written: `power_all_enable` clears every register's union mask as the source computes it (the PRPC mask on PR.PRPB, no RTC term), changes no other bit and stores only to power reduction registers |
| PowerAll.PowerAllEnableCorrected | avr-libc/include/avr/power.h:1127-1129 | corrected: `power_all_enable` clears every register's own union mask, changes no other bit and stores only to power reduction registers |
| PowerAll.PowerAllDisable | avr-libc/include/avr/power.h:1131-1133 | as written: `power_all_disable` sets every register's union mask as the source computes it, changes no other bit and stores only to power reduction registers |
| PowerAll.PowerAllDisableCorrected | avr-libc/include/avr/power.h:1131-1133 | corrected: `power_all_disable` sets every register's own union mask, changes no other bit and stores only to power reduction registers |
| Prescale.UnlockedWrite | avr-libc/include/avr/power-clkpr-7.h:16-31 | the unlock store is followed immediately by the value store; both happen with interrupts disabled, and the I flag is restored |
| Prescale.ReadModifyWrite | avr-libc/include/avr/power-clkpr-3.h:47-67 | the register is read before the CLKPCE store; the second store is the old contents with the field replaced; the transient `sei` is undone by the SREG restore |
| Watchdog.ProtocolOf | avr-libc/include/avr/wdt.h:135-302 | the protocol the first-match chain selects is 1STS, else 2STS, else OUT1, else plain `out`, each exactly when its condition holds |
| Watchdog.ControlReg | avr-libc/include/avr/wdt.h:108-114 | `_WD_CONTROL_REG`, selected by the first-match chain, is WDTCSR, else WDTCR, else WDT, each exactly when its condition holds |
| Watchdog.ChangeBit | avr-libc/include/avr/wdt.h:116-120 | `_WD_CHANGE_BIT` is WDTOE when defined, else WDCE |
| Watchdog.Ps3Mask | avr-libc/include/avr/wdt.h:102-106 | `_WD_PS3_MASK` is `_BV(WDP3)`, or 0 exactly when WDP3 is absent |
| Watchdog.TimeoutCodes | avr-libc/include/avr/wdt.h:327-405 | each defined `WDTO_*` decodes to itself; the defined codes are exactly 0-7, plus 8 and 9 with WDP3 |
| Watchdog.EnableSelectsTimeout | avr-libc/include/avr/wdt.h:192-206 | on the classic layout the stored value sets WDE and selects exactly the requested timeout; the OUT1 value equals it for every `WDTO_*` |
| Watchdog.TimedEnable | avr-libc/include/avr/wdt.h:267-281 | `wdr`, then the change-enable store with interrupts off, then after SREG restore the timeout value store |
| Watchdog.TimedDisable | avr-libc/include/avr/wdt.h:289-300 | the change-enable store and then 0, both with interrupts off; the control register ends at 0 |
| Watchdog.CcpEnable | avr-libc/include/avr/wdt.h:224-239 | `wdr`, 0xD8 to CCP, then the value to the control register, all with interrupts off |
| Watchdog.CcpDisable | avr-libc/include/avr/wdt.h:241-261 | after `wdr` and 0xD8, the control register is stored back with only WDE cleared |
| Watchdog.WaitBitClear | avr-libc/include/avr/wdt.h:155-157 | the `lds/sbrc/rjmp` spin stops at the first status sample whose tested bit is clear |
| Watchdog.XmegaEnableAsWritten | avr-libc/include/avr/wdt.h:149-169 | as written: CCP signature, `CEN\|ENABLE\|timeout` to WDT.CTRL, then `wdr` once the spin reaches the first WDT.STATUS sample with bit 1 clear |
| Watchdog.SyncBusyWaitSkipped | avr-libc/include/avr/wdt.h:156-165 | for every WDT.STATUS history, a first sample with bit 1 clear ends the spin as written at once whatever SYNCBUSY holds, while the corrected spin goes past a first sample with SYNCBUSY set |
| Watchdog.XmegaEnable | avr-libc/include/avr/wdt.h:149-169 | corrected: `wdr` runs only after a sample shows SYNCBUSY clear, and every earlier sample showed it set |
| Watchdog.WdtEnable | avr-libc/include/avr/wdt.h:135-302 | `wdt_enable(value)` runs the protocol the chain selects: the xmega stores and SYNCBUSY wait, the CCP store of the whole value, or the two timed stores; each with its new register state and store sequence |
| Watchdog.WdtDisable | avr-libc/include/avr/wdt.h:135-302 | `wdt_disable()` runs the protocol the chain selects: xmega ENABLE cleared with CEN set, CCP with only WDE cleared, or the two timed stores ending at 0; each with its new register state and store sequence |
| Watchdog.XmegaDisableAsWritten | avr-libc/include/avr/wdt.h:171-186 | as written: WDT.CTRL receives `temp \| CEN`, where `temp` is uninitialised |
| Watchdog.DisableKeepsEnable | avr-libc/include/avr/wdt.h:183-185 | for every `temp`, the value `wdt_disable` as written stores has ENABLE set exactly when `temp` has it |
| Watchdog.DisableValueClearsEnable | avr-libc/include/avr/wdt.h:178-184 | the intended value clears ENABLE, sets CEN and keeps every other bit |
| Watchdog.XmegaDisable | avr-libc/include/avr/wdt.h:171-186 | corrected: WDT.CTRL is read after the CCP signature and stored with ENABLE cleared and CEN set |
| Sleep1.SetSleepMode | avr-libc/include/avr/sleep-1.h:5-9 | MCUCR then EMCUCR are each rewritten once, with the values `McucrEffect`/`EmcucrEffect` characterise |
| Sleep1.McucrEffect | avr-libc/include/avr/sleep-1.h:1-7 | SM1 ends set exactly for power-down and power-save; other MCUCR bits are kept; the last call wins |
| Sleep1.EmcucrEffect | avr-libc/include/avr/sleep-1.h:1-8 | SM0 ends set exactly for power-save; other EMCUCR bits are kept; the last call wins |
| Sleep3.ModeValue | avr-libc/include/avr/sleep-3.h:1-2 | each constant lies inside the SM bit |
| Sleep3.SetSleepMode | avr-libc/include/avr/sleep-3.h:4-7 | one store of `(reg & ~_BV(SM)) \| mode` |
| Sleep3.SetSleepModeEffect | avr-libc/include/avr/sleep-3.h:1-7 | after setting a constant the register selects that mode, other bits are kept, and a later call overrides it |
| Sleep7.ModeValue | avr-libc/include/avr/sleep-7.h:1-3 | each constant lies inside SM1:SM0 |
| Sleep7.ModesDistinct | avr-libc/include/avr/sleep-7.h:1-3 | each constant reads back as its own mode, and a register selects a mode exactly when its field equals that constant |
| Sleep7.SetSleepMode | avr-libc/include/avr/sleep-7.h:5-8 | one store of the spliced value |
| Sleep7.SetSleepModeEffect | avr-libc/include/avr/sleep-7.h:1-8 | after setting a constant the register selects that mode, other bits are kept, and a later call overrides it |
| Sleep8.ModeValue | avr-libc/include/avr/sleep-8.h:1-4 | each constant lies inside SM1:SM0 |
| Sleep8.ModesCoverField | avr-libc/include/avr/sleep-8.h:1-4 | the four constants are distinct and cover every value of the field |
| Sleep8.SetSleepMode | avr-libc/include/avr/sleep-8.h:6-9 | one store of the spliced value |
| Sleep8.SetSleepModeEffect | avr-libc/include/avr/sleep-8.h:1-9 | after setting a constant the register selects that mode, other bits are kept, and a later call overrides it |
| Sleep11.ModeValue | avr-libc/include/avr/sleep-11.h:1-5 | each constant lies inside SMODE2:SMODE0 |
| Sleep11.ValueReadsBack | avr-libc/include/avr/sleep-11.h:1-5 | each of the five constants reads back as its own mode |
| Sleep11.ModesDistinct | avr-libc/include/avr/sleep-11.h:1-5 | a register selects a mode exactly when its field equals that constant |
| Sleep11.SetSleepMode | avr-libc/include/avr/sleep-11.h:7-10 | one store of the spliced value |
| Sleep11.SetSleepModeEffect | avr-libc/include/avr/sleep-11.h:1-10 | after setting a constant the register selects that mode, other bits are kept, and a later call overrides it |
| Sleep11.UncheckedModeSticks | avr-libc/include/avr/sleep-11.h:9 | an unvalidated mode with a bit outside the field sets that bit, and later calls never clear it |
| Sleep13.ModeValue | avr-libc/include/avr/sleep-13.h:1-3 | each constant lies inside SM2:SM0 and leaves SM2 clear |
| Sleep13.ModesDistinct | avr-libc/include/avr/sleep-13.h:1-3 | each constant reads back as its own mode, and a register selects a mode exactly when its field equals that constant |
| Sleep13.SetSleepMode | avr-libc/include/avr/sleep-13.h:5-8 | one store of the spliced value |
| Sleep13.SetSleepModeEffect | avr-libc/include/avr/sleep-13.h:1-8 | after setting a constant the register selects that mode, other bits are kept, and a later call overrides it |
| Sleep14.ModeValue | avr-libc/include/avr/sleep-14.h:1-4 | each constant lies inside SM2:SM0 and leaves SM2 clear |
| Sleep14.ModesDistinct | avr-libc/include/avr/sleep-14.h:1-4 | each constant reads back as its own mode, and a register selects a mode exactly when its field equals that constant |
| Sleep14.SetSleepMode | avr-libc/include/avr/sleep-14.h:6-9 | one store of the spliced value |
| Sleep14.SetSleepModeEffect | avr-libc/include/avr/sleep-14.h:1-9 | after setting a constant the register selects that mode, other bits are kept, and a later call overrides it |
| ClockPrescale1.PrescaleGet | avr-libc/include/avr/power-clkpr-1.h:110 | the result has no bits outside CLKPS3..0 |
| ClockPrescale1.PrescaleSet | avr-libc/include/avr/power-clkpr-1.h:85-99 | `_BV(CLKPCE)` then `x`, unmasked, stored to CLKPR with interrupts off |
| ClockPrescale1.SetGetRoundTrip | avr-libc/include/avr/power-clkpr-1.h:54-110 | get after set returns `x` exactly when `x` has no high nibble; so every `clock_div_t`, `clock_div_1_rc` included, reads back |
| ClockPrescale2.PrescaleGet | avr-libc/include/avr/power-clkpr-2.h:27 | the result has no bits outside CLKPS1..0 |
| ClockPrescale2.PrescaleSet | avr-libc/include/avr/power-clkpr-2.h:11-25 | `_BV(CLKPCE)` then `x` stored to CLKPR with interrupts off |
| ClockPrescale2.SetGetRoundTrip | avr-libc/include/avr/power-clkpr-2.h:1-27 | get after set returns `x` exactly when `x` is a `clock_div_t` value (0-3) |
| ClockPrescale3.SystemPrescaleGet | avr-libc/include/avr/power-clkpr-3.h:31 | the result has no bits outside CLKPS2..0 |
| ClockPrescale3.TimerPrescaleGet | avr-libc/include/avr/power-clkpr-3.h:69 | the result has no bits outside CLTPS2..0 |
| ClockPrescale3.TimerValue | avr-libc/include/avr/power-clkpr-3.h:65 | `(x & 7) << 3` lies in bits 5..3 and holds the low three bits of `x` |
| ClockPrescale3.SystemPrescaleSet | avr-libc/include/avr/power-clkpr-3.h:15-29 | `_BV(CLKPCE)` then `x` stored whole to CLKPR with interrupts off |
| ClockPrescale3.TimerPrescaleSet | avr-libc/include/avr/power-clkpr-3.h:47-67 | CLKPR is read, CLKPCE stored, then the old value with CLTPS replaced by `(x & 7) << 3` |
| ClockPrescale3.SystemSetEffect | avr-libc/include/avr/power-clkpr-3.h:1-31 | a system set with a `clock_div_t` reads back as itself and clears the timer prescaler |
| ClockPrescale3.TimerSetEffect | avr-libc/include/avr/power-clkpr-3.h:33-69 | a timer set changes only CLTPS, truncates its argument to three bits and is idempotent; the getter as written returns the setting still shifted left by three, so it equals a `timer_clock_div_t` argument only for `timer_clock_div_reset` |
| ClockPrescale3.TimerPrescaleSetting | avr-libc/include/avr/power-clkpr-3.h:69 | corrected getter: on the CLTPS2..0-in-bits-5..3 layout the result is a `timer_clock_div_t` value (at most 7) and placing it back in the field gives the as-written masked CLKPR |
| ClockPrescale3.TimerSettingRoundTrip | avr-libc/include/avr/power-clkpr-3.h:33-69 | the corrected getter reads back every `timer_clock_div_t` value set, always returns one, and setting what it returns leaves CLKPR unchanged |
| ClockPrescale4.SystemPrescaleGet | avr-libc/include/avr/power-clkpr-4.h:37 | the result has no bits outside CLKPS2..0 |
| ClockPrescale4.SystemPrescaleSet | avr-libc/include/avr/power-clkpr-4.h:15-35 | CLKPR is read, CLPCE stored, then the old value with CLKPS replaced by `x & 7` |
| ClockPrescale4.TimerPrescaleSet | avr-libc/include/avr/power-clkpr-4.h:53-73 | CLKPR is read, CLPCE stored, then the old value with CLTPS replaced by `(x & 7) << 3` |
| ClockPrescale4.SystemSetEffect | avr-libc/include/avr/power-clkpr-4.h:1-37 | a system set changes only CLKPS, keeps the timer prescaler, and reads back as `x & 7` |
| ClockPrescale6.XdivEncoding | avr-libc/include/avr/power-clkpr-6.h:47-52 | factor 1 leaves XDIV at 0; any other accepted factor sets XDIVEN with `129 - x` in bits 6..0 |
| ClockPrescale6.XdivWrites | avr-libc/include/avr/power-clkpr-6.h:38-52 | XDIV is cleared first; for factor 1 nothing more is stored; otherwise the encoded value is stored last |
| ClockPrescale6.PrescaleSet | avr-libc/include/avr/power-clkpr-6.h:16-68 | an argument outside 1..129 returns without any store; otherwise XDIV ends at the encoded value, with interrupts off during the stores |
| ClockPrescale6.PrescaleGet | avr-libc/include/avr/power-clkpr-6.h:72-82 | the result is always in 1..129, and is 1 when XDIVEN is clear |
| ClockPrescale6.SetGetRoundTrip | avr-libc/include/avr/power-clkpr-6.h:16-82 | every accepted factor reads back as itself |
| ClockPrescale6.GetSetRoundTrip | avr-libc/include/avr/power-clkpr-6.h:16-82 | setting the factor just read restores XDIV exactly when XDIV is 0 or has XDIVEN set |
| ClockPrescale7.PrescaleGet | avr-libc/include/avr/power-clkpr-7.h:33 | the result has no bits outside CLKPS3..0 |
| ClockPrescale7.PrescaleSet | avr-libc/include/avr/power-clkpr-7.h:16-31 | 0xD8 to CCP, then `x` to CLKPSR, with interrupts off |
| ClockPrescale7.SetGetRoundTrip | avr-libc/include/avr/power-clkpr-7.h:1-33 | every `clock_div_t` value reads back as itself |

## Left out

- Register addressing (`in`/`out` versus `lds`/`sts`, `_SFR_IO_ADDR`, `_SFR_MEM_ADDR`) is reduced to "read or write register R". Cycle timing is not modelled. That covers the four-cycle change window, the `nop` waits of power-clkpr-6.h, and the gap between the SYNCBUSY samples. What the model keeps is the order of stores and whether interrupts were disabled during each one.
- Interrupt handlers running between instructions are not modelled. The trace records the I flag at each store instead.
- The device headers and io.h are not part of this model. Register presence, bit positions, masks and feature macros are the `Chip`/`WdtChip` values or method parameters. The choice of sleep-N.h or power-clkpr-N.h is made by including the matching module.
- A `power_<p>_enable` defined by a device header is modelled only as "defined elsewhere" (`DeviceHeader`). Its body is not part of this model. The `#ifndef power_all_enable` overrides at power.h:1127-1133 are left out for the same reason.
- Lines that would not preprocess as written are modelled by their evident intent:
  - the missing `#endif` after the EBI term (power.h:833) and after the PRSPI term (power.h:981);
  - the stray `#endif` and `!define` of the LCD block (power.h:815-816);
  - the unclosed `defined (` at power.h:1285 and wdt.h:222;
  - the VRM block that has no `#if` (power.h:1311-1314);
  - the missing `} while(0)` of the xmega `wdt_disable` (wdt.h:186).
- `ModeOf`, `PrescalerOf` and `TimeoutOf` are decoders written for the proofs. The hardware meaning of a sleep mode, a prescaler setting or a watchdog timeout is not modelled.
- Watchdog.WaitBitClear and Watchdog.XmegaEnableAsWritten require that the tested status bit is eventually clear. The model takes the hardware's end of synchronisation as given and does not model a spin that never ends.
- PowerAll.PowerAllCoversMacros does not cover the PGA block, because PRPGA is not in the PRR0 mask (PowerAll.PgaNotInPowerAll). It does not cover USART1 when that is selected through `__AVR_HAVE_USART1_PRR1/PRR0` (PowerAll.Usart1FlagSpellings). It also assumes a device never defines both PRR0 and PRR. It is stated for the corrected masks of the two findings below.
- PowerAll.RunPowerAll, PowerAll.PowerAllEnable and PowerAll.PowerAllDisable require that a device with PR.PRPC also has PR.PRPB when the as-written store is modelled, since that store goes to PR_PRPB.
- PowerAll.PowerAllEnable and PowerAll.PowerAllDisable model a call of `__power_all_enable(true)` and `__power_all_enable(false)`. As written, `power_all_enable` and `power_all_disable` are object-like macros (power.h:1128 and 1132), so the documented call `power_all_enable()` (power.h:624) expands to `__power_all_enable (true)()` and does not compile. The evident intent is a function-like macro, `#define power_all_enable() __power_all_enable(true)`. Preprocessor token expansion is not modelled, so this has no as-written member.
- Watchdog.WdtEnable and Watchdog.WdtDisable dispatch to the corrected xmega sequences. The as-written ones are Watchdog.XmegaEnableAsWritten and Watchdog.XmegaDisableAsWritten (see Findings). The `sts` and `out` variants of the two-store protocol store the same values, so both use Watchdog.TimedEnable and Watchdog.TimedDisable.
- Sleep1.SetSleepMode takes the mode as an integer and compares it with the constants, as the macro does. The other `SetSleepMode` methods take any byte, since no mode is validated (Sleep11.UncheckedModeSticks).
- `timer_clock_prescale_get()` of power-clkpr-4.h:75 is the same macro as power-clkpr-3.h:69 and is modelled once, by ClockPrescale3.TimerPrescaleGet. ClockPrescale4.TimerPrescaleSet likewise reuses the power-clkpr-3.h sequence.
- The enum return types of the `*_get` macros are plain bytes, and the `clock_div_t` argument of power-clkpr-6.h is an integer.

## Findings

| source | as written | input that shows it | evidently intended | confidence | as-written member | corrected member |
|---|---|---|---|---|---|---|
| avr-libc/include/avr/wdt.h:156-165 | `sbrc` is given `WDT_SYNCBUSY_bm` (the mask 0x01) where it expects a bit number, so the spin tests bit 1 of WDT.STATUS | WDT.STATUS = 0x01 (SYNCBUSY set, bit 1 clear): the loop ends at once and `wdr` runs while synchronisation is busy | spin on `WDT_SYNCBUSY_bp` | not executed | Watchdog.XmegaEnableAsWritten, Watchdog.SyncBusyWaitSkipped | Watchdog.XmegaEnable |
| avr-libc/include/avr/wdt.h:171-186 | the stored value is `temp \| WDT_CEN_bm`, computed from the uninitialised `temp` before the assembly's load and `andi` | `temp` = 0x02 (ENABLE): the store keeps the watchdog enabled | store the loaded WDT.CTRL with ENABLE cleared and CEN set | not executed | Watchdog.XmegaDisableAsWritten, Watchdog.DisableKeepsEnable | Watchdog.XmegaDisable, Watchdog.DisableValueClearsEnable |
| avr-libc/include/avr/power.h:886-908 | `cmask` is applied to `PR_PRPB` inside `#ifdef PR_PRPC`, so PR.PRPC is never written | a device with PR_PRPB, PR_PRPC and PR_TWI_bm: `power_all_enable` leaves TWIC off and clears the TWI bit of port B | apply `cmask` to `PR_PRPC` | not executed | PowerAll.PrpcSkippedAsWritten, PowerAll.TwicLeftOffAsWritten, PowerAll.PowerAllEnable | PowerAll.PrpcWritten, PowerAll.PowerAllEnableCorrected |
| avr-libc/include/avr/power.h:834-836 | the RTC term is under `#ifdef PR_RC_bm`, a macro no device defines | a device with PR_PRGEN and PR_RTC_bm only: the PR.PRGEN mask is 0, but `power_rtc_enable` clears PR_RTC_bm | `#ifdef PR_RTC_bm` | not executed | PowerAll.RtcLeftOutAsWritten, PowerAll.PowerAllDisable | PowerAll.RtcInCorrectedMask, PowerAll.PowerAllDisableCorrected |
| avr-libc/include/avr/power-clkpr-3.h:69 | `timer_clock_prescale_get()` returns CLKPR masked to CLTPS2..0 without shifting it down; power-clkpr-4.h:75 is the same | after `timer_clock_prescale_set(timer_clock_div_1)` with CLTPS in bits 5..3 the getter returns 8 | return `(CLKPR & mask) >> CLTPS0`, a `timer_clock_div_t` value | not executed | ClockPrescale3.TimerSetEffect | ClockPrescale3.TimerPrescaleSetting, ClockPrescale3.TimerSettingRoundTrip |
