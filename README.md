# Pump-drive firmware (wilo.c) in Dafny

This project models the integer control logic of a single-file firmware for
an H8/300H microcontroller that drives a three-phase pump motor through a
space-vector PWM inverter and regulates the water pressure measured by a
pulse-output transducer. The firmware's globals become the fields of one
class, `Firmware.Drive`. Every interrupt handler becomes one atomic method,
and every hardware register that the firmware reads becomes a parameter.
Pure arithmetic lives in small modules beside the class:

- `Word`: the 16/32-bit machine words. On the target `int` is 16 bits, so
  tick differences wrap modulo 2^16.
- `Svpwm`: the three 256-entry phase tables, the frequency ramp, the
  volts-per-hertz ratio and the compare value of the Timer Z0 interrupt.
- `Pressure`: the 32-bit capture timestamp, the period window and the
  three-slot median of `newPressure`.
- `Regulation`: the proportional law of `regVfd` and its clamps, the
  external switch of `extSw`, and the start/stop gate of the main loop,
  including its behaviour over a sequence of passes.
- `Faults`: the per-bit debounce and latch rules of `checkFaults`. It also
  proves, over a trace of calls, that a fault cannot clear inside its quiet
  window.
- `Averager`: the 64-sample averager of `adcProc`.
- `Keys`: the key codes, the auto-repeat delay and the menu-level
  transition.
- `NumField`: `writeNum` as array loops, the field it is specified by, and
  the read-back of a field.
- `MenuLine`: the layout of the menu line written by `writeMenuLine`.
- `Display`: the fault-code hex digits, the page table, the fault-page
  skip loops of `menuProc` and the page fix-up of `dispProc`.
- `Params`: the `paramDef` table, the EEPROM image and the
  accept-or-repair decision of `loadEeprom`.

The target's 16-bit arithmetic is written out where it matters:
- `t4ms - tX` is a 16-bit unsigned difference (`Word.Elapsed`).
- `((pOff - pAct) >> 2) + baseFreq` is computed in 16 bits.
- `tmp < minFreq` and `tmp > maxFreq` compare an `int16_t` with a
  `uint16_t`, so they are unsigned comparisons. A negative request is
  therefore zeroed, not raised to `minFreq`
  (`Regulation.NegativeRequestIsZeroed`).

The fault-page skip test of `menuProc`, `!((fault | scFault) >> k) & 1`,
parses as `(!(mask >> k)) & 1`. It is modelled as written
(`Display.ShownAsWritten`), and `Display.ShownAsWrittenCounterexample`
shows a page it lets through although that page's own fault is absent.

## Model

| member | source | states |
|---|---|---|
| Word.Elapsed | wilo.c:602 | the difference of two 16-bit tick counters is `now - since`, plus 2^16 when the counter wrapped |
| Word.ElapsedAfter | wilo.c:703-728 | a counter `d` ticks past a stamp reads back exactly `d` ticks, for less than one wrap |
| Word.ToInt16 | wilo.c:607 | the two's-complement reading of a 16-bit pattern is non-negative exactly below 0x8000 and wraps back to the pattern |
| Svpwm.CompareValue | wilo.c:1199-1212 | `table*ratio` cannot overflow 16 bits; the value written to GRB/GRC/GRD lies in 3..1996, inside the 2000-count carrier; its side of mid-scale follows the amplitude's sign |
| Svpwm.ProductBounds | wilo.c:1199-1212 | a table entry times a ratio lies within ±127·251 and has the entry's sign |
| Svpwm.RampStep | wilo.c:1186-1191 | `freq` moves by at most one unit, toward `reqFreq` and never past it, and stays only when equal |
| Svpwm.RampConverges | wilo.c:1186-1191 | with the request held, `n` ramp steps move `freq` by exactly `min(n, distance)` toward it |
| Svpwm.PwmRatio | wilo.c:1195-1196 | the modulation ratio stays in 0..251 |
| Svpwm.PwmRatioVoltsPerHertz | wilo.c:1195-1196 | without 16-bit overflow the ratio is `freq*freqToPwm/64` saturated at 251, and never falls as the frequency rises |
| Svpwm.PhaseIndex | wilo.c:1194 | the table index stays in 0..255 and is the accumulator's upper bits |
| Svpwm.AdvancePhase | wilo.c:1192-1193 | the phase accumulator moves by `+freq` or `-freq` modulo 2^16, by rotation direction |
| Svpwm.TablesCarryCommonMode | wilo.c:43-98 | a worked example on the table constants: the three entries at step 0 sum to 5, not 0, so a common-mode term is injected into all phases |
| Pressure.CaptureTime | wilo.c:678-679 | the timestamp is `pLowWord + 2^16*(pHighWord + [pOvf and bit 15 clear])` mod 2^32, and splits back into the low word and the corrected high word |
| Pressure.Period | wilo.c:680 | the period is the 32-bit unsigned difference of two captures |
| Pressure.RawPeriod | wilo.c:683-684 | an accepted period stored as `delta >> 6` lies in 367..1718 and is the period rounded down to 64 counts |
| Pressure.Median3 | wilo.c:687-697 | the filter returns one of the three slots with at least two slots on each side of it |
| Pressure.Median3IsMiddle | wilo.c:687-697 | the filter equals an independent middle-of-three definition and is invariant under rotating or swapping the slots |
| Pressure.Median3SlotChoice | wilo.c:687-697 | ties go to slot 0, then to slot 1 |
| Pressure.Median3Bounded | wilo.c:687-697 | the median of values within bounds is within them, so `pAct` stays a raw period |
| Regulation.ProportionalRequest | wilo.c:607 | without overflow the request is a quarter of the pressure error, rounded down, above `baseFreq`, and falls as the pressure rises |
| Regulation.ClampRequest | wilo.c:612-615 | the stored request never exceeds `maxFreq`; an in-window value passes; a regulating non-negative value is raised to `minFreq`; a stopped zero stays zero |
| Regulation.NegativeRequestIsZeroed | wilo.c:612-613 | because `tmp < minFreq` is unsigned, a negative request while regulating becomes 0, not `minFreq` |
| Regulation.HighPressureDropsToZero | wilo.c:607-614 | while regulating, and with `minFreq` above 0, the request is 0 exactly when the reading exceeds `pOff` by more than four times `baseFreq`; otherwise it is at least `minFreq`. So a high pressure drops the request to zero rather than to the minimum frequency |
| Regulation.StartStopHysteresis | wilo.c:1098-1099 | start and stop never both apply; a request or an output frequency above `stopFreq` never stops the bridge; a request at or below it never starts it |
| Regulation.RunsWhileEitherHigh | wilo.c:1098-1099 | over any sequence of gate passes, a running bridge keeps running while at each pass the request or the output frequency is above `stopFreq` |
| Regulation.StaysStoppedWhileRequestLow | wilo.c:1098-1099 | over any sequence of gate passes, a stopped bridge stays stopped while at each pass the request is at or below `stopFreq`, whatever the output frequency |
| Regulation.ExtSw | wilo.c:667-673 | configuration 0 ignores the switch; configurations 1 and 2 report it on exactly when the pin is at the configured active level |
| Regulation.ExtSwPolarity | wilo.c:667-673 | only configurations 1 and 2 depend on the pin, and they read it with opposite polarity |
| Faults.DebouncedBit | wilo.c:703-733 | a debounced bit is set whenever its condition holds, stays clear otherwise, and clears only when set, quiet and its stamp is over 1000 ticks old |
| Faults.SetOne | wilo.c:704-735 | `fault \|= bit` sets that bit and keeps every other bit |
| Faults.ClearOne | wilo.c:707-730 | `fault &= ~bit` clears that bit and keeps every other bit |
| Faults.DebounceStep | wilo.c:703-733 | one debounced bit of the mask follows `DebouncedBit`, and no other bit changes |
| Faults.LatchStep | wilo.c:734-737 | a latched bit is set by its condition and never cleared, and no other bit changes |
| Faults.CheckMask | wilo.c:702-739 | the new mask: the pressure, UV, OV and temperature bits debounce; OC and XTAL latch; the short-circuit bit and the upper bits are untouched |
| Faults.ElapsedOfWrapped | wilo.c:707-728 | the wrapped tick difference is the true difference within one wrap |
| Faults.ClearOnlyAfterWindow | wilo.c:703-733 | over any trace of calls, a bit set with a stamp at or after `t0` is cleared only at a call at least 1001 ticks after `t0` |
| Faults.FaultHoldsQuietWindow | wilo.c:703-733 | a condition true at tick T keeps its bit set until T+1001 at the earliest |
| Averager.Sample | wilo.c:626-646 | a left-aligned data register yields a 10-bit sample |
| Averager.SumBound | wilo.c:626-646 | a sum of 10-bit samples is at most 1023 per sample, so 64 never overflow the 16-bit accumulator |
| Averager.MeanOfWindow | wilo.c:627-649 | the published `adcVal >> 6` of a full window is the floor of its samples' mean and is 10 bits wide |
| Averager.NextChannel | wilo.c:630-653 | the next channel is always AN3, AN4 or AN6 |
| Averager.ChannelCycle | wilo.c:630-653 | starting from AN3, AN4 or AN6, the channel stays among them, and it is back at the start after `n` windows exactly when `n` is a multiple of three |
| Averager.ChannelAfterThree | wilo.c:630-653 | three more windows return the channel to where it was |
| Keys.MenuAfter | wilo.c:877-936 | the menu level stays in 0..2. MENU backs out one level, or enters browsing from the status view. ENTER swaps browsing and editing. No other key changes the level |
| Keys.MenuKeysUndo | wilo.c:877-936 | ENTER twice inside the menu, or MENU twice outside editing, returns to the starting level |
| NumField.Field | wilo.c:308-330 | the rendered field is exactly `nI + (nF ? nF+1 : 0)` characters wide |
| NumField.FieldReadsBack | wilo.c:308-330 | a number below `10^(nI+nF)` reads back from its field unchanged |
| NumField.PrefixValue | wilo.c:308-330 | each prefix of a field that fits reads back as the number with the remaining places dropped |
| NumField.FieldLayout | wilo.c:308-330 | a field that fits has '.' exactly at position `nI` when `nF > 0`, the units digit always a digit, only digits after the point, and leading zeros as spaces |
| NumField.FieldOverflow | wilo.c:326-329 | a number that does not fit shows as all '?' |
| NumField.WriteFraction | wilo.c:315-320 | the fraction loop writes the fraction digits and the point and returns `num / 10^nF` |
| NumField.WriteDigits | wilo.c:315-325 | the digit loops leave the raw field and return `num / 10^(nI+nF)`, writing nothing outside the field |
| NumField.WriteNum | wilo.c:308-330 | `writeNum` writes exactly the specified field at `out[off..off+t]` and nothing else, and writes nothing when `nI == 0` |
| MenuLine.LayOutItem | wilo.c:860-874 | the default and the edited value fill the six places before each copy of the unit; positions 0, 7..9 and 16.. are untouched |
| MenuLine.WriteFields | wilo.c:872-873 | the default lands at position 1 and the edited value at 10, each in its field, and nothing else changes |
| MenuLine.CopyUnit | wilo.c:866-869 | the unit ends at positions 6 and 15, and nothing else changes |
| Display.FaultPagesAreTheRange | wilo.c:234-272 | the fault pages of `pageDef` are exactly pages 2..8 |
| Display.HexRoundTrip | wilo.c:779-782 | a nibble's digit is an upper-case hexadecimal digit and reads back as the nibble |
| Display.HexValueInjective | wilo.c:779-782 | two hexadecimal digits that read back alike are the same digit |
| Display.FaultCode | wilo.c:777-786 | the code is "OK" exactly when no fault is set. Otherwise it is two upper-case hexadecimal digits that read back as the mask's low byte, and so are determined by it |
| Display.ShownAsWrittenWeaker | wilo.c:892-893 | a page whose own fault is set passes the as-written skip test |
| Display.ShownAsWrittenCounterexample | wilo.c:892-893 | with only the UV fault set, page 2 passes the as-written test although its own fault is absent |
| Display.ShownAsWrittenMonotone | wilo.c:892-913 | once the as-written test fails at a page it fails at every later fault page |
| Display.FirstFaultPage | wilo.c:793-795 | the fallback page is the first fault page whose fault is set, or page 0 exactly when none is |
| Display.SkipDown | wilo.c:911-914 | the down skip ends on a fault page passing the test, or past the fault pages, having skipped only failing pages |
| Display.SkipDownStaysOrLeaves | wilo.c:911-914 | KEY_DOWN onto a fault page stays there or jumps past all fault pages to page 9 |
| Display.SkipUp | wilo.c:891-894 | the up skip ends on a fault page passing the test, or on page 1, having skipped only failing pages |
| Display.SkipUpBelowHighest | wilo.c:891-894 | KEY_UP lands at or above a fault page exactly when that page passes the as-written test |
| Display.FixedPageShowsFault | wilo.c:791-796 | after the fix-up a fault page is shown only while its own fault is set, and a page whose fault is set is never moved |
| Display.FixPage | wilo.c:791-796 | the fix-up loop returns the fixed page, inside the page list |
| Display.PagingStaysInRange | wilo.c:887-916 | paging stays on the page list, moves one way only, and never lands on a fault page failing the as-written test |
| Display.StepPageUp | wilo.c:887-895 | the KEY_UP branch with its skip loop computes `PageUp` |
| Display.StepPageDown | wilo.c:908-916 | the KEY_DOWN branch with its skip loop computes `PageDown` |
| Params.SignatureSpellsName | wilo.c:105 | a fact about the constant: the signature bytes spell "Wilo MT6" |
| Params.RowFacts | wilo.c:117-137 | every parameter's word lies after the signature at a distinct even address, and every default lies in its own range |
| Params.WordsApart | wilo.c:117-137 | two parameters never share an EEPROM byte |
| Params.ReadWord | wilo.c:422 | a stored word is read big-endian as an `int16_t` |
| Params.WriteReadWord | wilo.c:387-411 | a word written is read back unchanged |
| Params.WriteParam | wilo.c:931 | writing one parameter's word changes only that parameter's stored value and keeps the signature |
| Params.WriteSignatureKeepsValues | wilo.c:442 | writing the signature keeps every stored value |
| Params.WriteDefaultsStores | wilo.c:436-441 | after `n` repair writes the first `n` parameters hold their defaults and the rest are untouched |
| Params.RepairedIsAccepted | wilo.c:435-442 | a repaired EEPROM passes the next start's check and holds every default |
| Params.CommitKeepsAccepted | wilo.c:926-931 | committing an in-range edit keeps the EEPROM accepted and in step with the parameters, all in range |
| Params.Load | wilo.c:413-443 | all or nothing: an accepted EEPROM is kept and loaded; anything else (a bad signature byte or any out-of-range value) is repaired to the defaults; either way the EEPROM is accepted and holds the parameters |
| Params.Repair | wilo.c:435-442 | the repair path writes every default, then the signature |
| Params.MenuFieldFits | wilo.c:117-137 | for every parameter the field and the unit fill six places, and every in-range value fits its field |
| Params.MenuValueReadsBack | wilo.c:860-874 | an in-range value shown in the menu reads back as itself |
| Params.StrLen | wilo.c:863-865 | the unit length stops at the first NUL |
| Firmware.Drive.constructor | wilo.c:149-221 | the power-up state, with the EEPROM image as given |
| Firmware.Drive.PowerUpIsValid | wilo.c:149-221 | the power-up state satisfies every invariant of the model |
| Firmware.Drive.StopVfd | wilo.c:585-592 | `reqFreq`, `freq`, `regOn` and `vfdRun` are zero and the outputs off |
| Firmware.Drive.StartVfd | wilo.c:570-583 | the ramp restarts from zero at mid-scale; outputs and `vfdRun` come on only while no fault is latched |
| Firmware.Drive.TimerZ0 | wilo.c:1176-1214 | `t4ms` and the ramp advance only on carrier ticks with `(z0cnt & 0x1f) == 0`; the phase, index and ratio update on every carrier tick; the flagged compare registers are reloaded; the ratio, index and registers stay in range |
| Firmware.Drive.CarrierTick | wilo.c:1181-1196 | one carrier tick, as in `TimerZ0` |
| Firmware.Drive.ReloadCompares | wilo.c:1199-1212 | each flagged register gets its phase's compare value, within 3..1996 |
| Firmware.Drive.IntIrq0 | wilo.c:1138-1144 | the capture registers, the overflow count and flag are latched and `pNew` is set |
| Firmware.Drive.IntIrq1 | wilo.c:1147-1152 | the short-circuit fault is latched and the outputs are disabled |
| Firmware.Drive.IntTimerZ1 | wilo.c:1217-1221 | the overflow count grows by one, modulo 2^16 |
| Firmware.Drive.NewPressure | wilo.c:675-700 | the capture time and corrected high word are stored and `pNew` cleared; an implausible period changes nothing else; an accepted one goes to the ring slot, advances the index cyclically, and makes `pAct` the median and `tPres` the current tick |
| Firmware.Drive.StoreRaw | wilo.c:684-698 | the raw period goes to the current slot, the index advances 0→1→2→0, `pAct` becomes the median |
| Firmware.Drive.RegVfd | wilo.c:594-616 | with a fault latched only a running bridge is stopped; otherwise `regOn` follows the run condition, `tOn` is refreshed only as the source does, and the request is the clamped proportional law, at most `maxFreq` and 0 while not regulating |
| Firmware.Drive.CheckFaults | wilo.c:702-739 | the mask follows `Faults.MaskUpdate`; each holding condition re-stamps its bit; any holding condition stops the bridge, and otherwise the bridge is untouched |
| Firmware.Drive.UpdateFaults | wilo.c:703-737 | the mask and stamp updates of `checkFaults` |
| Firmware.Drive.FaultStep | wilo.c:1078-1082 | `ignFaults` zeroes `fault` only, so a short circuit still counts as a fault; otherwise a holding condition latches a fault and stops the bridge, and the short-circuit bit is untouched |
| Firmware.Drive.PressureStep | wilo.c:1088 | without a pending capture nothing in the ring, capture time or high word changes. A pending capture is timestamped as `NewPressure` does, and `isNewPres` says whether its period is plausible. An accepted one is stored as its raw period at the ring index; the index advances cyclically and `pAct` becomes the median. A rejected one leaves the ring, `pAct` and `tPres` alone |
| Firmware.Drive.RequestStep | wilo.c:1090-1097 | manual mode requests `manualFreq`. Automatic mode with the switch on and a new reading runs `regVfd`: `regOn`, the `tOn` refresh and the clamped proportional request, at most `maxFreq`. Without a new reading the request is kept; otherwise it is 0. Any latched fault forces the request to 0, and nothing starts the bridge |
| Firmware.Drive.GateStep | wilo.c:1098-1099 | start only when stopped with a request above `stopFreq`, stop only when request and frequency are both at most `stopFreq`. Without a fault the run state follows `Regulation.Gate`; under a fault nothing is enabled |
| Firmware.Drive.CommandStep | wilo.c:1090-1099 | under a fault the request is 0 and the bridge neither starts nor enables its outputs. A start has a request above `stopFreq`, `freq` 0 and the outputs on. Every stop leaves the drive stopped. A manual request above `stopFreq` starts a stopped bridge without a fault |
| Firmware.Drive.ControlStep | wilo.c:1088-1099 | a pending capture is processed and the invariants hold; the request and the gate then behave as in `CommandStep` |
| Firmware.Drive.ReadKey | wilo.c:472-494 | never `KEY_INVALID`; a new key is reported at once; a held key is reported again only after more than 200 ticks, then after more than 15 ticks |
| Firmware.Drive.ModbusProc | wilo.c:965-973 | more than two ticks of silence restart the frame; a byte goes to the index, which stays in 0..7 and wraps after eight; nothing else in the buffer changes |
| Firmware.Drive.Accumulate | wilo.c:624-651 | a sample joins its channel's window; the 64th publishes the window's mean and restarts it |
| Firmware.Drive.AdcProc | wilo.c:618-665 | a completed AN3/AN4/AN6 conversion feeds that channel's window; a full window publishes its mean and moves to the next channel; other channels and an idle converter restart at AN3; `flow` follows the pin |
| Firmware.Drive.DispProc | wilo.c:741-845 | the step cycles 0..8; step 3 shows " - " under a pressure fault and the flow glyph; step 5 shows the fault code; step 6 moves off a fault page whose fault has cleared |
| Firmware.Drive.ShowCode | wilo.c:777-786 | the fault code goes to positions 14-15 and nothing else changes |
| Firmware.Drive.ShowPressure | wilo.c:759-768 | " - " under a pressure fault and the flow glyph at position 7 |
| Firmware.Drive.WriteMenuLine | wilo.c:860-874 | the menu line shows the default and the edited value of the selected parameter, each followed by its unit |
| Firmware.Drive.MenuKeyPressed | wilo.c:878-885 | KEY_MENU moves the menu level as `MenuAfter` does and restarts the edited value from the parameter |
| Firmware.Drive.PageKey | wilo.c:887-916 | in the status view the page moves as `PageUp`/`PageDown` |
| Firmware.Drive.BrowseKey | wilo.c:897-920 | while browsing the item moves by one, stopping at either end, and the edited value restarts from it |
| Firmware.Drive.EditKey | wilo.c:901-923 | while editing the value rises only below the maximum and falls only above the minimum, so it stays in range |
| Firmware.Drive.EnterKey | wilo.c:924-937 | ENTER while browsing starts an edit; while editing it commits the value to the parameter and its EEPROM word and returns to browsing |
| Firmware.Drive.MenuProc | wilo.c:876-963 | the menu level follows `MenuAfter`; the settings stay accepted, in step and in range; only ENTER while editing writes a parameter and the EEPROM; the page moves only in the status view; inside the menu the line shows the selected parameter |
| Firmware.Drive.KeyAction | wilo.c:877-943 | the action of one key, as in `MenuProc` |
| Firmware.Drive.RedrawMenu | wilo.c:944-962 | inside the menu the line shows the parameter with '>' while editing, ' ' while browsing |
| Firmware.Drive.LoadEeprom | wilo.c:413-443 | as `Params.Load`, on the firmware's `param` array and EEPROM |

## Left out

- `setParam` (wilo.c:278-305), `voltCalc` (wilo.c:849-858) and the float conversions of `dispProc` are floating point. The derived limits (`pOn`, `pOff`, `maxFreq`, `minFreq`, `baseFreq`, `stopFreq`, `freqToPwm`, `minVolt`, `maxVolt`, `maxCur`, `maxTemp`) are plain fields. `LoadEeprom` and `EnterKey` therefore do not recompute them.
- Firmware.Drive.DispProc: steps 0-2 and 4, the pressure reading of step 3, the power and page-value rendering of step 6, and the LCD output of steps 7-8 leave the modelled line unchanged. Only the first status line is modelled.
- The main-loop block at wilo.c:1083-1086 (`voltCalc` and `rotDir` while stopped) is float-based and is not modelled.
- `spiCmd`, `eepRead` and `eepWrite` are not modelled as bit-banging. The EEPROM is a 256-byte image read and written big-endian.
- The LCD driver, the `getKey` matrix scan, `serialSend`/`serialPrintf`, `clockSetup`, `setLeds`, `delay` and the peripheral set-up of `main` are hardware I/O. A scanned key, a register value or a pin is a parameter; an LCD line is not sent anywhere.
- Interrupt preemption of the main loop, the `set_imask_ccr` critical section and the compare-register timing rule are concurrency. Each handler is one atomic step; interleavings are not modelled.
- Firmware.Drive.ModbusProc: the firmware builds no response and computes no CRC, so neither does the model.
- Firmware.Drive.WriteMenuLine: the menu line shows `Wrap16` of the default and of the edited value, as `writeNum` takes a `uint16_t`. All parameter ranges are non-negative, so nothing is lost.
- tools/svpwm.c, the offline table generator, is not part of this model; only its output tables are.
