# verbit helium soundcard: clock policy and stream operations

This project models the machine driver `sound/soc/bcm/verbit-helium-soundcard.c`. The board has one 12 MHz crystal and two audio links:

- a WM8731 DAC on the BCM2835 I2S controller;
- a WM8804 S/PDIF transmitter on the same controller.

The model covers:

- **Clock policy** (module `ClockPolicy`): pure functions.
  - The DAC rate-constraint list and the DAC rate → bit-clock ratio switch.
  - The S/PDIF rate → MCLK divider and PLL target.
  - The S/PDIF rate → channel-status sampling-frequency code, including the default arm, which leaves the initialiser `1` in place.
- **IEC 60958-3 channel status** (module `Iec60958`): the consumer sampling-frequency field, byte 3, bits 24 to 27, written as the standard's table gives it. It is an independent reference: the driver's codes are proved to be that field packed least-significant bit first.
- **WM8804 register file** (module `Wm8804`): the registers PWRDN, SPDTX4 and SPDMODE, eight bits each, and the masked write `update_bits`, `(prev & ~mask) | (val & mask)`.
- **Framework calls** (module `Events`): each ASoC call the driver makes becomes an `Event` in a trace. `Replay` gives the register file a trace produces.
- **Per-operation effects** (module `Paths`): for each S/PDIF operation, the calls it issues in order and the register file it leaves behind, stated as values. The lemmas beside them cover order, error paths, the bits that change and the bits that do not, and the channel-status field transmitted.
- **The card** (module `HeliumCard`): class `Card`. It holds the register map and the append-only trace, and keeps the invariant that the registers are the replay of the trace on the boot state. Its methods are the driver's stream operations and DAI init callbacks. The S/PDIF methods are proved to produce exactly the calls and register file `Paths` states. The DAC methods make a single call each and state that call, their result and the unchanged registers directly in their own contracts. Results of framework calls the driver uses (sysclk, bclk ratio) are method parameters. The clkdiv and PLL results are parameters that the methods never read, because the driver ignores them.

## Model

| member | source | states |
|---|---|---|
| ClockPolicy.DacBclkRatio | sound/soc/bcm/verbit-helium-soundcard.c:63-80 | the DAC ratio switch is total; every arm, the default included, asks for a positive ratio |
| ClockPolicy.DacConstraintMatchesSwitch | sound/soc/bcm/verbit-helium-soundcard.c:39-41 | the constraint list holds seven distinct rates; a rate is in it exactly when the ratio switch has an explicit arm for it, so no constrained rate reaches the default arm |
| ClockPolicy.DacRatioDefault | sound/soc/bcm/verbit-helium-soundcard.c:78-79 | every rate outside the constraint list gets ratio 125 |
| ClockPolicy.DacRatioCrystalQuotient | sound/soc/bcm/verbit-helium-soundcard.c:63-80 | for each constrained rate, the ratio equals 12000000 / rate (rounded down) exactly when the rate is not 8000; at 8000 the ratio is 1 |
| ClockPolicy.SpdifDividerRecoversRate | sound/soc/bcm/verbit-helium-soundcard.c:113-119 | the PLL target is rate × 256 with the 256fs divider when rate ≤ 96000, and rate × 128 with 128fs otherwise; dividing the target by the divider gives the rate back |
| ClockPolicy.SpdifMclkDiv | sound/soc/bcm/verbit-helium-soundcard.c:113-119 | the MCLK divider: 256fs for rates up to 96000, 128fs above (its properties are stated in SpdifDividerRecoversRate) |
| ClockPolicy.SpdifPllOut | sound/soc/bcm/verbit-helium-soundcard.c:113-119 | the PLL output frequency requested: rate × 256 up to 96000, rate × 128 above (its properties are stated in SpdifDividerRecoversRate and SpdifPllOutBounded) |
| ClockPolicy.SpdifPllOutFitsInt | sound/soc/bcm/verbit-helium-soundcard.c:111-119 | for every rate up to 16777215 the PLL target is below 2^31, so the C `int` products at lines 114 and 117 do not overflow |
| ClockPolicy.SpdifPllOutBounded | sound/soc/bcm/verbit-helium-soundcard.c:113-119 | for rates up to 192 kHz the PLL target never exceeds 24.576 MHz, the 96 kHz target |
| ClockPolicy.SpdifStatusCode | sound/soc/bcm/verbit-helium-soundcard.c:107 | every status code, including the initialiser 1, fits the four-bit field it is written to |
| ClockPolicy.SpdifStatusDefault | sound/soc/bcm/verbit-helium-soundcard.c:121-146 | the default arm is taken exactly for rates outside the seven named ones, and then the code is the initialiser 1; no named rate yields 1 |
| ClockPolicy.SpdifStatusCodeInjective | sound/soc/bcm/verbit-helium-soundcard.c:121-142 | distinct named rates get distinct codes |
| Iec60958.FsField | sound/soc/bcm/verbit-helium-soundcard.c:121-146 | the reference the status codes are checked against: the IEC 60958-3 consumer sampling-frequency field, bits 24 to 27, for each frequency the standard names, written as the standard's table gives it |
| Iec60958.UnpackPack | sound/soc/bcm/verbit-helium-soundcard.c:165 | reading a packed bit string back least-significant bit first gives the string |
| Iec60958.PackUnpack | sound/soc/bcm/verbit-helium-soundcard.c:165 | packing the low n bits of a value below 2^n gives the value |
| Iec60958.PackNibble | sound/soc/bcm/verbit-helium-soundcard.c:165 | a four-bit field written as in the standard's table packs to its bits weighted 1, 2, 4, 8 in order |
| Iec60958.StatusCodeNamed | sound/soc/bcm/verbit-helium-soundcard.c:121-142 | for each of the seven named rates, the driver's code is the IEC 60958-3 field for that rate, packed least-significant bit first |
| Iec60958.StatusCodeIsIecField | sound/soc/bcm/verbit-helium-soundcard.c:107-146 | for every rate, the code is the IEC 60958-3 field for the rate, or the "not indicated" field for a rate the driver does not name |
| Iec60958.TransmittedField | sound/soc/bcm/verbit-helium-soundcard.c:107-146 | the four bits the transmitter sends for the code are the standard's field for the rate, or "not indicated" |
| Wm8804.Masked | sound/soc/bcm/verbit-helium-soundcard.c:159-165 | a masked write takes the bits under the mask from the value and keeps every other bit |
| Wm8804.MaskedUnique | sound/soc/bcm/verbit-helium-soundcard.c:159-165 | those two properties determine the written value uniquely |
| Wm8804.MaskedIdempotent | sound/soc/bcm/verbit-helium-soundcard.c:159-165 | repeating a masked write changes nothing more |
| Wm8804.MaskedClearTwice | sound/soc/bcm/verbit-helium-soundcard.c:159-162 | two masked clears of PWRDN clear the union of their masks |
| Wm8804.MaskedLowNibble | sound/soc/bcm/verbit-helium-soundcard.c:165 | a code below 0x10 written under mask 0x0f is stored exactly in the low nibble, and the high nibble is kept |
| Events.ReplayAppend | sound/soc/bcm/verbit-helium-soundcard.c:159-167 | replaying a concatenated trace is replaying its parts one after the other |
| Events.ReplayNoWrites | sound/soc/bcm/verbit-helium-soundcard.c:148-152 | calls that are not register writes (clkdiv, PLL, sysclk, diagnostics) leave the register file unchanged |
| Paths.SpdifHwParamsEvents | sound/soc/bcm/verbit-helium-soundcard.c:143-167 | the calls S/PDIF hw_params issues, in order: the unsupported-rate report, clkdiv, PLL and sysclk, then either the sysclk failure report or the three register writes and bclk ratio 64 |
| Paths.SpdifHwParamsRegs | sound/soc/bcm/verbit-helium-soundcard.c:153-165 | the register file after S/PDIF hw_params: unchanged on a sysclk failure, otherwise PWRDN bits 0x0d cleared and the status code in SPDTX4's low nibble |
| Paths.SpdifHwParamsResult | sound/soc/bcm/verbit-helium-soundcard.c:153-167 | the value S/PDIF hw_params returns: the sysclk result when it is negative, otherwise the bclk-ratio call's result |
| Paths.SpdifStartupEvents | sound/soc/bcm/verbit-helium-soundcard.c:176 | the one call S/PDIF startup makes: update_bits of PWRDN with mask 0x3c and value 0x00 |
| Paths.SpdifShutdownEvents | sound/soc/bcm/verbit-helium-soundcard.c:183-188 | the calls S/PDIF shutdown makes: update_bits of PWRDN with mask 0x3c and value 0x3c when the flag is nonzero, none otherwise |
| Paths.SpdifInitEvents | sound/soc/bcm/verbit-helium-soundcard.c:204-206 | the two calls S/PDIF init makes, in order: update_bits of PWRDN with mask 0x04 and value 0x00, then of SPDMODE with mask 0xff and value 0x00 |
| Paths.SpdifStartupRegs | sound/soc/bcm/verbit-helium-soundcard.c:176 | the register file after S/PDIF startup: PWRDN bits 0x3c cleared |
| Paths.SpdifShutdownRegs | sound/soc/bcm/verbit-helium-soundcard.c:183-188 | the register file after S/PDIF shutdown: PWRDN bits 0x3c set when the flag is nonzero, otherwise unchanged |
| Paths.SpdifInitRegs | sound/soc/bcm/verbit-helium-soundcard.c:204-206 | the register file after S/PDIF init: PWRDN bit 0x04 cleared and SPDMODE set to 0x00 |
| Paths.SpdifHwParamsOrder | sound/soc/bcm/verbit-helium-soundcard.c:143-167 | hw_params issues its calls in this order: unsupported-rate report, clkdiv, PLL, sysclk, then either the failure report or the register writes, and the bclk ratio last; the PLL, fed from 12000000, strictly precedes selecting it as the clock source |
| Paths.SpdifHwParamsSysclkFailure | sound/soc/bcm/verbit-helium-soundcard.c:151-156 | a negative sysclk result is returned unchanged; it is reported, no register is written, and no bclk-ratio call happens |
| Paths.SpdifHwParamsSuccess | sound/soc/bcm/verbit-helium-soundcard.c:158-167 | otherwise the bclk-ratio call's result is returned; PWRDN bits 0x0d are clear and its other bits kept; SPDTX4 holds the code in its low nibble and keeps its high nibble; no other register changes; the last call is bclk ratio 64 |
| Paths.SpdifHwParamsAnnouncesRate | sound/soc/bcm/verbit-helium-soundcard.c:121-165 | after a successful hw_params, SPDTX4's low nibble, read least-significant bit first, is the IEC 60958-3 field for the rate, or "not indicated" |
| Paths.SpdifHwParamsMasks | sound/soc/bcm/verbit-helium-soundcard.c:159-165 | the three masked writes in order clear PWRDN bits 0x0d and put the code into SPDTX4's low nibble |
| Paths.SpdifHwParamsTailWrites | sound/soc/bcm/verbit-helium-soundcard.c:158-167 | replaying the calls after a successful sysclk gives that register file |
| Paths.SpdifHwParamsWrites | sound/soc/bcm/verbit-helium-soundcard.c:148-167 | replaying hw_params' whole call list, on either path, gives exactly its stated register effect |
| Paths.SpdifStartupPowersOn | sound/soc/bcm/verbit-helium-soundcard.c:170-179 | startup clears exactly PWRDN bits 0x3c, which turns the output on, and changes no other bit or register; its one write replays to that effect |
| Paths.SpdifShutdownPolicy | sound/soc/bcm/verbit-helium-soundcard.c:181-190 | with a nonzero auto_shutdown_output, shutdown sets PWRDN bits 0x3c (output off) and keeps everything else; with zero it issues no call and changes nothing |
| Paths.SpdifStartupThenShutdown | sound/soc/bcm/verbit-helium-soundcard.c:170-190 | after startup then shutdown, PWRDN bits 0x3c are all set when the flag is nonzero and all clear otherwise; the rest of PWRDN is as before |
| Paths.SpdifInitEffect | sound/soc/bcm/verbit-helium-soundcard.c:199-209 | init clears PWRDN bit 0x04 and sets SPDMODE to 0x00 whatever it held; no other bit or register changes; its two writes replay to that effect |
| Paths.SpdifHwParamsAfterInit | sound/soc/bcm/verbit-helium-soundcard.c:204 | after init, the clear of PWRDN bit 0x04 that hw_params makes at line 159 repeats init's and changes nothing more |
| HeliumCard.Card.constructor | sound/soc/bcm/verbit-helium-soundcard.c:275-284 | a card starts with the boot register file and an empty trace, with the invariant established |
| HeliumCard.Card.Call | sound/soc/bcm/verbit-helium-soundcard.c:148-152 | a framework call that writes no register is appended to the trace, and the registers are kept |
| HeliumCard.Card.UpdateBits | sound/soc/bcm/verbit-helium-soundcard.c:159-165 | `snd_soc_update_bits` replaces the register with the masked write of its old value, records the call, and keeps the invariant |
| HeliumCard.Card.DacStartup | sound/soc/bcm/verbit-helium-soundcard.c:48-55 | DAC startup only installs the 12 MHz constraint list, changes no register, and returns 0 |
| HeliumCard.Card.DacHwParams | sound/soc/bcm/verbit-helium-soundcard.c:57-81 | DAC hw_params makes one call, the bclk ratio of the rate's switch arm, and returns that call's result |
| HeliumCard.Card.DacInit | sound/soc/bcm/verbit-helium-soundcard.c:89-92 | DAC init only selects the WM8731 crystal at 12000000 as clock input, and returns that call's result |
| HeliumCard.Card.SamplingFreqSwitch | sound/soc/bcm/verbit-helium-soundcard.c:107-146 | the switch yields the status code for the rate, starting from the initialiser, and reports exactly the rates it has no arm for |
| HeliumCard.Card.SpdifHwParams | sound/soc/bcm/verbit-helium-soundcard.c:95-168 | S/PDIF hw_params returns the sysclk failure or the bclk result, leaves the register file and appends the calls that Paths states (order, errors and writes proved there), and keeps the invariant; the clkdiv and PLL results do not affect it |
| HeliumCard.Card.SpdifStartup | sound/soc/bcm/verbit-helium-soundcard.c:170-179 | S/PDIF startup has the effect SpdifStartupPowersOn describes, and returns 0 |
| HeliumCard.Card.SpdifShutdown | sound/soc/bcm/verbit-helium-soundcard.c:181-190 | S/PDIF shutdown, with auto_shutdown_output read at the time of the call, has the effect SpdifShutdownPolicy describes |
| HeliumCard.Card.SpdifInit | sound/soc/bcm/verbit-helium-soundcard.c:199-209 | S/PDIF init has the effect SpdifInitEffect describes, and returns 0 |

Two behaviours of the code are easy to misread, and the model follows the code in both:

- For an S/PDIF rate the switch does not name, the code writes the initialiser `1` (line 107) into SPDTX4's low nibble (line 165), not the register's previous contents. In IEC 60958-3 terms that is "sampling frequency not indicated".
- The results of `snd_soc_dai_set_clkdiv` and `snd_soc_dai_set_pll` are ignored (lines 148-149). Only a negative sysclk result stops hw_params (lines 151-156).

At 8000 Hz the DAC table asks for a bit-clock ratio of 1. For every other constrained rate the ratio is the crystal-cycles-per-frame quotient, which at 8000 Hz would be 1500. `DacRatioCrystalQuotient` states this exactly. It is not reported as a defect, because nothing in the file says what the I2S controller does with that ratio.

## Left out

- Probe, remove, device-tree parsing of `i2s-controller`, card registration and `module_platform_driver` (lines 286-339) are platform plumbing over framework calls that are not part of this model.
- The `snd_soc_dai_link` initialisers, the DAPM widget and route tables, and the commented-out third link (lines 211-284) are declarative data with no logic in the driver.
- The ASoC calls themselves are not modelled. This covers `snd_pcm_hw_constraint_list`, `snd_soc_dai_set_bclk_ratio`, `snd_soc_dai_set_sysclk`, `snd_soc_dai_set_pll`, `snd_soc_dai_set_clkdiv` and `snd_soc_update_bits`. Each is a trace event; the results the driver reads are parameters.
- HeliumCard.Card.UpdateBits: the masked-write semantics of `snd_soc_update_bits` are assumed, because its implementation is not part of this model. Its return value, which the driver ignores, is not modelled.
- `dev_err` messages are `DevErr` events carrying the rate or the error code, without the message text.
- The `module_param` machinery for `auto_shutdown_output` is not modelled. The flag is a parameter of `SpdifShutdown`, because it can be written at run time.
- Register addresses and the numeric values of `WM8804_MCLKDIV_256FS`/`WM8804_MCLKDIV_128FS` and of the clock-source constants come from codec headers that are not part of this model. Registers and settings are named values instead.
- ClockPolicy.SpdifPllOut: the PLL target is computed on unbounded integers. The C code multiplies in `int`. Above 96000 Hz the code multiplies by 128 (line 117), so that product first exceeds the `int` range at 16777216 Hz. `SpdifPllOutFitsInt` proves that every rate up to 16777215 Hz stays inside the range, far beyond any rate ASoC negotiates here. Rates are naturals, so the unsigned-to-`int` conversion of `params_rate` is not modelled either.
- Concurrency and the ordering of stream callbacks across substreams are not modelled; nothing in the driver is concurrent.
