# KickJr PPG driver: settings and auto-balance loops

This project models the `KickJrPPG` driver of the Fyre photoplethysmography
board. The driver caches three 8-bit digital-potentiometer codes and the LED
state:

- the LED current code, written to an AD5171 and clamped to 0..63;
- the TIA gain code, written to channel 0 of an AD5242;
- the bandpass (PPG) gain code, written to channel 1 of an AD5242;
- whether the LED pin was last driven HIGH.

It also runs two mutually recursive loops that bring the TIA output reading
into the band 1850..2250 (of a 12-bit range). `balanceLEDCurrent` first sets
the TIA gain to its nominal code 17. It then steps the LED code by one per
sample and hands off to `balanceTIAGain` when the LED code is saturated.
`balanceTIAGain` steps the TIA gain by one per sample and hands off back when
the gain is saturated.

Files:

- `front.dfy` (module `Front`): the 8-bit code and 12-bit sample types, the
  band, the `Settings` value and the clamp of the LED-current setter.
- `balance.dfy` (module `Balance`): the loops as functions over the settings
  and a finite trace of TIA readings. `LedStep`/`TiaStep` are one loop pass.
  `LedPass`/`TiaPass` add the hand-off. `LedResume`/`TiaResume` take the
  next sample. `BalanceLed`, `LedLoop`, `BalanceTia` and `TiaLoop` are the two
  procedures and their loops. The file also holds the ramp and scenario
  lemmas.
- `driver.dfy` (module `Driver`): the class `KickJrPPG`, with the four
  fields, the setters, `Begin`, the LED switch and the two balance methods.
  These methods are `while` loops that change the fields in place. Each one is
  proved to end exactly as its function in `Balance` says. The getters are
  functions that read the object, so they cannot change it. The sensor reads
  have no `modifies` clause, so sampling changes no setting.

The TIA channel is a trace of readings in 0..4095 with a read position `at`.
Each sample takes the reading at `at` and advances it. The properties hold for
every trace. So they hold for every sensor behaviour, including one that
depends on the settings and one with noise. A run that needs a sample when the trace is used up ends `Exhausted`. This is the
only way a run ends other than `Balanced`: the firmware itself would go on
sampling.

## Model

| member | source | states |
|---|---|---|
| `Front.ClampLedCode` | Firmware/Fyre/KickJrPPG.cpp:118-128 | the stored LED code is at most 63; it equals the argument when the argument is at most 63, and is 63 otherwise |
| `Driver.KickJrPPG.SetLEDCurrent` | Firmware/Fyre/KickJrPPG.cpp:118-128 | afterwards `GetLEDCurrent` returns the clamped argument, which is at most 63; the gains and the LED state are unchanged |
| `Driver.KickJrPPG.SetTIAGain` | Firmware/Fyre/KickJrPPG.cpp:191-195 | afterwards `GetTIAGain` returns the argument unchanged (no clamp); nothing else changes |
| `Driver.KickJrPPG.SetPPGGain` | Firmware/Fyre/KickJrPPG.cpp:243-247 | afterwards `GetPPGGain` returns the argument unchanged (no clamp); nothing else changes |
| `Driver.KickJrPPG.TurnLEDOn` | Firmware/Fyre/KickJrPPG.cpp:76-80 | afterwards `GetLEDStatus` is true; no potentiometer code changes |
| `Driver.KickJrPPG.TurnLEDOff` | Firmware/Fyre/KickJrPPG.cpp:86-90 | afterwards `GetLEDStatus` is false; no potentiometer code changes |
| `Driver.KickJrPPG.Begin` | Firmware/Fyre/KickJrPPG.cpp:60-70 | afterwards the LED is off and the LED code is 63, the dimmest; the gains are unchanged |
| `Driver.KickJrPPG.GetLEDStatus` | Firmware/Fyre/KickJrPPG.cpp:95-98 | reads the object only (a `const` getter) and returns the cached LED state; `TurnLEDOn`, `TurnLEDOff` and `Begin` state the value it returns |
| `Driver.KickJrPPG.GetLEDCurrent` | Firmware/Fyre/KickJrPPG.cpp:134-137 | reads the object only (a `const` getter) and returns the cached LED code; `SetLEDCurrent` and `Begin` state the value it returns |
| `Driver.KickJrPPG.GetTIAGain` | Firmware/Fyre/KickJrPPG.cpp:201-204 | reads the object only (a `const` getter) and returns the cached TIA gain; `SetTIAGain` states the value it returns |
| `Driver.KickJrPPG.GetPPGGain` | Firmware/Fyre/KickJrPPG.cpp:253-256 | reads the object only (a `const` getter) and returns the cached bandpass gain; `SetPPGGain` states the value it returns |
| `Driver.KickJrPPG.GetTIA` | Firmware/Fyre/KickJrPPG.cpp:262-265 | returns the channel's reading at the given position; a `const` read with no `modifies`, so no setting changes |
| `Driver.KickJrPPG.GetPPG` | Firmware/Fyre/KickJrPPG.cpp:271-274 | the same for the bandpass channel |
| `Balance.LedStep` | Firmware/Fyre/KickJrPPG.cpp:164-174 | on an out-of-band reading it hands off exactly when the LED code cannot move the needed way (0 and too high, or at least 63 and too low). Otherwise it lowers the code on a high reading and raises it by exactly 1 on a low one. The new code is at most 63, and is exactly one step away whenever the old code was legal. No other setting changes |
| `Balance.TiaStep` | Firmware/Fyre/KickJrPPG.cpp:220-228 | hands off exactly when the TIA gain is 0 and the reading too high, or 255 and the reading too low. Otherwise it moves the gain by exactly 1 toward the band (down when high, up when low), never past 0 or 255. No other setting changes |
| `Balance.LedPass` | Firmware/Fyre/KickJrPPG.cpp:164-177 | one pass of the LED loop, including a hand-off: never moves the read position backwards or past the end of the trace, keeps the bandpass gain and the LED state, keeps a legal LED code legal |
| `Balance.TiaPass` | Firmware/Fyre/KickJrPPG.cpp:220-230 | the same for one pass of the TIA-gain loop |
| `Balance.BalanceLed` | Firmware/Fyre/KickJrPPG.cpp:149-182 | balanceLEDCurrent only moves the read position forward, within the trace. It returns Balanced only when the last reading it took is in 1850..2250, and Exhausted only when no reading is left. It leaves the bandpass gain and the LED state alone and keeps a legal LED code legal |
| `Balance.NominalGainIgnoresCaller` | Firmware/Fyre/KickJrPPG.cpp:149-158 | balanceLEDCurrent sets the TIA gain to 17 before its first sample, so on every trace, hand-offs included, its result does not depend on the TIA gain it was called with |
| `Balance.LedLoop` | Firmware/Fyre/KickJrPPG.cpp:162-181 | the same guarantees for the LED-current `while` loop entered with the sample just taken |
| `Balance.LedResume` | Firmware/Fyre/KickJrPPG.cpp:176-181 | taking the next sample and going round the LED loop again: the same guarantees, and Balanced only after at least one new reading |
| `Balance.BalanceTia` | Firmware/Fyre/KickJrPPG.cpp:213-234 | the same guarantees for balanceTIAGain |
| `Balance.TiaLoop` | Firmware/Fyre/KickJrPPG.cpp:218-233 | the same guarantees for the TIA-gain `while` loop entered with the sample just taken |
| `Balance.TiaResume` | Firmware/Fyre/KickJrPPG.cpp:230-233 | the same for the TIA-gain loop |
| `Balance.DimmingRamp` | Firmware/Fyre/KickJrPPG.cpp:162-181 | if the readings stay too high until one is in band and the LED code has room, the loop lowers the code by exactly one per reading and stops, balanced, on the first in-band reading |
| `Balance.BalanceLedDims` | Firmware/Fyre/KickJrPPG.cpp:149-182 | on such a trace balanceLEDCurrent ends balanced with the TIA gain at 17, the nominal code it set before the first sample, and with the LED code lowered once per out-of-band reading |
| `Balance.GainRamp` | Firmware/Fyre/KickJrPPG.cpp:218-233 | if the readings stay too low until one is in band and the gain has room, the TIA loop raises the gain by exactly one per reading, leaves the LED code alone, and stops balanced on the first in-band reading |
| `Balance.DimmingScenario` | Firmware/Fyre/KickJrPPG.cpp:149-182 | starting at LED code 63 with readings 3000, 2950, ..., 2250 (one per LED step), balanceLEDCurrent ends balanced at LED code 48 with TIA gain 17, after taking all 16 readings |
| `Driver.KickJrPPG.BalanceLEDCurrent` | Firmware/Fyre/KickJrPPG.cpp:149-182 | the in-place loop ends with exactly the settings, read position and outcome `Balance.BalanceLed` gives for the old settings |
| `Driver.KickJrPPG.BalanceTIAGain` | Firmware/Fyre/KickJrPPG.cpp:213-234 | the in-place loop ends with exactly the settings, read position and outcome `Balance.BalanceTia` gives for the old settings |

The field types come from Firmware/Fyre/KickJrPPG.h:33-38. All three codes
are `Byte` (0..255) and the LED state is a `bool`. Every step in the loops is
checked against `Byte`, so no 8-bit wrap-around can happen. The getters
are functions that read the object only. The setter contracts above state the
set-then-get round trips through them.

Unlike the LED-current setter, the gain setters store their argument with no
clamp. The balance loops have no iteration cap and no failure result.

## Left out

- Bus and pin I/O: the I2C transfer to the AD5171 and the `AD524X` writes,
  `pinMode`, `digitalWrite`, `analogReadResolution` and `analogRead`. These
  are hardware effects. Only the cached values they leave behind are modelled,
  and the ADC is a trace of readings in 0..4095.
- The `delay(1)` settling pauses have no logical effect.
- The constructor does nothing, as in the driver. Before `Begin`, no field
  has a known value, and the LED code may exceed 63. This is why `LedStep`
  promises an exact one-unit step only from a legal code: from a larger code,
  the clamp in the setter takes it to 63.
- Termination and convergence: when both knobs are saturated the two
  procedures call each other forever, and the firmware's stack grows with
  every hand-off. The finite trace bounds each run instead, and `Exhausted`
  stands for "the firmware would still be looping". No convergence is
  claimed.
- Conversion of wider integer arguments to `uint8_t` at the call sites (for
  example 300 becomes 44) is not modelled. The setters take 8-bit codes.
- The physical claim that a higher LED code means a lower LED current is a
  hardware fact, not code behaviour.
