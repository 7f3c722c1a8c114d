# MICS-6814 driver core in Dafny

This project models the core of the Arduino driver for the MICS-6814 gas sensor, which has three sensing channels: NH3, CO and NO2. The model covers four things:

- **Calibration.** The driver reads all three channels once per tick. It keeps a floating average of the last 10 readings in a zero-filled circular buffer, a 16-bit running sum and a cursor. It stops at the first tick at which every channel's reading differs from its average by less than 2, and stores each average as that channel's baseline resistance.
- **The baseline store.** `loadCalibrationData` writes the baselines and `getBaseResistance` reads them.
- **`getResistance`.** It averages 100 ADC samples per pin. Because its `switch` has no `break`, CO also reads the NO2 and NH3 pins, and NO2 also reads the NH3 pin.
- **Fixed-width integers.** The driver's 16-bit and 32-bit integers are subset types. On a board with a 32-bit `int`, every bound the code relies on is proved, so no wrap-around happens there. The 8-bit AVR case is listed under "Left out".

Modules, one per file:

- `Adc` (`adc.dfy`): fixed-width integer types, the 10-bit sample range, sums and the truncating mean.
- `SlidingWindow` (`window.dfy`): what the circular buffer holds after a sequence of readings (`Window`, split into `FirstPass` and `LaterPass`), the floating average and the stability predicate.
- `Stability` (`stability.dfy`): the per-channel buffer, cursor, sum and flag as a class `StabilityTracker`. The driver holds three inline copies of this state; the model instantiates the class once per channel. A ghost `History` ties its fields to `Window`.
- `Calibration` (`calibration.dfy`): the sampling loop of one channel, the do-while loop over ticks, and the specification `CalibrationSpec`. That specification takes the first tick at which all three channels are stable, and the window averages at that tick.
- `Mics6814` (`sensor.dfy`): the driver object `Sensor` and the `getResistance` accumulation.

The driver's calibration loop has no bound. Here it runs over a finite sequence of ticks, each holding the three samples of each channel. When the sequence runs out before convergence, the result is `None`.

Two points where the code behaves differently from what its design suggests; the model follows the code:

- **Early exit.** The zero-filled buffer is meant to force a warm-up of 10 ticks, during which the deflated average keeps every channel unstable. For a constant input this holds only for readings above 10. `ConstantInputCalibration` proves that a constant input of at most 10 ends calibration before tick 10, with a baseline that can be one below the input: while the buffer is still partly zero, a small value is already within the tolerance of the deflated average. With changing input the warm-up fails for large readings too. `TwoTickConvergence` proves that readings of 1000 and then 111 on every channel end calibration after two ticks with baseline 111, because the window then averages (1000 + 111) / 10 = 111. The constant-input early exit relies on the signed comparison below. Under the unsigned wrap of 8-bit AVR boards, an average below the reading gives a huge difference, so a constant input of at least 1 converges exactly at tick 10. The two-tick exit does not rely on it, because there the average equals the reading.
- **Signed comparison.** `abs(fltSum / seconds - cur) < delta` is modelled as a comparison on signed integers, which is what boards with a 32-bit `int` compute.

## Model

| member | source | states |
|---|---|---|
| Adc.Mean | MICS6814.cpp:210 | the truncating mean `rs / counter` of a non-empty batch of samples lies between its smallest and largest sample, so it is a valid 10-bit reading |
| SlidingWindow.WindowStep | MICS6814.cpp:107-109 | writing one more reading changes exactly the slot under the cursor `|h| % 10` and leaves the other nine slots as they were |
| SlidingWindow.WindowPermutesLast10 | MICS6814.cpp:32-34 | the buffer is a rearrangement of the last 10 readings, or of all readings plus the remaining zero fill while fewer than 10 have been taken |
| SlidingWindow.WindowSumIsLast10 | MICS6814.cpp:102-104 | the sum of the buffer equals the sum of the last 10 readings (the readings so far during the first pass) |
| SlidingWindow.WindowSumBound | MICS6814.cpp:23-26 | the running sum never exceeds 10 * 1023 = 10230, so the `uint16_t` accumulator never wraps |
| SlidingWindow.TickFacts | MICS6814.cpp:102-119 | one tick: the new buffer differs in the cursor slot only; the new sum is old sum + reading - evicted value and fits in 16 bits; the cursor advances by one modulo 10; the channel is stable exactly when `|sum / 10 - cur| < 2` |
| SlidingWindow.WindowSlot | MICS6814.cpp:56-62 | each slot holds a reading of the current pass below the cursor, a reading of the previous pass above it, and zero before the first pass has reached it |
| SlidingWindow.Window | MICS6814.cpp:56-62 | the contents of the 10-slot buffer after the readings `h`: the readings of the first pass followed by the remaining zero fill, then, from the second pass on, the current pass below the cursor and the previous pass from the cursor up |
| SlidingWindow.Average | MICS6814.cpp:112 | the floating average `fltSum / seconds`: the sum of the buffer divided by 10 with truncation, a valid 10-bit reading |
| SlidingWindow.AverageOfLast10 | MICS6814.cpp:122-124 | the floating average equals the sum of the last 10 readings over 10, whatever their order in the buffer, with the zero fill counted while fewer than 10 have been taken |
| SlidingWindow.Stable | MICS6814.cpp:112-114 | a channel is stable after a reading when the average of its window differs from that reading by less than 2 |
| SlidingWindow.ConstantWindow | MICS6814.cpp:112-114 | once the last 10 readings all equal `c`, every slot holds `c`, the average is `c` and the channel is stable |
| SlidingWindow.AverageAtMost | MICS6814.cpp:122-124 | the floating average never exceeds the largest reading written |
| SlidingWindow.FirstPassAverage | MICS6814.cpp:56-62 | while fewer than 10 readings have been taken the average is their sum divided by 10: the zero fill deflates it |
| Stability.StabilityTracker.constructor | MICS6814.cpp:31-62 | the buffer is 10 zero slots, the cursor and sum are 0 and the flag is false |
| Stability.StabilityTracker.Tick | MICS6814.cpp:100-119 | the sum becomes old sum + reading - evicted value; the cursor slot is overwritten and nothing else in the buffer changes; the flag is `|sum / 10 - cur| < 2`; the cursor advances modulo 10; the sum, buffer, cursor and flag stay those that the readings so far determine |
| Stability.StabilityTracker.FloatingAverage | MICS6814.cpp:122-124 | `fltSum / seconds` is the average of the window that the readings so far determine |
| Calibration.Reading | MICS6814.cpp:78 | the tick's reading `rs / 3` of the three samples, truncated |
| Calibration.ReadChannel | MICS6814.cpp:69-78 | the three-sample loop with its `unsigned long` accumulator yields `(s1 + s2 + s3) / 3` |
| Calibration.ReadingIsMean | MICS6814.cpp:78 | the tick's reading is the truncated mean of its three samples and lies between the smallest and the largest of them |
| Calibration.Readings | MICS6814.cpp:65-98 | one reading per channel per tick, oldest first |
| Calibration.FirstTrue | MICS6814.cpp:120 | the first position at or after the start where the exit condition holds, or none if it never holds |
| Calibration.FirstConvergence | MICS6814.cpp:120 | the loop stops at the first tick after which all three channels are stable in the same tick; it runs on through every earlier tick, and never stops if no tick has all three stable |
| Calibration.CalibrationSpec | MICS6814.cpp:21-125 | what calibration yields: the first tick at which all three channels are stable, with each channel's floating average at that tick as its baseline, or `None` when no tick has all three stable |
| Calibration.CalibrationSpecMeaning | MICS6814.cpp:21-125 | calibration succeeds exactly when some tick has all three channels stable; it then stops at the first such tick, and each baseline is the sum of that channel's last 10 readings over 10 |
| Calibration.TickAll | MICS6814.cpp:100-120 | each tracker receives its channel's reading; the result is true exactly when the three new histories are all stable |
| Calibration.CalibrationTick | MICS6814.cpp:65-120 | after tick `i` the trackers have seen exactly ticks `0..i`, and the result is the loop's exit condition for that tick |
| Calibration.RunCalibration | MICS6814.cpp:21-125 | the do-while loop returns the first converging tick and each channel's `fltSum / seconds` at that tick, or `None` when the ticks run out first |
| Calibration.ConstantNotStableEarly | MICS6814.cpp:112-114 | with a constant reading above 10, a channel is not stable before 10 ticks |
| Calibration.ConstantStableAtNine | MICS6814.cpp:112-114 | with a constant reading of at most 10, a channel is already stable after 9 ticks |
| Calibration.ConstantInputCalibration | MICS6814.cpp:21-125 | a constant input `c` converges within 10 ticks with baselines in `[c - 1, c]`; for `c <= 10` before tick 10, for `c > 10` exactly at tick 10 with baseline `c` on every channel |
| Calibration.TwoTickConvergence | MICS6814.cpp:100-120 | readings of 1000 and then 111 on every channel end calibration after the second tick, with baseline 111 on every channel |
| Mics6814.Accumulated | MICS6814.cpp:185-208 | the samples the fall-through `switch` accumulates: every known channel ends with the first 100 NH3 samples, and an out-of-range channel accumulates nothing |
| Mics6814.AccumulatedCount | MICS6814.cpp:185-208 | the fall-through `switch` accumulates 300 samples for CO, 200 for NO2, 100 for NH3 and none for an out-of-range channel |
| Mics6814.AccumulatedSum | MICS6814.cpp:185-208 | the accumulated total is the sum of the first 100 samples of each pin the `switch` reaches |
| Mics6814.AccumulatePin | MICS6814.cpp:188-193 | one `for` loop adds the first 100 samples of a pin to `rs`, at most 100 * 1023 more, and adds 100 to `counter` |
| Mics6814.Sensor.LoadCalibrationData | MICS6814.cpp:127-135 | the three baselines become exactly the given values and nothing else in the object changes |
| Mics6814.Sensor.GetBaseResistance | MICS6814.cpp:213-226 | each channel's stored baseline, and 0 for a channel value outside the enumeration |
| Mics6814.Sensor.Calibrate | MICS6814.cpp:21-125 | on convergence the baselines become the averages `CalibrationSpec` gives; otherwise they are unchanged |
| Mics6814.Sensor.GetResistance | MICS6814.cpp:180-211 | a known channel gives the truncated mean of its accumulated samples, between their minimum and maximum; the `counter == 0` fallback returns 0 only for an out-of-range channel; the 32-bit `rs` and 16-bit `counter` never overflow |
| Mics6814.LoadedBaselinesReadBack | MICS6814.cpp:127-135 | loading baselines and reading them back with `getBaseResistance` returns exactly the loaded values, and 0 for an out-of-range channel |

## Left out

- `measure` and `getCurrentRatio` (MICS6814.cpp:146-168, 237-245) compute in floating point with `pow` and `isnan`, and are not modelled.
- `analogRead` is replaced by sequences of samples given as inputs: `TickSamples` for calibration and `PinSamples` for `getResistance`. `delay` is dropped, as it has no effect on the values computed.
- The constructor's pin wiring (MICS6814.cpp:3-8) is not modelled, because each pin's samples come in separately. The driver leaves the baselines uninitialised until calibration or loading, and the model promises nothing about their initial values either.
- Calibration.RunCalibration: the driver's loop is unbounded. The model runs over a finite input and returns `None` where the driver would still be looping; `Sensor.Calibrate` then leaves the baselines unchanged.
- Stability.StabilityTracker.Tick: the stability test is modelled with a signed `int` wider than 16 bits. On 8-bit AVR boards, `int` is 16 bits and the `uint16_t` operands promote to `unsigned int`, so an average below the reading would wrap instead of giving a negative difference. That platform-dependent behaviour is not modelled.
- Mics6814.Sensor.GetResistance: `requires` that each pin the `switch` reaches supplies at least 100 samples. This reflects that `analogRead` always returns a value and is not a demand the driver makes of its callers.
- MICS6814.h is not part of this model. The values of `channel_t` are unknown, so an out-of-range channel is represented as `OutOfRange(code)` with any code.
