# HeaterProject control core in Dafny

A verified model of the polled control-and-input state machine of the
HeaterProject firmware (`src/HeaterProject.cpp`): an Arduino sketch that reads
a rotary encoder to adjust a temperature setpoint and drives a heater MOSFET
with a proportional power command.

The model has four modules:

- `Clock` (`clock.dfy`): the 32-bit millisecond counter and the gate at the top
  of `loop()`. `millis()` is `unsigned long` and `millis_last` is `long`, both
  32 bits on the AVR target. The subtraction `millis() - millis_last` is
  therefore unsigned and taken modulo 2^32. Storing a reading into the signed
  `long` and converting it back returns the same bits, so `millis_last` is
  modelled as a counter reading (`Millis`, 0 to 2^32 - 1). The gate fires when
  the difference is strictly greater than 25. The lemmas show that this is the
  true elapsed time across a counter wrap, as long as the current poll comes
  less than 2^32 ms after the stored timestamp. If consecutive polls are less
  than 2^32 - 25 ms apart, the first poll more than 25 ms after the stored
  timestamp always fires, so the gate never aliases. Only a pause of nearly
  2^32 ms between two polls can make it alias.
- `Encoder` (`encoder.dfy`): the quadrature rule of `handleEncoder`, and
  `NetSteps`, the net count over a run of polls. The lemmas cover how runs
  compose, direction reversal, contact bounce on phase A, and full cycles.
  A full A/B cycle counts 2, because both edges of A are counted.
- `Heater` (`heater.dfy`): `setOutput`'s clamp and scaling to the 0..255 PWM
  range (`Duty`), and `tempControl`'s law `0.8 * (set - current)` (`Command`).
  The lemmas give the exact conditions for full and zero output, and show that
  the output is monotone.
- `HeaterProject` (`controller.dfy`): the globals, as the fields of class
  `Controller`. Each routine that changes them is a method: `HandleEncoder`,
  `UpdateValues`, `EditModeToggle`, `TempControl`, and `Loop` for one pass of
  `loop()`. `Valid()` is the invariant the methods keep. In particular, every
  decoded encoder step is either already added to `setTemperature` or still
  pending in `encoderSteps`. No step is lost and none is counted twice.

Inputs that the firmware reads from hardware are method parameters:

- the encoder pin levels `a` and `b`;
- the two `millis()` readings of one pass, `nowCheck` and `nowStore`;
- the converted sensor temperature `sensed`.

The value written to the heater pin is the field `heaterDuty`. `Loop` also
returns every value written to the pin during the pass.

That list shows a quirk of the code. When the gate fires, `updateValues`
calls `setOutput(setTemperature)`, which treats the setpoint as a power
percentage. `tempControl` then overwrites that value in the same pass. A pass
that fires therefore writes two values, `[Duty(setTemperature), Duty(command)]`.

Design choices of this revision that the model keeps:

- The gate uses modular subtraction. It does not reset the timestamp when the
  counter wraps.
- The gain is the fixed 0.8, not an error-span formula.
- The encoder is polled from `loop()`, not read in an interrupt.
- A full encoder cycle counts ±2, not ±1.
- There is no sensor-fault state.

`MOSFET_HIGH_OFF`, which this revision's `config.h` does not define, is the
boolean `highOff`. It is a parameter of `Duty` and a constant of the
controller. The lemmas about the control law take the default wiring
(`highOff == false`).

## Model

| member | source | states |
|---|---|---|
| `Encoder.StepDelta` | src/HeaterProject.cpp:150-156 | one poll changes the counter by -1, 0 or +1; it is 0 exactly when A did not change, and +1 exactly when A changed and B differs from the new A |
| `Encoder.FinalA` | src/HeaterProject.cpp:157 | storing the sampled A on every poll, changed or not, leaves the last sampled A after a run, or the start level after an empty run |
| `Encoder.NetSteps` | src/HeaterProject.cpp:147-158 | over a run of polls, the net count is bounded by the number of A edges and has the same parity as that number |
| `Encoder.NetStepsAppend` | src/HeaterProject.cpp:147-158 | polling two runs back to back counts the sum of the two runs, the second starting from the A level the first left in `lastEncoderState` |
| `Encoder.NetStepsMirror` | src/HeaterProject.cpp:151-155 | inverting phase B negates the net count of any run (the direction rule is symmetric) |
| `Encoder.HeldBTelescopes` | src/HeaterProject.cpp:147-158 | with B held fixed, the net count depends only on the first and last A level (it is a potential difference) |
| `Encoder.BounceHasNoNetEffect` | src/HeaterProject.cpp:147-158 | a bounce of any length on A, with B fixed, that returns A to its starting level leaves the counter unchanged |
| `Encoder.ToggleAndBackCancels` | src/HeaterProject.cpp:150-157 | two polls where A toggles away and back with B fixed have no net effect |
| `Encoder.ClockwiseTurns` | src/HeaterProject.cpp:150-157 | k full quadrature cycles with A leading count +2k and leave the remembered A level where it began |
| `Encoder.CounterClockwiseTurns` | src/HeaterProject.cpp:150-157 | k full cycles with B leading count -2k |
| `Clock.Elapsed` | src/HeaterProject.cpp:86 | the unsigned difference `millis() - millis_last` is a value below 2^32 that carries the stored reading to the current one on the wrapping counter |
| `Clock.ElapsedUnique` | src/HeaterProject.cpp:86 | that value is the only one below 2^32 with this property |
| `Clock.GateFires` | src/HeaterProject.cpp:86 | the gate fires exactly when the current reading is not one of the 26 readings 0..25 ms after the stored one on the wrapping counter, i.e. the unsigned 32-bit difference exceeds 25 |
| `Clock.ElapsedIsTrueTime` | src/HeaterProject.cpp:86 | if the readings are less than 2^32 ms apart in real time, the difference equals the real elapsed time, even across a counter wrap |
| `Clock.GateFiresIffIntervalPassed` | src/HeaterProject.cpp:86-90 | the gate fires exactly when more than 25 ms of real time have passed since the stored reading (provided the current poll is less than 2^32 ms after the stored timestamp) |
| `Clock.FrequentPollingFires` | src/HeaterProject.cpp:86-87 | if the previous poll found the gate shut (at most 25 ms after the stored timestamp) and the current poll comes less than 2^32 - 25 ms after it and more than 25 ms after the timestamp, the gate fires: at the loop's polling rate it never aliases |
| `Clock.GateAliasesAfterFullWrap` | src/HeaterProject.cpp:86 | the limit of the modular test: a poll a whole counter period (plus at most 25 ms) late does not fire |
| `Heater.Duty` | src/HeaterProject.cpp:103-116 | the written PWM value is always in 0..255; requests below 0 % give 0 and above 100 % give 255; in between it is the largest integer not above p*255/100 (truncation); `highOff` inverts the request first |
| `Heater.DutyMonotone` | src/HeaterProject.cpp:107-115 | the PWM value is non-decreasing in the request (non-increasing with `highOff`) |
| `Heater.DutyFullIff` | src/HeaterProject.cpp:111-115 | the pin gets 255 exactly when the request is at least 100 % |
| `Heater.DutyOffIff` | src/HeaterProject.cpp:107-115 | the pin gets 0 exactly when the request is below 20/51 %, less than one PWM unit |
| `Heater.Command` | src/HeaterProject.cpp:164-166 | the commanded power is positive exactly when the measured temperature is below the setpoint, and zero exactly at the setpoint |
| `Heater.ControlOffAtOrAboveSetpoint` | src/HeaterProject.cpp:164-167 | when `setTemperature <= currentTemperature`, the heater gets 0 |
| `Heater.ControlFullIff` | src/HeaterProject.cpp:164-167 | the heater gets 255 exactly when the error `set - current` is at least 125 |
| `Heater.ControlOffIff` | src/HeaterProject.cpp:164-167 | the heater gets 0 exactly when the error is below 25/51 of a degree |
| `Heater.ControlMonotone` | src/HeaterProject.cpp:164-167 | a larger temperature error never gives a smaller PWM value |
| `HeaterProject.Toggled` | src/HeaterProject.cpp:160-162 | the flag after `!state` is 0 or 1, and 1 exactly when it was 0 |
| `HeaterProject.ToggleTwiceRestores` | src/HeaterProject.cpp:160-162 | two toggles give back 0 from 0, and 1 from any other value |
| `HeaterProject.Controller.constructor` | src/HeaterProject.cpp:31-84 | at power-up every global of lines 31-36 is zero, `millis_last` is the counter reading at start-up (line 84), and the invariant holds |
| `HeaterProject.Controller.HandleEncoder` | src/HeaterProject.cpp:147-158 | the counter changes by `StepDelta` of the stored and sampled levels; `lastEncoderState` becomes the sampled A whether it changed or not; nothing else changes; the invariant is kept |
| `HeaterProject.Controller.UpdateValues` | src/HeaterProject.cpp:140-145 | the setpoint becomes the old setpoint plus the old pending steps, unclamped; the counter becomes 0; the temperature becomes the sensor value; the setpoint itself is written to the pin as a percentage; every decoded step stays applied exactly once |
| `HeaterProject.Controller.EditModeToggle` | src/HeaterProject.cpp:160-162 | the flag flips between 0 and 1; nothing else changes |
| `HeaterProject.Controller.TempControl` | src/HeaterProject.cpp:164-168 | the pin gets the duty of `0.8 * (set - current)`; nothing else changes |
| `HeaterProject.Controller.Loop` | src/HeaterProject.cpp:84-93 | the gate fires exactly when `(nowCheck - millis_last) mod 2^32 > 25`; only then are `millis_last` (set to the second reading), the setpoint, the counter and the temperature updated; the control write and the encoder poll happen on every pass; the pin writes of the pass are listed in order |

## Left out

- `tempFromResistance` (src/HeaterProject.cpp:98-101) is floating-point logarithm arithmetic (the thermistor's Beta equation). The converted temperature is the parameter `sensed`.
- `updateScreen` (src/HeaterProject.cpp:118-138) only writes to the LCD and the serial port. It has no effect on the modelled state and is not modelled.
- `setup` (src/HeaterProject.cpp:60-82) configures pins and starts the LCD and the serial port. `digitalRead`, `analogRead`, `analogWrite` and `millis` are parameters, or the field `heaterDuty`.
- The preprocessor `#error` checks are build-time conditions, not behaviour. This revision's `config.h` names the pin `HEATER_PIN`, not `MOSFET_PIN`.
- The menu tables (src/HeaterProject.cpp:17-27, 39-50) are static data. No code in this revision navigates them or calls the item's action.
- `src/config.h` holds only constants. Its motor, fan, button, software-PWM, refresh and error-span constants are not used by this revision's code.
- The Arduino runtime calls `loop()` forever. `Loop` models one pass, and `Valid()` carries across passes.
- Floating point: temperatures and percentages are `real`. The model has no IEEE rounding, NaN or infinity, and no loss of precision when integer steps are added to a `float` setpoint beyond 2^24.
- `HeaterProject.Controller.HandleEncoder`: does not model the 16-bit `int` range of `encoderSteps` on AVR. Overflow there is undefined behaviour, and `updateValues` drains the counter every 26 ms or so.
- `HeaterProject.Controller.UpdateValues`: does not model the 16-bit `int` range of `encoderSteps`, for the same reason.
