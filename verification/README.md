# Verified model of the motor-control firmware

This project models the field-oriented control firmware in Dafny and proves properties of the
model. It covers five connected parts:

- **Space-vector modulation**, which the firmware writes three times. All three forms are proved
  to realise one law that mentions no sector: differences of compare values are line voltages, and
  the pattern is centred in the period. The VESC current controller feeds one of them, and the
  proof goes from its voltage limiter to the duty registers.
- **The motor lifecycle**: main loop, main interrupt, ticker, USB commands and the spurious ADC
  interrupt. Each handler is one atomic step on the whole motor, and the theorems hold of every
  interleaving of them.
- **What the running motor is driven with**: in every run of the handlers, the angle, the voltage its
  current loop demands, the current its speed loop asks for, and how a zero command ends it.
- **Modular counting**: multi-turn encoder unwrapping with its tracking loop, and the two
  tachometers.
- **Controllers and filters over unbounded input sequences**: both PI controllers, the sliding
  mean, the sliding-mode observer, and the fault debouncers.
- **Hall-table detection**, whose success code is a bijection.

`dafny verify dfyconfig.toml` checks everything.

## How the model relates to the source

A C structure whose functions change its fields is a class; the structures that the handlers of
`motor_control.c` share are record-valued fields of one class `Motor`, updated in place; loops are
loops. Each method is proved equal to a function of the old state (`Value()`), and the theorems
about runs are lemmas about those functions.

Floating-point values are reals. The square root of 3 is a parameter `s` with `s > 0` and
`s * s == 3`; `sqrtf` is a parameter assumed to be a square root on the non-negative reals; the
sine table is a parameter, with values in [-1, 1] where that matters. C's truncating conversions, its remainder, and
the 16-bit and 32-bit casts of the modulation are written out. The file of the `utils_*` helpers is
not part of this model; they have their usual meaning. Interrupt handlers run atomically.

Results worth knowing before changing the code:

- The clamps of `foc_svm` never act while `foc_overmod_factor` is at most 1
  (`CurrentLoop.CurrentLoop.ControlCurrent`), and the circle condition behind it is exact
  (`CurrentLoop.CircleFits`).
- The voltages *demanded* over the inductance phase of the calibration cancel when the phase has an
  even number of calls, but its last call switches the output off, so the voltages the bridge is
  *given* then sum to minus the test voltage (`Calibration.InductancePhase`).
- A fault that rises and clears between two main-loop calls does not cancel the speed command: the
  motor restarts by itself (`Faults.RestartsAfterFault`), exactly when a command is pending
  (`Lifecycle.RestartIff`).
- The modulation divides by the averaged bus voltage, which is zero until a tick has averaged a
  sample. A calibration command that arrives earlier reaches that division
  (`Outputs.CommandBeforeAverage`); when commands wait, no register ever passes nine tenths of the
  period (`Outputs.RegistersWithinDuty`).
- `Motor_FastStop` leaves the speed trajectory enabled, so a tick can raise DRV_STOP from IDLE
  (`AfterStop.StopRaisedFromIdle`) or from a calibration; the exact condition is
  `Lifecycle.TickStopsIff`.
- The start sequence has no timeout: with an acceleration rate that is not positive the forced
  drive never ends, unless its first call already passes the maximum speed (`Startup.StartsIff`).
- The undefined-interrupt and offset bits are never cleared (`Lifecycle.SpuriousLatches`,
  `Lifecycle.BiasedOffsetLatches`).
- `tachometer_abs` of the block-commutation code adds signed differences and so equals the
  direction tachometer (`Tachometer.Conserved`), unlike the one of the FOC code
  (`Tachometer.FocConserved`).
- With a non-positive clear time the over-current bit matches its declarative meaning exactly when
  the trip time does not exceed it (`Protection.OcBitMeaningIff`).
- When the main loop sees a fault before a main interrupt does, it sets IDLE without touching the
  bridge (`AfterStop.IdleStillDriving`). Idle means zero registers except from such a call until the
  next main or spurious interrupt, exactly (`AfterStop.IdleDrivingIff`).
- Closing the loop copies the estimated speed into the ramp target unclamped, so the first
  regulation after it can move the target by more than a step (`Ramp.HandoverJumpsIff`).

## Model

| member | source | states |
|---|---|---|
| SpaceVector.Svpwm.Init | Code/Foc/svpwm.c:6-19 | For a 16-bit peak and a non-negative ratio at least a fifth of the period is kept back from the active times |
| SpaceVector.DutyCapLaw | Code/Foc/svpwm.c:6-19 | The duty limit is the configured share of the period, and four fifths where that is more |
| SpaceVector.Svpwm.Calc | Code/Foc/svpwm.c:21-132 | For every voltage and positive bus: the recorded vector is the command or the command scaled onto the duty limit; times and compare counts are those of the recorded vector by the sector-free law, follow its line voltages within two counts, never exceed nine tenths of the period, and no 16-bit sum wraps |
| SpaceVector.RecordedSpan | Code/Foc/svpwm.c:74-85 | The recorded vector needs what the command needs, or exactly the duty limit where that is less |
| SpaceVector.RecordedParallel | Code/Foc/svpwm.c:74-91 | And it is the command, or a share of it |
| SpaceVector.ModulationLaw | Code/Foc/svpwm.c:21-132 | Every modulation follows all three line voltages of the recorded vector within two counts and keeps every count in [0, 0.9 peak] |
| SpaceVector.Svpwm.DecodeSector | Code/Foc/svpwm.c:32-68 | Both active voltages are non-negative and, laid out in the sector's order, give the three line voltages |
| SpaceVector.Svpwm.Assign | Code/Foc/svpwm.c:93-131 | The three instants reach the phases in the sector's order; the 0xffff fallback is unreachable |
| SpaceVector.OnCountsLaw | Code/Foc/svpwm.c:70-127 | Counts of a saturated vector lie in [0, 0.9 peak], follow all three line voltages within two counts, and the smallest and largest are centred within four |
| SpaceVector.RealisesUnique | Code/Foc/svpwm.c:139-242 | Line voltages and centring determine the pattern: two realisations of one vector are equal |
| SpaceVector.Svm | Code/Foc/svpwm.c:135-248 | The timings realise the line voltages exactly and are centred; the code is 0 exactly when the vector needs no more than a period, which is exactly when every timing lies in it |
| SpaceVector.FocSvm | Code/motor_vesc/foc_math.c:245-382 | The duties are the sector-free on-time counts of the vector, truncated to the maximum |
| SpaceVector.DutyMaxLaw | Code/motor_vesc/foc_math.c:373-376 | The maximum duty is the whole part of the mean of the period and the modulation's share of it |
| SpaceVector.DutiesOfSextant | Code/motor_vesc/foc_math.c:249-371 | In each sextant the integer sums, taken modulo 2^32, are the sector-free counts |
| SpaceVector.FormsAgree | Code/Foc/svpwm.c:21-248 | For one stator voltage the two integer forms stay within two or three counts of the real timings and are complements of each other, also where the sector tests disagree on a boundary |
| SpaceVector.SameLevels | Code/Foc/svpwm.c:32-72 | Normalised by 1.5 over the bus voltage, a stator voltage has the same levels in all three forms |
| CurrentLoop.LimiterLaw | Code/motor_vesc/mcpwm_foc.c:4550-4561 | The d voltage is cut to the radius and the q voltage is brought toward zero onto the circle exactly when it lies outside; the result lies in the circle, equals the command exactly when the command did, and the vector saturation after it changes nothing |
| CurrentLoop.RotationKeepsNorm | Code/motor_vesc/mcpwm_foc.c:4584-4586 | The inverse Park transform keeps the length of the vector |
| Transform.ParkIpark | Code/Foc/transform.c:8-16 | On the unit circle the inverse Park transform is undone by the Park transform |
| Transform.IparkPark | Code/Foc/transform.c:8-16 | And the Park transform by the inverse one |
| Transform.Axes | Code/Foc/transform.c:8-16 | The d axis lies along the angle, the q axis a quarter turn ahead, and both transforms are linear |
| Transform.ClarkeInverts | Code/Foc/transform.c:3-6 | Both phase currents come back from the two Clarke components |
| CurrentLoop.CircleFits | Code/motor_vesc/mcpwm_foc.c:4546-4548 | A voltage circle fits the modulation limit at every angle exactly when twice its radius is at most root three times the limit |
| CurrentLoop.SpanOfVoltage | Code/motor_vesc/mcpwm_foc.c:4543-4584 | A voltage in the circle needs at most the duty limit times the overmodulation factor, whatever the rotor angle |
| CurrentLoop.ClampsIdle | Code/motor_vesc/foc_math.c:373-376 | A vector within the modulation limit passes both clamps untouched |
| CurrentLoop.DutiesFollowVoltage | Code/motor_vesc/foc_math.c:284-371 | The duties follow all three line voltages within two counts, and smallest plus largest is the period or one less |
| CurrentLoop.CurrentLoop.Saturate | Code/motor_vesc/mcpwm_foc.c:4549-4563 | Each integrator moves by exactly what the limiter took off its voltage |
| CurrentLoop.CurrentLoop.ControlCurrent | Code/motor_vesc/mcpwm_foc.c:4429-4586 | End to end: integrator plus proportional part plus decoupling equals the limited voltage, which lies in the circle; without overmodulation no clamp acts and the duty differences are the requested line voltages within two counts |
| CurrentLoop.DemandLaw | Code/motor_vesc/mcpwm_foc.c:4497-4544 | The voltages asked for are integrator, gains on target minus measured current, and the feedforward, less on the d and more on the q axis |
| CurrentLoop.TargetLaw | Code/motor_vesc/mcpwm_foc.c:4497-4510 | Without error and feedforward the demand is the integrators; a target raised by x raises its own axis by (kp + ki dt) x, on the d axis times its gain scale, and the other axis not at all |
| CurrentLoop.FeedforwardLaw | Code/motor_vesc/mcpwm_foc.c:4517-4544 | The four decoupling modes: speed times inductance times the other axis current, less on d and more on q, and speed times flux on q |
| CurrentLoop.DGainLaw | Code/motor_vesc/mcpwm_foc.c:4482-4495 | The d gain scale is one up to the configured depth, then falls linearly to its value at full modulation, and is never below it |
| CurrentLoop.MaxDutyLaw | Code/motor_vesc/mcpwm_foc.c:4471-4472 | The duty limit in force is the magnitude asked for, at most the configured one |
| CurrentLoop.LowPassLaw | Code/motor_vesc/mcpwm_foc.c:4478-4480 | The filtered currents go the configured share of the way to the measured ones |
| CurrentLoop.ControllerIsPi | Code/motor_vesc/mcpwm_foc.c:4497-4561 | Over every run inside the circle the demand is the first integrator, the integral parts of all errors so far, the proportional part of the last one, and the feedforward |
| CurrentLoop.IntegralIsSum | Code/motor_vesc/mcpwm_foc.c:4506-4506 | With constant gain and sampling time the integral part is their product times the sum of the errors |
| CurrentLimits.FoldLimits | Code/motor_vesc/mc_interface.c:2491-2511 | The folded limits are smallest in magnitude, raised to the minimum current, and always straddle zero |
| CurrentLimits.ClampSetPoints | Code/motor_vesc/mcpwm_foc.c:3526-3540 | The current vector stays within the larger motor limit; when every interval contains zero the q current is the request truncated once to the common part of all three limits |
| CurrentLimits.TruncationsCompatible | Code/motor_vesc/mcpwm_foc.c:3528-3540 | A later truncation never undoes an earlier one exactly when the two intervals meet |
| CurrentLimits.InputBoundsMeaning | Code/motor_vesc/mcpwm_foc.c:3528-3532 | The divided limits bound the input current, for either sign of the modulation |
| CurrentLimits.MotorBoundsMeaning | Code/motor_vesc/mcpwm_foc.c:3534-3538 | The motor limits hold of the current in the driving direction: for negative modulation they are mirrored |
| PiCalc.PIControl.IncPid | Code/Foc/pi_calc.c:9-24 | Whole new state of the incremental controller |
| PiCalc.PIControl.PosPid | Code/Foc/pi_calc.c:26-67 | Whole new state of the positional controller with its decaying integrator |
| PiCalc.PosContainedIff | Code/Foc/pi_calc.c:26-67 | The integrator stays within the output limit on every call exactly when the integral gain lies between zero and the proportional gain |
| PiCalc.PosNeverWindsUp | Code/Foc/pi_calc.c:26-67 | No error sequence winds the speed integrator up |
| PiCalc.PosLaw | Code/Foc/pi_calc.c:26-67 | One call: gain on reference minus feedback plus the integrator, cut to the limits; the integrator gains its part exactly when nothing was cut and decays otherwise |
| PiCalc.PosIsPi | Code/Foc/pi_calc.c:26-67 | Over every run away from the limits the output is the proportional gain on the last error plus the integral gain on the sum of the earlier ones |
| PiCalc.PosDecays | Code/Foc/pi_calc.c:26-67 | At the limits the integrator decays geometrically |
| PiCalc.IncIsPi | Code/Foc/pi_calc.c:9-24 | Away from its limits the incremental form is the positional law over the clamped errors |
| PiCalc.IncLaw | Code/Foc/pi_calc.c:9-24 | One call: the error is reference minus feedback, cut; the output moves by the gains on its change and on itself, and is cut |
| Protection.ProtectOC.MotorOverCurrent | Code/Foc/protection.c:51-76 | New counter and new fault bit of one sample |
| Protection.OverLaw | Code/Foc/protection.c:51-58 | A sample is over exactly when the largest of the three phase currents passes the threshold |
| Protection.OcBitMeaning | Code/Foc/protection.c:51-76 | After any history the bit is set exactly when some run of trip-time over-threshold samples has not been followed by a run of clear-time under-threshold ones; the counter is the current run |
| Protection.OcBitMeaningIff | Code/Foc/protection.c:51-76 | That meaning holds for all histories exactly when the clear time is positive or no less than the trip time |
| Protection.OcEdges | Code/Foc/protection.c:51-76 | The bit rises exactly at the trip-time-th over-threshold sample in a row and falls exactly at the clear-time-th under-threshold one |
| Protection.ProtectVbus.MonitorVbus | Code/Foc/protection.c:4-49 | New counters and new fault bits of one reading |
| Protection.BitsAreIndependent | Code/Foc/protection.c:4-49 | Over every sequence of readings each of the three bits is the run of its own channel, and no other bit moves |
| Protection.ChannelDebounces | Code/Foc/protection.c:4-49 | Counters stay between empty and full, and a bit that changed has seen enough readings to cross |
| Protection.ChannelHysteresis | Code/Foc/protection.c:4-49 | At least time + 1 qualifying readings lie between a clear and a set, and between a set and a clear |
| Protection.ChannelDecides | Code/Foc/protection.c:4-49 | time + 1 readings of one kind in a row always decide the bit |
| MoveFilter.Filter.Init | Code/Foc/filter.c:22-34 | Size and bit size are limited and the buffer cleared; on a fresh filter that is a consistent empty window |
| MoveFilter.Filter.Reset | Code/Foc/filter.c:36-46 | An empty window, whatever the state before |
| MoveFilter.Filter.Fill | Code/Foc/filter.c:48-59 | The ring buffer keeps holding the most recent samples in order, and the running sum their sum |
| MoveFilter.Filter.Calc | Code/Foc/filter.c:61-71 | The mean of the last min(n, size) samples, zero when there are none |
| MoveFilter.Filter.BufferSum | Code/Foc/filter.c:48-59 | The running sum is the sum of the buffer and of the recent samples |
| MoveFilter.WindowSlides | Code/Foc/filter.c:48-59 | A new sample pushes the oldest out of the window |
| MoveFilter.WindowSum | Code/Foc/filter.c:61-71 | The buffer, zeros included, sums to the recent samples |
| Trig.LookupIsCurve | Code/Foc/mc_type.c:83-115 | The corrected turn count and the rotated index amount to the fractional turn, on every argument |
| Trig.CurveAtNodes | Code/Foc/mc_type.c:94-118 | The curve passes through the table entries |
| Trig.CurveBetween | Code/Foc/mc_type.c:94-118 | Between two entries it is the straight line through them |
| Trig.SinAtNode | Code/Foc/mc_type.c:75-167 | At 512ths of a turn the sine is the table entry and the cosine the entry a quarter of the table on |
| Trig.TurnFactor | Code/Foc/mc_type.c:80-84 | The factor from radians to turns is the inverse of a whole turn to ten digits |
| Trig.SinLaw | Code/Foc/mc_type.c:75-120 | The sine is the piecewise linear curve at the fractional turn, within [-1, 1] |
| Trig.CosLaw | Code/Foc/mc_type.c:122-167 | The same for the cosine, a quarter turn on |
| Trig.Periodic | Code/Foc/mc_type.c:75-167 | Whole turns do not matter, and the cosine is the sine a quarter turn on, on either side of zero |
| Trig.SinIsOdd | Code/Foc/mc_type.c:86-92 | On an antisymmetric table the correction for negative arguments makes the sine odd |
| Trig.TurnCountFits | Code/Foc/mc_type.c:86-92 | Turn count and correction stay in int32 while the argument's turn count does |
| Trig.NormAngleRad | Code/Foc/mc_type.h:187-197 | The angle moved by whole turns into [-pi, pi); the loops terminate |
| Trig.NormalDifference | Code/Foc/mc_type.h:187-197 | Measured against its own normal value every angle is zero, so the reading an encoder was aligned at has phase zero |
| Smo.SMObserver.Init | Code/Foc/smo.c:6-27 | The initialised observer; its speed filter keeps the last input |
| Smo.SMObserver.Calc | Code/Foc/smo.c:29-72 | Whole new state of the observer |
| Smo.EstimateLaw | Code/Foc/smo.c:36-37 | An estimated current keeps the decay factor times its distance from the stationary current (v - e - z) / Rs |
| Smo.SlideLaw | Code/Foc/smo.c:42-52 | The switching term has the sign of the error, is proportional to it up to the saturation, and its gain grows with the speed up to 15 |
| Smo.SlidingLaw | Code/Foc/smo.c:36-55 | One call of both axes: errors are estimate minus measurement, switching terms follow them, and the back-EMF goes 24 percent of the way to these |
| Smo.StepLaw | Code/Foc/smo.c:29-72 | The phase error of a call is that of its new back-EMF against the angle so far |
| Smo.PhaseErrorLaw | Code/Foc/smo.c:57-57 | For a back-EMF of some size at some angle the phase error is that size times the sine of true minus estimated angle: it vanishes at the true angle and pulls toward it |
| Smo.PllLaw | Code/Foc/smo.c:57-71 | The tracking loop: angle, speed and filtered speed of one call, written out |
| Smo.SpeedIsPi | Code/Foc/smo.c:57-70 | Over every run the estimated speed is a PI controller's on the phase errors |
| Smo.StepBounded | Code/Foc/smo.c:38-70 | One call keeps switching terms and back-EMF within 7.5, current estimates within (Vmax + 15)/Rs, the phase error within 15 and the angle on the turn |
| Smo.RunBounded | Code/Foc/smo.c:6-72 | So does every run from the initialised observer, whatever the measured currents and whatever its filter saw before |
| Smo.LookupsFit | Code/Foc/smo.c:63-66 | Every angle the observer looks up has a turn count that fits int32 |
| Encoder.Sensor.Init | Code/Foc/encoder.c:12-25 | Counts, tracking loop and speeds at zero; electrical angle and alignment offset stay |
| Encoder.Sensor.Loop | Code/Foc/encoder.c:220-303 | Whole new state: raw count, unwrapped count, tracking loop, interpolation, position, phase, speeds and electrical angle |
| Encoder.WrapCounts | Code/Foc/encoder.c:236-249 | The integer wrap loops end in their interval, whole turns away from their argument |
| Encoder.WrapReal | Code/Foc/encoder.c:253-288 | The floating-point wrap loops terminate in their interval, whole turns away |
| Encoder.OffInterpIsZero | Code/Foc/encoder.c:231-234 | The offset term is zero for every raw count |
| Encoder.StepValid | Code/Foc/encoder.c:220-303 | Every call keeps the shadow count congruent to the count modulo 16384, the tracking position in [0, 16384], the interpolation in [0, 1] and the position equal to the shadow count in turns |
| Encoder.StepLaw | Code/Foc/encoder.c:220-303 | A call is the tracking loop on the count it ends with, the interpolation by how the shadow count moved, and the outputs from these |
| Encoder.TrackingLaw | Code/Foc/encoder.c:251-268 | The tracking loop predicts the position from the speed and corrects both by the error to the nearest turn; slow speeds count as standstill |
| Encoder.TrackingAtRest | Code/Foc/encoder.c:251-268 | A loop that predicts the count exactly keeps prediction and speed |
| Encoder.InterpLaw | Code/Foc/encoder.c:270-285 | In the middle at standstill, at the edge after a count, and moving with the speed in between |
| Encoder.OutputsLaw | Code/Foc/encoder.c:286-302 | The phase is the share of the turn times the pole pairs, less the alignment offset; position, speeds and electrical angle likewise |
| Encoder.OutputsWrap | Code/Foc/encoder.c:286-290 | Past the last count the interpolated position lies at the start of the turn |
| Encoder.SeenIff | Code/Foc/encoder.c:241-249 | A movement is seen exactly when it is less than half a turn, or half a turn that does not pass the zero mark |
| Encoder.Tracks | Code/Foc/encoder.c:220-297 | Over any number of turns and failed samples, shadow count minus true position is constant |
| Encoder.FirstReading | Code/Foc/encoder.c:220-249 | Before anything is read, the first reading fixes the turn: the nearest |
| Encoder.TracksFromReset | Code/Foc/encoder.c:12-297 | From reset, in either mounting direction and however many samples fail: the shadow count is zero until a position is seen, and follows the true position at a constant distance from then on |
| Encoder.CountsIgnorePhase | Code/Foc/encoder.c:220-303 | Normalising the phase and moving the alignment offset do not disturb the counting |
| Tracking.EncoderFollows | Code/Foc/motor_control.c:260-263 | In the running system, from one start to the next, the direction is fixed and the encoder counts as it does on its own |
| Tracking.TracksSinceStart | Code/Foc/motor_control.c:104-106 | From start to start the shadow count follows the true position over any number of turns, failed samples and other handlers included |
| HallDetect.ReadRow | Code/motor_vesc/mcpwm.c:2258-2269 | The first column holding the row's maximum when that exceeds 15, and -1 otherwise |
| HallDetect.DetectResult | Code/motor_vesc/mcpwm.c:2253-2291 | The table is the row-by-row reading; 0 exactly when two codes are invalid and the other six map one to one onto the steps, -1 otherwise, -3 without hall sensors |
| HallDetect.Pigeonhole | Code/motor_vesc/mcpwm.c:2271-2284 | Distinct values and invalid entries never exceed the entries, and reach them exactly when nothing repeats |
| HallDetect.CountsDecide | Code/motor_vesc/mcpwm.c:2271-2290 | The two counters decide the bijection |
| HallDetect.IsStepUnique | Code/motor_vesc/mcpwm.c:2258-2269 | A row of counts stands for one step only |
| Tachometer.Commutator.UpdateRpmTacho | Code/motor_vesc/mcpwm.c:2555-2584 | New step and counters from the folded difference |
| Tachometer.Commutator.Commutate | Code/motor_vesc/mcpwm.c:2594-2609 | The step is wrapped into 1 to 6 and the counters updated |
| Tachometer.DiffLaw | Code/motor_vesc/mcpwm.c:2555-2565 | Every folded difference lies in [-2, 3] and is congruent to the step difference |
| Tachometer.CommutateExact | Code/motor_vesc/mcpwm.c:2594-2609 | From a synchronised state the tachometer moves by the commanded steps exactly when they lie in [-2, 3] |
| Tachometer.Conserved | Code/motor_vesc/mcpwm.c:2555-2584 | Over every run the sum of differences stays congruent to the last step modulo 6, and all direction-free counters agree |
| Tachometer.SensorlessExact | Code/motor_vesc/mcpwm.c:2594-2609 | Sensorless running never loses a step |
| Tachometer.FocMotor.UpdateTachometer | Code/motor_vesc/mcpwm_foc.c:3723-3738 | New step and counters from the phase |
| Tachometer.PhaseStepIsSixth | Code/motor_vesc/mcpwm_foc.c:3724-3727 | Normalising takes whole turns off the sixth, and the truncation to 0..5 never acts |
| Tachometer.FocConserved | Code/motor_vesc/mcpwm_foc.c:3723-3738 | Over every run the tachometer stays congruent to the last step and within the absolute one |
| Tachometer.FocTracks | Code/motor_vesc/mcpwm_foc.c:3723-3738 | While the angle moves -2 to 3 sixths between calls the tachometer is the unwrapped angle |
| MotorTypes.FastStop | Code/Foc/motor_control.c:166-190 | Channels off, registers and counts zero, idle; the speed trajectory stays enabled |
| Startup.Init | Code/Foc/startup.c:3-75 | The cleared start record |
| Startup.ClearedLaw | Code/Foc/startup.c:3-66 | A start begins at rest; a second of calls raises forced current and speed by the configured slopes, and the two first alignment phases reach the alignment current and turn by the alignment angle |
| Startup.Control | Code/Foc/startup.c:77-357 | One call: start record, shared parameters, bridge, ramp hand-over and timer |
| Startup.NextValid | Code/Foc/startup.c:98-356 | Only seven of the thirteen states are ever entered |
| Startup.LeftStep | Code/Foc/startup.c:98-268 | Every call takes exactly one off the calls left |
| Startup.StartsInLength | Code/Foc/startup.c:3-268 | A start finishes at exactly 4 + max(1,A1) + max(1,A2) + max(1,A3) + floor(MaxWr/AccRate) + 1 calls, without the last term for an encoder, and 4 for HFI; only the forced drive needs a condition |
| Startup.StartsIff | Code/Foc/startup.c:225-235 | A start ends at all exactly when the forced drive is not needed, accelerates, or passes its maximum speed at once |
| Startup.StaysStuck | Code/Foc/startup.c:225-235 | Otherwise the drive is forced for ever |
| Startup.OpenLoopRange | Code/Foc/startup.c:184-268 | The open-loop angle stays in [0, 2pi) and the open-loop current at most one ramp step past its limit |
| Startup.ForcedTurn | Code/Foc/startup.c:225-268 | n forced calls turn the field by the sum of the forced speeds, each for one carrier period, up to whole turns |
| Startup.SpeedSumIs | Code/Foc/startup.c:233-233 | That sum is n times the first speed plus n (n + 1) / 2 times the increment |
| Startup.AlignTurn | Code/Foc/startup.c:195-205 | n calls of the second alignment phase turn it by n of its steps, or hold it at zero for an encoder |
| Startup.WholeAlignTurn | Code/Foc/startup.c:195-205 | The whole phase turns it by the configured angle |
| Startup.AlignRampReaches | Code/Foc/startup.c:184-190 | After each call of the first alignment phase the current is that share of the alignment current, all of it after the last |
| Startup.CurrentRamps | Code/Foc/startup.c:184-230 | Every open-loop call is one step of the ramp toward the limit of its state |
| Calibration.StartCalibration | Code/Foc/calibration.c:13-36 | A restarted record; the output type of an earlier calibration stays |
| Calibration.StartedLaw | Code/Foc/calibration.c:13-36 | It starts from zero with the configured current, voltage and carrier period |
| Calibration.Loop | Code/Foc/calibration.c:38-164 | One call: calibration record and shared parameters |
| Calibration.LeftStep | Code/Foc/calibration.c:49-163 | Every call takes at least one off the calls left, and exactly one unless the resistance loop gives up |
| Calibration.Terminates | Code/Foc/calibration.c:13-164 | Whatever is measured, the sequence is over within 2f + f/2 + 4 calls, or 2f + f/2 + 2f + 8f + 5 with an encoder |
| Calibration.EndsIdle | Code/Foc/calibration.c:107-157 | Exactly the call that ends the sequence makes the motor idle, with no output |
| Calibration.NextValid | Code/Foc/calibration.c:90-105 | The end of the inductance phase always has output type 0 |
| Calibration.InductancePhase | Code/Foc/calibration.c:83-105 | Demanded voltages cancel and the test voltage returns exactly for an even number of calls; the voltages given to the bridge cancel exactly for an odd one |
| Calibration.ResistanceIntegrates | Code/Foc/calibration.c:59-76 | Over every run of the resistance loop the test voltage integrates the current error |
| Calibration.TestVoltagesLaw | Code/Foc/calibration.c:59-105 | The voltages of both measuring loops, written out, with the call that gives up and the last call |
| Calibration.HoldLaw | Code/Foc/calibration.c:78-81 | The turning phases hold one and a half times the voltage the resistance loop ended with |
| Calibration.TurningLaw | Code/Foc/calibration.c:123-144 | The turning phases put that voltage on the d axis, at a phase that moves on by pi a second |
| SpeedSet.Accept | Code/Foc/speed_set.c:57-78 | New command, direction and commanded speed |
| SpeedSet.AcceptLaw | Code/Foc/speed_set.c:57-78 | A command is taken over as it is, a slow one raised to the minimum speed; command, direction and commanded speed belong together afterwards, and repeating finds nothing to do |
| SpeedSet.TgtSpdTraj | Code/Foc/speed_set.c:102-123 | New ramp and, when a reversal has slowed down, the stop request |
| SpeedSet.ReversalBound | Code/Foc/speed_set.c:105-112 | A held reversal stops the drive at exactly call floor(TgtWr/Step) + 1 |
| SpeedSet.FollowStep | Code/Foc/speed_set.c:114-119 | From any target one call comes within the limits and goes toward the goal, never past it; it moves by at most one step, and comes closer by exactly one, exactly when the target is at most one step beyond the limits |
| SpeedSet.RampBound | Code/Foc/speed_set.c:114-119 | From any target the goal is reached by the first call by which the steps cover the distance; from one at most one step beyond the limits, at exactly that call |
| SpeedSet.RampFromAnywhere | Code/Foc/speed_set.c:114-119 | From any target whatever: after the first call the goal is reached at exactly the call by which the steps cover what is left |
| Ramp.RampFollows | Code/Foc/motor_control.c:237-241 | Over any interleaving a running motor's ramp is exactly the simple ramp, one call for every regulation period of ticks |
| Ramp.RampReaches | Code/Foc/motor_control.c:237-241 | Exactly after how many ticks a followed command is reached, from any target |
| Ramp.RampReachesInTime | Code/Foc/motor_control.c:237-241 | A bound in ticks by the configuration alone |
| Ramp.HandoverJumpsIff | Code/Foc/startup.c:108-115 | Closing the loop leaves the estimated speed in the ramp target; the next regulation moves it by more than a step exactly when that speed is more than a step beyond the limits |
| StopControl.Control | Code/Foc/stop_control.c:3-98 | One call: stop record, shared parameters and bridge |
| StopControl.AlwaysStops | Code/Foc/stop_control.c:12-41 | From any reachable status one call stops the motor, and the brake branches stay unreachable |
| Handlers.MotorSwInit | Code/Foc/motor_control.c:70-164 | Start, stop, calibration, ramp and regulators afresh, everything else kept |
| Handlers.SwInitLaw | Code/Foc/motor_control.c:70-164 | Afterwards the system is ready; only the first initialisation clears command, fault word, status and directions |
| Handlers.CmdSpdSet | Code/Foc/speed_set.c:36-99 | Whole new state of the motor after one main-loop call |
| Handlers.MainIsr | Code/Foc/motor_control.c:249-374 | Whole new state of the motor after one main interrupt |
| Handlers.Ticker | Code/Foc/motor_control.c:214-247 | Whole new state of the motor after one tick |
| Handlers.Dispatch | Code/Bsp/usb.c:56-94 | Any handler, USB command, offset check or spurious interrupt is one step of the motor |
| Handlers.Start | Code/Sys/main.c:10-22 | The motor when interrupts are enabled |
| Lifecycle.MainIsrLaw | Code/Foc/motor_control.c:249-374 | After every main interrupt idle means zero registers; a fault or an earlier stop request means idle with everything off; the phase currents are the samples, U and V exchanged when driven clockwise; the direction never turns |
| Lifecycle.MainLoopLaw | Code/Foc/speed_set.c:49-98 | The main loop starts the motor exactly from idle, without a fault and with a command, and then with everything afresh; without a fault it stops a running motor exactly on a zero command, or with braking enabled on one against its direction |
| Lifecycle.TickLaw | Code/Foc/motor_control.c:214-247 | A tick writes no register, keeps command, start and direction, and can only ask for a stop |
| Lifecycle.ReachedValid | Code/Foc/motor_control.c:70-374 | Every interleaved run keeps the invariant: seven start states, no brake, output type 0 at the end of the inductance phase, coherent command |
| Lifecycle.IdleMeansOff | Code/Foc/motor_control.c:249-374 | In every run, a main interrupt that ends idle leaves the registers at zero, and DRV_STOP lasts one main interrupt |
| Lifecycle.FaultContained | Code/Foc/motor_control.c:251-255 | From the first main interrupt that sees a fault until the word clears the registers stay zero, whatever the handlers do |
| Lifecycle.NoRestart | Code/Foc/speed_set.c:49-55 | After the main loop has seen a fault the motor runs again only after a new non-zero command |
| Lifecycle.RestartIff | Code/Foc/speed_set.c:80-88 | Whatever the interrupts did since, a stopped motor restarts at the next main-loop call exactly when the word is empty and the old command is pending |
| Faults.OverCurrentMeaning | Code/Foc/motor_control.c:249-255 | In every run of all the handlers the over-current bit is its declarative meaning over the samples that the main interrupts took |
| Faults.FaultRises | Code/Foc/motor_control.c:251-255 | Trip-time over-threshold samples, seen, put the bit up and the motor to idle with the bridge off |
| Faults.FaultClears | Code/Foc/protection.c:68-74 | Clear-time under-threshold samples, seen, take the bit down |
| Faults.RestartsAfterFault | Code/Foc/speed_set.c:49-88 | From any fault-free state a run reaches with a pending command: a fault rises, stops the motor, clears, and the next main-loop call starts the motor again |
| AfterStop.IdleDrivingStep | Code/Foc/speed_set.c:49-55 | Exactly which steps end idle over driven registers |
| AfterStop.IdleDrivingBegins | Code/Foc/speed_set.c:49-55 | The only step into such a state is a main-loop call that meets a fault over driven registers |
| AfterStop.IdleDrivingIff | Code/Foc/speed_set.c:49-55 | A reached state is idle over driven registers exactly when a main-loop call met a fault over driven registers and neither a writing interrupt nor a change of status has come since |
| AfterStop.IdleStillDriving | Code/Foc/speed_set.c:49-55 | A run that ends so, for any under-voltage debounce time |
| AfterStop.StopRaisedFromIdle | Code/Foc/motor_control.c:237-241 | A run that ends idle and that the tick completing the regulation period, and none before, takes to DRV_STOP; for every observer but the encoder and any period |
| Faults.BusFollows | Code/Foc/motor_control.c:221-222 | In every run of all the handlers each of the three bus bits with its counter is the run of its channel over the averages of the ticks |
| Faults.BusHysteresis | Code/Foc/protection.c:4-49 | In every run at least time + 1 ticks of the other kind lie between an event that clears a bus bit and its next set, and between a set and the next clear |
| Lifecycle.FaultLatches | Code/Bsp/adc_sample.c:71-73 | A bit that no handler clears stays up, and keeps a motor from running from the next main-loop call on |
| Lifecycle.BiasedOffsetLatches | Code/Bsp/adc_sample.c:71-73 | After an offset check that finds a bias the motor does not run from the next main-loop call on |
| Lifecycle.SpuriousLatches | Code/Bsp/isr.c:25-28 | After one spurious interrupt the motor never runs again and its registers stay zero |
| Lifecycle.TurnStep | Code/Foc/speed_set.c:85-88 | The direction turns only in the main loop, from idle, with everything afresh |
| Lifecycle.ReversalThroughIdle | Code/Foc/speed_set.c:80-98 | Between opposite directions there is a main-loop call that finds the motor idle and starts it afresh |
| Lifecycle.ReversalStops | Code/Foc/motor_control.c:237-241 | With braking off, a reversal held after the start stops the drive within a bounded number of ticks, whatever else happens in between |
| Lifecycle.ReversalStopsFromStart | Code/Foc/speed_set.c:105-112 | Whenever the reversal was commanded, after the main interrupts of the start it takes fewer than (floor(MaxWr/Step) + 2) regulation periods |
| SpeedSet.CallsLeftStep | Code/Foc/speed_set.c:105-112 | From any target a held reversal needs at most floor(MaxWr/Step) + 2 calls |
| Lifecycle.TickStopsIff | Code/Foc/speed_set.c:105-108 | Exactly when a tick asks for a stop, in any status, also after a fast stop |
| Lifecycle.StartBound | Code/Foc/motor_control.c:316-317 | However the handlers interleave, a motor kept running has finished its start at exactly the configured number of main interrupts |
| Lifecycle.CalibrationBound | Code/Foc/motor_control.c:266-267 | A calibration that nothing restarts is over within its length in main interrupts, however the handlers interleave |
| Lifecycle.CalibrationCompletes | Code/Foc/motor_control.c:266-281 | The interrupt that leaves a calibration without a fault has completed it, with zero registers |
| Lifecycle.SpeedLoopContained | Code/Foc/motor_control.c:242-245 | In no run of the handlers does the speed loop wind up |
| Control.FrameLaw | Code/Foc/motor_control.c:322-356 | In every running interrupt with the current loop on, the stator voltage is the demanded one turned by the drive angle and the currents are turned back by it; on the unit circle each transform undoes the other |
| Control.CurrentLaw | Code/Foc/motor_control.c:325-354 | Both regulators work on reference minus measured current, and the demanded voltage is their outputs plus the feedforward; with injection the base currents and the injected voltage instead |
| Control.PhasesLaw | Code/Foc/motor_control.c:292-369 | The measured speed is the observer's; driven clockwise U and V change places on the way in and on the way out; the charging state enables the channels |
| Control.GainsKept | Code/Foc/motor_control.c:70-164 | In every run all three regulators have their configured gains |
| Control.RegulatesReached | Code/Foc/motor_control.c:322-357 | In every run all of this holds with the configured gains |
| Control.AngleLaw | Code/Foc/startup.c:98-268 | Which angle each start state drives at |
| Control.DrivenAtEstimate | Code/Foc/startup.c:98-107 | In every run the interrupt of a running motor whose start is closing or finished drives at the normalised encoder phase, or at the other observer's angle |
| Control.OpenLoopAngle | Code/Foc/startup.c:131-268 | Until the loop is closed the drive angle depends on the number of main interrupts alone, whatever the other handlers do |
| Control.ForcedField | Code/Foc/startup.c:225-268 | In every run of the handlers n interrupts of the forced drive turn the field by the sum of the forced speeds over the carrier frequency, modulo a turn |
| Control.AlignField | Code/Foc/startup.c:195-205 | And n interrupts of the second alignment phase by n of its steps, or not at all for an encoder |
| Control.ClosingLaw | Code/Foc/startup.c:102-117 | Closing the loop hands the estimated speed and half the current to the ramp and restarts the regulation period |
| Control.OffsetLaw | Code/Foc/startup.c:190-210 | Exactly when the encoder offset moves: to zero as the first alignment phase ends, and to the phase then read as the last one ends |
| Control.ZeroStops | Code/Foc/speed_set.c:80-83 | A zero command, any interrupts, one main-loop call and one main interrupt leave the motor idle and off unless it is calibrating, and it stays stopped, whatever comes, until a new non-zero command |
| Control.ZeroStopsReached | Code/Foc/speed_set.c:80-83 | In every run a running motor without a fault goes to DRV_STOP at that call and is off after that interrupt |
| Control.SpeedLaw | Code/Foc/motor_control.c:214-247 | A due tick asks for no d current and for the gain on target minus measured speed plus the integrator, cut to the limits, on q; the integrator moves as PosLaw says; any other tick leaves it alone; each tick sets the voltage limits |
| Control.SpeedLoopRuns | Code/Foc/motor_control.c:237-246 | Over every run of a started motor the speed regulator is the positional controller on the regulations that fell due, and the current reference its last output |
| Control.SpeedLoopIsPi | Code/Foc/motor_control.c:237-246 | So away from the limits the current asked for is the gain on the last speed error plus the integral gain on the earlier ones |
| Control.ChannelsEnabled | Code/Foc/startup.c:126-128 | In every run a running motor past its charging state and a calibrating one have their channels enabled |
| Control.MeasuringVoltage | Code/Foc/calibration.c:59-105 | The stator voltage of a calibrating interrupt in both measuring loops |
| Control.TurningVoltage | Code/Foc/motor_control.c:266-273 | And in the turning phases: the held voltage along the phase set so far |
| Outputs.InterruptOutput | Code/Foc/motor_control.c:266-373 | What a main interrupt writes: the modulation of the demanded voltage at the averaged bus voltage, in the order of the legs, while the current loop or the calibration drives the bridge, and otherwise zeros or the counts from before |
| Outputs.InterruptFollows | Code/Foc/motor_control.c:266-373 | With a positive averaged bus voltage the registers, read in the order of the legs, follow all three line voltages of the recorded vector within two counts and stay within nine tenths of the period |
| Outputs.ModulatedIff | Code/Foc/motor_control.c:357-357 | The counts are within nine tenths of the period, whatever 16-bit counts an undefined conversion yields, exactly when the averaged bus voltage is positive |
| Outputs.InterruptCappedIff | Code/Foc/motor_control.c:266-373 | A main interrupt cannot take registers or counts past nine tenths of the period exactly when it does not modulate or the averaged bus voltage is positive |
| Outputs.StaysCapped | Code/Foc/motor_control.c:249-374 | In every run in which each modulating interrupt finds a positive average, no register passes nine tenths of the period |
| Outputs.RegistersWithinDuty | Code/Foc/motor_control.c:214-374 | In every run whose bus reads positive and whose commands wait for the first averaged sample, no register passes nine tenths of the period |
| Outputs.CommandBeforeAverage | Code/Foc/motor_control.c:275-277 | The order is needed: a calibration command right after boot reaches a modulation with a zero averaged bus voltage |
| Lifecycle.OpenLoopBounded | Code/Foc/startup.c:184-268 | In every run, between interrupts too, the open-loop angle, current and reference are in range; the interrupt that makes an open-loop call sets the reference to the ramp, at most one step past the limit of its state |
| Lifecycle.ReferenceStep | Code/Foc/startup.c:131-268 | One call of the start sequence keeps the reference on the axis of the observer, non-negative and within the open-loop limits |

## Left out

- IEEE rounding, NaN and infinities, and the size of `int32_t` and `int64_t` counters other than the casts written out.
- SpaceVector.FocSvm: takes the on-times to fit C's `int`, which the limiter guarantees; beyond that the C conversion is undefined.
- CurrentLoop.CurrentLoop.ControlCurrent: HFI and audio injection and `update_valpha_vbeta` are inputs or absent; the temperature-compensated gain, sine and cosine are inputs, the last two with unit norm.
- CurrentLimits.FoldLimits: takes the per-cause limits as inputs; how temperature, speed and voltage produce them is not modelled.
- Trig.SinLaw: holds of any table in [-1, 1]; the 513 literals are not repeated.
- Smo.RunBounded: the decay factor is a parameter in (0, 1) instead of an exponential.
- Encoder.Sensor.Init: the tracking gains and the snap threshold are constants of the encoder.
- Encoder.Tracks: the SPI exchange is reduced to a reading or a failure.
- Handlers.Dispatch: the averaging inside the offset check is reduced to its bus reading and its verdict; a check may come at any time, where the source makes it before the first main interrupt and tick only.
- Startup.Init: the observer-stability and transition times, which only the branches no call enters would read, are left out.
- Startup.Control: the branches of the six states that no call enters do nothing in the model.
- StopControl.Control: the short-brake states do nothing in the model, because they are unreachable.
- Calibration.Loop: the inductance, pole-pair and direction results are left out; they feed no control flow.
- MotorTypes.FastStop: `Uqd`, which nothing reads, is left out.
- Handlers.MotorSwInit: the observers other than the encoder and the d-voltage filter are initialised outside this record.
- Handlers.MainIsr: angle and speed of the observers other than the encoder, and high-frequency injection, are inputs of the step; the sliding-mode observer is modelled on its own in `Smo`.
- Handlers.Ticker: the voltage limits of the current regulators are inputs, and the 1 ms and 50 ms counters, which nothing reads, are absent.
- Handlers.CmdSpdSet: the displayed speed is left out, and so is the overflow of the magnitude of the smallest 32-bit command.
- Tachometer.Commutator.UpdateRpmTacho: the commutation timing is left out.
- Tachometer.Commutator.Commutate: the PWM-cycle bookkeeping and the timer programming are left out; hall readings outside 1 to 6 and the sampling-point selection are not modelled.
- `foc_correct_encoder`, MTPA, flux observer, field weakening, PI clearing, first-order and period filters on their own: they would only add easy members, or need files that are not part of this model.
- MotorTypes.Motor: the shared structures are records of one object, so no aliasing between pointers to them is modelled; the source has none.
- Peripheral set-up, ChibiOS threads, terminal, CAN, logging.
