# PCA9685 servo presser: a verified model of the motion core

`demos/pca_servos.py` presses two servo-driven buttons through a PCA9685 PWM chip on an I2C bus.
The core it implements:

- it converts an angle (degrees) to a pulse width (microseconds) and then to a 16-bit duty value;
- it keeps a controller object that remembers the last angle written to each channel;
- it moves a channel smoothly, by writing a ramp of angles STEP_DEG apart, with a sleep after each;
- it runs press cycles (ramp to the press angle, hold, ramp back to rest) for the left channel, the right channel, or both;
- it keeps a module-level singleton controller. The controller is built lazily, driving both channels to rest. Reconfiguring the driver or calling `close` tears the controller down; closing returns the channels to rest and releases the chip, and it never fails.

The project models that core in Dafny and proves properties of it:

- `settings.dfy` (module `Settings`): the tunables as one `Config` value, and their default values.
- `conversion.dfy` (module `Conversion`): the pure unit conversions, with their range, clamping and monotonicity lemmas.
- `motion.dfy` (module `Motion`): the specification of the sequencer.
  - `Ramp` gives the angles the loop of `move_smooth` visits.
  - `MoveTrace`, `PressOnceTrace`, `PressBothTrace`, `RestTrace` and `IsCloseTrace` give the exact hardware events each operation produces.
  - `Replay` gives the tracked angles after a sequence of events.
  - `Progress` describes a run that a failing write or a refused sleep cut short.
  - The lemmas state what these traces guarantee.
- `hardware.dfy` (module `Hardware`): the chip and the clock as a class `Hal`.
  - `Hal` keeps a ghost log of events.
  - A duty write or a `deinit` may fail; nothing decides which.
  - A sleep fails when its duration is negative, as Python's `time.sleep` raises `ValueError` then.
  - A write logs the channel, the duty value and, for the model's sake, the commanded angle.
- `servo.dfy` (module `Servo`): class `PcaPress`, modelling `_PCAPress`.
  - Its field `angle` is the `_angle` dict.
  - Every method states the events it appended to the log in terms of the traces `Motion` prescribes: a `Progress` for the moves and presses, `IsCloseTrace` for close, and the single write for `set_angle`.
  - Every method states how the tracked angles follow from those events.
- `lifecycle.dfy` (module `Lifecycle`): class `Driver`, modelling the module globals.
  - It holds the current `Config` and `_controller`.
  - It has the public `press_*`, `close` and `set_*` functions.

## How the model relates to the code

- **Tunables.** The Python functions read the module globals at call time. So every controller method takes the current `Config` as a parameter, and `Driver` passes its own.
- **Exceptions.** A hardware failure in the Python raises an exception out of the operation, and so does `time.sleep` given a negative duration. In the model a failure is an `ok == false` result (or `Raised` from a press). Everything logged up to the failing call stays in the log, and the failing call itself is not logged.
- **Tracked angles.** The tracked angles are exactly the replay of the successful writes.
- **A failed press keeps the controller.** After a failed press the controller stays live with the angles it tracked so far, because the code does not discard it. The next call reuses it.
- **Setters close with the new values.** `set_channels`, `set_angles` and `set_pulse_range` assign the new globals *before* closing the live controller. The old controller's final rest writes therefore already use the new channels, rest angles or pulse range. The model does the same: each setter's contract states `IsCloseTrace` for the new configuration.
- **No configuration validation.** The setters validate nothing. An inverted pulse range or a negative step is accepted, so the model has no preconditions on them:
  - a step of zero or less makes every move a single write (`MoveNonPositiveStep`);
  - the pulse bounds are only guaranteed for an ordered range.
- **Negative delays.** STEP_DELAY and PRESS_HOLD are not checked either. A negative STEP_DELAY makes the sleep after the first ramp angle raise, so every move that ramps fails after one write (`NegativeDelayFailsRamp`); a move that is a single write is unaffected. A negative PRESS_HOLD makes every press fail at its hold, once the press angle has been reached (`NegativeHoldFailsOnce`, `NegativeHoldFailsBoth`).
- **Frequency.** A duty value is computed only for a non-zero frequency, because the Python divides by it. A `Driver` needs a positive frequency, because the chip's frequency setter rejects any other, so no controller can exist without one.

## Model

| member | source | states |
|---|---|---|
| Conversion.Clamp | demos/pca_servos.py:55-56 | result is `lo` below the range, `hi` above it, `x` inside it, and within [lo, hi] whenever lo <= hi |
| Conversion.Trunc | demos/pca_servos.py:61 | Python `int()` of a float: the integer next to `x` toward zero (floor for x >= 0, ceiling below) |
| Conversion.AngleToPulseUs | demos/pca_servos.py:59-61 | with MIN_US <= MAX_US the pulse lies in [MIN_US, MAX_US] |
| Conversion.AngleToPulseClamps | demos/pca_servos.py:55-61 | angle 0 gives exactly MIN_US, 180 exactly MAX_US; any angle <= 0 gives the pulse of 0 and any angle >= 180 the pulse of 180 |
| Conversion.AngleToPulseMonotone | demos/pca_servos.py:59-61 | with MIN_US <= MAX_US a larger angle never gives a shorter pulse |
| Conversion.PulseUsToDuty | demos/pca_servos.py:64-67 | for every pulse and non-zero frequency the duty lies in [0, 0xFFFF] |
| Conversion.PulseUsToDutyMonotone | demos/pca_servos.py:64-67 | for a positive frequency a longer pulse never gives a smaller duty |
| Conversion.AngleToDuty | demos/pca_servos.py:84-85 | the duty `set_angle` writes lies in [0, 0xFFFF] |
| Conversion.AngleToDutyMonotone | demos/pca_servos.py:84-85 | with an ordered pulse range and positive frequency the duty written is monotone in the angle |
| Conversion.DefaultPulses | demos/pca_servos.py:59-61 | under the default range 90, 40 and 45 degrees give 1500, 944 and 1000 us |
| Conversion.DefaultDuties | demos/pca_servos.py:64-67 | at 50 Hz those angles give duty values 4915, 3093 and 3276 |
| Motion.WriteOf | demos/pca_servos.py:83-85 | the event `set_angle(ch, angle)` issues: a write to `ch` of the commanded angle with the converted duty, which lies in [0, 0xFFFF] |
| Motion.Continues | demos/pca_servos.py:96 | the loop guard: `a` is strictly below the target with a positive step, or strictly above it with a negative one |
| Motion.Ramp | demos/pca_servos.py:94-99 | the angles the loop writes: `a`, then the ramp from `a + step`, while the guard holds (its shape is `RampShape`) |
| Motion.StartAngle | demos/pca_servos.py:89 | `_angle.get(ch, target)`: the tracked angle, or the target for an untracked channel |
| Motion.StepOf | demos/pca_servos.py:94 | STEP_DEG when the target is above the start, otherwise -STEP_DEG |
| Motion.MoveAngles | demos/pca_servos.py:89-99 | no loop angles when the start equals the target, otherwise the ramp from the start with the signed step |
| Motion.StepTrace | demos/pca_servos.py:96-99 | each loop angle gives its write followed by a sleep of STEP_DELAY |
| Motion.MoveTrace | demos/pca_servos.py:88-100 | a whole `move_smooth`: the loop's writes and sleeps, then the write of the target |
| Motion.PressOnceTrace | demos/pca_servos.py:102-105 | the move to the press angle, one sleep of PRESS_HOLD, the move back to rest from the press angle |
| Motion.PressBothTrace | demos/pca_servos.py:115-123 | left to press, right to press, one hold, left to rest, right to rest, each move from the angles the previous ones left |
| Motion.RestTrace | demos/pca_servos.py:79-81 | the write of the left rest angle, then the write of the right rest angle |
| Motion.SeedAngles | demos/pca_servos.py:77-81 | the table after seeding tracks exactly the two configured channels, the right one at its rest angle and the left one at its own when the channels differ |
| Motion.IsCloseTrace | demos/pca_servos.py:125-135 | what `close` may log: none, the first or both rest writes, then a release unless `deinit` failed |
| Motion.Apply | demos/pca_servos.py:86 | one logged event's effect on the table: a write sets its channel to its commanded angle, anything else changes nothing |
| Motion.Replay | demos/pca_servos.py:83-86 | the table after a sequence of logged events: each successful write recorded in turn, so the last write to a channel wins |
| Motion.Progress | demos/pca_servos.py:85-119 | a run cut short by a raise: nothing logged holds a refused sleep; a success logged the whole trace; a failure logged exactly the trace before some write (line 85) or negative sleep (lines 99, 104, 119), and nothing after it |
| Motion.RefusedFails | demos/pca_servos.py:99 | a trace that holds a negative sleep has no successful run |
| Motion.RampMeasureDecreases | demos/pca_servos.py:96-98 | each turn of the ramp loop strictly decreases a non-negative measure, so the loop terminates for exact reals (see Left out for floats) |
| Motion.RampShape | demos/pca_servos.py:94-99 | the loop writes a ramp exactly when its guard holds at the start; it begins at the start angle, consecutive angles differ by the step, every angle satisfies the guard and lies on the start side, and one more step would fail the guard |
| Motion.MoveSingleWrite | demos/pca_servos.py:88-92 | an untracked channel, or one already at the target, gets exactly one write, of the target |
| Motion.MoveNonPositiveStep | demos/pca_servos.py:94-96 | with STEP_DEG <= 0 the loop never runs and every move is exactly one write of the target |
| Motion.MoveRamp | demos/pca_servos.py:94-100 | with STEP_DEG > 0 and a tracked start away from the target, the loop writes start, start +- STEP_DEG, ..., all strictly on the start side of the target, and stops at the first angle that would reach or pass it |
| Motion.MoveEndsAtTarget | demos/pca_servos.py:100 | every move ends with one write of the exact target |
| Motion.MoveFortyToNinety | demos/pca_servos.py:94-99 | from 40 to 90 degrees with step 2 the loop writes exactly 40, 42, ..., 88 (25 angles) |
| Motion.MoveNoOvershoot | demos/pca_servos.py:88-100 | every event of a move is a write to its channel of an angle between the start and the target (and, with an ordered range, of a duty between theirs) or a sleep of STEP_DELAY; none is a release |
| Motion.MoveTracks | demos/pca_servos.py:86-100 | after a complete move the channel is tracked at the target and every other channel as before |
| Motion.MoveTraceLocal | demos/pca_servos.py:88-89 | a move of a channel depends on the tracked angles only through that channel's own |
| Motion.WriteIdempotent | demos/pca_servos.py:83-86 | repeating `set_angle(ch, a)` repeats the identical write and leaves the tracked angles as one call did: `ch` at `a`, the rest unchanged |
| Motion.PressOnceTracks | demos/pca_servos.py:102-105 | a complete `press_once` leaves the channel tracked at the rest angle and all others unchanged |
| Motion.PressOnceRewritesPress | demos/pca_servos.py:102-105 | with a positive step and press != rest, the press angle is written, held, and written again as the first write of the return ramp |
| Motion.PressBothInterleaves | demos/pca_servos.py:115-123 | on distinct channels `press_both` is left press ramp, right press ramp, one hold, left return ramp, right return ramp, each ramp exactly the one that channel's own `press_once` performs |
| Motion.PressBothTracks | demos/pca_servos.py:115-123 | a complete `press_both` leaves both channels tracked at their rest angles |
| Motion.RestTraceSeeds | demos/pca_servos.py:79-81 | the two rest writes seed exactly {left: LEFT_REST, right: RIGHT_REST} from an empty table |
| Motion.FreshPressRampsFromRest | demos/pca_servos.py:79-81 | with STEP_DEG > 0 and distinct left and right channels, the first left press from the freshly seeded table starts by writing the left rest angle (when press equals rest, that write is the single write of the move) |
| Motion.NegativeHoldFailsOnce | demos/pca_servos.py:102-105 | with PRESS_HOLD < 0 no run of `press_once` succeeds |
| Motion.NegativeHoldFailsBoth | demos/pca_servos.py:115-123 | with PRESS_HOLD < 0 no run of `press_both` succeeds |
| Motion.NegativeDelayFailsRamp | demos/pca_servos.py:94-99 | with STEP_DELAY < 0 no move whose loop runs succeeds |
| Motion.CloseOnlyRests | demos/pca_servos.py:125-135 | closing writes at most the left rest then the right rest, never sleeps, and releases the chip at most once, last |
| Hardware.Hal.SetDuty | demos/pca_servos.py:85 | a successful duty write appends exactly that write to the log; a failed one appends nothing |
| Hardware.Hal.Sleep | demos/pca_servos.py:99 | a sleep succeeds when its duration is non-negative and then appends exactly one sleep event; a negative one is refused and appends nothing |
| Hardware.Hal.Deinit | demos/pca_servos.py:133 | a successful release appends one release event; a failed one nothing |
| Servo.PcaPress.constructor | demos/pca_servos.py:71-77 | a new controller on the given chip with an empty angle table |
| Servo.PcaPress.Open | demos/pca_servos.py:71-81 | construction writes left rest then right rest, stopping at a failing write; on success the table is exactly the seeded rest angles |
| Servo.PcaPress.SetAngle | demos/pca_servos.py:83-86 | exactly one write of the converted duty to `ch`; on success `ch` is tracked at the unclamped angle and no other channel changes; on failure nothing changes |
| Servo.PcaPress.MoveSmooth | demos/pca_servos.py:88-100 | the log gains a prefix of `MoveTrace` cut at a failing write or a refused sleep (all of it on success), and the table is the replay of what was logged |
| Servo.PcaPress.StepTowards | demos/pca_servos.py:94-99 | the loop logs a write and a sleep for each ramp angle, up to a failing write or a refused sleep, and tracks what it wrote |
| Servo.PcaPress.PressOnce | demos/pca_servos.py:102-105 | the log gains a prefix of `PressOnceTrace` cut at a failing write or a refused sleep (the hold included), and the table is its replay |
| Servo.PcaPress.PressLeft | demos/pca_servos.py:107-109 | `press_once` with the left channel's angles; "OK" exactly when it completed |
| Servo.PcaPress.PressRight | demos/pca_servos.py:111-113 | `press_once` with the right channel's angles; "OK" exactly when it completed |
| Servo.PcaPress.PressBoth | demos/pca_servos.py:115-123 | the log gains a prefix of `PressBothTrace` cut at a failing write or a refused sleep; "OK" exactly when it completed; the table is its replay |
| Servo.PcaPress.Close | demos/pca_servos.py:125-135 | whatever fails, the log gains a close trace (the rest writes up to the first failure, then the release unless it failed) and no failure is reported |
| Lifecycle.Driver.constructor | demos/pca_servos.py:138 | the driver starts with the given configuration and no live controller |
| Lifecycle.Driver.Get | demos/pca_servos.py:141-145 | a live controller is returned unchanged with nothing logged; otherwise one is built, seeding both channels at rest, and kept exactly when both rest writes were logged; the table is the replay of what was logged |
| Lifecycle.Driver.PressLeft | demos/pca_servos.py:176-177 | the log gains a prefix of the seeding (only when no controller was live) followed by the left press cycle from the live or freshly seeded angles; a live controller stays live, a new one is kept exactly when the seeding completed, and whatever the outcome its table is the replay of what was logged; on "OK" the left channel is tracked at rest |
| Lifecycle.Driver.PressRight | demos/pca_servos.py:179-180 | as for the left, with the right channel |
| Lifecycle.Driver.PressBoth | demos/pca_servos.py:182-183 | the seeding when needed, then `press_both`, with the same guarantees on the kept controller and its table; on "OK" both channels are tracked at rest |
| Lifecycle.Driver.Close | demos/pca_servos.py:185-189 | a live controller is closed (a close trace, never a failure) and forgotten; with none, nothing happens |
| Lifecycle.Driver.SetChannels | demos/pca_servos.py:149-154 | the channels change, then any live controller is closed under the new configuration and forgotten |
| Lifecycle.Driver.SetAngles | demos/pca_servos.py:157-163 | the four angles change, then any live controller is closed under the new configuration and forgotten |
| Lifecycle.Driver.SetPulseRange | demos/pca_servos.py:166-171 | the pulse range changes, then any live controller is closed under the new configuration and forgotten |

## Left out

- Bus and chip set-up (demos/pca_servos.py:72-74, the `busio.I2C` and `PCA9685` constructors and the `frequency` setter) are foreign library calls. Their failure is not modelled separately: construction fails in the model only at one of the two rest writes.
- The internals of `deinit` and of the duty-cycle property are foreign library calls. Writes and `deinit` are modelled as calls that may fail, which covers a bus error and a channel the chip does not have alike.
- `time.sleep` is logged as an event with its duration, and a negative duration is refused. Timing and blocking are not modelled.
- Environment parsing of the tunables (demos/pca_servos.py:33-52) is left out. The values are a `Config` parameter, and `Settings.Defaults` holds the literal defaults.
- The command-line entry point (demos/pca_servos.py:193-211) is a thin wrapper and is not part of this model.
- Python floats are modelled as exact reals. Rounding in `a += step` and in the divisions is not modelled. For example, with step 0.1 from 0 to 1 the model writes 10 loop angles, while ten float additions of 0.1 give 0.9999999999999999 < 1.0, so Python makes an 11th loop write.
- Hardware.Hal.Sleep: a duration too large for `time.sleep` (above about 9.2e9 seconds, which overflows its 64-bit nanosecond count and raises `OverflowError`) succeeds in the model, so a press with such a PRESS_HOLD or STEP_DELAY can complete here where the source raises. The exact bound depends on float rounding and the platform's clock type.
- Motion.RampMeasureDecreases: termination of the ramp loop is proved for exact reals only. With floats, a STEP_DEG below the rounding step at the current angle (1e-20 from 40 to 90, say) leaves `a` unchanged, and the Python loop never ends.
- NaN and infinite angles or steps, which Python floats allow, have no counterpart among the reals.
- The `int(...)` and `float(...)` conversions in the setters are identities on the model's `int` and `real` arguments.
- Python's exception types are reduced to "failed". Which write or call raised, and with what error, is not distinguished.
