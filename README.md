# Sphero race: motion planning and self-calibration

A Dafny model of the control logic of `sphero_race.py`, a script that drives a
Sphero BOLT robot round a taped track, lap after lap, by dead reckoning.

What is modelled:

- **Heading arithmetic** (`heading_deg`, `dist_m`, `apply_offset`, module
  `Motion`). Python's float `% 360` is `Mod360`, a floor-based remainder on
  reals, and `int()` is `Trunc`, truncation toward zero (module `RealMath`).
  `math.atan2` (in degrees) and `math.hypot` are the two uninterpreted
  functions of a `Trig` value that the operations needing them receive.
- **One lap** (`run_lap`, module `Lap` and `SpheroRace.Session.RunLap`). Each
  leg between consecutive waypoints issues five calls: its corrected heading,
  its speed, a sleep for the estimated drive time, a stop and a settle pause.
  The speed is `STRAIGHT_SPEED` on the first leg, and on later legs it is
  `TURN_SPEED` exactly when the leg turns more than 20 degrees away from the
  previous leg. A closing pause ends the lap.
- **Zeroing the locator** (`try_reset_locator`, module `Locator`). It tries
  `reset_locator`, then `set_location`, `set_locator` and `set_position` in
  that order, and stops at the first call that returns.
- **Self-calibration** (`auto_calibrate`, module `Calibration` and
  `SpheroRace.Session.AutoCalibrate`). It stops the robot and then takes one of
  these exits:
  - four skip exits: no `get_location`, reset failed, read failed, or too
    little motion. Each keeps the heading offset and speed coefficient;
  - two escapes: an exception from `reset_locator` other than
    `AttributeError`, or a division by a zero pulse time or pulse speed;
  - the success path: a test pulse at raw heading 0, then the new offset
    `(-angle_moved) % 360` and the clamped coefficient.
- **State and the robot.** The robot is a log of the calls made on it
  (`RobotApi.Cmd`; `time.sleep` is logged as a `Sleep` call). The two globals
  `HEADING_OFFSET` and `M_PER_S_AT_170` and that log are the fields of the
  class `SpheroRace.Session`. Its methods are proved against the functions
  `LapCommands`, `ResetSpec`, `Measure` and `CalibrationRun`. The constructor
  establishes the invariant `Valid()`, and `AutoCalibrate` and `RunLap` keep it.
  `TryResetLocator` and `MeasurePulse` run only inside `AutoCalibrate`; their
  contracts give the new log and state and do not mention `Valid()`. The
  invariant says:
  - the offset is in [0, 360);
  - the coefficient is in [0.45, 0.85];
  - every heading command was sent while the robot was stopped;
  - the robot is stopped now.
- **Robot responses are inputs.** Whether `get_location` exists and is
  callable is `Locator.Attribute`. Whether each reset operation returns,
  raises `AttributeError` or raises something else is
  `Locator.ResetResponses`. What `get_location` gives is
  `Calibration.LocationRead`. `supports_locator` is the predicate
  `Locator.SupportsLocator`.

With the default pulse (speed 120 for 0.70 s), a 0.60 m run measures
0.60 / 0.70 * 170 / 120 ≈ 1.214 m/s at speed 170, and the clamp at
sphero_race.py:168 lowers it to 0.85 (`Calibration.ExampleCoefficient`).

## Model

| member | source | states |
|---|---|---|
| RealMath.Mod360 | sphero_race.py:61 | Python's float `x % 360` with a positive divisor: `x - 360 * floor(x / 360)`; its range is stated by `Mod360Range` |
| RealMath.Trunc | sphero_race.py:196 | Python's `int()` on a float; its rounding toward zero is stated by `TruncTowardZero` |
| RealMath.Mod360Range | sphero_race.py:61 | Python's float `% 360` lies in [0, 360) and differs from its argument by a whole number of turns |
| RealMath.Mod360OfNormalized | sphero_race.py:67 | `% 360` leaves a value already in [0, 360) unchanged |
| RealMath.Mod360Periodic | sphero_race.py:67 | adding whole turns does not change `% 360` |
| RealMath.Mod360Congruent | sphero_race.py:67 | two values a whole number of turns apart have the same `% 360` |
| RealMath.TruncTowardZero | sphero_race.py:196 | `int()` on a float truncates toward zero: the result has the float's sign and is less than 1 away from it |
| Motion.HeadingDeg | sphero_race.py:58-61 | `heading_deg`: the atan2 angle (in degrees, +y downward) of the leg, reduced mod 360; properties in `HeadingRange` |
| Motion.DistM | sphero_race.py:63-64 | `dist_m`: `hypot` of the leg's displacement; sign in `DistNonNegative` |
| Motion.ApplyOffset | sphero_race.py:66-67 | `apply_offset`: heading plus the calibrated offset, reduced mod 360; properties in `ApplyOffsetRange` |
| Motion.CommandHeading | sphero_race.py:195-196 | `int(apply_offset(hdg))`, the heading put on the wire; properties in `CommandHeadingRange` |
| Motion.TurnMagnitude | sphero_race.py:189 | `abs((hdg - prev_hdg + 540) % 360 - 180)`; properties in `TurnBounds`, `TurnIsSmallestAngle`, `TurnSymmetric` |
| Motion.LegSpeed | sphero_race.py:186-190 | the leg speed from the previous heading (none on the first leg) and the current one; properties in `LegSpeedChoice` |
| Motion.Velocity | sphero_race.py:192 | `M_PER_S_AT_170 * (spd / 170.0)`, the estimated velocity |
| Motion.LegDuration | sphero_race.py:192-193 | `d / max(v_ms, 1e-6)`; properties in `LegDurationGuard` and `DurationCoversLeg` |
| Motion.HeadingRange | sphero_race.py:58-61 | `heading_deg` lies in [0, 360) and equals the atan2 angle up to whole turns |
| Motion.DistNonNegative | sphero_race.py:63-64 | `dist_m` is never negative when `hypot` is never negative |
| Motion.ApplyOffsetRange | sphero_race.py:66-67 | `apply_offset` lies in [0, 360) and equals heading plus offset up to whole turns |
| Motion.CommandHeadingRange | sphero_race.py:195-196 | the heading sent, `int(apply_offset(hdg))`, is a whole degree in 0..359 and is the corrected heading rounded down |
| Motion.OffsetCancelsBias | sphero_race.py:164-165 | an offset of `(-bias) % 360` added by `apply_offset` cancels a heading bias: the robot's heading is the requested heading mod 360 |
| Motion.TurnBounds | sphero_race.py:189 | the turn magnitude lies in [0, 180] and is 0 when the two headings are equal |
| Motion.TurnIsSmallestAngle | sphero_race.py:189 | for normalized headings the turn magnitude is the smaller of the two angles between them |
| Motion.TurnSymmetric | sphero_race.py:189 | turning from a to b is as sharp as turning from b to a |
| Motion.LegSpeedChoice | sphero_race.py:186-190 | a leg's speed is 180 or 140: 180 on the first leg, and on later legs 140 exactly when the turn exceeds 20 degrees |
| Motion.LegDurationGuard | sphero_race.py:192-193 | the divisor of the leg duration is at least 1e-6; the duration is non-negative for a non-negative length and 0 for a zero-length leg; duration times divisor is the length |
| Motion.DurationCoversLeg | sphero_race.py:192-193 | with a coefficient in its clamp bounds the 1e-6 floor never engages: duration times estimated velocity is the leg length |
| Motion.ClampCoefficient | sphero_race.py:168 | `max(0.45, min(0.85, v))` lies in [0.45, 0.85], is v when v is in bounds, and is the nearer bound otherwise |
| Lap.LegCommands | sphero_race.py:195-200 | the five calls of one leg: corrected heading, speed, drive time, stop, settle pause; order stated by `LegInLap`, safety by `LegSteersWhenStopped` |
| Lap.LegsFrom | sphero_race.py:181-202 | the loop from leg i on, carrying `prev_hdg` forward, issues five calls per remaining leg |
| Lap.LapCommands | sphero_race.py:175-208 | a lap issues five calls per leg (one leg per consecutive waypoint pair) and a closing pause |
| Lap.LegsFromStep | sphero_race.py:181-202 | one loop iteration, with `prev_hdg` the previous leg's heading, issues the leg described by its index, then the rest of the loop with `prev_hdg` set to this leg's heading |
| Lap.LegsFromAt | sphero_race.py:181-202 | call p of leg k sits at position 5(k - i) + p of the loop from leg i on |
| Lap.LapCommandAt | sphero_race.py:181-200 | each call of a lap's legs is read off the leg at index j / 5 + 1 |
| Lap.LegInLap | sphero_race.py:181-200 | leg i issues, in order, its corrected heading, a non-zero speed, its duration, a stop and the settle pause |
| Lap.FirstLegStraight | sphero_race.py:186-187 | the first leg of a lap goes at STRAIGHT_SPEED |
| Lap.LaterLegSpeed | sphero_race.py:188-190 | every later leg goes at TURN_SPEED exactly when its turn from the previous leg's uncorrected heading exceeds 20 degrees, else at STRAIGHT_SPEED |
| Lap.LapCommandRanges | sphero_race.py:186-197 | every heading a lap sends is in 0..359 and every speed is 0, 140 or 180 |
| Lap.LegDurationNonNegative | sphero_race.py:192-193 | no leg drives for a negative time when `hypot` is never negative |
| Lap.LapSleepsNonNegative | sphero_race.py:192-208 | no sleep of a lap is negative when `hypot` is never negative |
| Lap.LegSteersWhenStopped | sphero_race.py:196-200 | one leg sends its heading while stopped and ends stopped |
| Lap.LegsFromSteerWhenStopped | sphero_race.py:181-202 | the loop from any leg on sends every heading while stopped and ends stopped |
| Lap.LapSteersWhenStopped | sphero_race.py:175-208 | a whole lap sends every heading while stopped and ends stopped |
| Lap.LapKeepsSafe | sphero_race.py:175-208 | a lap after any log that steered only while stopped, and is stopped, keeps both true |
| Lap.TrackLap | sphero_race.py:31-42 | the track's ten waypoints make nine legs, start and finish at the same point, and a lap on it issues 46 calls |
| Locator.SupportsLocator | sphero_race.py:103-104 | `get_location` exists and is callable; its role as the first gate of calibration is stated by `Calibration.CalibratedIff` |
| Locator.ResetSpec | sphero_race.py:106-117 | `try_reset_locator` given the robot's responses: the result and the calls made; characterised by `ResetAttempts`, `ResetTriesInOrder`, `ResetOutcomes` |
| Locator.CallLog | sphero_race.py:111-113 | the calls logged for a list of reset attempts are those attempts, one call each, in order |
| Locator.FirstReturned | sphero_race.py:111-116 | the index of the first operation whose call returns: all before it raise, and it returns (or is past the end) |
| Locator.TryEach | sphero_race.py:111-117 | the fallback loop never raises: an exception from a fallback moves on to the next one |
| Locator.TryEachStopsAtFirstReturned | sphero_race.py:111-117 | the fallback loop calls the fallbacks up to the first one that returns and succeeds, or calls all of them and fails |
| Locator.ResetAttempts | sphero_race.py:106-117 | the calls of `try_reset_locator` are `reset_locator` alone unless it raises AttributeError, and otherwise the full order up to the first fallback that returns |
| Locator.ResetTriesInOrder | sphero_race.py:106-117 | the calls are a non-empty prefix of the order reset_locator, set_location, set_locator, set_position; all but the last raised; the last returned exactly on success |
| Locator.ResetOutcomes | sphero_race.py:106-117 | True exactly when reset_locator returns, or it is missing and some fallback returns; False exactly when it is missing and every fallback raises; an exception escapes exactly when reset_locator raises something other than AttributeError |
| Calibration.LocGet | sphero_race.py:149-150 | `loc.get(key, 0.0)`: the reading's value for the key, or 0.0 when the key is absent |
| Calibration.PulseCommands | sphero_race.py:141-145 | the test pulse: `set_heading(0)`, `set_speed(pulse_speed)`, `sleep(pulse_time)`, `set_speed(0)`, `sleep(0.25)`; placed in the log by `CalibratedResult`, safety by `SafeThenPulse` |
| Calibration.CalibrationRun | sphero_race.py:119-173 | `auto_calibrate` given the robot's responses: outcome, calls, new offset and coefficient; characterised by the lemmas below |
| Calibration.Measure | sphero_race.py:147-168 | the tail of `auto_calibrate` from the location read on, including the offset written before a division by zero |
| Calibration.CalibratedOffset | sphero_race.py:164-165 | the new offset lies in [0, 360) and, applied to the measured direction of travel, gives heading 0 |
| Calibration.MeasuredCoefficient | sphero_race.py:167-168 | the new coefficient lies within its clamp bounds |
| Calibration.SkipsKeepCalibration | sphero_race.py:128-162 | every skip exit, and the escape from reset_locator, keeps the offset and coefficient |
| Calibration.CalibratedIff | sphero_race.py:128-168 | calibration succeeds exactly when get_location is callable, the reset succeeds, the read succeeds, the robot moved at least 0.02 m, and neither pulse parameter is 0 |
| Calibration.CalibratedResult | sphero_race.py:141-168 | on success the pulse at raw heading 0 and pulse speed precedes the read; the offset is in [0, 360) and cancels the measured direction; the coefficient is the clamped measurement |
| Calibration.CalibrationKeepsRanges | sphero_race.py:119-173 | on every path the offset stays in [0, 360) and the coefficient in its bounds |
| Calibration.SafeStart | sphero_race.py:124-126 | the opening stop-and-pause is a safe log: stopped, and no heading sent |
| Calibration.CalibrationStartsStopped | sphero_race.py:124-126 | on every path the calibration log opens with `set_speed(0)` and the 0.2 s pause |
| Calibration.SafeThenPulse | sphero_race.py:141-148 | the test pulse sends its heading while stopped and ends stopped |
| Calibration.CalibrationEndsStopped | sphero_race.py:124-173 | on every exit the last speed commanded is 0 and every heading command is sent while stopped |
| Calibration.CalibrationKeepsSafe | sphero_race.py:119-173 | calibration after any log that steered only while stopped, and is stopped, keeps both true |
| Calibration.ExampleCoefficient | sphero_race.py:167-168 | 0.60 m in 0.70 s at pulse speed 120 gives a coefficient clamped to 0.85 |
| Calibration.ExampleOffsetDown | sphero_race.py:164-165 | travel measured at atan2 angle -90 gives an offset of 90 |
| SpheroRace.Session.constructor | sphero_race.py:24-28 | the script starts with no calls made, offset 0.0 and coefficient 0.60, and the invariant holds |
| SpheroRace.Session.TryResetLocator | sphero_race.py:106-117 | the loop returns the result of ResetSpec and logs exactly its attempts, in order |
| SpheroRace.Session.AutoCalibrate | sphero_race.py:119-173 | the run ends as CalibrationRun says, logs its calls, sets the offset and coefficient it gives, and keeps the invariant |
| SpheroRace.Session.MeasurePulse | sphero_race.py:147-168 | from the location read on, the method ends, logs and updates both globals as Measure says |
| SpheroRace.Session.RunLap | sphero_race.py:175-208 | the loop logs exactly LapCommands for the current offset and coefficient and keeps the invariant |

## Left out

- Status display (`safe_matrix_char`, `show_countdown`, `battery_led`, `COUNTDOWN_S`): LED and matrix output whose exceptions are all swallowed. It does not affect any control decision.
- Device discovery, the connection, `main`, its retry loop and the endless lap loop: Bluetooth and process plumbing.
- `print` diagnostics: output only.
- The clock (`time.time`, the lap time): sleeps are logged as calls carrying their duration; no time passes in the model.
- `math.atan2`, `math.degrees` and `math.hypot` are uninterpreted. The only fact assumed about them is that `hypot` is never negative (`Trig.Sound`), and only where a lemma says so. No concrete heading or calibration value of the track is computed.
- Floating-point rounding: the model computes on exact reals. For example, a tiny negative float `% 360` can round to 360.0 in Python, while `Mod360` stays below 360.
- `SEGMENTS_DISTANCE_TURNS` (sphero_race.py:45-55) is never read by the script.
- SpheroRace.Session.RunLap takes the waypoint list as a parameter instead of reading `WAYPOINTS`; `Lap.TrackLap` states the facts about `WAYPOINTS` itself.
- SpheroRace.Session.MeasurePulse is the tail of `auto_calibrate` after the test pulse, split out as its own method; `AutoCalibrate` calls it.
- Exceptions raised by `set_speed`, `set_heading` or `time.sleep` (for instance a negative pulse time) are not modelled. Only the exceptions that `auto_calibrate` and `try_reset_locator` handle or let escape on purpose are modelled.
- A reset operation that does not exist raises `AttributeError` when looked up: `reset_locator` itself (sphero_race.py:108-109) or a fallback (sphero_race.py:113). The model still logs each such attempt as a `Reset` call.
