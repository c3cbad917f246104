# Mecanum pallet robot: control logic in Dafny

A model of the control logic of a four-wheel mecanum robot that picks a pallet up at one ArUco
marker and sets it down at another. It covers these parts:

- **Wire protocol** (`CommandHandling`): the text protocol spoken to the motor controller. The
  serial port is an append-only log of strings.
- **Manoeuvres** (`RobotUtils`):
  - the inverse kinematics, which scale the slowest wheel to exactly 20 RPM;
  - the rotation time;
  - the timed turns, back-offs and strafes built on them.
- **Shared store** (`SharedState`): the store the vision, web and control threads share, with
  its quirks. The initial mode is spelled "manul", and the picking status lives in a field that
  `__init__` never creates.
- **Target tracking** (`Targeting`): the target that tracks one marker from the pose lists the
  vision thread publishes.
- **Final approach** (`DirectDriving`): the PD controller of the final approach and its per-wheel
  change filter.
- **Fork stepper** (`Forklift`): the fork's stepper motor. It runs an 8-row half-step table, goes
  up for a fixed time and comes down until a limit switch closes.
- **Pick-and-place procedures** (`RobotControl`): `picking_sequence` and `put_off_pallet`. Each
  is a specification function over a `Rig` value plus a method on the objects, proved equal to
  the function.
- **Control thread** (`ControlThread`): the control thread `ExeRobotControl`. The function
  `Iteration` gives one pass of its loop and `Running` gives a run of passes. The class methods
  are proved to do exactly what these functions say, and lemmas state what every iteration
  keeps, how the fork is homed, and how a pick-and-place cycle can end.
- **Older controller** (`ClippedControl`): a clipped proportional controller with its
  `SET_SPEED;...` formatter.
- **Angle and unit helpers** (`MathUtils`, `ArucoUtils`): two angle normalisers and a
  metres-to-centimetres conversion.

The rest of the world is given to each operation as explicit readings:

- the clock is a `Timer`: a start time and the successive values `time.time()` returns;
- the limit switch is a sequence of booleans;
- the vision thread's output is a sequence of pose lists;
- `sin` and `cos` are function parameters.

When the readings run out before the condition the source waits for, the operation ends as
`Blocked` (or an iteration as `Waiting`). That is where the source would still be busy-waiting.

Behaviours of the code the model keeps:

- `kinematics` divides by the slowest raw wheel speed without a guard. `Kinematics` requires
  `Drivable`. What a zero raw wheel speed does depends on its type. In `directDrive` the speeds
  are Python floats, the division raises ZeroDivisionError, and the model keeps that as an
  outcome of its own. In `AlignX` the sideways speed is a numpy float64, so the division gives
  an infinity and every scaled speed is not-a-number: `AlignX` sends four
  `SET_SPEED_MOTOR_n:RPM:nan;` lines and returns, and `picking_sequence` carries on.
- `AlignX` backs off only when `v * cos(angle) < 30`, and the speed it splits into a sideways
  and a forward part is the target's distance.
- `picking_sequence` does not search for its marker. It returns None when the marker is not
  visible at its first lookup. Only `put_off_pallet` turns to search.
- Between `picking_sequence` and `put_off_pallet` the automatic cycle only backs off
  (`AlignBackward`); the fork does not move.
- The loop catches no exception: an exception ends the thread (`Crashed`).
- The picking status is stored under `_start_picking_status`, and the initial mode is "manul".
- `put_off_pallet` is called with the pick alignment flags; the drop flags are never read.

## Model

| member | source | states |
|---|---|---|
| CommandHandling.NumText | robotExe/RobotControl/CommandHandler.py:19-40 | the text of an interpolated value is non-empty and holds no newline, `;` or `:` |
| CommandHandling.NumTextRoundTrip | robotExe/RobotControl/CommandHandler.py:19-40 | every value reads back as itself: int, whole float or not-a-number ("nan") |
| CommandHandling.SpeedLine | robotExe/RobotControl/CommandHandler.py:19-40 | a speed command ends in `;` and a newline |
| CommandHandling.PidLine | robotExe/RobotControl/CommandHandler.py:43-45 | a PID command ends in `;` and a newline |
| CommandHandling.SpeedLines | robotExe/RobotControl/CommandHandler.py:48-53 | `sendSpeedCommand` emits exactly four lines |
| CommandHandling.SpeedLineRoundTrip | robotExe/RobotControl/CommandHandler.py:19-40 | `SET_SPEED_MOTOR_<n>:RPM:<v>;` parses back to the motor number and the value |
| CommandHandling.SpeedLinesInOrder | robotExe/RobotControl/CommandHandler.py:48-53 | the four lines address motors 0, 1, 2, 3 in order with fl, fr, rl, rr |
| CommandHandling.SpeedLinesAddressMotors | robotExe/RobotControl/CommandHandler.py:48-53 | line m of a speed command parses to motor m and that motor's value |
| CommandHandling.SpeedLineIsOneLine | robotExe/RobotControl/CommandHandler.py:19-40 | a speed command contains exactly one newline |
| CommandHandling.PidLineIsOneLine | robotExe/RobotControl/CommandHandler.py:43-45 | a PID command contains exactly one newline |
| CommandHandling.CommandHandler.constructor | robotExe/RobotControl/CommandHandler.py:6-12 | keeps baud rate and port; nothing written yet |
| CommandHandling.CommandHandler.SendData | robotExe/RobotControl/CommandHandler.py:14-17 | appends its argument unchanged; earlier writes are kept |
| CommandHandling.CommandHandler.SetFLSpeed | robotExe/RobotControl/CommandHandler.py:19-22 | appends exactly the motor-0 speed line |
| CommandHandling.CommandHandler.SetFRSpeed | robotExe/RobotControl/CommandHandler.py:25-28 | appends exactly the motor-1 speed line |
| CommandHandling.CommandHandler.SetRLSpeed | robotExe/RobotControl/CommandHandler.py:31-34 | appends exactly the motor-2 speed line |
| CommandHandling.CommandHandler.SetRRSpeed | robotExe/RobotControl/CommandHandler.py:37-40 | appends exactly the motor-3 speed line |
| CommandHandling.CommandHandler.SendPidCommand | robotExe/RobotControl/CommandHandler.py:43-45 | appends exactly `SET_PID_MOTOR_<m>;Kp:..;Ki:..;Kd:..;` and a newline |
| CommandHandling.CommandHandler.SendSpeedCommand | robotExe/RobotControl/CommandHandler.py:48-55 | appends the four speed lines, motors 0 to 3 |
| CommandHandling.CommandHandler.ReadUart | robotExe/RobotControl/CommandHandler.py:57-62 | returns the received line stripped: no leading or trailing whitespace, never longer |
| Text.IntText | robotExe/RobotControl/CommandHandler.py:19-40 | `str(int)`: non-empty, a minus sign exactly for negatives, otherwise digits |
| Text.IntTextRoundTrip | robotExe/RobotControl/CommandHandler.py:19-40 | the text of every integer parses back to it |
| Text.NatTextRoundTrip | robotExe/RobotControl/CommandHandler.py:19-40 | the digits of every natural number parse back to it |
| Text.Strip | robotExe/RobotControl/CommandHandler.py:60 | `str.strip()`: the slice between the first and last non-whitespace characters |
| Text.StripDropsNewline | robotExe/RobotControl/CommandHandler.py:57-62 | a line and its body without the newline strip to the same text |
| Text.StripIdempotent | robotExe/RobotControl/CommandHandler.py:60 | stripping twice is stripping once |
| PyMath.Abs | robotExe/RobotControl/RobotUtils.py:37 | `abs`: non-negative and equal to x or -x |
| PyMath.Radians | new_app/RobotControl/Target.py:20 | `radians` keeps the sign of the angle |
| PyMath.Round | robotExe/RobotControl/DirectDriveController.py:106-109 | `round`: within one half of x, ties to the even integer |
| PyMath.RoundIsUnique | robotExe/RobotControl/DirectDriveController.py:106-109 | those two properties determine `round` completely |
| PyMath.Trunc | current_state_app_v2/robot_control.py:40 | `int(x)`: rounds toward zero |
| PyMath.FloorMod | current_state_app/mathUtils.py:49 | Python's `%` with a positive divisor lies in [0, m) |
| PyMath.FloorModCongruent | current_state_app/mathUtils.py:49 | x minus x % m is the floor of x / m times m |
| PyMath.FloorModPeriodic | current_state_app/mathUtils.py:49 | adding the divisor does not change x % m |
| PyMath.FloorModIdentity | current_state_app/mathUtils.py:49 | on [0, m), x % m is x |
| Lookup.First | current_state_app_v2/robot_control.py:44 | `next(...)`: the first index whose element matches, None when none does |
| Lookup.FirstIsUnique | current_state_app_v2/robot_control.py:44 | a matching index with no earlier match is the one `next` finds |
| Lookup.FirstOfAppend | new_app/RobotControl/Target.py:16-22 | a search that succeeds never looks at later elements |
| SharedState.SharedData.constructor | robotExe/sharedData.py:4-18 | mode "manul", empty pose list, no frame, not started, zero flag set, no fork commands, fork status "-", and no picking status yet (reading it raises) |
| SharedState.SharedData.SetFrame | robotExe/sharedData.py:24-25 | only the frame changes; the getter returns it |
| SharedState.SharedData.SetPoseData | robotExe/sharedData.py:30-31 | the whole list is replaced; nothing else changes |
| SharedState.SharedData.SetMode | robotExe/sharedData.py:36-37 | any string is accepted; only the mode changes |
| SharedState.SharedData.SetStartPickingProcess | robotExe/sharedData.py:44-45 | only the start flag changes; the getter returns it |
| SharedState.SharedData.SetPickingStatus | robotExe/sharedData.py:50-51 | writes `_start_picking_status`, not `_picking_status` or the start flag; the write is recorded |
| SharedState.SharedData.SetForkliftCommandUp | robotExe/sharedData.py:65-66 | only the up command changes; the getter returns it |
| SharedState.SharedData.SetForkliftCommandDown | robotExe/sharedData.py:68-69 | only the down command changes; the getter returns it |
| SharedState.SharedData.SetForkliftStatus | robotExe/sharedData.py:74-75 | only the fork status changes; the write is recorded |
| SharedState.SharedData.SetForkliftZero | robotExe/sharedData.py:80-81 | only the zero flag changes; the getter returns it |
| SharedState.SharedData.GetFrame | robotExe/sharedData.py:27-28 | definition: the stored frame, None until `set_frame`; `SetFrame` ensures it reads back the frame set |
| SharedState.SharedData.GetPoseData | robotExe/sharedData.py:33-34 | definition: the stored pose list; `SetPoseData` ensures it reads back the list set |
| SharedState.SharedData.GetMode | robotExe/sharedData.py:39-40 | definition: the stored mode, "manul" at start; `SetMode` ensures it reads back the mode set |
| SharedState.SharedData.GetStartPickingProcess | robotExe/sharedData.py:47-48 | definition: the start flag; `SetStartPickingProcess` ensures it reads back the value set |
| SharedState.SharedData.GetPickingStatus | robotExe/sharedData.py:53-54 | definition: the last status set, None (the AttributeError) before any; `SetPickingStatus` ensures it reads back the status set |
| SharedState.SharedData.GetForkliftCommandUp | robotExe/sharedData.py:59-60 | definition: the up command; `SetForkliftCommandUp` ensures it reads back the value set |
| SharedState.SharedData.GetForkliftCommandDown | robotExe/sharedData.py:62-63 | definition: the down command; `SetForkliftCommandDown` ensures it reads back the value set |
| SharedState.SharedData.GetForkliftStatus | robotExe/sharedData.py:71-72 | definition: the fork status; `SetForkliftStatus` ensures it reads back the status set |
| SharedState.SharedData.GetForkliftZero | robotExe/sharedData.py:77-78 | definition: the zero flag; `SetForkliftZero` ensures it reads back the value set |
| Targeting.GetPoseValues | new_app/RobotControl/Target.py:30-43 | angle = -Roll, x = x_cm, y = z_cm for a marker, all "Not Visible" for None |
| Targeting.Resolve | new_app/RobotControl/Target.py:12-27 | definition: the target after `getPoseData` on one pose list; its properties are the `Resolve*` lemmas below and `Target.GetPoseData` is proved to compute it |
| Targeting.ResolveConsistent | new_app/RobotControl/Target.py:12-27 | after a lookup, x, y and angle are all numbers or all "Not Visible" |
| Targeting.ResolveFirstMatch | new_app/RobotControl/Target.py:16-22 | the first marker with the id decides all fields, including `angle_rad` |
| Targeting.ResolveNoMatch | new_app/RobotControl/Target.py:14-27 | with no such marker (or an empty list) x, y and angle are "Not Visible" and `angle_rad` is kept |
| Targeting.ResolveIgnoresRest | new_app/RobotControl/Target.py:16-22 | markers after the first match are never examined |
| Targeting.ResolveForgets | new_app/RobotControl/Target.py:16-22 | on a match, the result does not depend on the previous fields |
| Targeting.Target.constructor | new_app/RobotControl/Target.py:5-10 | x, y, angle and `angle_rad` start at 0 |
| Targeting.Target.GetPoseData | new_app/RobotControl/Target.py:12-27 | returns true exactly when some marker has the id; the fields become the lookup's result |
| DirectDriving.ProportionalDerivative | robotExe/RobotControl/DirectDriveController.py:84-92 | definition: the PD step, output and new error; its properties are `PdAtSetpoint`, `PdSteadyError` and `PdMonotone` |
| DirectDriving.PdAtSetpoint | robotExe/RobotControl/DirectDriveController.py:84-92 | on target with no previous error the output and the error are 0 |
| DirectDriving.PdSteadyError | robotExe/RobotControl/DirectDriveController.py:84-92 | an unchanged error leaves only the proportional term |
| DirectDriving.PdMonotone | robotExe/RobotControl/DirectDriveController.py:84-92 | with non-negative gains the output falls strictly as the measured value rises |
| DirectDriving.WheelCommand | robotExe/RobotControl/DirectDriveController.py:104-109 | each wheel command is the rounded kinematics output, within one half of it |
| DirectDriving.Sent | robotExe/RobotControl/DirectDriveController.py:111-126 | definition: the lines the change filter sends for a new command; its properties are `RepeatSendsNothing`, `SentOnlyChanges` and `SentEveryChange` |
| DirectDriving.Drive | robotExe/RobotControl/DirectDriveController.py:94-126 | definition: one `directDrive` call as outcome, new memory and lines sent; its properties are the `Drive*` lemmas and `DirectDrive` is proved to compute it |
| DirectDriving.RepeatSendsNothing | robotExe/RobotControl/DirectDriveController.py:111-126 | repeating the last command sends no line |
| DirectDriving.SentOnlyChanges | robotExe/RobotControl/DirectDriveController.py:111-126 | every line sent is the speed line of a wheel whose command changed, with its new value |
| DirectDriving.LineOfMotor | robotExe/RobotControl/DirectDriveController.py:111-126 | the line the filter lets through for motor m addresses motor m |
| DirectDriving.SentEveryChange | robotExe/RobotControl/DirectDriveController.py:111-126 | every wheel whose command changed gets its line |
| DirectDriving.DriveOutOfSight | robotExe/RobotControl/DirectDriveController.py:95 | with y "Not Visible" a step sends nothing and changes nothing |
| DirectDriving.DriveSendsOnlyChanges | robotExe/RobotControl/DirectDriveController.py:94-126 | every line a step sends is a changed wheel's speed line |
| DirectDriving.DriveSendsEveryChange | robotExe/RobotControl/DirectDriveController.py:94-126 | when a completed step changes a wheel's stored value, it sends that wheel's speed line |
| DirectDriving.DirectDriveController.constructor | robotExe/RobotControl/DirectDriveController.py:70-81 | previous wheel values and previous error start at 0 |
| DirectDriving.DirectDriveController.DirectDrive | robotExe/RobotControl/DirectDriveController.py:94-126 | does exactly one `Drive` step: new memory, lines appended, outcome |
| DirectDriving.DirectDriveController.SendChanged | robotExe/RobotControl/DirectDriveController.py:111-126 | sends the changed wheels front-left to rear-right and remembers all four values |
| DirectDriving.DirectDriveController.ResetWheelsSpeed | robotExe/RobotControl/DirectDriveController.py:128-137 | every previous wheel value and both previous errors become 0 |
| Forklift.StepTable | robotExe/RobotControl/ForkLiftController.py:16-25 | 8 rows; each energises 1 or 2 coils and cyclically adjacent rows differ in one coil |
| Forklift.ReversedCycle | robotExe/RobotControl/ForkLiftController.py:63 | the table run backwards is a half-step cycle too |
| Forklift.RepeatSmooth | robotExe/RobotControl/ForkLiftController.py:43-46 | whole passes over a half-step cycle change one coil at a time |
| Forklift.PassesAreSmooth | robotExe/RobotControl/ForkLiftController.py:36-65 | both directions of motion change one coil at a time throughout |
| Forklift.Halts | robotExe/RobotControl/ForkLiftController.py:62-65 | a sensor loop consumes exactly the readings before the first one that stops it |
| Forklift.ForkliftController.constructor | robotExe/RobotControl/ForkLiftController.py:7-27 | pins low, step delay 0.0007 s |
| Forklift.ForkliftController.SetPins | robotExe/RobotControl/ForkLiftController.py:29-34 | in1..in4 take the row's levels; nothing else changes |
| Forklift.ForkliftController.Pass | robotExe/RobotControl/ForkLiftController.py:44-46 | one pass writes the rows in order |
| Forklift.ForkliftController.RunPasses | robotExe/RobotControl/ForkLiftController.py:62-65 | the sensor is read before each pass; the pass count is the readings before the stop |
| Forklift.ForkliftController.MoveForkliftUp | robotExe/RobotControl/ForkLiftController.py:36-52 | "Going up" first; whole forward passes until the duration; then pins off, "Steady up", up command cleared |
| Forklift.ForkliftController.MoveForkliftDown | robotExe/RobotControl/ForkLiftController.py:55-73 | "Going down" first; reversed passes while the switch is open (none if pressed); then pins off, "Steady down", down command cleared, zero flag untouched |
| Forklift.ForkliftController.ForkliftZero | robotExe/RobotControl/ForkLiftController.py:75-78 | lowering, then the zero flag cleared |
| RobotUtils.LinearToRpm | robotExe/RobotControl/RobotUtils.py:26-27 | definition: metres per second to RPM for the wheel radius; `MinSpeedIsMinRpm` and `ScaledRpm` state its use |
| RobotUtils.Raw | robotExe/RobotControl/RobotUtils.py:127-130 | definition: the four raw mecanum wheel speeds; `RawScales` states their linearity |
| RobotUtils.Normalize | robotExe/RobotControl/RobotUtils.py:132-138 | definition: the uniform scaling to the slowest wheel and the RPM conversion; its properties are the `Normalize*` lemmas |
| RobotUtils.Kinematics | robotExe/RobotControl/RobotUtils.py:125-138 | definition: `kinematics` for a drivable input; its properties are the `Kinematics*` lemmas |
| RobotUtils.MinSpeedIsMinRpm | robotExe/RobotControl/RobotUtils.py:9-27 | `linearToRPM(WHEEL_V_MIN)` is exactly `MIN_RPM` |
| RobotUtils.DrivableSlowest | robotExe/RobotControl/RobotUtils.py:125-132 | `kinematics` returns exactly when the slowest raw magnitude is positive |
| RobotUtils.SlowestChar | robotExe/RobotControl/RobotUtils.py:132 | `min` of the four magnitudes is the one no other falls below |
| RobotUtils.ScaledRpm | robotExe/RobotControl/RobotUtils.py:132-138 | the scaling and the RPM conversion together multiply by `MIN_RPM` over the minimum; pi cancels |
| RobotUtils.ScaleToRpmClosedForm | robotExe/RobotControl/RobotUtils.py:132-138 | scaling then converting every wheel is one uniform scaling |
| RobotUtils.NormalizeClosedForm | robotExe/RobotControl/RobotUtils.py:132-138 | the normalisation is a uniform scaling by `MIN_RPM` over the slowest raw magnitude |
| RobotUtils.SlowestScale | robotExe/RobotControl/RobotUtils.py:132 | scaling every wheel by k > 0 scales the slowest magnitude by k |
| RobotUtils.NormalizeSlowest | robotExe/RobotControl/RobotUtils.py:132-138 | after normalisation the slowest wheel turns at `MIN_RPM` |
| RobotUtils.KinematicsSlowestIsMinRpm | robotExe/RobotControl/RobotUtils.py:125-138 | the slowest output of `kinematics` is exactly 20 RPM |
| RobotUtils.NormalizeKeepsSigns | robotExe/RobotControl/RobotUtils.py:132-138 | normalisation keeps each wheel's sign |
| RobotUtils.KinematicsKeepsSigns | robotExe/RobotControl/RobotUtils.py:125-138 | each output has the sign of its raw wheel speed |
| RobotUtils.NormalizeKeepsRatios | robotExe/RobotControl/RobotUtils.py:132-138 | normalisation keeps every ratio between wheels |
| RobotUtils.KinematicsKeepsRatios | robotExe/RobotControl/RobotUtils.py:125-138 | the outputs are proportional to the raw wheel speeds |
| RobotUtils.RawScales | robotExe/RobotControl/RobotUtils.py:127-130 | the raw wheel speeds are linear in the body velocity |
| RobotUtils.NormalizeScaleInvariant | robotExe/RobotControl/RobotUtils.py:132-138 | normalising k times the raw speeds gives the same result |
| RobotUtils.KinematicsScaleInvariant | robotExe/RobotControl/RobotUtils.py:125-138 | scaling the body velocity by any k > 0 leaves the output unchanged |
| RobotUtils.NormalizeEqualMagnitudes | robotExe/RobotControl/RobotUtils.py:132-138 | equal raw magnitudes give ±20 RPM on every wheel |
| RobotUtils.KinematicsSpin | robotExe/RobotControl/RobotUtils.py:125-138 | pure rotation: (-20, 20, -20, 20) for omega > 0, the opposite for omega < 0 |
| RobotUtils.KinematicsStraight | robotExe/RobotControl/RobotUtils.py:125-138 | pure forward or backward travel: all wheels at 20 RPM in the direction of vy |
| RobotUtils.KinematicsStrafe | robotExe/RobotControl/RobotUtils.py:125-138 | pure strafe: fl = rr = -fr = -rl, fl negative when vx is positive |
| RobotUtils.CalculateRotationTime | robotExe/RobotControl/RobotUtils.py:31-39 | omega is the constant `WHEEL_V_MIN / LXLY` > 0; the time is at least 1.5 s |
| RobotUtils.RotationTimeClosedForm | robotExe/RobotControl/RobotUtils.py:31-39 | the time is 1.5 s plus \|angle\| times a positive constant free of pi |
| RobotUtils.RotationTimeMonotone | robotExe/RobotControl/RobotUtils.py:31-39 | the time depends only on \|angle\| and strictly increases with it |
| RobotUtils.WaitFor | robotExe/RobotControl/RobotUtils.py:54-61 | the busy-wait ends at the first clock reading past the duration, or not at all |
| RobotUtils.SendKinematics | robotExe/RobotControl/RobotUtils.py:51-52 | sends the four `kinematics` outputs as floats |
| RobotUtils.SpinCommand | robotExe/RobotControl/RobotUtils.py:44-52 | the turn in place is (-20, 20, -20, 20) counter-clockwise and (20, -20, 20, -20) clockwise |
| RobotUtils.BackwardCommand | robotExe/RobotControl/RobotUtils.py:84-86 | backing off is -20 RPM on every wheel |
| RobotUtils.StrafeCommand | robotExe/RobotControl/RobotUtils.py:115-117 | the strafe has fl = rr = -fr = -rl with the sign of -vx on fl |
| RobotUtils.Strafe | robotExe/RobotControl/RobotUtils.py:115-138 | what `AlignX` sends for its float64 sideways speed is four not-a-number speeds exactly when that speed is zero |
| RobotUtils.AlignAngle | robotExe/RobotControl/RobotUtils.py:44-65 | spins clockwise for a negative angle and counter-clockwise otherwise, then stops once a clock reading reaches the rotation time, and only then |
| RobotUtils.Rotate | robotExe/RobotControl/RobotUtils.py:68-74 | sends (20, -20, 20, -20) |
| RobotUtils.AlignBackward | robotExe/RobotControl/RobotUtils.py:80-97 | sends -20 on every wheel, waits 5 s, stops, returns True |
| RobotUtils.AlignXManoeuvre | robotExe/RobotControl/RobotUtils.py:103-117 | only appends to the serial log |
| RobotUtils.AlignXEndsWithStrafe | robotExe/RobotControl/RobotUtils.py:103-117 | once its clock allows, `AlignX` completes and never raises; the old log is kept; the back-off and its stop come next, eight lines, exactly when v cos(angle) < 30; the four lines of `Strafe(v_x)` for v_x = -v sin(angle) end the log |
| RobotUtils.AlignX | robotExe/RobotControl/RobotUtils.py:103-117 | the method does exactly what `AlignXManoeuvre` says |
| RobotUtils.StopRobot | robotExe/RobotControl/RobotUtils.py:142-144 | sends four zeros |
| RobotControl.CentredIsTargetTest | new_app/RobotControl/exeRobotControl.py:48-56 | the lateral test on the target holds exactly for pose lists whose first such marker is within 2 cm |
| RobotControl.Track | new_app/RobotControl/exeRobotControl.py:15-18 | definition: the target after `getPoseData` on each pose list in turn; `SearchMarker` and `CentreOnMarker` are proved against it |
| RobotControl.SearchMarker | new_app/RobotControl/exeRobotControl.py:15-18 | polls until the first pose list showing the marker; the target then holds that marker |
| RobotControl.CentreOnMarker | new_app/RobotControl/exeRobotControl.py:48-56 | polls until the first pose list with the marker centred within 2 cm |
| RobotControl.Advance | new_app/RobotControl/exeRobotControl.py:64-69 | one approach pass reports "Direct driving", keeps the target consistent and only appends lines |
| RobotControl.AdvanceSendsSpeedLines | new_app/RobotControl/exeRobotControl.py:64-69 | every line one pass sends is a wheel speed line |
| RobotControl.Approach | new_app/RobotControl/exeRobotControl.py:59-69 | definition: the `while True` approach loop over a feed of pose lists; its properties are the `Approach*` lemmas and `ApproachPallet` is proved to compute it |
| RobotControl.ApproachEndsNear | new_app/RobotControl/exeRobotControl.py:59-69 | the approach loop returns only when the marker is visible and y < 35 |
| RobotControl.ApproachAppends | new_app/RobotControl/exeRobotControl.py:59-69 | the approach only appends to the log |
| RobotControl.ApproachReports | new_app/RobotControl/exeRobotControl.py:59-69 | the approach reports only "Direct driving" and changes no other store field |
| RobotControl.ApproachSendsSpeedLines | new_app/RobotControl/exeRobotControl.py:59-69 | every line the approach sends is a wheel speed line |
| RobotControl.ApproachPallet | new_app/RobotControl/exeRobotControl.py:59-69 | the loop does exactly what `Approach` says |
| RobotControl.Turning | new_app/RobotControl/exeRobotControl.py:38-46 | the turn and shift never touch the target, and they either return True or are still waiting: they never raise and never return False |
| RobotControl.Aligning | new_app/RobotControl/exeRobotControl.py:38-56 | returns only after the turn and with the marker within 2 cm sideways |
| RobotControl.TurnAndShift | new_app/RobotControl/exeRobotControl.py:38-46 | the method does exactly what `Turning` says |
| RobotControl.AlignOnMarker | new_app/RobotControl/exeRobotControl.py:38-56 | the method does exactly what `Aligning` says |
| RobotControl.PickingSequence | new_app/RobotControl/exeRobotControl.py:29-75 | the method does exactly what `Picking` says |
| RobotControl.Picking | new_app/RobotControl/exeRobotControl.py:29-75 | definition: `picking_sequence` as outcome and rig; its properties are the `Picking*` lemmas |
| RobotControl.Approaching | new_app/RobotControl/exeRobotControl.py:59-75 | definition: the approach and final stop after the alignment; its properties are the `Approaching*` lemmas |
| RobotControl.PickingDeclines | new_app/RobotControl/exeRobotControl.py:29-35 | returns None iff a flag is set, start is off or the marker is not visible, and then nothing else happened |
| RobotControl.PickingPicks | new_app/RobotControl/exeRobotControl.py:59-75 | returns True only near the marker, with the stop as the last command |
| RobotControl.ApproachingEnds | new_app/RobotControl/exeRobotControl.py:59-75 | the approach and stop never return False, and return True only near the marker, stopped |
| RobotControl.ApproachingAppends | new_app/RobotControl/exeRobotControl.py:59-75 | the approach and stop only append to the log |
| RobotControl.ApproachingReported | new_app/RobotControl/exeRobotControl.py:59-75 | the approach and stop change only the picking status |
| RobotControl.ApproachingTrail | new_app/RobotControl/exeRobotControl.py:59-75 | the approach adds only "Direct driving" reports |
| RobotControl.TurningReports | new_app/RobotControl/exeRobotControl.py:38-46 | reports "angle aligning", then "X axe aligning" once the turn is over |
| RobotControl.AligningReported | new_app/RobotControl/exeRobotControl.py:38-56 | the alignment changes only the picking status |
| RobotControl.TurningTrail | new_app/RobotControl/exeRobotControl.py:38-46 | the turn's reports start the picking status sequence |
| RobotControl.TurningAppends | new_app/RobotControl/exeRobotControl.py:38-46 | the turn only appends to the log |
| RobotControl.PickingAppends | new_app/RobotControl/exeRobotControl.py:29-75 | `picking_sequence` only appends to the log |
| RobotControl.PickingReported | new_app/RobotControl/exeRobotControl.py:29-75 | `picking_sequence` changes no store field but the picking status, left at the last report |
| RobotControl.PickingStatuses | new_app/RobotControl/exeRobotControl.py:29-75 | statuses go "angle aligning", "X axe aligning", then "Direct driving" per pass; none when declined |
| RobotControl.PutOffPallet | new_app/RobotControl/exeRobotControl.py:11-22 | the method does exactly what `PutOff` says |
| RobotControl.PutOff | new_app/RobotControl/exeRobotControl.py:11-22 | definition: `put_off_pallet` as outcome and rig; its properties are `PutOffStops`, `PutOffSearches` and `PutOffKeeps` |
| RobotControl.PutOffStops | new_app/RobotControl/exeRobotControl.py:11-22 | returns only after the marker was found, with the robot stopped, and near it when the pick returned True |
| RobotControl.PutOffSearches | new_app/RobotControl/exeRobotControl.py:14-18 | if the drop marker never shows, one search turn has been sent, nothing is reported and the call is still waiting |
| RobotControl.PutOffKeeps | new_app/RobotControl/exeRobotControl.py:11-22 | `put_off_pallet` only appends lines and changes only the picking status |
| ControlThread.Lowering | robotExe/RobotControl/ForkLiftController.py:55-73 | definition: `move_forklift_down` on the plant; `Lower` is proved to compute it and `LoweringMoves` states what it keeps |
| ControlThread.Zeroing | robotExe/RobotControl/ForkLiftController.py:75-78 | definition: `forklift_zero` on the plant; `Home` is proved to compute it |
| ControlThread.Raising | robotExe/RobotControl/ForkLiftController.py:36-52 | definition: `move_forklift_up` on the plant; `Raise` is proved to compute it and `RaisingMoves` states what it keeps |
| ControlThread.Homing | new_app/RobotControl/exeRobotControl.py:121-122 | definition: homing when the zero flag is set; `HomeIfAsked` is proved to compute it |
| ControlThread.ServeDown | new_app/RobotControl/exeRobotControl.py:154-155 | definition: the manual down request; `ServeDownStep` is proved to compute it |
| ControlThread.ServeUp | new_app/RobotControl/exeRobotControl.py:158-159 | definition: the manual up request; `ServeUpStep` is proved to compute it |
| ControlThread.ZeroCheck | new_app/RobotControl/exeRobotControl.py:114-116 | definition: the fork check that opens every iteration; `ZeroCheckStep` is proved to compute it |
| ControlThread.Cycle | new_app/RobotControl/exeRobotControl.py:124-139 | definition: the pick-and-place cycle; `CycleStep` is proved to compute it |
| ControlThread.AfterPick | new_app/RobotControl/exeRobotControl.py:125-139 | definition: the cycle once `picking_sequence` has ended |
| ControlThread.Backed | new_app/RobotControl/exeRobotControl.py:132 | definition: the log after a completed `AlignBackward` |
| ControlThread.Delivery | new_app/RobotControl/exeRobotControl.py:132-139 | definition: the back-off and drop; `DeliverStep` is proved to compute it |
| ControlThread.AfterPutOff | new_app/RobotControl/exeRobotControl.py:134-139 | definition: the end of the cycle once `put_off_pallet` has ended |
| ControlThread.Auto | new_app/RobotControl/exeRobotControl.py:119-139 | definition: the automatic branch; `AutoStep` is proved to compute it |
| ControlThread.Manual | new_app/RobotControl/exeRobotControl.py:145-159 | definition: the manual branch; `ManualStep` is proved to compute it |
| ControlThread.Iteration | new_app/RobotControl/exeRobotControl.py:112-159 | definition: one pass of `while self.running`; `Step` is proved to compute it |
| ControlThread.Running | new_app/RobotControl/exeRobotControl.py:107-159 | definition: a run of passes, stopping at the first that does not go on; `Run` is proved to compute it |
| ControlThread.LoweringMoves | robotExe/RobotControl/ForkLiftController.py:55-78 | lowering and homing change only the fork and its store fields and end with the coils off |
| ControlThread.RaisingMoves | robotExe/RobotControl/ForkLiftController.py:36-52 | raising changes only the fork and its store fields and ends with the coils off |
| ControlThread.ServingMoves | new_app/RobotControl/exeRobotControl.py:149-159 | the homing, down and up steps of manual mode are fork movements |
| ControlThread.CycleKeptAdvances | new_app/RobotControl/exeRobotControl.py:119-139 | what the cycle keeps implies what an iteration keeps, and the fork fields are unchanged |
| ControlThread.AfterPutOffKeeps | new_app/RobotControl/exeRobotControl.py:134-139 | the end of the cycle after `put_off_pallet` keeps the cycle invariant |
| ControlThread.AfterPutOffOnlyNeedsFork | new_app/RobotControl/exeRobotControl.py:134-139 | the end of the cycle depends on the earlier plant only through the fork |
| ControlThread.BackedKeeps | robotExe/RobotControl/RobotUtils.py:80-97 | backing off only appends to the log |
| ControlThread.DeliveryKeeps | new_app/RobotControl/exeRobotControl.py:132-139 | the back-off and drop keep the cycle invariant |
| ControlThread.AfterPickKeeps | new_app/RobotControl/exeRobotControl.py:125-139 | every end of the pick keeps the cycle invariant |
| ControlThread.CycleKeeps | new_app/RobotControl/exeRobotControl.py:124-139 | the pick-and-place cycle never touches the fork, only appends lines, and changes only the start flag and the picking status |
| ControlThread.ZeroCheckKeeps | new_app/RobotControl/exeRobotControl.py:114-116 | the first step of an iteration keeps the iteration invariant |
| ControlThread.AutoKeeps | new_app/RobotControl/exeRobotControl.py:119-139 | the automatic branch keeps the iteration invariant |
| ControlThread.ManualKeeps | new_app/RobotControl/exeRobotControl.py:145-159 | the manual branch keeps the iteration invariant |
| ControlThread.IterationKeeps | new_app/RobotControl/exeRobotControl.py:112-159 | an iteration only appends to the log, the status histories and the coil patterns; never changes mode, frame or pose list; keeps the store showing the latest statuses; unless it ends waiting, leaves the coils off if they were off |
| ControlThread.RunningKeeps | new_app/RobotControl/exeRobotControl.py:107-159 | the same over any run of iterations |
| ControlThread.ZeroCheckHomes | new_app/RobotControl/exeRobotControl.py:114-116 | with fork status "-" the fork is homed: "Going down", then "Steady down" with the zero flag cleared and the coils off, exactly when the switch closes |
| ControlThread.FirstIterationOnlyHomes | new_app/RobotControl/exeRobotControl.py:112-159 | from the initial store the first iteration homes the fork and does nothing else ("manul" matches no branch) |
| ControlThread.ManualReportsIdle | new_app/RobotControl/exeRobotControl.py:145-159 | manual mode never drives the wheels and always reports "-" |
| ControlThread.ManualIdles | new_app/RobotControl/exeRobotControl.py:145-159 | with nothing requested manual mode only reports "-" |
| ControlThread.ManualLowers | new_app/RobotControl/exeRobotControl.py:154-155 | "Steady up" with the down command: "Going down", then "Steady down" with the command cleared once the switch closes |
| ControlThread.ManualRaises | new_app/RobotControl/exeRobotControl.py:158-159 | "Steady down" with the up command: "Going up", then "Steady up" with the command cleared exactly when 25 s have passed |
| ControlThread.AutoWaitsForStart | new_app/RobotControl/exeRobotControl.py:119-124 | in automatic mode nothing but the fork moves until the picking process is started |
| ControlThread.AfterPickGoing | new_app/RobotControl/exeRobotControl.py:125-139 | after the pick the loop goes on only if it declined, or the drop returned and the cycle completed |
| ControlThread.CycleEnds | new_app/RobotControl/exeRobotControl.py:124-139 | a cycle goes on only if `picking_sequence` declined with only the target looked up, or the drop marker was found and the process was stopped with status "-" and the robot stopped |
| ControlThread.ExeRobotControl.constructor | new_app/RobotControl/exeRobotControl.py:83-104 | not running, all alignment flags down, fresh objects at rest |
| ControlThread.ExeRobotControl.Home | robotExe/RobotControl/ForkLiftController.py:75-78 | does exactly what `Zeroing` says to the plant |
| ControlThread.ExeRobotControl.Lower | robotExe/RobotControl/ForkLiftController.py:55-73 | does exactly what `Lowering` says to the plant |
| ControlThread.ExeRobotControl.Raise | robotExe/RobotControl/ForkLiftController.py:36-52 | does exactly what `Raising` says to the plant |
| ControlThread.ExeRobotControl.HomeIfAsked | new_app/RobotControl/exeRobotControl.py:121-122 | does exactly what `Homing` says |
| ControlThread.ExeRobotControl.ServeDownStep | new_app/RobotControl/exeRobotControl.py:154-155 | does exactly what `ServeDown` says |
| ControlThread.ExeRobotControl.ServeUpStep | new_app/RobotControl/exeRobotControl.py:158-159 | does exactly what `ServeUp` says |
| ControlThread.ExeRobotControl.ZeroCheckStep | new_app/RobotControl/exeRobotControl.py:114-116 | does exactly what `ZeroCheck` says |
| ControlThread.ExeRobotControl.CycleStep | new_app/RobotControl/exeRobotControl.py:124-139 | does exactly what `Cycle` says, with the pick flags |
| ControlThread.ExeRobotControl.DeliverStep | new_app/RobotControl/exeRobotControl.py:132-139 | does exactly what `Delivery` says |
| ControlThread.ExeRobotControl.PlaceStep | new_app/RobotControl/exeRobotControl.py:134-139 | does exactly what `AfterPutOff` of `PutOff` says |
| ControlThread.ExeRobotControl.AutoStep | new_app/RobotControl/exeRobotControl.py:119-139 | does exactly what `Auto` says |
| ControlThread.ExeRobotControl.ManualStep | new_app/RobotControl/exeRobotControl.py:145-159 | does exactly what `Manual` says |
| ControlThread.ExeRobotControl.Step | new_app/RobotControl/exeRobotControl.py:112-159 | does exactly what `Iteration` says |
| ControlThread.ExeRobotControl.Run | new_app/RobotControl/exeRobotControl.py:107-159 | sets `running`, stops the robot, then does exactly what `Running` says over the iterations |
| ClippedControl.NewController | current_state_app_v2/robot_control.py:15-17 | the state starts as SEARCHING_TAG1 |
| ClippedControl.Clip | current_state_app_v2/robot_control.py:29-36 | `np.clip` to [-100, 100]: unchanged inside, the bound outside |
| ClippedControl.CalculateWheelVelocities | current_state_app_v2/robot_control.py:29-36 | every output lies in [-100, 100]; unclipped it is fl = vx-vy-w, fr = vx+vy+w, rl = vx+vy-w, rr = vx-vy+w |
| ClippedControl.VelocitiesIdempotent | current_state_app_v2/robot_control.py:29-36 | clipping the result again changes nothing |
| ClippedControl.FormatSpeedCommand | current_state_app_v2/robot_control.py:38-40 | definition: `format_speed_command`; `FormatRoundTrip` states that it carries the four truncated values |
| ClippedControl.ParseFieldOf | current_state_app_v2/robot_control.py:38-40 | one `<tag><int>;` field reads back as its integer |
| ClippedControl.FormatRoundTrip | current_state_app_v2/robot_control.py:38-40 | `SET_SPEED;fl:..;fr:..;rl:..;rr:..;` carries the four truncated values in order |
| ClippedControl.StopIsZeroCommand | current_state_app_v2/robot_control.py:51-73 | the stop command is the format of four zero velocities |
| ClippedControl.IsAtTarget | current_state_app_v2/robot_control.py:42-49 | definition: `_is_at_target`; `AtTargetFirstMatch` and `AtTargetAbsent` state its meaning |
| ClippedControl.AtTargetFirstMatch | current_state_app_v2/robot_control.py:42-49 | at target iff the first tag with the id has \|y-30\| < 2, \|x\| < 0.5, \|yaw\| < 5 |
| ClippedControl.AtTargetAbsent | current_state_app_v2/robot_control.py:42-49 | never at target when no tag has the id |
| ClippedControl.Velocities | current_state_app_v2/robot_control.py:60-71 | definition: the proportional control law on one tag, clipped |
| ClippedControl.ProcessPoseData | current_state_app_v2/robot_control.py:51-73 | definition: `process_pose_data`; `ProcessFormatsSpeeds`, `StopIsZeroCommand` and `CommandsWithinLimit` state its meaning |
| ClippedControl.CalculateWheelSpeeds | current_state_app_v2/robot_control.py:76-97 | every wheel lies in [-100, 100] |
| ClippedControl.ProcessFormatsSpeeds | current_state_app_v2/robot_control.py:51-97 | for a non-empty list the command is the format of `calculate_wheel_speeds`, marker present or not |
| ClippedControl.CommandsWithinLimit | current_state_app_v2/robot_control.py:29-73 | every command reads back as four integers in [-100, 100] |
| MathUtils.Calculate2dPosition | current_state_app/mathUtils.py:5-20 | definition: the x and z components times 100 and the correction factor; `MetresToCentimetres`, `CorrectionScales` and `IgnoresVertical` state its meaning |
| MathUtils.MetresToCentimetres | current_state_app/mathUtils.py:5-20 | with the default factor, x = 100 t[0] and y = 100 t[2] |
| MathUtils.CorrectionScales | current_state_app/mathUtils.py:5-20 | the factor scales both coordinates |
| MathUtils.IgnoresVertical | current_state_app/mathUtils.py:5-20 | t[1] does not influence the result |
| MathUtils.NormalizeAngle | current_state_app/mathUtils.py:41-49 | the result lies in [-180, 180) |
| MathUtils.NormalizeIdentity | current_state_app/mathUtils.py:41-49 | angles in [-180, 180) are returned unchanged |
| MathUtils.NormalizePeriodic | current_state_app/mathUtils.py:41-49 | a full turn more gives the same result |
| MathUtils.NormalizeWholeTurns | current_state_app/mathUtils.py:41-49 | the result differs from the input by a whole number of turns |
| MathUtils.NormalizeIdempotent | current_state_app/mathUtils.py:41-49 | normalising twice is normalising once |
| ArucoUtils.NormalizeAngle | new_app/ArucoDetection/Utils.py:6-7 | the result lies in [-180, 180) |
| ArucoUtils.NormalizePeriodic | new_app/ArucoDetection/Utils.py:6-7 | a full turn more gives the same result |
| ArucoUtils.NormalizeHalfTurn | new_app/ArucoDetection/Utils.py:6-7 | the result plus 180 is congruent to the input modulo 360 |
| ArucoUtils.NormalizeOnFirstTurn | new_app/ArucoDetection/Utils.py:6-7 | on [0, 360) the result is the input minus 180 |
| ArucoUtils.NotIdentity | new_app/ArucoDetection/Utils.py:6-7 | 0 becomes -180 and 180 becomes 0: not the identity on its range |

## Left out

- Hardware and I/O are not modelled: the serial connection, GPIO pins, `print`, `time.sleep`,
  the camera and the thread start. The serial port is a log, the pins are fields, and clocks and
  sensors are readings passed in.
- Floating point is modelled as exact reals. `np.pi` is a fixed decimal constant. A float sent on
  the wire is modelled only when it is whole or not-a-number. Over exact reals every speed the
  manoeuvres send is whole (20, -20 or 0), except `AlignX`'s not-a-number speeds. In double arithmetic the source's scaling may leave a value a rounding
  error away from 20, printed with its fraction; that formatting is not modelled.
- The web and vision threads' writes to the store while the control thread runs are not
  modelled. The pose lists the control thread reads come from the readings given to each
  operation, not from the store's `pose_data`.
- `ExeRobotControl.Run`: `while self.running` never ends in the source. The model runs it over a
  finite sequence of iterations and returns Going when all of them went through.
- Busy-waits whose readings run out end as Blocked or Waiting rather than waiting forever.
- `RobotControl.PutOffPallet`: returns the value of its `picking_sequence` call, which the source
  drops; callers ignore it except to tell Blocked and Raised apart.
- The stepper's timing is not modelled: the 0.7 ms step delay and the elapsed time within a pass.
  The up-time check is made on clock readings between whole passes.
- `Kinematics` requires a nonzero raw speed on every wheel. A zero one is modelled only where
  the input comes from sensor data: as ZeroDivisionError in `directDrive`, and as four
  not-a-number speeds in `AlignX`. Not-a-number arithmetic is modelled nowhere else.
- The commented-out older `DirectDriveController` at the top of its file is not modelled.
- `calculate_yaw_angle` and the drawing helpers of the two math files are not modelled.
- `readUART` takes the received line as a parameter; UTF-8 decoding is not modelled.
- `prevErrorAngle` exists only after `resetWheelsSpeed`, as in the source, and nothing reads it.
