/** robotExe/RobotControl/DirectDriveController.py: the final approach to the pallet. A PD step
    on the marker's lateral offset gives the sideways speed, the marker's distance and angle are
    fed in unchanged as forward and turning speed, and the rounded wheel speeds are sent wheel by
    wheel, each only when it differs from the last value sent for that wheel. */
module DirectDriving {
  import opened Wrappers
  import opened Mecanum
  import opened PyMath
  import opened CommandHandling
  import opened RobotUtils
  import opened Targeting

  /** The controller's gains and time step. */
  const KP_X: real := 8.5
  const KD_X: real := 1.0
  const DT: real := 1.0

  /** Output of one PD step and the error it saw, which becomes the next step's previous error. */
  datatype Pd = Pd(output: real, error: real)

  /** `ProportionalDerivative`: error = desired - current, output = kp * error plus
      kd * (error - previous error) / dt. */
  function ProportionalDerivative(current: real, desired: real, kp: real, kd: real,
                                  prevError: real): Pd
  {
    var error := desired - current;
    Pd(kp * error + kd * (error - prevError) / DT, error)
  }

  /** On target with no previous error the controller asks for nothing. */
  lemma PdAtSetpoint(desired: real, kp: real, kd: real)
    ensures ProportionalDerivative(desired, desired, kp, kd, 0.0) == Pd(0.0, 0.0)
  {
  }

  /** When the error has not changed since the last step the derivative term vanishes and only
      the proportional part remains. */
  lemma PdSteadyError(current: real, desired: real, kp: real, kd: real)
    ensures var r := ProportionalDerivative(current, desired, kp, kd, desired - current);
      r.error == desired - current && r.output == kp * (desired - current)
  {
  }

  /** With non-negative gains, not both zero, the output falls strictly as the measured value
      rises: the controller always pushes towards the set point. */
  lemma PdMonotone(c1: real, c2: real, desired: real, kp: real, kd: real, prevError: real)
    requires kp >= 0.0 && kd >= 0.0 && kp + kd > 0.0 && c1 < c2
    ensures ProportionalDerivative(c1, desired, kp, kd, prevError).output
            > ProportionalDerivative(c2, desired, kp, kd, prevError).output
  {
    var e1, e2 := desired - c1, desired - c2;
    var p1, p2 := kp * e1, kp * e2;
    var d1, d2 := kd * (e1 - prevError), kd * (e2 - prevError);
    assert e1 > e2;
    assert p1 >= p2 by { MulLeMono2(kp, e2, e1); }
    assert d1 >= d2 by { MulLeMono2(kd, e2 - prevError, e1 - prevError); }
    if kp > 0.0 {
      MulLtMono(kp, e2, e1);
      assert p1 > p2;
    } else {
      MulLtMono(kd, e2 - prevError, e1 - prevError);
      assert d1 > d2;
    }
    assert d1 / DT == d1 && d2 / DT == d2;
    assert ProportionalDerivative(c1, desired, kp, kd, prevError).output == p1 + d1 / DT;
    assert ProportionalDerivative(c2, desired, kp, kd, prevError).output == p2 + d2 / DT;
  }

  lemma MulLeMono2(k: real, a: real, b: real)
    requires k >= 0.0 && a <= b
    ensures k * a <= k * b
  {
  }

  /** Python's `round` on each wheel. */
  function RoundAll(w: Wheels<real>): Wheels<int> {
    Wheels(Round(w.fl), Round(w.fr), Round(w.rl), Round(w.rr))
  }

  function AsReals(w: Wheels<int>): Wheels<real> {
    Wheels(w.fl as real, w.fr as real, w.rl as real, w.rr as real)
  }

  /** The wheel commands `directDrive` computes for sideways speed vx, forward speed vy and
      turning speed omegaZ: the kinematics outputs, rounded. Each lies within one half of the
      exact value. */
  function WheelCommand(vx: real, vy: real, omegaZ: real): (cmd: Wheels<int>)
    requires Drivable(vx, vy, omegaZ)
    ensures var w := Kinematics(vx, vy, omegaZ);
      && Abs(cmd.fl as real - w.fl) <= 0.5 && Abs(cmd.fr as real - w.fr) <= 0.5
      && Abs(cmd.rl as real - w.rl) <= 0.5 && Abs(cmd.rr as real - w.rr) <= 0.5
  {
    RoundAll(Kinematics(vx, vy, omegaZ))
  }

  /** Motor m's entry. */
  function Motor<T>(w: Wheels<T>, m: MotorId): T {
    if m == 0 then w.fl else if m == 1 then w.fr else if m == 2 then w.rl else w.rr
  }

  /** Motor m's new command differs from the last value sent to it. */
  predicate Changed(prev: Wheels<real>, cmd: Wheels<int>, m: MotorId) {
    Motor(cmd, m) as real != Motor(prev, m)
  }

  /** The line for motor m, or nothing when its command is unchanged. */
  function LineIfChanged(prev: Wheels<real>, cmd: Wheels<int>, m: MotorId): seq<string> {
    if Changed(prev, cmd, m) then [SpeedLine(m, Int(Motor(cmd, m)))] else []
  }

  /** The lines the change filter lets through, front-left to rear-right. */
  function Sent(prev: Wheels<real>, cmd: Wheels<int>): seq<string> {
    LineIfChanged(prev, cmd, 0) + LineIfChanged(prev, cmd, 1) + LineIfChanged(prev, cmd, 2)
      + LineIfChanged(prev, cmd, 3)
  }

  /** Repeating the last command sends nothing. */
  lemma RepeatSendsNothing(cmd: Wheels<int>)
    ensures Sent(AsReals(cmd), cmd) == []
  {
  }

  /** Every line sent is a speed line for a wheel whose command changed, carrying the new
      command. */
  lemma SentOnlyChanges(prev: Wheels<real>, cmd: Wheels<int>, line: string)
    requires line in Sent(prev, cmd)
    ensures ParseSpeedLine(line).Some?
    ensures var (m, v) := ParseSpeedLine(line).value; Changed(prev, cmd, m) && v == Int(Motor(cmd, m))
  {
    var s0, s1 := LineIfChanged(prev, cmd, 0), LineIfChanged(prev, cmd, 1);
    var s2, s3 := LineIfChanged(prev, cmd, 2), LineIfChanged(prev, cmd, 3);
    assert line in s0 || line in s1 || line in s2 || line in s3;
    if line in s0 {
      LineOfMotor(prev, cmd, 0, line);
    } else if line in s1 {
      LineOfMotor(prev, cmd, 1, line);
    } else if line in s2 {
      LineOfMotor(prev, cmd, 2, line);
    } else {
      LineOfMotor(prev, cmd, 3, line);
    }
  }

  lemma LineOfMotor(prev: Wheels<real>, cmd: Wheels<int>, m: MotorId, line: string)
    requires line in LineIfChanged(prev, cmd, m)
    ensures ParseSpeedLine(line) == Some((m, Int(Motor(cmd, m)))) && Changed(prev, cmd, m)
  {
    SpeedLineRoundTrip(m, Int(Motor(cmd, m)));
  }

  /** Every wheel whose command changed gets its line. */
  lemma SentEveryChange(prev: Wheels<real>, cmd: Wheels<int>, m: MotorId)
    requires Changed(prev, cmd, m)
    ensures SpeedLine(m, Int(Motor(cmd, m))) in Sent(prev, cmd)
  {
  }

  /** A log that grew by `more` after `sent` had been appended to `log0`. */
  lemma Grow(log0: seq<string>, sent: seq<string>, more: seq<string>, log: seq<string>)
    requires log == log0 + sent + more
    ensures log == log0 + (sent + more)
  {
  }

  /** Last values sent per wheel and the controller's memory of its errors. `prevErrorAngle` only
      exists once `resetWheelsSpeed` has created it (None before). */
  datatype DriveState = DriveState(prev: Wheels<real>, prevErrorX: real, prevErrorAngle: Option<real>)

  /** What one `directDrive` call does: how it ends, the controller's new memory, and the lines
      it sends. */
  datatype DriveStep = DriveStep(outcome: Outcome, state: DriveState, lines: seq<string>)

  /** One `directDrive` call on a controller holding `ds` with the target holding `t`. Out of
      sight: nothing. Otherwise the PD step's error is kept; when the wheel speeds can be
      computed the changed ones are sent and remembered, and when one raw wheel speed is zero
      the call raises with nothing sent. */
  function Drive(ds: DriveState, t: TargetState, desiredX: real): DriveStep
    requires Consistent(t)
  {
    if t.y.NotVisible? then DriveStep(Completed, ds, [])
    else
      var pd := ProportionalDerivative(t.x.v, desiredX, KP_X, KD_X, ds.prevErrorX);
      var ds1 := ds.(prevErrorX := pd.error);
      if Drivable(pd.output, t.y.v, t.angle.v) then
        var cmd := WheelCommand(pd.output, t.y.v, t.angle.v);
        DriveStep(Completed, ds1.(prev := AsReals(cmd)), Sent(ds.prev, cmd))
      else DriveStep(ZeroDivisionError, ds1, [])
  }

  /** A step never blocks; with the marker out of sight it changes nothing. */
  lemma DriveOutOfSight(ds: DriveState, t: TargetState, desiredX: real)
    requires Consistent(t) && t.y.NotVisible?
    ensures Drive(ds, t, desiredX) == DriveStep(Completed, ds, [])
  {
  }

  /** Every line a step sends is a speed line for one wheel, carrying the value the controller
      now remembers for that wheel, which differs from the value it remembered before. */
  lemma DriveSendsOnlyChanges(ds: DriveState, t: TargetState, desiredX: real, line: string)
    requires Consistent(t) && line in Drive(ds, t, desiredX).lines
    ensures ParseSpeedLine(line).Some?
    ensures var (m, v) := ParseSpeedLine(line).value;
      var after := Drive(ds, t, desiredX).state.prev;
      v.Int? && v.i as real == Motor(after, m) && Motor(after, m) != Motor(ds.prev, m)
  {
    var pd := ProportionalDerivative(t.x.v, desiredX, KP_X, KD_X, ds.prevErrorX);
    var cmd := WheelCommand(pd.output, t.y.v, t.angle.v);
    SentOnlyChanges(ds.prev, cmd, line);
    var (m, v) := ParseSpeedLine(line).value;
    assert Motor(AsReals(cmd), m) == Motor(cmd, m) as real;
  }

  /** A step that completes remembers each wheel's new value, and a wheel whose remembered value
      changed had its line sent. */
  lemma DriveSendsEveryChange(ds: DriveState, t: TargetState, desiredX: real, m: MotorId)
    requires Consistent(t)
    ensures var step := Drive(ds, t, desiredX);
      step.outcome == Completed && Motor(step.state.prev, m) != Motor(ds.prev, m) ==>
        SpeedLine(m, Int(Motor(step.state.prev, m).Floor)) in step.lines
  {
    var step := Drive(ds, t, desiredX);
    if step.outcome == Completed && Motor(step.state.prev, m) != Motor(ds.prev, m) {
      var pd := ProportionalDerivative(t.x.v, desiredX, KP_X, KD_X, ds.prevErrorX);
      var cmd := WheelCommand(pd.output, t.y.v, t.angle.v);
      assert Motor(AsReals(cmd), m) == Motor(cmd, m) as real;
      SentEveryChange(ds.prev, cmd, m);
    }
  }

  class DirectDriveController {
    var flPrev: real
    var frPrev: real
    var rlPrev: real
    var rrPrev: real
    const kpX: real := KP_X
    const kdX: real := KD_X
    var prevErrorX: real
    var prevErrorAngle: Option<real>

    function Prev(): Wheels<real>
      reads this
    {
      Wheels(flPrev, frPrev, rlPrev, rrPrev)
    }

    function State(): DriveState
      reads this
    {
      DriveState(Prev(), prevErrorX, prevErrorAngle)
    }

    /** Nothing sent yet (every wheel counts as 0) and no previous error. */
    constructor ()
      ensures State() == DriveState(Wheels(0.0, 0.0, 0.0, 0.0), 0.0, None)
    {
      flPrev, frPrev, rlPrev, rrPrev := 0.0, 0.0, 0.0, 0.0;
      prevErrorX := 0.0;
      prevErrorAngle := None;
    }

    /** `directDrive(commandHandler, target, desired_x)`. With the marker out of sight it does
        nothing. Otherwise it runs the PD step on the marker's x (keeping the new error), drives
        with that sideways speed, the marker's distance y as forward speed and its angle as turning
        speed, and sends each rounded wheel speed that differs from the last one sent for that
        wheel, remembering it. When one raw wheel speed is zero the source raises
        ZeroDivisionError after the error was stored and before anything is sent. */
    method DirectDrive(handler: CommandHandler, target: Target, desiredX: real)
      returns (result: Outcome)
      requires Consistent(target.State())
      modifies this, handler
      ensures var step := Drive(old(State()), target.State(), desiredX);
        result == step.outcome && State() == step.state && handler.log == old(handler.log) + step.lines
    {
      if target.y == NotVisible {
        return Completed;
      }
      var pd := ProportionalDerivative(target.x.v, desiredX, kpX, kdX, prevErrorX);
      prevErrorX := pd.error;
      var x := pd.output;
      var angle := target.angle.v;
      var y := target.y.v;
      if !Drivable(x, y, angle) {
        return ZeroDivisionError;
      }
      var cmd := WheelCommand(x, y, angle);
      SendChanged(handler, cmd);
      result := Completed;
    }

    /** The change filter: each wheel's command goes out, front-left to rear-right, only when it
        differs from the last value sent for that wheel, which it then replaces. */
    method SendChanged(handler: CommandHandler, cmd: Wheels<int>)
      modifies this, handler
      ensures Prev() == AsReals(cmd)
      ensures prevErrorX == old(prevErrorX) && prevErrorAngle == old(prevErrorAngle)
      ensures handler.log == old(handler.log) + Sent(old(Prev()), cmd)
    {
      ghost var prev0 := Prev();
      ghost var log0 := handler.log;
      if cmd.fl as real != flPrev {
        handler.SetFLSpeed(Int(cmd.fl));
        flPrev := cmd.fl as real;
      }
      ghost var sent := LineIfChanged(prev0, cmd, 0);
      assert handler.log == log0 + sent;
      if cmd.fr as real != frPrev {
        handler.SetFRSpeed(Int(cmd.fr));
        frPrev := cmd.fr as real;
      }
      Grow(log0, sent, LineIfChanged(prev0, cmd, 1), handler.log);
      sent := sent + LineIfChanged(prev0, cmd, 1);
      if cmd.rl as real != rlPrev {
        handler.SetRLSpeed(Int(cmd.rl));
        rlPrev := cmd.rl as real;
      }
      Grow(log0, sent, LineIfChanged(prev0, cmd, 2), handler.log);
      sent := sent + LineIfChanged(prev0, cmd, 2);
      if cmd.rr as real != rrPrev {
        handler.SetRRSpeed(Int(cmd.rr));
        rrPrev := cmd.rr as real;
      }
      Grow(log0, sent, LineIfChanged(prev0, cmd, 3), handler.log);
      sent := sent + LineIfChanged(prev0, cmd, 3);
      assert sent == Sent(prev0, cmd);
    }

    /** `resetWheelsSpeed()`: every wheel counts as 0 again and both previous errors are 0. */
    method ResetWheelsSpeed()
      modifies this
      ensures State() == DriveState(Wheels(0.0, 0.0, 0.0, 0.0), 0.0, Some(0.0))
    {
      flPrev, frPrev, rlPrev, rrPrev := 0.0, 0.0, 0.0, 0.0;
      prevErrorX := 0.0;
      prevErrorAngle := Some(0.0);
    }
  }
}
