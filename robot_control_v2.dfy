/** current_state_app_v2/robot_control.py: the older proportional controller. It looks up the
    marker of the current phase, turns its offsets into clipped mecanum wheel velocities and
    formats them as one `SET_SPEED;...` command. Its state is set once and never changes. */
module ClippedControl {
  import opened Wrappers
  import opened Lookup
  import opened PyMath
  import opened Text
  import opened Mecanum

  /** The phases of `RobotState`. */
  datatype RobotState =
    | SearchingTag1 | AligningToTag1 | PickingPallet | SearchingTag2 | AligningToTag2
    | DroppingPallet | Finished

  /** One pose dictionary this controller reads: id, `x_cm`, `y_cm` and `Yaw`. */
  datatype Tag = Tag(id: int, xCm: real, yCm: real, yaw: real)

  /** A `RobotController`: the serial port it was given and its phase, which starts at
      SearchingTag1; no operation returns a controller, so the phase never changes. */
  datatype Controller = Controller(serialPort: string, state: RobotState)

  function NewController(serialPort: string): (c: Controller)
    ensures c.state == SearchingTag1 && c.serialPort == serialPort
  {
    Controller(serialPort, SearchingTag1)
  }

  const KP_X: real := 0.8
  const KP_Y: real := 0.6
  const KP_ANGLE: real := 1.0
  const TARGET_DISTANCE: real := 30.0
  const X_THRESHOLD: real := 0.5
  const ANGLE_THRESHOLD: real := 5.0
  const LIMIT: real := 100.0

  /** `np.clip(x, -100, 100)`. */
  function Clip(x: real): (r: real)
    ensures -LIMIT <= r <= LIMIT
    ensures -LIMIT <= x <= LIMIT ==> r == x
    ensures x > LIMIT ==> r == LIMIT
    ensures x < -LIMIT ==> r == -LIMIT
  {
    if x < -LIMIT then -LIMIT else if x > LIMIT then LIMIT else x
  }

  /** The unclipped mecanum mix of this controller. */
  function Mix(vx: real, vy: real, omega: real): Wheels<real> {
    Wheels(vx - vy - omega, vx + vy + omega, vx + vy - omega, vx - vy + omega)
  }

  predicate WithinLimit(w: Wheels<real>) {
    && -LIMIT <= w.fl <= LIMIT && -LIMIT <= w.fr <= LIMIT
    && -LIMIT <= w.rl <= LIMIT && -LIMIT <= w.rr <= LIMIT
  }

  /** `calculate_wheel_velocities(vx, vy, omega)`: every wheel lies in [-100, 100], and when the
      mix is within the limits it is returned unchanged. */
  function CalculateWheelVelocities(vx: real, vy: real, omega: real): (w: Wheels<real>)
    ensures WithinLimit(w)
    ensures WithinLimit(Mix(vx, vy, omega)) ==> w == Mix(vx, vy, omega)
  {
    var m := Mix(vx, vy, omega);
    Wheels(Clip(m.fl), Clip(m.fr), Clip(m.rl), Clip(m.rr))
  }

  /** Clipping changes nothing that is already clipped. */
  lemma VelocitiesIdempotent(vx: real, vy: real, omega: real)
    ensures var w := CalculateWheelVelocities(vx, vy, omega);
      Wheels(Clip(w.fl), Clip(w.fr), Clip(w.rl), Clip(w.rr)) == w
  {
  }

  /** One `<tag><int>;` field of a command. */
  function Field(tag: string, v: int): string {
    tag + IntText(v) + ";"
  }

  /** `format_speed_command(fl, fr, rl, rr)`: `SET_SPEED;fl:<fl>;fr:<fr>;rl:<rl>;rr:<rr>;` with
      the four values truncated toward zero by `int()`. */
  function FormatSpeedCommand(w: Wheels<real>): string {
    "SET_SPEED;" + (Field("fl:", Trunc(w.fl)) + (Field("fr:", Trunc(w.fr))
      + (Field("rl:", Trunc(w.rl)) + Field("rr:", Trunc(w.rr)))))
  }

  function IsSemicolon(c: char): bool {
    c == ';'
  }

  /** Reads `<tag><int>;` off the front of `s`, returning the integer and what follows. */
  function ParseField(s: string, tag: string): Option<(int, string)> {
    if |tag| <= |s| && s[..|tag|] == tag then
      var rest := s[|tag|..];
      match First(rest, IsSemicolon)
      case None => None
      case Some(k) =>
        match ParseInt(rest[..k])
        case None => None
        case Some(v) => Some((v, rest[k + 1..]))
    else None
  }

  /** How the motor controller reads a `SET_SPEED` command back into four integers. */
  function ParseSpeedCommand(s: string): Option<Wheels<int>> {
    if |s| >= 10 && s[..10] == "SET_SPEED;" then
      match ParseField(s[10..], "fl:")
      case None => None
      case Some((fl, s1)) =>
        match ParseField(s1, "fr:")
        case None => None
        case Some((fr, s2)) =>
          match ParseField(s2, "rl:")
          case None => None
          case Some((rl, s3)) =>
            match ParseField(s3, "rr:")
            case None => None
            case Some((rr, s4)) => if s4 == [] then Some(Wheels(fl, fr, rl, rr)) else None
    else None
  }

  lemma {:induction false} ParseFieldOf(tag: string, v: int, rest: string)
    ensures ParseField(Field(tag, v) + rest, tag) == Some((v, rest))
  {
    var s := Field(tag, v) + rest;
    var t := IntText(v);
    assert s == tag + (t + ";" + rest);
    assert s[..|tag|] == tag;
    var r := s[|tag|..];
    assert r == t + ";" + rest;
    assert r[|t|] == ';';
    forall j | 0 <= j < |t|
      ensures !IsSemicolon(r[j])
    {
      assert r[j] == t[j];
    }
    FirstIsUnique(r, IsSemicolon, |t|);
    assert r[..|t|] == t;
    assert r[|t| + 1..] == rest;
    IntTextRoundTrip(v);
  }

  /** The command carries the four truncated values intact, in the order fl, fr, rl, rr. */
  lemma FormatRoundTrip(w: Wheels<real>)
    ensures ParseSpeedCommand(FormatSpeedCommand(w))
            == Some(Wheels(Trunc(w.fl), Trunc(w.fr), Trunc(w.rl), Trunc(w.rr)))
  {
    var s4 := Field("rr:", Trunc(w.rr));
    var s3 := Field("rl:", Trunc(w.rl)) + s4;
    var s2 := Field("fr:", Trunc(w.fr)) + s3;
    var s1 := Field("fl:", Trunc(w.fl)) + s2;
    assert FormatSpeedCommand(w)[10..] == s1;
    ParseFieldOf("fl:", Trunc(w.fl), s2);
    ParseFieldOf("fr:", Trunc(w.fr), s3);
    ParseFieldOf("rl:", Trunc(w.rl), s4);
    ParseFieldOf("rr:", Trunc(w.rr), []);
    assert s4 + [] == s4;
  }

  /** The stop command the controller sends when the marker is missing is the format of four
      zero velocities. */
  lemma StopIsZeroCommand()
    ensures FormatSpeedCommand(Wheels(0.0, 0.0, 0.0, 0.0)) == STOP_COMMAND
  {
    assert Trunc(0.0) == 0 && IntText(0) == "0";
    assert Field("fl:", 0) == "fl:0;" && Field("fr:", 0) == "fr:0;";
    assert Field("rl:", 0) == "rl:0;" && Field("rr:", 0) == "rr:0;";
  }

  const STOP_COMMAND: string := "SET_SPEED;fl:0;fr:0;rl:0;rr:0;"

  function HasTagId(id: int): Tag -> bool {
    (t: Tag) => t.id == id
  }

  /** The alignment test on one tag: within 2 cm of the target distance, within 0.5 cm
      sideways and within 5 degrees of yaw. */
  predicate Aligned(t: Tag) {
    Abs(t.yCm - TARGET_DISTANCE) < 2.0 && Abs(t.xCm) < X_THRESHOLD && Abs(t.yaw) < ANGLE_THRESHOLD
  }

  /** `_is_at_target(pose_data, tag_id)`: the first tag with the id decides; false when none has
      it. */
  function IsAtTarget(c: Controller, pose: seq<Tag>, tagId: int): bool {
    match First(pose, HasTagId(tagId))
    case None => false
    case Some(i) => Aligned(pose[i])
  }

  /** At target exactly when the first tag with the id is aligned. */
  lemma AtTargetFirstMatch(c: Controller, pose: seq<Tag>, tagId: int, i: nat)
    requires i < |pose| && pose[i].id == tagId
    requires forall j :: 0 <= j < i ==> pose[j].id != tagId
    ensures IsAtTarget(c, pose, tagId) <==> Aligned(pose[i])
  {
    FirstIsUnique(pose, HasTagId(tagId), i);
  }

  /** Never at target when no tag has the id. */
  lemma AtTargetAbsent(c: Controller, pose: seq<Tag>, tagId: int)
    requires forall j :: 0 <= j < |pose| ==> pose[j].id != tagId
    ensures !IsAtTarget(c, pose, tagId)
  {
  }

  /** The marker a phase steers by: tag 1 while searching for or aligning to it, tag 2 in every
      other phase. */
  function TargetId(state: RobotState): int {
    if state == SearchingTag1 || state == AligningToTag1 then 1 else 2
  }

  /** The proportional control law on one tag: vx = 0.8 x, vy = 0.6 (y - 30), omega = yaw. */
  function Velocities(t: Tag): Wheels<real> {
    CalculateWheelVelocities(KP_X * t.xCm, KP_Y * (t.yCm - TARGET_DISTANCE), KP_ANGLE * t.yaw)
  }

  /** `process_pose_data(pose_data)`: None for an empty list; the formatted, clipped command for
      the phase's marker; the stop command when that marker is missing. */
  function ProcessPoseData(c: Controller, pose: seq<Tag>): Option<string> {
    if pose == [] then None
    else match First(pose, HasTagId(TargetId(c.state)))
      case Some(i) => Some(FormatSpeedCommand(Velocities(pose[i])))
      case None => Some(STOP_COMMAND)
  }

  /** `calculate_wheel_speeds(pose_data)`: all zero for an empty list or a missing marker,
      otherwise the clipped velocities for the phase's marker. */
  function CalculateWheelSpeeds(c: Controller, pose: seq<Tag>): (w: Wheels<real>)
    ensures WithinLimit(w)
  {
    if pose == [] then Wheels(0.0, 0.0, 0.0, 0.0)
    else match First(pose, HasTagId(TargetId(c.state)))
      case Some(i) => Velocities(pose[i])
      case None => Wheels(0.0, 0.0, 0.0, 0.0)
  }

  /** For a non-empty list the command `process_pose_data` returns is the format of the
      velocities `calculate_wheel_speeds` returns, marker present or not. */
  lemma ProcessFormatsSpeeds(c: Controller, pose: seq<Tag>)
    requires pose != []
    ensures ProcessPoseData(c, pose) == Some(FormatSpeedCommand(CalculateWheelSpeeds(c, pose)))
  {
    StopIsZeroCommand();
  }

  /** Every command the controller produces reads back as four integers in [-100, 100]. */
  lemma CommandsWithinLimit(c: Controller, pose: seq<Tag>)
    requires pose != []
    ensures var cmd := ParseSpeedCommand(ProcessPoseData(c, pose).value);
      cmd.Some? && -100 <= cmd.value.fl <= 100 && -100 <= cmd.value.fr <= 100
      && -100 <= cmd.value.rl <= 100 && -100 <= cmd.value.rr <= 100
  {
    ProcessFormatsSpeeds(c, pose);
    FormatRoundTrip(CalculateWheelSpeeds(c, pose));
  }
}
