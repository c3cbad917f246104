/** robotExe/RobotControl/RobotUtils.py: mecanum inverse kinematics with minimum-speed
    normalisation, the open-loop rotation timing, and the fixed manoeuvres built on them. */
module RobotUtils {
  import opened PyMath
  import opened Mecanum
  import opened CommandHandling
  import opened Wrappers
  import opened Lookup

  const MIN_RPM: real := 20.0
  const WHEEL_RADIUS: real := 0.04
  /** Half-track plus half-wheelbase of the chassis, in metres. */
  const LXLY: real := 0.1748
  /** Linear speed of a wheel turning at MIN_RPM. */
  const WHEEL_V_MIN: real := (MIN_RPM * 2.0 * PI * WHEEL_RADIUS) / 60.0
  const DESIRED_ANGLE: real := 0.0
  const ANGLE_THRESHOLD: real := 2.0
  const Y_THRESHOLD: real := 35.0
  const X_THRESHOLD: real := 2.0
  const DESIRED_Y: real := 35.0
  const DESIRED_X: real := 0.0
  const TIMEOUT: real := 5.0
  /** Settling margin added to every computed rotation time, in seconds. */
  const ROTATION_MARGIN: real := 1.5

  /** Wheel linear speed to revolutions per minute. */
  function LinearToRpm(v: real): real {
    (v * 60.0) / (2.0 * PI * WHEEL_RADIUS)
  }

  /** The minimum linear speed converts back to exactly MIN_RPM. */
  lemma MinSpeedIsMinRpm()
    ensures LinearToRpm(WHEEL_V_MIN) == MIN_RPM
  {
  }

  /** Wheel linear speeds before normalisation, from the body velocity (vx sideways, vy forward,
      omegaZ rotation). */
  function Raw(vx: real, vy: real, omegaZ: real): Wheels<real> {
    Wheels((vy - vx - omegaZ) / WHEEL_RADIUS, (vy + vx + omegaZ) / WHEEL_RADIUS,
           (vy + vx - omegaZ) / WHEEL_RADIUS, (vy - vx + omegaZ) / WHEEL_RADIUS)
  }

  /** Python's `min` of four values. */
  function Min4(a: real, b: real, c: real, d: real): real {
    var ab := if a <= b then a else b;
    var cd := if c <= d then c else d;
    if ab <= cd then ab else cd
  }

  /** The magnitude of the slowest wheel. */
  function Slowest(w: Wheels<real>): real {
    Min4(Abs(w.fl), Abs(w.fr), Abs(w.rl), Abs(w.rr))
  }

  /** The inputs on which `kinematics` returns finite speeds: every raw wheel speed is nonzero. A
      single zero raw speed makes the slowest magnitude zero; dividing by it raises
      ZeroDivisionError on Python floats and gives an infinity on numpy float64s. */
  predicate Drivable(vx: real, vy: real, omegaZ: real) {
    var r := Raw(vx, vy, omegaZ);
    r.fl != 0.0 && r.fr != 0.0 && r.rl != 0.0 && r.rr != 0.0
  }

  /** `kinematics(vx, vy, omega_z)`: the raw wheel speeds scaled uniformly so that the slowest
      wheel runs at WHEEL_V_MIN, then converted to RPM. */
  function Kinematics(vx: real, vy: real, omegaZ: real): Wheels<real>
    requires Drivable(vx, vy, omegaZ)
  {
    Normalize(Raw(vx, vy, omegaZ))
  }

  /** The scaling step of `kinematics`, for raw speeds whose slowest magnitude is positive. */
  function Normalize(raw: Wheels<real>): Wheels<real>
    requires Slowest(raw) > 0.0
  {
    ScaleToRpm(raw, WHEEL_V_MIN / Slowest(raw))
  }

  /** Multiplies every raw speed by the ratio and converts it to RPM. */
  function ScaleToRpm(raw: Wheels<real>, ratio: real): Wheels<real> {
    Wheels(LinearToRpm(raw.fl * ratio), LinearToRpm(raw.fr * ratio),
           LinearToRpm(raw.rl * ratio), LinearToRpm(raw.rr * ratio))
  }

  /** Every wheel multiplied by k. */
  function Scale(k: real, w: Wheels<real>): Wheels<real> {
    Wheels(k * w.fl, k * w.fr, k * w.rl, k * w.rr)
  }

  /** Wheel i, in the order fl, fr, rl, rr. */
  function At(w: Wheels<real>, i: nat): real
    requires i < 4
  {
    if i == 0 then w.fl else if i == 1 then w.fr else if i == 2 then w.rl else w.rr
  }

  lemma DrivableSlowest(vx: real, vy: real, omegaZ: real)
    ensures Drivable(vx, vy, omegaZ) <==> Slowest(Raw(vx, vy, omegaZ)) > 0.0
  {
  }

  /** x is the smallest wheel magnitude of w: no magnitude is below it and one equals it. */
  predicate IsSlowest(w: Wheels<real>, x: real) {
    x <= Abs(w.fl) && x <= Abs(w.fr) && x <= Abs(w.rl) && x <= Abs(w.rr)
    && (x == Abs(w.fl) || x == Abs(w.fr) || x == Abs(w.rl) || x == Abs(w.rr))
  }

  lemma SlowestChar(w: Wheels<real>, x: real)
    ensures IsSlowest(w, x) <==> Slowest(w) == x
  {
  }

  /** Scaling a raw speed by WHEEL_V_MIN / m and converting gives (MIN_RPM / m) * x: the factors
      of PI and of the wheel radius cancel. */
  lemma ScaledRpm(x: real, m: real)
    requires m > 0.0
    ensures LinearToRpm(x * (WHEEL_V_MIN / m)) == (MIN_RPM / m) * x
  {
    var q := x / m;
    MulDivCancel(x, m);
    assert x * (WHEEL_V_MIN / m) == WHEEL_V_MIN * q by {
      DivDistrib(x, WHEEL_V_MIN, m);
    }
    assert MIN_RPM * q == (MIN_RPM / m) * x by {
      DivDistrib(x, MIN_RPM, m);
    }
  }

  lemma DivDistrib(x: real, c: real, m: real)
    requires m > 0.0
    ensures x * (c / m) == c * (x / m) == (c / m) * x
  {
  }

  lemma ScaleToRpmAt(raw: Wheels<real>, m: real, i: nat)
    requires m > 0.0 && i < 4
    ensures At(ScaleToRpm(raw, WHEEL_V_MIN / m), i) == At(Scale(MIN_RPM / m, raw), i)
  {
    ScaledRpm(At(raw, i), m);
  }

  lemma {:induction false} ScaleToRpmClosedForm(raw: Wheels<real>, m: real)
    requires m > 0.0
    ensures ScaleToRpm(raw, WHEEL_V_MIN / m) == Scale(MIN_RPM / m, raw)
  {
    ScaleToRpmAt(raw, m, 0);
    ScaleToRpmAt(raw, m, 1);
    ScaleToRpmAt(raw, m, 2);
    ScaleToRpmAt(raw, m, 3);
  }

  /** The normalisation is a uniform scaling by MIN_RPM over the slowest raw magnitude. */
  lemma NormalizeClosedForm(raw: Wheels<real>)
    requires Slowest(raw) > 0.0
    ensures Normalize(raw) == Scale(MIN_RPM / Slowest(raw), raw)
  {
    ScaleToRpmClosedForm(raw, Slowest(raw));
  }

  lemma AbsMul(k: real, a: real)
    requires k > 0.0
    ensures Abs(k * a) == k * Abs(a)
  {
  }

  lemma MulLe(k: real, a: real, b: real)
    requires k > 0.0 && a <= b
    ensures k * a <= k * b
  {
  }

  lemma ScaledAbsLe(k: real, a: real, m: real)
    requires k > 0.0 && m <= Abs(a)
    ensures k * m <= Abs(k * a)
  {
    AbsMul(k, a);
    MulLe(k, m, Abs(a));
  }

  lemma ScaleAt(k: real, w: Wheels<real>, i: nat)
    requires i < 4
    ensures At(Scale(k, w), i) == k * At(w, i)
  {
  }

  lemma ScaledAt(k: real, w: Wheels<real>, m: real, i: nat)
    requires k > 0.0 && i < 4
    ensures m <= Abs(At(w, i)) ==> k * m <= Abs(At(Scale(k, w), i))
    ensures m == Abs(At(w, i)) ==> k * m == Abs(At(Scale(k, w), i))
  {
    var a := At(w, i);
    ScaleAt(k, w, i);
    if m <= Abs(a) {
      ScaledAbsLe(k, a, m);
    }
    if m == Abs(a) {
      AbsMul(k, a);
    }
  }

  lemma {:induction false} ScaledIsSlowest(k: real, w: Wheels<real>, m: real)
    requires k > 0.0 && IsSlowest(w, m)
    ensures IsSlowest(Scale(k, w), k * m)
  {
    ScaledAt(k, w, m, 0);
    ScaledAt(k, w, m, 1);
    ScaledAt(k, w, m, 2);
    ScaledAt(k, w, m, 3);
  }

  /** Scaling every wheel by k > 0 scales the slowest magnitude by k. */
  lemma {:induction false} SlowestScale(k: real, w: Wheels<real>)
    requires k > 0.0
    ensures Slowest(Scale(k, w)) == k * Slowest(w)
  {
    SlowestChar(w, Slowest(w));
    ScaledIsSlowest(k, w, Slowest(w));
    SlowestChar(Scale(k, w), k * Slowest(w));
  }

  lemma DivPos(c: real, m: real)
    requires c > 0.0 && m > 0.0
    ensures c / m > 0.0 && (c / m) * m == c
  {
  }

  lemma {:induction false} NormalizeSlowest(raw: Wheels<real>)
    requires Slowest(raw) > 0.0
    ensures Slowest(Normalize(raw)) == MIN_RPM
  {
    var m := Slowest(raw);
    var c := MIN_RPM / m;
    DivPos(MIN_RPM, m);
    SlowestScaleTo(c, raw, m, MIN_RPM);
    NormalizeClosedForm(raw);
    SlowestOfEqual(Normalize(raw), Scale(c, raw), MIN_RPM);
  }

  lemma SlowestOfEqual(v: Wheels<real>, w: Wheels<real>, x: real)
    requires v == w && Slowest(w) == x
    ensures Slowest(v) == x
  {
  }

  /** Scaling by k > 0 takes a slowest magnitude m to k * m. */
  lemma {:induction false} SlowestScaleTo(k: real, w: Wheels<real>, m: real, x: real)
    requires k > 0.0 && Slowest(w) == m && k * m == x
    ensures Slowest(Scale(k, w)) == x
  {
    SlowestScale(k, w);
  }

  /** The slowest wheel turns at exactly MIN_RPM. */
  lemma KinematicsSlowestIsMinRpm(vx: real, vy: real, omegaZ: real)
    requires Drivable(vx, vy, omegaZ)
    ensures Slowest(Kinematics(vx, vy, omegaZ)) == MIN_RPM
  {
    DrivableSlowest(vx, vy, omegaZ);
    NormalizeSlowest(Raw(vx, vy, omegaZ));
  }

  /** Same sign: both positive, both negative or both zero. */
  predicate SameSign(a: real, b: real) {
    (a > 0.0 <==> b > 0.0) && (a < 0.0 <==> b < 0.0)
  }

  predicate SameSigns(a: Wheels<real>, b: Wheels<real>) {
    forall i :: 0 <= i < 4 ==> SameSign(At(a, i), At(b, i))
  }

  lemma MulSign(k: real, a: real)
    requires k > 0.0
    ensures SameSign(k * a, a)
  {
  }

  lemma {:induction false} ScaleKeepsSigns(k: real, w: Wheels<real>)
    requires k > 0.0
    ensures SameSigns(Scale(k, w), w)
  {
    forall i | 0 <= i < 4
      ensures SameSign(At(Scale(k, w), i), At(w, i))
    {
      ScaleAt(k, w, i);
      MulSign(k, At(w, i));
    }
  }

  lemma {:induction false} NormalizeKeepsSigns(raw: Wheels<real>)
    requires Slowest(raw) > 0.0
    ensures SameSigns(Normalize(raw), raw)
  {
    NormalizeClosedForm(raw);
    DivPos(MIN_RPM, Slowest(raw));
    ScaleKeepsSigns(MIN_RPM / Slowest(raw), raw);
  }

  /** Each wheel keeps the direction of its raw speed. */
  lemma KinematicsKeepsSigns(vx: real, vy: real, omegaZ: real)
    requires Drivable(vx, vy, omegaZ)
    ensures SameSigns(Kinematics(vx, vy, omegaZ), Raw(vx, vy, omegaZ))
  {
    DrivableSlowest(vx, vy, omegaZ);
    NormalizeKeepsSigns(Raw(vx, vy, omegaZ));
  }

  /** Wheel ratios agree: out_i * raw_j == out_j * raw_i for every pair of wheels. */
  predicate Proportional(out: Wheels<real>, raw: Wheels<real>) {
    forall i, j :: 0 <= i < 4 && 0 <= j < 4 ==> At(out, i) * At(raw, j) == At(out, j) * At(raw, i)
  }

  lemma CrossRatio(k: real, a: real, b: real, x: real, y: real)
    requires x == k * a && y == k * b
    ensures x * b == y * a
  {
  }

  lemma ScaleCrossAt(k: real, w: Wheels<real>, i: nat, j: nat)
    requires i < 4 && j < 4
    ensures At(Scale(k, w), i) * At(w, j) == At(Scale(k, w), j) * At(w, i)
  {
    ScaleAt(k, w, i);
    ScaleAt(k, w, j);
    CrossRatio(k, At(w, i), At(w, j), At(Scale(k, w), i), At(Scale(k, w), j));
  }

  lemma {:induction false} ScaleProportional(k: real, w: Wheels<real>)
    ensures Proportional(Scale(k, w), w)
  {
    forall i, j | 0 <= i < 4 && 0 <= j < 4
      ensures At(Scale(k, w), i) * At(w, j) == At(Scale(k, w), j) * At(w, i)
    {
      ScaleCrossAt(k, w, i, j);
    }
  }

  lemma {:induction false} NormalizeKeepsRatios(raw: Wheels<real>)
    requires Slowest(raw) > 0.0
    ensures Proportional(Normalize(raw), raw)
  {
    NormalizeClosedForm(raw);
    DivPos(MIN_RPM, Slowest(raw));
    ScaleProportional(MIN_RPM / Slowest(raw), raw);
  }

  /** The ratios between wheels are those of the raw speeds. */
  lemma KinematicsKeepsRatios(vx: real, vy: real, omegaZ: real)
    requires Drivable(vx, vy, omegaZ)
    ensures Proportional(Kinematics(vx, vy, omegaZ), Raw(vx, vy, omegaZ))
  {
    DrivableSlowest(vx, vy, omegaZ);
    NormalizeKeepsRatios(Raw(vx, vy, omegaZ));
  }

  lemma ScaleDiv(k: real, x: real)
    ensures (k * x) / WHEEL_RADIUS == k * (x / WHEEL_RADIUS)
  {
  }

  lemma {:induction false} RawScales(vx: real, vy: real, omegaZ: real, k: real)
    ensures Raw(k * vx, k * vy, k * omegaZ) == Scale(k, Raw(vx, vy, omegaZ))
  {
    var a := Raw(k * vx, k * vy, k * omegaZ);
    var b := Scale(k, Raw(vx, vy, omegaZ));
    assert a.fl == b.fl by { ScaleDiv(k, vy - vx - omegaZ); }
    assert a.fr == b.fr by { ScaleDiv(k, vy + vx + omegaZ); }
    assert a.rl == b.rl by { ScaleDiv(k, vy + vx - omegaZ); }
    assert a.rr == b.rr by { ScaleDiv(k, vy - vx + omegaZ); }
  }

  lemma MulAssoc(a: real, b: real, x: real)
    ensures a * (b * x) == (a * b) * x
  {
  }

  lemma ScaleScaleAt(a: real, b: real, w: Wheels<real>, i: nat)
    requires i < 4
    ensures At(Scale(a, Scale(b, w)), i) == At(Scale(a * b, w), i)
  {
    MulAssoc(a, b, At(w, i));
  }

  lemma {:induction false} ScaleScale(a: real, b: real, w: Wheels<real>)
    ensures Scale(a, Scale(b, w)) == Scale(a * b, w)
  {
    ScaleScaleAt(a, b, w, 0);
    ScaleScaleAt(a, b, w, 1);
    ScaleScaleAt(a, b, w, 2);
    ScaleScaleAt(a, b, w, 3);
  }

  lemma RatioOfScaled(c: real, k: real, m: real)
    requires k > 0.0 && m > 0.0
    ensures (c / (k * m)) * k == c / m
  {
  }

  lemma {:induction false} NormalizeBy(raw: Wheels<real>, m: real)
    requires Slowest(raw) == m && m > 0.0
    ensures Normalize(raw) == Scale(MIN_RPM / m, raw)
  {
    NormalizeClosedForm(raw);
  }

  lemma {:induction false} NormalizeScaleInvariant(raw: Wheels<real>, k: real)
    requires Slowest(raw) > 0.0 && k > 0.0
    ensures Slowest(Scale(k, raw)) == k * Slowest(raw)
    ensures Normalize(Scale(k, raw)) == Normalize(raw)
  {
    var m := Slowest(raw);
    assert k * m > 0.0 by { MulLe(k, 0.0, m); }
    SlowestScale(k, raw);
    NormalizeOfScaled(raw, k, m, k * m);
  }

  lemma {:induction false} NormalizeOfScaled(raw: Wheels<real>, k: real, m: real, km: real)
    requires Slowest(raw) == m && m > 0.0 && k > 0.0 && km == k * m
    requires Slowest(Scale(k, raw)) == km
    ensures Normalize(Scale(k, raw)) == Normalize(raw)
  {
    ScaledCoefficient(raw, k, m, km);
    NormalizeBy(Scale(k, raw), km);
    NormalizeBy(raw, m);
  }

  /** Scaling by k and then by MIN_RPM / (k * m) is scaling by MIN_RPM / m. */
  lemma {:induction false} ScaledCoefficient(raw: Wheels<real>, k: real, m: real, km: real)
    requires m > 0.0 && k > 0.0 && km == k * m
    ensures km > 0.0
    ensures Scale(MIN_RPM / km, Scale(k, raw)) == Scale(MIN_RPM / m, raw)
  {
    var d := MIN_RPM / km;
    assert km > 0.0 by { MulLe(k, 0.0, m); }
    RatioOfScaled(MIN_RPM, k, m);
    ScaleCongruent(d * k, MIN_RPM / m, raw);
    ScaleScale(d, k, raw);
  }

  lemma ScaleCongruent(a: real, b: real, w: Wheels<real>)
    requires a == b
    ensures Scale(a, w) == Scale(b, w)
  {
  }

  /** Scaling the body velocity by any positive factor leaves the wheel commands unchanged. */
  lemma KinematicsScaleInvariant(vx: real, vy: real, omegaZ: real, k: real)
    requires Drivable(vx, vy, omegaZ) && k > 0.0
    ensures Drivable(k * vx, k * vy, k * omegaZ)
    ensures Kinematics(k * vx, k * vy, k * omegaZ) == Kinematics(vx, vy, omegaZ)
  {
    DrivableSlowest(vx, vy, omegaZ);
    RawScales(vx, vy, omegaZ, k);
    NormalizeScaleInvariant(Raw(vx, vy, omegaZ), k);
    DrivableSlowest(k * vx, k * vy, k * omegaZ);
  }

  /** MIN_RPM in the direction of x. */
  function Dir(x: real): real {
    if x > 0.0 then MIN_RPM else -MIN_RPM
  }

  lemma UnitRatio(a: real, m: real)
    requires m > 0.0 && Abs(a) == m
    ensures (MIN_RPM / m) * a == Dir(a)
  {
  }

  lemma NormalizeEqualAt(raw: Wheels<real>, m: real, i: nat)
    requires m > 0.0 && i < 4
    requires Abs(raw.fl) == m && Abs(raw.fr) == m && Abs(raw.rl) == m && Abs(raw.rr) == m
    ensures At(Scale(MIN_RPM / m, raw), i) == Dir(At(raw, i))
  {
    ScaleAt(MIN_RPM / m, raw, i);
    UnitRatio(At(raw, i), m);
  }

  lemma {:induction false} NormalizeEqualMagnitudes(raw: Wheels<real>)
    requires Slowest(raw) > 0.0
    requires Abs(raw.fl) == Abs(raw.fr) == Abs(raw.rl) == Abs(raw.rr)
    ensures Normalize(raw) == Wheels(Dir(raw.fl), Dir(raw.fr), Dir(raw.rl), Dir(raw.rr))
  {
    var m := Abs(raw.fl);
    NormalizeBy(raw, m);
    NormalizeEqualAt(raw, m, 0);
    NormalizeEqualAt(raw, m, 1);
    NormalizeEqualAt(raw, m, 2);
    NormalizeEqualAt(raw, m, 3);
  }

  /** Pure rotation: counter-clockwise (omegaZ > 0) gives (-20, 20, -20, 20), clockwise the
      opposite. */
  lemma KinematicsSpin(omegaZ: real)
    requires omegaZ != 0.0
    ensures Drivable(0.0, 0.0, omegaZ)
    ensures Kinematics(0.0, 0.0, omegaZ)
            == if omegaZ > 0.0 then Wheels(-MIN_RPM, MIN_RPM, -MIN_RPM, MIN_RPM)
               else Wheels(MIN_RPM, -MIN_RPM, MIN_RPM, -MIN_RPM)
  {
    DrivableSlowest(0.0, 0.0, omegaZ);
    NormalizeEqualMagnitudes(Raw(0.0, 0.0, omegaZ));
  }

  /** Pure forward or backward travel: all four wheels at MIN_RPM in the direction of vy. */
  lemma KinematicsStraight(vy: real)
    requires vy != 0.0
    ensures Drivable(0.0, vy, 0.0)
    ensures Kinematics(0.0, vy, 0.0) == Wheels(Dir(vy), Dir(vy), Dir(vy), Dir(vy))
  {
    DrivableSlowest(0.0, vy, 0.0);
    NormalizeEqualMagnitudes(Raw(0.0, vy, 0.0));
  }

  /** Pure sideways travel: fl = rr = -fr = -rl, with fl negative when vx is positive. */
  lemma KinematicsStrafe(vx: real)
    requires vx != 0.0
    ensures Drivable(vx, 0.0, 0.0)
    ensures Kinematics(vx, 0.0, 0.0) == Wheels(Dir(-vx), Dir(vx), Dir(vx), Dir(-vx))
  {
    DrivableSlowest(vx, 0.0, 0.0);
    NormalizeEqualMagnitudes(Raw(vx, 0.0, 0.0));
  }

  /** Rotation time and the constant angular rate it assumes. */
  datatype Rotation = Rotation(time: real, omega: real)

  /** `CalculateRotationTime(angle)`: the time to turn through |angle| degrees at the angular rate
      the minimum wheel speed gives, plus a settling margin. */
  function CalculateRotationTime(angle: real): (r: Rotation)
    ensures r.omega == WHEEL_V_MIN / LXLY && r.omega > 0.0
    ensures r.time >= ROTATION_MARGIN
  {
    var omegaZ := (MIN_RPM * WHEEL_RADIUS * 2.0 * PI) / (60.0 * LXLY);
    var angleRad := Radians(Abs(angle));
    Rotation(angleRad / omegaZ + ROTATION_MARGIN, omegaZ)
  }

  /** Seconds of turning per degree; PI cancels out of the rotation time. */
  const SECONDS_PER_DEGREE: real := (60.0 * LXLY) / (360.0 * MIN_RPM * WHEEL_RADIUS)

  /** The rotation time is affine in |angle|, with the positive slope SECONDS_PER_DEGREE. */
  lemma RotationTimeClosedForm(angle: real)
    ensures SECONDS_PER_DEGREE > 0.0
    ensures CalculateRotationTime(angle).time == ROTATION_MARGIN + Abs(angle) * SECONDS_PER_DEGREE
  {
  }

  /** Only the magnitude of the angle matters, and a larger one takes strictly longer. */
  lemma RotationTimeMonotone(a: real, b: real)
    ensures Abs(a) == Abs(b) ==> CalculateRotationTime(a).time == CalculateRotationTime(b).time
    ensures Abs(a) < Abs(b) ==> CalculateRotationTime(a).time < CalculateRotationTime(b).time
  {
    RotationTimeClosedForm(a);
    RotationTimeClosedForm(b);
  }

  /** The value `time.time() - start >= duration` tests in the busy-wait loops. */
  function Elapsed(start: real, duration: real): real -> bool {
    t => t - start >= duration
  }

  /** The busy-wait `while True: if time.time() - startTime >= duration: break`. `readings` are
      the successive clock values the loop sees. The wait ends at the first reading at least
      `duration` past `start`; when no reading is, the source is still spinning and `finished`
      is false. `polls` counts the clock reads made. */
  method WaitFor(start: real, duration: real, readings: seq<real>) returns (finished: bool, polls: nat)
    ensures finished <==> First(readings, Elapsed(start, duration)).Some?
    ensures finished ==> polls == First(readings, Elapsed(start, duration)).value + 1
    ensures !finished ==> polls == |readings|
  {
    var i := 0;
    while i < |readings|
      invariant i <= |readings|
      invariant forall j :: 0 <= j < i ==> !Elapsed(start, duration)(readings[j])
    {
      if readings[i] - start >= duration {
        FirstIsUnique(readings, Elapsed(start, duration), i);
        return true, i + 1;
      }
      i := i + 1;
    }
    return false, |readings|;
  }

  /** A wheel command of whole RPM values, sent as Python floats. */
  function Floats(w: Wheels<int>): Wheels<Num> {
    Wheels(Float(w.fl), Float(w.fr), Float(w.rl), Float(w.rr))
  }

  /** 20 RPM in the given directions (+1 or -1), as `kinematics` returns them for the fixed
      manoeuvres. */
  function AtMinRpm(sfl: int, sfr: int, srl: int, srr: int): Wheels<Num> {
    Floats(Wheels(20 * sfl, 20 * sfr, 20 * srl, 20 * srr))
  }

  /** All wheels stopped; the source sends the integer 0. */
  const STOP: Wheels<Num> := Wheels(Int(0), Int(0), Int(0), Int(0))

  predicate IsWhole(x: real) {
    x.Floor as real == x
  }

  /** The float values `kinematics` hands to `sendSpeedCommand`, when they are whole. */
  function AsFloats(w: Wheels<real>): Wheels<Num>
    requires IsWhole(w.fl) && IsWhole(w.fr) && IsWhole(w.rl) && IsWhole(w.rr)
  {
    Wheels(Float(w.fl.Floor), Float(w.fr.Floor), Float(w.rl.Floor), Float(w.rr.Floor))
  }

  /** `fl, fr, rl, rr = kinematics(vx, vy, omegaZ)` followed by `sendSpeedCommand(fl, fr, rl, rr)`,
      for velocities whose wheel commands come out whole. */
  method SendKinematics(handler: CommandHandler, vx: real, vy: real, omegaZ: real)
    requires Drivable(vx, vy, omegaZ)
    requires var w := Kinematics(vx, vy, omegaZ);
      IsWhole(w.fl) && IsWhole(w.fr) && IsWhole(w.rl) && IsWhole(w.rr)
    modifies handler
    ensures handler.log == old(handler.log) + SpeedLines(AsFloats(Kinematics(vx, vy, omegaZ)))
  {
    var w := Kinematics(vx, vy, omegaZ);
    handler.SendSpeedCommand(Float(w.fl.Floor), Float(w.fr.Floor), Float(w.rl.Floor), Float(w.rr.Floor));
  }

  /** The spin `AlignAngle` and `rotate` send: counter-clockwise (omegaZ > 0) is
      (-20, 20, -20, 20), clockwise the opposite. */
  lemma SpinCommand(omegaZ: real)
    requires omegaZ != 0.0
    ensures Drivable(0.0, 0.0, omegaZ)
    ensures var w := Kinematics(0.0, 0.0, omegaZ);
      IsWhole(w.fl) && IsWhole(w.fr) && IsWhole(w.rl) && IsWhole(w.rr)
      && AsFloats(w) == if omegaZ > 0.0 then AtMinRpm(-1, 1, -1, 1) else AtMinRpm(1, -1, 1, -1)
  {
    KinematicsSpin(omegaZ);
  }

  /** Backwards at 20 RPM on every wheel, for `AlignBackward`. */
  lemma BackwardCommand()
    ensures Drivable(0.0, -1.0, 0.0)
    ensures var w := Kinematics(0.0, -1.0, 0.0);
      IsWhole(w.fl) && IsWhole(w.fr) && IsWhole(w.rl) && IsWhole(w.rr)
      && AsFloats(w) == AtMinRpm(-1, -1, -1, -1)
  {
    KinematicsStraight(-1.0);
  }

  /** The strafe `AlignX` sends for sideways speed vx: fl = rr = -fr = -rl, fl negative when vx
      is positive. vx is a numpy float64 there, so a zero vx divides a float64 zero in
      `kinematics`, which gives an infinite ratio instead of raising; each speed is then zero
      times infinity, and the four speeds sent are not-a-number. */
  function Strafe(vx: real): (w: Wheels<Num>)
    ensures w == NAN_SPEEDS <==> vx == 0.0
  {
    if vx > 0.0 then AtMinRpm(-1, 1, 1, -1)
    else if vx < 0.0 then AtMinRpm(1, -1, -1, 1)
    else NAN_SPEEDS
  }

  /** Not-a-number on every wheel. */
  const NAN_SPEEDS: Wheels<Num> := Wheels(NaN, NaN, NaN, NaN)

  lemma StrafeCommand(vx: real)
    requires vx != 0.0
    ensures Drivable(vx, 0.0, 0.0)
    ensures var w := Kinematics(vx, 0.0, 0.0);
      IsWhole(w.fl) && IsWhole(w.fr) && IsWhole(w.rl) && IsWhole(w.rr)
      && AsFloats(w) == Strafe(vx)
  {
    KinematicsStrafe(vx);
  }

  /** The spin `AlignAngle` starts for an angle: clockwise, (20, -20, 20, -20), when the angle is
      negative, counter-clockwise otherwise. */
  function TurnToward(angle: real): Wheels<Num> {
    if angle < 0.0 then AtMinRpm(1, -1, 1, -1) else AtMinRpm(-1, 1, -1, 1)
  }

  /** `AlignAngle`: turns in place in the direction of the angle (counter-clockwise unless
      angle < 0), busy-waits for the computed rotation time, then stops and returns True.
      `start` and `readings` are the clock values the source reads. `done` is false when no
      reading reaches the rotation time: the source is then still waiting and has not sent the
      stop. */
  method AlignAngle(angle: real, handler: CommandHandler, start: real, readings: seq<real>)
    returns (done: bool)
    modifies handler
    ensures done <==> First(readings, Elapsed(start, CalculateRotationTime(angle).time)).Some?
    ensures handler.log == old(handler.log) + SpeedLines(TurnToward(angle))
              + (if done then SpeedLines(STOP) else [])
  {
    var rotation := CalculateRotationTime(angle);
    var omegaZ := rotation.omega;
    if angle < 0.0 {
      omegaZ := -omegaZ;
    }
    SpinCommand(omegaZ);
    SendKinematics(handler, 0.0, 0.0, omegaZ);
    var finished, _ := WaitFor(start, rotation.time, readings);
    if !finished {
      return false;
    }
    handler.SendSpeedCommand(Int(0), Int(0), Int(0), Int(0));
    done := true;
  }

  /** `rotate`: starts a slow clockwise search turn, (20, -20, 20, -20), and returns. */
  method Rotate(handler: CommandHandler)
    modifies handler
    ensures handler.log == old(handler.log) + SpeedLines(AtMinRpm(1, -1, 1, -1))
  {
    var omegaZ := -1.0;
    SpinCommand(omegaZ);
    SendKinematics(handler, 0.0, 0.0, omegaZ);
  }

  /** How long `AlignBackward` backs off, in seconds. */
  const BACKWARD_TIME: real := 5.0

  /** `AlignBackward`: drives straight back at 20 RPM for five seconds, then stops and returns
      True; `done` is false when the clock readings run out first. */
  method AlignBackward(handler: CommandHandler, start: real, readings: seq<real>)
    returns (done: bool)
    modifies handler
    ensures done <==> First(readings, Elapsed(start, BACKWARD_TIME)).Some?
    ensures handler.log == old(handler.log) + SpeedLines(AtMinRpm(-1, -1, -1, -1))
              + (if done then SpeedLines(STOP) else [])
  {
    BackwardCommand();
    SendKinematics(handler, 0.0, -1.0, 0.0);
    var finished, _ := WaitFor(start, BACKWARD_TIME, readings);
    if !finished {
      return false;
    }
    handler.SendSpeedCommand(Int(0), Int(0), Int(0), Int(0));
    done := true;
  }

  /** How a call that can block or raise ended. */
  datatype Outcome = Completed | StillWaiting | ZeroDivisionError

  /** How a manoeuvre that can block or raise ended, and the serial log after it. */
  datatype Manoeuvre = Manoeuvre(outcome: Outcome, log: seq<string>)

  /** What `AlignX(v, commandHandler, angle_rad)` does to a serial log: it splits the approach
      speed v along the marker's angle (`sin` and `cos` stand for numpy's) into a sideways part vx
      and a forward part vy, backs off first (`AlignBackward`, on the clock `start`/`readings`)
      when vy is below 30, then strafes in the direction of vx (`Strafe`: not-a-number speeds
      when vx is zero, since vx is a numpy float64 and dividing by it does not raise). */
  function AlignXManoeuvre(log: seq<string>, v: real, angleRad: real, sin: real -> real,
                           cos: real -> real, start: real, readings: seq<real>): (m: Manoeuvre)
    ensures log <= m.log
  {
    var vx, vy := v * -sin(angleRad), v * cos(angleRad);
    if vy < 30.0 && First(readings, Elapsed(start, BACKWARD_TIME)).None? then
      Manoeuvre(StillWaiting, log + SpeedLines(AtMinRpm(-1, -1, -1, -1)))
    else
      var backed := if vy < 30.0 then log + SpeedLines(AtMinRpm(-1, -1, -1, -1)) + SpeedLines(STOP)
                    else log;
      Manoeuvre(Completed, backed + SpeedLines(Strafe(vx)))
  }

  /** `AlignX` only appends to the log, and it never raises. When it completes, the last command
      is a pure strafe (front-left and rear-right one way, the other two wheels the other way, at
      20 RPM), which leaves the robot moving sideways, unless the sideways part is zero, when it
      is the four not-a-number speeds; before it only the back-off and its stop, eight lines, may
      have been sent, and they were sent exactly when the forward part is below 30. */
  lemma AlignXEndsWithStrafe(log: seq<string>, v: real, angleRad: real, sin: real -> real,
                             cos: real -> real, start: real, readings: seq<real>)
    requires AlignXManoeuvre(log, v, angleRad, sin, cos, start, readings).outcome != StillWaiting
    ensures var m := AlignXManoeuvre(log, v, angleRad, sin, cos, start, readings);
      var vx, vy := v * -sin(angleRad), v * cos(angleRad);
      && m.outcome == Completed
      && |m.log| == |log| + (if vy < 30.0 then 12 else 4)
      && m.log[..|log|] == log
      && (vy < 30.0 ==> m.log[|log|..|log| + 8] == SpeedLines(AtMinRpm(-1, -1, -1, -1)) + SpeedLines(STOP))
      && m.log[|m.log| - 4..] == SpeedLines(Strafe(vx))
  {
    var vx, vy := v * -sin(angleRad), v * cos(angleRad);
    var backOff, stop, last := SpeedLines(AtMinRpm(-1, -1, -1, -1)), SpeedLines(STOP), SpeedLines(Strafe(vx));
    AlignXLog(log, v, angleRad, sin, cos, start, readings);
    if vy < 30.0 {
      InFourParts(log, backOff, stop, last);
    } else {
      InFourParts(log, [], [], last);
      assert log + [] + [] == log;
    }
  }

  /** The log after `AlignX` completes, part by part. */
  lemma AlignXLog(log: seq<string>, v: real, angleRad: real, sin: real -> real,
                  cos: real -> real, start: real, readings: seq<real>)
    ensures var m := AlignXManoeuvre(log, v, angleRad, sin, cos, start, readings);
      var vx, vy := v * -sin(angleRad), v * cos(angleRad);
      m.outcome == Completed ==>
        m.log == (if vy < 30.0 then log + SpeedLines(AtMinRpm(-1, -1, -1, -1)) + SpeedLines(STOP) else log)
                 + SpeedLines(Strafe(vx))
  {
  }

  /** The parts of `a + b + c + d` can be read back by position. */
  lemma InFourParts(a: seq<string>, b: seq<string>, c: seq<string>, d: seq<string>)
    ensures var l := a + b + c + d;
      l[..|a|] == a && l[|a|..|a| + |b| + |c|] == b + c && l[|l| - |d|..] == d
  {
  }

  /** `AlignX` as a method on the serial link. */
  method AlignX(v: real, handler: CommandHandler, angleRad: real, sin: real -> real,
                cos: real -> real, start: real, readings: seq<real>) returns (result: Outcome)
    modifies handler
    ensures var m := AlignXManoeuvre(old(handler.log), v, angleRad, sin, cos, start, readings);
      result == m.outcome && handler.log == m.log
  {
    var vx := v * -sin(angleRad);
    var vy := v * cos(angleRad);
    if vy < 30.0 {
      var backed := AlignBackward(handler, start, readings);
      if !backed {
        return StillWaiting;
      }
    }
    if vx == 0.0 {
      handler.SendSpeedCommand(NaN, NaN, NaN, NaN);
      return Completed;
    }
    StrafeCommand(vx);
    SendKinematics(handler, vx, 0.0, 0.0);
    result := Completed;
  }

  /** `stopRobot`: every wheel to 0. */
  method StopRobot(handler: CommandHandler)
    modifies handler
    ensures handler.log == old(handler.log) + SpeedLines(STOP)
  {
    handler.SendSpeedCommand(Int(0), Int(0), Int(0), Int(0));
  }
}
