/** current_state_app/mathUtils.py: translation vector to planar position, and the angle
    normaliser that maps any angle into [-180, 180). */
module MathUtils {
  import opened PyMath

  /** A planar position in centimetres. */
  datatype Position = Position(x: real, y: real)

  /** `calculate_2d_position(pose_t, correction_factor)`: the first and third components of the
      translation vector, converted from metres to centimetres and scaled by the factor; the
      second component plays no part. */
  function Calculate2dPosition(poseT: seq<real>, correctionFactor: real := 1.0): (p: Position)
    requires |poseT| >= 3
  {
    Position(poseT[0] * 100.0 * correctionFactor, poseT[2] * 100.0 * correctionFactor)
  }

  /** With the default factor the position is the translation in centimetres: 1 m is 100 cm. */
  lemma MetresToCentimetres(poseT: seq<real>)
    requires |poseT| >= 3
    ensures Calculate2dPosition(poseT) == Position(100.0 * poseT[0], 100.0 * poseT[2])
  {
  }

  /** The factor scales both coordinates of the default result. */
  lemma CorrectionScales(poseT: seq<real>, cf: real)
    requires |poseT| >= 3
    ensures var p, q := Calculate2dPosition(poseT, cf), Calculate2dPosition(poseT);
      p.x == cf * q.x && p.y == cf * q.y
  {
  }

  /** The vertical component does not influence the result. */
  lemma IgnoresVertical(s: seq<real>, t: seq<real>, cf: real)
    requires |s| >= 3 && |t| >= 3 && s[0] == t[0] && s[2] == t[2]
    ensures Calculate2dPosition(s, cf) == Calculate2dPosition(t, cf)
  {
  }

  /** `normalize_angle(a)` = `(a + 180) % 360 - 180`, with Python's floored `%`. */
  function NormalizeAngle(a: real): (r: real)
    ensures -180.0 <= r < 180.0
  {
    FloorMod(a + 180.0, 360.0) - 180.0
  }

  /** Angles already in [-180, 180) are returned unchanged. */
  lemma NormalizeIdentity(a: real)
    requires -180.0 <= a < 180.0
    ensures NormalizeAngle(a) == a
  {
    FloorModIdentity(a + 180.0, 360.0);
  }

  /** A full turn more gives the same normalised angle. */
  lemma NormalizePeriodic(a: real)
    ensures NormalizeAngle(a + 360.0) == NormalizeAngle(a)
  {
    FloorModPeriodic(a + 180.0, 360.0);
    assert a + 360.0 + 180.0 == (a + 180.0) + 360.0;
  }

  /** The normalised angle differs from the input by a whole number of turns. */
  lemma NormalizeWholeTurns(a: real)
    ensures (a - NormalizeAngle(a)) / 360.0 == ((a + 180.0) / 360.0).Floor as real
  {
    FloorModCongruent(a + 180.0, 360.0);
    assert a - NormalizeAngle(a) == (a + 180.0) - FloorMod(a + 180.0, 360.0);
  }

  /** Normalising twice is normalising once. */
  lemma NormalizeIdempotent(a: real)
    ensures NormalizeAngle(NormalizeAngle(a)) == NormalizeAngle(a)
  {
    NormalizeIdentity(NormalizeAngle(a));
  }
}
