/** new_app/ArucoDetection/Utils.py: the angle normaliser the marker detector applies to the
    roll angle. Unlike the one in current_state_app/mathUtils.py it shifts by half a turn:
    `(a % 360) - 180`. */
module ArucoUtils {
  import opened PyMath

  /** `normalize_angle(a)`, with Python's floored `%`. */
  function NormalizeAngle(a: real): (r: real)
    ensures -180.0 <= r < 180.0
  {
    FloorMod(a, 360.0) - 180.0
  }

  /** A full turn more gives the same result. */
  lemma NormalizePeriodic(a: real)
    ensures NormalizeAngle(a + 360.0) == NormalizeAngle(a)
  {
    FloorModPeriodic(a, 360.0);
  }

  /** The result plus half a turn differs from the input by a whole number of turns. */
  lemma NormalizeHalfTurn(a: real)
    ensures (a - (NormalizeAngle(a) + 180.0)) / 360.0 == (a / 360.0).Floor as real
  {
    FloorModCongruent(a, 360.0);
  }

  /** Within one turn from 0 the result is the input minus half a turn. */
  lemma NormalizeOnFirstTurn(a: real)
    requires 0.0 <= a < 360.0
    ensures NormalizeAngle(a) == a - 180.0
  {
    FloorModIdentity(a, 360.0);
  }

  /** So it is not the identity on its own range: 0 becomes -180 and 180 becomes 0. */
  lemma NotIdentity()
    ensures NormalizeAngle(0.0) == -180.0
    ensures NormalizeAngle(180.0) == 0.0
  {
    NormalizeOnFirstTurn(0.0);
    NormalizeOnFirstTurn(180.0);
  }
}
