/**
 * Angles in degrees as the classifiers compute them. Dafny has no
 * trigonometry, so `math.degrees(math.atan2(yy, xx))` is a function
 * parameter and `IsAtan2Degrees` states the facts about it that the lemmas
 * rely on.
 */
module Angles {
  /** Python's `a % 360` on a float: the remainder takes the sign of 360. */
  function ModDegrees(a: real): (r: real)
    ensures 0.0 <= r < 360.0
    ensures ((a - r) / 360.0).Floor as real == (a - r) / 360.0
  {
    a - 360.0 * (a / 360.0).Floor as real
  }

  /**
   * Facts about `math.degrees(math.atan2(yy, xx))` for a point other than
   * the origin: its range, the axes, and the quadrant and octant it lies in.
   */
  ghost predicate Atan2Degrees(theta: real, yy: real, xx: real)
  {
    && -180.0 < theta <= 180.0
    && (yy > 0.0 ==> 0.0 < theta < 180.0)
    && (yy < 0.0 ==> theta < 0.0)
    && (yy == 0.0 && xx > 0.0 ==> theta == 0.0)
    && (yy == 0.0 && xx < 0.0 ==> theta == 180.0)
    && (xx == 0.0 && yy > 0.0 ==> theta == 90.0)
    && (xx == 0.0 && yy < 0.0 ==> theta == -90.0)
    && (xx > 0.0 && -xx < yy < xx ==> -45.0 < theta < 45.0)
    && (yy > 0.0 && -yy < xx < yy ==> 45.0 < theta < 135.0)
    && (xx < 0.0 && xx < yy < -xx ==> (theta > 135.0 || theta < -135.0))
    && (yy < 0.0 && yy < xx < -yy ==> -135.0 < theta < -45.0)
  }

  /** `atan2` behaves as `math.degrees(math.atan2(..))` at every point. */
  ghost predicate IsAtan2Degrees(atan2: (real, real) -> real)
  {
    forall yy, xx :: Atan2Degrees(atan2(yy, xx), yy, xx)
  }

  /** An angle already in [0, 360) is its own remainder. */
  lemma NormalisedAngleFixed(a: real)
    requires 0.0 <= a < 360.0
    ensures ModDegrees(a) == a
  {
    assert (a / 360.0).Floor == 0;
  }

  /** The remainder of a negative atan2 angle is that angle plus 360. */
  lemma NegativeAngleWraps(a: real)
    requires -360.0 <= a < 0.0
    ensures ModDegrees(a) == a + 360.0
  {
    assert (a / 360.0).Floor == -1;
  }
}
