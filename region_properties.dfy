/** Properties of the 25-region classifier. */
module RegionProperties {
  import opened Angles
  import opened RegionClassifier

  /** The boundaries rise strictly from 0 to 360, so the 20 sectors are non-empty and disjoint. */
  lemma BoundsIncrease()
    ensures |Bounds| == 21 && Bounds[0] == 0.0 && Bounds[20] == 360.0
    ensures forall k :: 0 <= k < 20 ==> Bounds[k] < Bounds[k + 1]
  {
  }

  /** Sector k of the if-chain is exactly the angles in [Bounds[k - 1], Bounds[k]). */
  lemma SectorOfAngleIsBucket(angle: real)
    requires 0.0 <= angle < 360.0
    ensures var k := SectorOfAngle(angle); 1 <= k <= 20 && Bounds[k - 1] <= angle < Bounds[k]
  {
  }

  /** ... and no other sector holds the angle. */
  lemma SectorBucketUnique(angle: real, k: int)
    requires 1 <= k <= 20 && Bounds[k - 1] <= angle < Bounds[k]
    ensures SectorOfAngle(angle) == k
  {
    SectorOfAngleIsBucket(angle);
    BoundsIncrease();
    var j := SectorOfAngle(angle);
    if j < k {
      Ordered(j, k - 1);
    } else if j > k {
      Ordered(k, j - 1);
    }
  }

  /** Boundaries are non-decreasing at any distance. */
  lemma Ordered(i: int, j: int)
    requires 0 <= i <= j <= 20
    ensures Bounds[i] <= Bounds[j]
    decreases j - i
  {
    BoundsIncrease();
    if i < j {
      Ordered(i + 1, j);
    }
  }

  /**
   * The regions by distance from the centre: 25 inside the disc, a ring
   * sector between the radii, a corner beyond the ring, and "outside" only
   * beyond the ring on one of the two centre lines.
   */
  lemma ClassifyPointRegions(x: real, y: real, atan2: (real, real) -> real)
    ensures var dx := x - 0.5; var dy := y - 0.5; var d2 := dx * dx + dy * dy;
            var r := ClassifyPoint(x, y, atan2);
            && (r == Zone(25) <==> d2 <= InnerSquared)
            && (r.Zone? && 1 <= r.n <= 20 <==> InnerSquared < d2 <= OuterSquared)
            && (r.Zone? && 21 <= r.n <= 24 <==> OuterSquared < d2 && x != 0.5 && y != 0.5)
            && (r == Outside <==> OuterSquared < d2 && (x == 0.5 || y == 0.5))
  {
    var a := ModDegrees(atan2(y - 0.5, x - 0.5));
    SectorOfAngleIsBucket(a);
  }

  /** The corners: 23 upper-left, 24 upper-right, 21 lower-left, 22 lower-right in image coordinates (y grows downwards). */
  lemma CornerRegions(x: real, y: real, atan2: (real, real) -> real)
    requires (x - 0.5) * (x - 0.5) + (y - 0.5) * (y - 0.5) > OuterSquared
    ensures x < 0.5 && y < 0.5 ==> ClassifyPoint(x, y, atan2) == Zone(23)
    ensures x > 0.5 && y < 0.5 ==> ClassifyPoint(x, y, atan2) == Zone(24)
    ensures x < 0.5 && y > 0.5 ==> ClassifyPoint(x, y, atan2) == Zone(21)
    ensures x > 0.5 && y > 0.5 ==> ClassifyPoint(x, y, atan2) == Zone(22)
  {
  }

  /** Every ring sector is reached: the angle at its lower boundary selects it. */
  lemma EverySectorReached(k: int)
    requires 1 <= k <= 20
    ensures SectorOfAngle(ModDegrees(Bounds[k - 1])) == k
  {
    BoundsIncrease();
    Ordered(0, k - 1);
    Ordered(k - 1, 19);
    NormalisedAngleFixed(Bounds[k - 1]);
    SectorBucketUnique(Bounds[k - 1], k);
  }

  /**
   * Points of the ring straight right of the centre are sector 1, straight
   * below it (y grows downwards) sector 5, straight left sector 11, straight
   * above sector 16.
   */
  lemma AxisSectors(x: real, y: real, atan2: (real, real) -> real)
    requires IsAtan2Degrees(atan2)
    requires var d2 := (x - 0.5) * (x - 0.5) + (y - 0.5) * (y - 0.5); InnerSquared < d2 <= OuterSquared
    ensures y == 0.5 && x > 0.5 ==> ClassifyPoint(x, y, atan2) == Zone(1)
    ensures x == 0.5 && y > 0.5 ==> ClassifyPoint(x, y, atan2) == Zone(5)
    ensures y == 0.5 && x < 0.5 ==> ClassifyPoint(x, y, atan2) == Zone(11)
    ensures x == 0.5 && y < 0.5 ==> ClassifyPoint(x, y, atan2) == Zone(16)
  {
    var theta := atan2(y - 0.5, x - 0.5);
    assert Atan2Degrees(theta, y - 0.5, x - 0.5);
    if theta < 0.0 {
      NegativeAngleWraps(theta);
    } else {
      NormalisedAngleFixed(theta);
    }
  }

  /** Every possible classification has a name; only "outside" is "unknown". */
  lemma EveryRegionNamed(x: real, y: real, atan2: (real, real) -> real)
    ensures var r := ClassifyPoint(x, y, atan2); RegionName(r) == "unknown" <==> r == Outside
  {
    var a := ModDegrees(atan2(y - 0.5, x - 0.5));
    SectorOfAngleIsBucket(a);
  }
}
