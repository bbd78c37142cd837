/** Properties of the four-corner calibration and of the nine-area classifier. */
module CalibrationProperties {
  import opened Wrappers
  import opened Angles
  import opened Calibration

  /** All four corner labels are present, and nothing else. */
  ghost predicate Complete(corners: map<string, Point>)
  {
    |corners| == 4 && forall i :: 0 <= i < |CornerLabels| ==> CornerLabels[i] in corners
  }

  function Span4(corners: map<string, Point>): Span
    requires Complete(corners)
  {
    assert CornerLabels[0] in corners && CornerLabels[1] in corners;
    assert CornerLabels[2] in corners && CornerLabels[3] in corners;
    SpanOf(corners["top_left"], corners["top_right"], corners["bottom_left"], corners["bottom_right"])
  }

  ghost predicate Degenerate(sp: Span)
  {
    sp.maxX == sp.minX || sp.maxY == sp.minY
  }

  /** The three ways transform_coordinates fails, each exactly when its cause holds. */
  lemma TransformErrors(corners: map<string, Point>, raw: Point)
    ensures TransformCoordinates(corners, raw) == Err(Incomplete) <==> |corners| != 4
    ensures (TransformCoordinates(corners, raw).Err? && TransformCoordinates(corners, raw).error.MissingCorner?)
            <==> |corners| == 4 && !Complete(corners)
    ensures TransformCoordinates(corners, raw) == Err(ZeroDivision) <==> Complete(corners) && Degenerate(Span4(corners))
    ensures TransformCoordinates(corners, raw).Ok? <==> Complete(corners) && !Degenerate(Span4(corners))
  {
    var all := "top_left" in corners && "top_right" in corners && "bottom_left" in corners && "bottom_right" in corners;
    if all {
      forall i | 0 <= i < |CornerLabels| ensures CornerLabels[i] in corners {
        assert i == 0 || i == 1 || i == 2 || i == 3;
      }
    }
    if Complete(corners) {
      assert CornerLabels[0] in corners && CornerLabels[1] in corners;
      assert CornerLabels[2] in corners && CornerLabels[3] in corners;
    }
  }

  /** A calibrated point always lies in the unit square. */
  lemma TransformInUnitSquare(corners: map<string, Point>, raw: Point)
    requires TransformCoordinates(corners, raw).Ok?
    ensures var p := TransformCoordinates(corners, raw).value; 0.0 <= p.x <= 1.0 && 0.0 <= p.y <= 1.0
  {
  }

  /** With all four corners and a non-degenerate span, the transform is the clamped rescaling. */
  lemma TransformValue(corners: map<string, Point>, raw: Point)
    requires Complete(corners) && !Degenerate(Span4(corners))
    ensures var sp := Span4(corners);
            TransformCoordinates(corners, raw)
            == Ok(Point(Clamp01((raw.x - sp.minX) / (sp.maxX - sp.minX)),
                        Clamp01(1.0 - (raw.y - sp.minY) / (sp.maxY - sp.minY))))
  {
    assert CornerLabels[0] in corners && CornerLabels[1] in corners;
    assert CornerLabels[2] in corners && CornerLabels[3] in corners;
  }

  /**
   * Inside the calibrated span the transform is the affine map that sends
   * the left edge to 0 and the right edge to 1, and the top edge to 1 and
   * the bottom edge to 0 (y turned to point up).
   */
  lemma TransformAffineInside(corners: map<string, Point>, raw: Point)
    requires Complete(corners) && !Degenerate(Span4(corners))
    ensures TransformCoordinates(corners, raw).Ok?
    ensures var sp := Span4(corners); var p := TransformCoordinates(corners, raw).value;
            && (sp.minX < sp.maxX && sp.minX <= raw.x <= sp.maxX ==> p.x == (raw.x - sp.minX) / (sp.maxX - sp.minX))
            && (sp.minY < sp.maxY && sp.minY <= raw.y <= sp.maxY ==> p.y == (sp.maxY - raw.y) / (sp.maxY - sp.minY))
  {
    TransformValue(corners, raw);
    var sp := Span4(corners);
    if sp.minX < sp.maxX && sp.minX <= raw.x <= sp.maxX {
      ClampRescale(raw.x, sp.minX, sp.maxX);
    }
    if sp.minY < sp.maxY && sp.minY <= raw.y <= sp.maxY {
      ClampRescaleFlipped(raw.y, sp.minY, sp.maxY);
    }
  }

  lemma ClampRescale(v: real, lo: real, hi: real)
    requires lo < hi && lo <= v <= hi
    ensures Clamp01((v - lo) / (hi - lo)) == (v - lo) / (hi - lo)
  {
    DivisionInUnit(v - lo, hi - lo);
  }

  lemma ClampRescaleFlipped(v: real, lo: real, hi: real)
    requires lo < hi && lo <= v <= hi
    ensures Clamp01(1.0 - (v - lo) / (hi - lo)) == (hi - v) / (hi - lo)
  {
    var d := hi - lo;
    DivisionInUnit(v - lo, d);
    var q, p := (v - lo) / d, (hi - v) / d;
    assert q * d == v - lo && p * d == hi - v;
    assert (q + p - 1.0) * d == 0.0;
    ZeroFactor(q + p - 1.0, d);
  }

  lemma ZeroFactor(x: real, d: real)
    requires d > 0.0 && x * d == 0.0
    ensures x == 0.0
  {
    if x > 0.0 {
      PositiveProduct(x, d);
    } else if x < 0.0 {
      PositiveProduct(-x, d);
    }
  }

  lemma PositiveProduct(x: real, d: real)
    requires x > 0.0 && d > 0.0
    ensures x * d > 0.0
  {
  }

  lemma DivisionInUnit(a: real, b: real)
    requires 0.0 <= a <= b && b > 0.0
    ensures 0.0 <= a / b <= 1.0
  {
  }

  /** Looking at the calibrated lower-left edge point gives (0, 0); at the upper-right, (1, 1). */
  lemma CalibratedCornersMapToUnitCorners(corners: map<string, Point>)
    requires Complete(corners) && !Degenerate(Span4(corners))
    ensures var sp := Span4(corners);
            && TransformCoordinates(corners, Point(sp.minX, sp.maxY)) == Ok(Point(0.0, 0.0))
            && TransformCoordinates(corners, Point(sp.maxX, sp.minY)) == Ok(Point(1.0, 1.0))
  {
    var sp := Span4(corners);
    TransformValue(corners, Point(sp.minX, sp.maxY));
    TransformValue(corners, Point(sp.maxX, sp.minY));
    UnitQuotients(sp.maxX - sp.minX);
    UnitQuotients(sp.maxY - sp.minY);
  }

  lemma UnitQuotients(d: real)
    requires d != 0.0
    ensures d / d == 1.0 && 0.0 / d == 0.0
    ensures Clamp01(d / d) == 1.0 && Clamp01(0.0 / d) == 0.0
    ensures Clamp01(1.0 - d / d) == 0.0 && Clamp01(1.0 - 0.0 / d) == 1.0
  {
  }

  /** Further right is never calibrated further left; further down (raw) is never calibrated further up. */
  lemma TransformMonotone(corners: map<string, Point>, a: Point, b: Point)
    requires Complete(corners) && !Degenerate(Span4(corners))
    ensures TransformCoordinates(corners, a).Ok? && TransformCoordinates(corners, b).Ok?
    ensures var sp := Span4(corners); var pa := TransformCoordinates(corners, a).value;
            var pb := TransformCoordinates(corners, b).value;
            && (sp.minX < sp.maxX && a.x <= b.x ==> pa.x <= pb.x)
            && (sp.minY < sp.maxY && a.y <= b.y ==> pa.y >= pb.y)
  {
    TransformValue(corners, a);
    TransformValue(corners, b);
    var sp := Span4(corners);
    if sp.minX < sp.maxX && a.x <= b.x {
      QuotientMonotone(a.x - sp.minX, b.x - sp.minX, sp.maxX - sp.minX);
    }
    if sp.minY < sp.maxY && a.y <= b.y {
      QuotientMonotone(a.y - sp.minY, b.y - sp.minY, sp.maxY - sp.minY);
    }
  }

  lemma QuotientMonotone(a: real, b: real, d: real)
    requires a <= b && d > 0.0
    ensures a / d <= b / d
  {
  }

  /** Four or more samples capture every corner; fewer leave the calibration incomplete. */
  lemma CapturedCompleteness(gaze: seq<Point>, raw: Point)
    ensures |gaze| >= 4 ==> Complete(Captured(gaze, 4))
    ensures |gaze| >= 4 ==> forall i :: 0 <= i < |CornerLabels| ==> Captured(gaze, 4)[CornerLabels[i]] == gaze[i]
    ensures |gaze| < 4 ==> TransformCoordinates(Captured(gaze, |gaze|), raw) == Err(Incomplete)
  {
    if |gaze| >= 4 {
      CapturedSize(gaze, 4);
    } else {
      CapturedSize(gaze, |gaze|);
    }
  }

  lemma {:induction false} CapturedSize(gaze: seq<Point>, n: nat)
    requires n <= |CornerLabels| && n <= |gaze|
    ensures |Captured(gaze, n)| == n
  {
    if n > 0 {
      CapturedSize(gaze, n - 1);
      assert CornerLabels[n - 1] !in Captured(gaze, n - 1);
    }
  }

  // ---------------------------------------------------------------------
  // Vertical orientation of the classifier
  // ---------------------------------------------------------------------

  ghost predicate NamesTop(area: string)
  {
    area == "top ring" || area == "top-left (NUM)" || area == "top-right (⟳)"
  }

  ghost predicate NamesBottom(area: string)
  {
    area == "bottom ring" || area == "bottom-left (X)" || area == "bottom-right (✓)"
  }

  lemma NormalisedAtan2(theta: real, yy: real, xx: real)
    requires Atan2Degrees(theta, yy, xx)
    ensures yy > 0.0 ==> 0.0 < ModDegrees(theta) < 180.0
    ensures yy < 0.0 ==> 180.0 < ModDegrees(theta) < 360.0
    ensures yy == 0.0 && (xx > 0.0 || xx < 0.0) ==> ModDegrees(theta) == 0.0 || ModDegrees(theta) == 180.0
  {
    if theta < 0.0 {
      NegativeAngleWraps(theta);
    } else {
      NormalisedAngleFixed(theta);
    }
  }

  /**
   * As written, the ring's "top" is below the centre and its "bottom"
   * above it, while the corners' "top" is above: the two halves of the
   * classifier disagree about which way is up.
   */
  lemma RingUpsideDownAsWritten(x: real, y: real, atan2: (real, real) -> real)
    requires IsAtan2Degrees(atan2)
    ensures ClassifyArea(x, y, atan2) == "top ring" ==> y < 0.5
    ensures ClassifyArea(x, y, atan2) == "bottom ring" ==> y > 0.5
    ensures ClassifyArea(x, y, atan2) in {"top-left (NUM)", "top-right (⟳)"} ==> y > 0.5
    ensures ClassifyArea(x, y, atan2) in {"bottom-left (X)", "bottom-right (✓)"} ==> y < 0.5
  {
    var dx := x - 0.5;
    var dy := y - 0.5;
    assert Atan2Degrees(atan2(-dy, dx), -dy, dx);
    NormalisedAtan2(atan2(-dy, dx), -dy, dx);
  }

  /** As written: (0.45, 0.7) is the bottom ring, yet (0.45, 0.9), straight above it, is the top-left corner. */
  lemma RingUpsideDownWitness(atan2: (real, real) -> real)
    requires IsAtan2Degrees(atan2)
    ensures ClassifyArea(0.45, 0.7, atan2) == "bottom ring"
    ensures ClassifyArea(0.45, 0.9, atan2) == "top-left (NUM)"
  {
    var dx := 0.45 - 0.5;
    var dy := 0.7 - 0.5;
    var theta := atan2(-dy, dx);
    assert Atan2Degrees(theta, -dy, dx);
    NegativeAngleWraps(theta);
  }

  /** Measuring the ring angle with y up, every "top" area is above the centre and every "bottom" area below it. */
  lemma UprightOrientationConsistent(x: real, y: real, atan2: (real, real) -> real)
    requires IsAtan2Degrees(atan2)
    ensures NamesTop(ClassifyAreaUpright(x, y, atan2)) ==> y > 0.5
    ensures NamesBottom(ClassifyAreaUpright(x, y, atan2)) ==> y < 0.5
    ensures ClassifyAreaUpright(0.45, 0.7, atan2) == "top ring"
  {
    var dx := x - 0.5;
    var dy := y - 0.5;
    assert Atan2Degrees(atan2(dy, dx), dy, dx);
    NormalisedAtan2(atan2(dy, dx), dy, dx);
    var theta := atan2(0.7 - 0.5, 0.45 - 0.5);
    assert Atan2Degrees(theta, 0.7 - 0.5, 0.45 - 0.5);
    NormalisedAngleFixed(theta);
  }

  /** With y up, the ring quarters are the four 90-degree wedges around the axes. */
  lemma UprightRingQuarters(x: real, y: real, atan2: (real, real) -> real)
    requires IsAtan2Degrees(atan2)
    requires var d2 := (x - 0.5) * (x - 0.5) + (y - 0.5) * (y - 0.5); InnerSquared < d2 <= OuterSquared
    ensures var dx := x - 0.5; var dy := y - 0.5; var r := ClassifyAreaUpright(x, y, atan2);
            && (dx > 0.0 && -dx < dy < dx ==> r == "right ring")
            && (dy > 0.0 && -dy < dx < dy ==> r == "top ring")
            && (dx < 0.0 && dx < dy < -dx ==> r == "left ring")
            && (dy < 0.0 && dy < dx < -dy ==> r == "bottom ring")
  {
    var dx := x - 0.5;
    var dy := y - 0.5;
    var theta := atan2(dy, dx);
    assert Atan2Degrees(theta, dy, dx);
    if theta < 0.0 {
      NegativeAngleWraps(theta);
    } else {
      NormalisedAngleFixed(theta);
    }
  }
}
