/**
 * Four-corner calibration of raw gaze coordinates, and the nine-area
 * classifier it feeds (centre circle, four ring quarters, four corner
 * buttons). Coordinates are exact reals; `math.degrees(math.atan2(..))`
 * is the parameter `atan2`.
 */
module Calibration {
  import opened Wrappers
  import opened Angles

  datatype Point = Point(x: real, y: real)

  /** The order in which the corners are captured. */
  const CornerLabels: seq<string> := ["top_left", "top_right", "bottom_left", "bottom_right"]

  /** Radii 0.2 * 0.75 and 0.35 * 0.75, squared. */
  const InnerSquared: real := 0.0225
  const OuterSquared: real := 0.06890625

  /** The ring quarter of a normalised angle. */
  function RingQuarter(angle: real): string
  {
    if 45.0 <= angle < 135.0 then "top ring"
    else if 135.0 <= angle < 225.0 then "left ring"
    else if 225.0 <= angle < 315.0 then "bottom ring"
    else "right ring"
  }

  /**
   * classify_point as written: the ring angle is taken of (-dy, dx), with y
   * pointing down, while the corners take y pointing up.
   */
  function ClassifyArea(x: real, y: real, atan2: (real, real) -> real): string
  {
    var dx := x - 0.5;
    var dy := y - 0.5;
    var d2 := dx * dx + dy * dy;
    if d2 <= InnerSquared then "inner circle"
    else if d2 <= OuterSquared then RingQuarter(ModDegrees(atan2(-dy, dx)))
    else CornerArea(x, y)
  }

  /**
   * classify_point with the ring angle taken of (dy, dx), y pointing up as
   * in the corners and in the calibrated coordinates.
   */
  function ClassifyAreaUpright(x: real, y: real, atan2: (real, real) -> real): string
  {
    var dx := x - 0.5;
    var dy := y - 0.5;
    var d2 := dx * dx + dy * dy;
    if d2 <= InnerSquared then "inner circle"
    else if d2 <= OuterSquared then RingQuarter(ModDegrees(atan2(dy, dx)))
    else CornerArea(x, y)
  }

  /** The corner buttons beyond the ring. */
  function CornerArea(x: real, y: real): string
  {
    if x < 0.5 && y < 0.5 then "bottom-left (X)"
    else if x > 0.5 && y < 0.5 then "bottom-right (✓)"
    else if x < 0.5 && y > 0.5 then "top-left (NUM)"
    else if x > 0.5 && y > 0.5 then "top-right (⟳)"
    else "outside"
  }

  /** Why transform_coordinates fails: not four corners (ValueError), a label missing (KeyError), a zero-width span (ZeroDivisionError). */
  datatype CalibError = Incomplete | MissingCorner(corner: string) | ZeroDivision

  /** max(0.0, min(1.0, v)). */
  function Clamp01(v: real): (r: real)
    ensures 0.0 <= r <= 1.0
    ensures 0.0 <= v <= 1.0 ==> r == v
    ensures v < 0.0 ==> r == 0.0
    ensures v > 1.0 ==> r == 1.0
  {
    var m := if 1.0 < v then 1.0 else v;
    if 0.0 < m then m else 0.0
  }

  /** The calibrated span: left and right edges, top and bottom edges, each the mean of two corners. */
  datatype Span = Span(minX: real, maxX: real, minY: real, maxY: real)

  function SpanOf(tl: Point, tr: Point, bl: Point, br: Point): Span
  {
    Span((tl.x + bl.x) / 2.0, (tr.x + br.x) / 2.0, (tl.y + tr.y) / 2.0, (bl.y + br.y) / 2.0)
  }

  /** transform_coordinates: map a raw gaze point into the unit square, y pointing up. */
  function TransformCoordinates(corners: map<string, Point>, raw: Point): Result<Point, CalibError>
  {
    if |corners| != 4 then Err(Incomplete)
    else if "top_left" !in corners then Err(MissingCorner("top_left"))
    else if "top_right" !in corners then Err(MissingCorner("top_right"))
    else if "bottom_left" !in corners then Err(MissingCorner("bottom_left"))
    else if "bottom_right" !in corners then Err(MissingCorner("bottom_right"))
    else
      var sp := SpanOf(corners["top_left"], corners["top_right"], corners["bottom_left"], corners["bottom_right"]);
      if sp.maxX == sp.minX || sp.maxY == sp.minY then Err(ZeroDivision)
      else
        var cx := (raw.x - sp.minX) / (sp.maxX - sp.minX);
        var cy := 1.0 - (raw.y - sp.minY) / (sp.maxY - sp.minY);
        Ok(Point(Clamp01(cx), Clamp01(cy)))
  }

  /** The corners after capturing the first n samples, one per label in order. */
  function Captured(gaze: seq<Point>, n: nat): (m: map<string, Point>)
    requires n <= |CornerLabels| && n <= |gaze|
    ensures m.Keys == set j | 0 <= j < n :: CornerLabels[j]
    ensures forall j :: 0 <= j < n ==> CornerLabels[j] in m && m[CornerLabels[j]] == gaze[j]
  {
    if n == 0 then map[] else Captured(gaze, n - 1)[CornerLabels[n - 1] := gaze[n - 1]]
  }

  /** The calibration object: the captured corners. */
  class Calibrator {
    var corners: map<string, Point>

    /** The corners read from the saved calibration, or none. */
    constructor (saved: map<string, Point>)
      ensures corners == saved
    {
      corners := saved;
    }

    /**
     * calibrate: start from no corners and capture one gaze sample per
     * label, in order. When the gaze stream runs out first, the remaining
     * labels stay missing and the calibration is not saved.
     */
    method Calibrate(gaze: seq<Point>) returns (saved: bool)
      modifies this
      ensures saved <==> |gaze| >= |CornerLabels|
      ensures corners == Captured(gaze, if |gaze| < |CornerLabels| then |gaze| else |CornerLabels|)
    {
      corners := map[];
      var i := 0;
      while i < |CornerLabels|
        invariant 0 <= i <= |CornerLabels|
        invariant i <= |gaze|
        invariant corners == Captured(gaze, i)
      {
        if i == |gaze| {
          return false;
        }
        corners := corners[CornerLabels[i] := gaze[i]];
        i := i + 1;
      }
      return true;
    }
  }
}
