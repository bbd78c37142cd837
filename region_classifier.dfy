/**
 * The 25-region gaze classifier: a centre disc (region 25), a ring of 20
 * angular sectors (regions 1..20) and four outer corners (regions 21..24),
 * over coordinates normalised to the unit square with centre (0.5, 0.5).
 *
 * Coordinates are exact reals; `math.degrees(math.atan2(..))` is the
 * parameter `atan2`.
 */
module RegionClassifier {
  import opened Angles

  /** Radii of the centre disc and of the ring, squared (0.25² and 0.47²). */
  const InnerSquared: real := 0.0625
  const OuterSquared: real := 0.2209

  /** Region "1".."25", or "outside". */
  datatype Region = Zone(n: int) | Outside

  /** The if-chain of classify_point over the normalised angle. */
  function SectorOfAngle(angle: real): int
  {
    if 0.0 <= angle < 36.0 then 1
    else if 36.0 <= angle < 45.0 then 2
    else if 45.0 <= angle < 360.0 / 7.0 then 3
    else if 360.0 / 7.0 <= angle < 72.0 then 4
    else if 72.0 <= angle < 2.0 * 360.0 / 7.0 then 5
    else if 2.0 * 360.0 / 7.0 <= angle < 108.0 then 6
    else if 108.0 <= angle < 135.0 then 7
    else if 135.0 <= angle < 144.0 then 8
    else if 144.0 <= angle < 3.0 * 360.0 / 7.0 then 9
    else if 3.0 * 360.0 / 7.0 <= angle < 180.0 then 10
    else if 180.0 <= angle < 4.0 * 360.0 / 7.0 then 11
    else if 4.0 * 360.0 / 7.0 <= angle < 216.0 then 12
    else if 216.0 <= angle < 225.0 then 13
    else if 225.0 <= angle < 252.0 then 14
    else if 252.0 <= angle < 5.0 * 360.0 / 7.0 then 15
    else if 5.0 * 360.0 / 7.0 <= angle < 288.0 then 16
    else if 288.0 <= angle < 6.0 * 360.0 / 7.0 then 17
    else if 6.0 * 360.0 / 7.0 <= angle < 315.0 then 18
    else if 315.0 <= angle < 324.0 then 19
    else 20
  }

  /** classify_point. */
  function ClassifyPoint(x: real, y: real, atan2: (real, real) -> real): Region
  {
    var dx := x - 0.5;
    var dy := y - 0.5;
    var d2 := dx * dx + dy * dy;
    if d2 <= InnerSquared then Zone(25)
    else if d2 <= OuterSquared then Zone(SectorOfAngle(ModDegrees(atan2(dy, dx))))
    else if x < 0.5 && y < 0.5 then Zone(23)
    else if x > 0.5 && y < 0.5 then Zone(24)
    else if x < 0.5 && y > 0.5 then Zone(21)
    else if x > 0.5 && y > 0.5 then Zone(22)
    else Outside
  }

  /** get_region_name. */
  function RegionName(r: Region): string
  {
    if r.Outside? then "unknown"
    else match r.n
      case 25 => "center"
      case 1 => "right"
      case 2 => "top-right-1"
      case 3 => "top-right-2"
      case 4 => "top-right-3"
      case 5 => "top-right-4"
      case 6 => "top-1"
      case 7 => "top-2"
      case 8 => "top-3"
      case 9 => "top-4"
      case 10 => "top-5"
      case 11 => "top-left-1"
      case 12 => "top-left-2"
      case 13 => "top-left-3"
      case 14 => "left-1"
      case 15 => "left-2"
      case 16 => "bottom-left-1"
      case 17 => "bottom-left-2"
      case 18 => "bottom-left-3"
      case 19 => "bottom-left-4"
      case 20 => "bottom-1"
      case 21 => "bottom-left-corner"
      case 22 => "bottom-right-corner"
      case 23 => "top-left-corner"
      case 24 => "top-right-corner"
      case _ => "unknown"
  }

  /** The 21 sector boundaries: sector k covers [Bounds[k - 1], Bounds[k]). */
  const Bounds: seq<real> := [
    0.0, 36.0, 45.0, 360.0 / 7.0, 72.0, 720.0 / 7.0, 108.0, 135.0, 144.0, 1080.0 / 7.0, 180.0,
    1440.0 / 7.0, 216.0, 225.0, 252.0, 1800.0 / 7.0, 288.0, 2160.0 / 7.0, 315.0, 324.0, 360.0
  ]
}
