/** The strip rectangle: which edge of the canvas the strip occupies decides its top-left
    and bottom-right corners, and the other two corners follow from those. */
module Geometry {
  import opened Types

  /** The positions the transform recognises. */
  const KnownPositions: set<string> := {"top", "bottom", "left", "right"}

  /** The four corners lie on two vertical and two horizontal lines: the top-left and
      top-right share an x, so do the bottom-left and bottom-right; the top-left and
      bottom-left share a y, so do the top-right and bottom-right. */
  predicate AxisAligned(p: Points) {
    p.topLeft.x == p.topRight.x && p.bottomLeft.x == p.bottomRight.x &&
    p.topLeft.y == p.bottomLeft.y && p.topRight.y == p.bottomRight.y
  }

  function Scale(p: Point, k: real): Point {
    Point(p.x * k, p.y * k)
  }

  /** The corner record built from two corners. */
  function Rectangle(topLeft: Point, bottomRight: Point): (p: Points)
    ensures p.topLeft == topLeft && p.bottomRight == bottomRight
    ensures AxisAligned(p)
  {
    Points(topLeft, bottomRight, Point(topLeft.x, bottomRight.y), Point(bottomRight.x, topLeft.y))
  }

  /** The strip corners for a position, canvas size, strip thickness and pixel ratio. */
  function StripPoints(position: string, width: real, height: real, size: real, ratio: real): (p: Points)
    ensures AxisAligned(p)
  {
    match position
    case "top" => Rectangle(Origin, Point(width * ratio, ratio * size))
    case "bottom" => Rectangle(Point(0.0, (height - size) * ratio), Point(width * 2.0, height * 2.0))
    case "left" => Rectangle(Origin, Point(size * ratio, ratio * height))
    case "right" => Rectangle(Point((width - size) * ratio, 0.0), Point(width * 2.0, height * 2.0))
    case _ => Rectangle(Origin, Origin)
  }

  /** The corner `switch`: both corners start at the origin and each recognised position
      reassigns them; an unrecognised one leaves them there. */
  method StripCorners(position: string, width: real, height: real, size: real, ratio: real)
    returns (points: Points)
    ensures points == StripPoints(position, width, height, size, ratio)
    ensures AxisAligned(points)
    ensures position !in KnownPositions ==>
      points.topLeft == Origin && points.bottomRight == Origin &&
      points.topRight == Origin && points.bottomLeft == Origin
  {
    var topLeft := Origin;
    var bottomRight := Origin;
    match position {
      case "top" =>
        topLeft := Point(0.0, 0.0);
        bottomRight := Point(width * ratio, ratio * size);
      case "bottom" =>
        topLeft := Point(0.0, (height - size) * ratio);
        bottomRight := Point(width * 2.0, height * 2.0);
      case "left" =>
        topLeft := Point(0.0, 0.0);
        bottomRight := Point(size * ratio, ratio * height);
      case "right" =>
        topLeft := Point((width - size) * ratio, 0.0);
        bottomRight := Point(width * 2.0, height * 2.0);
      case _ =>
    }
    points := Points(topLeft, bottomRight, Point(topLeft.x, bottomRight.y), Point(bottomRight.x, topLeft.y));
  }

  /** A top strip starts at the origin, spans the whole scaled width and is `size`
      device-scaled pixels thick; it stays inside the scaled canvas when the ratio is
      not negative and the strip is no thicker than the canvas is high. */
  lemma TopStrip(width: real, height: real, size: real, ratio: real)
    ensures var p := StripPoints("top", width, height, size, ratio);
      p.topLeft == Origin && p.bottomRight == Point(width * ratio, size * ratio)
    ensures var p := StripPoints("top", width, height, size, ratio);
      0.0 <= ratio && 0.0 <= size <= height ==> 0.0 <= p.bottomRight.y <= height * ratio
  {
    if 0.0 <= ratio && 0.0 <= size <= height {
      assert (height - size) * ratio >= 0.0;
    }
  }

  /** A left strip starts at the origin, spans the whole scaled height and is `size`
      device-scaled pixels wide; it stays inside the scaled canvas when the ratio is not
      negative and the strip is no wider than the canvas. */
  lemma LeftStrip(width: real, height: real, size: real, ratio: real)
    ensures var p := StripPoints("left", width, height, size, ratio);
      p.topLeft == Origin && p.bottomRight == Point(size * ratio, height * ratio)
    ensures var p := StripPoints("left", width, height, size, ratio);
      0.0 <= ratio && 0.0 <= size <= width ==> 0.0 <= p.bottomRight.x <= width * ratio
  {
    if 0.0 <= ratio && 0.0 <= size <= width {
      assert (width - size) * ratio >= 0.0;
    }
  }

  /** A bottom strip starts `size` scaled pixels above the scaled canvas bottom. Its
      bottom-right corner is the canvas size doubled, not scaled, so it reaches the
      scaled bottom edge exactly when the ratio is at most 2, and its top-left lies above
      its bottom-right exactly when the scaled start does not pass twice the height. */
  lemma BottomStrip(width: real, height: real, size: real, ratio: real)
    requires 0.0 < height
    ensures var p := StripPoints("bottom", width, height, size, ratio);
      p.topLeft == Point(0.0, height * ratio - size * ratio) &&
      p.bottomRight == Point(2.0 * width, 2.0 * height) &&
      (p.bottomRight.y >= height * ratio <==> ratio <= 2.0) &&
      (p.topLeft.y <= p.bottomRight.y <==> (height - size) * ratio <= 2.0 * height)
  {
    RatioAtMostTwo(height, ratio);
  }

  /** The mirror of BottomStrip on the right edge. */
  lemma RightStrip(width: real, height: real, size: real, ratio: real)
    requires 0.0 < width
    ensures var p := StripPoints("right", width, height, size, ratio);
      p.topLeft == Point(width * ratio - size * ratio, 0.0) &&
      p.bottomRight == Point(2.0 * width, 2.0 * height) &&
      (p.bottomRight.x >= width * ratio <==> ratio <= 2.0) &&
      (p.topLeft.x <= p.bottomRight.x <==> (width - size) * ratio <= 2.0 * width)
  {
    RatioAtMostTwo(width, ratio);
  }

  lemma RatioAtMostTwo(length: real, ratio: real)
    requires 0.0 < length
    ensures length * 2.0 >= length * ratio <==> ratio <= 2.0
  {
    if ratio <= 2.0 {
      assert length * (2.0 - ratio) >= 0.0;
    } else {
      assert length * (ratio - 2.0) > 0.0;
    }
  }

  /** An unrecognised position silently yields the all-origin rectangle. */
  lemma UnknownPosition(position: string, width: real, height: real, size: real, ratio: real)
    requires position !in KnownPositions
    ensures var p := StripPoints(position, width, height, size, ratio);
      p.topLeft == Origin && p.topRight == Origin && p.bottomLeft == Origin && p.bottomRight == Origin
  {
  }

  /** For the top and left strips every corner scales linearly with the pixel ratio. */
  lemma NearStripScales(position: string, width: real, height: real, size: real, ratio: real, k: real)
    requires position == "top" || position == "left"
    ensures var p := StripPoints(position, width, height, size, ratio);
      var q := StripPoints(position, width, height, size, k * ratio);
      q.topLeft == Scale(p.topLeft, k) && q.bottomRight == Scale(p.bottomRight, k) &&
      q.topRight == Scale(p.topRight, k) && q.bottomLeft == Scale(p.bottomLeft, k)
  {
  }

  /** For the bottom and right strips only the top-left corner follows the ratio: the
      bottom-right corner is the same whatever the ratio. */
  lemma FarStripOverscan(position: string, width: real, height: real, size: real, ratio: real, k: real)
    requires position == "bottom" || position == "right"
    ensures var p := StripPoints(position, width, height, size, ratio);
      var q := StripPoints(position, width, height, size, k * ratio);
      q.topLeft == Scale(p.topLeft, k) && q.bottomRight == p.bottomRight
  {
  }
}
