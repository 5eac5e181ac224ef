/**
 * Qt's floating-point geometry as the region tools use it. A `QRectF` is
 * (left, top, width, height) with right = left + width and bottom =
 * top + height (no off-by-one, unlike the integer `QRect`); moving one
 * edge with `setTop`/`setBottom`/`setLeft`/`setRight` keeps the opposite
 * edge where it was, so the width or height absorbs the change.
 */
module Rects {
  import opened Numerics
  import opened Wrappers
  import opened Search

  datatype PointF = PointF(x: real, y: real)

  /** A line segment from (x1, y1) to (x2, y2), as `QGraphicsLineItem` takes it. */
  datatype LineF = LineF(x1: real, y1: real, x2: real, y2: real)

  /** `(a - b).manhattanLength()`. */
  function ManhattanDistance(a: PointF, b: PointF): (d: real)
    ensures d >= 0.0
    ensures d == 0.0 <==> a == b
    ensures d >= AbsReal(a.x - b.x) && d >= AbsReal(a.y - b.y)
  {
    AbsReal(a.x - b.x) + AbsReal(a.y - b.y)
  }

  datatype RectF = RectF(left: real, top: real, width: real, height: real) {
    function Right(): real { left + width }
    function Bottom(): real { top + height }
    function CenterX(): real { left + width / 2.0 }
    function CenterY(): real { top + height / 2.0 }
    function TopLeft(): PointF { PointF(left, top) }
    function TopRight(): PointF { PointF(Right(), top) }
    function BottomLeft(): PointF { PointF(left, Bottom()) }
    function BottomRight(): PointF { PointF(Right(), Bottom()) }

    /** `translate(dx, dy)`: both corners move, the size stays. */
    function Translated(dx: real, dy: real): (r: RectF)
      ensures r.width == width && r.height == height
      ensures r.left == left + dx && r.top == top + dy
      ensures r.Right() == Right() + dx && r.Bottom() == Bottom() + dy
    {
      RectF(left + dx, top + dy, width, height)
    }

    /** `setTop(t)`: the bottom edge and the horizontal extent stay. */
    function WithTop(t: real): (r: RectF)
      ensures r.top == t && r.Bottom() == Bottom()
      ensures r.left == left && r.width == width
    {
      RectF(left, t, width, Bottom() - t)
    }

    /** `setBottom(b)`: the top edge and the horizontal extent stay. */
    function WithBottom(b: real): (r: RectF)
      ensures r.Bottom() == b && r.top == top
      ensures r.left == left && r.width == width
    {
      RectF(left, top, width, b - top)
    }

    /** `setLeft(l)`: the right edge and the vertical extent stay. */
    function WithLeft(l: real): (r: RectF)
      ensures r.left == l && r.Right() == Right()
      ensures r.top == top && r.height == height
    {
      RectF(l, top, Right() - l, height)
    }

    /** `setRight(x)`: the left edge and the vertical extent stay. */
    function WithRight(x: real): (r: RectF)
      ensures r.Right() == x && r.left == left
      ensures r.top == top && r.height == height
    {
      RectF(left, top, x - left, height)
    }

    /** `contains(p)`: inclusive of the edges, after normalising a negative width or height. */
    predicate Contains(p: PointF)
    {
      MinReal(left, Right()) <= p.x <= MaxReal(left, Right()) &&
      MinReal(top, Bottom()) <= p.y <= MaxReal(top, Bottom())
    }
  }

  /**
   * `max(6, 10 / max(0.5, scale))`: the corner threshold and handle size,
   * in scene units, growing as the view zooms out.
   */
  function HandleSize(scale: real): (t: real)
    ensures 6.0 <= t <= 20.0
    ensures scale >= 0.5 ==> t == MaxReal(6.0, 10.0 / scale)
  {
    MaxReal(6.0, 10.0 / MaxReal(0.5, scale))
  }

  /** The corners a hit test visits, in the order nw, ne, sw, se. */
  function Corners(r: RectF): seq<(PointF, string)>
  {
    [(r.TopLeft(), "nw"), (r.TopRight(), "ne"), (r.BottomLeft(), "sw"), (r.BottomRight(), "se")]
  }

  /** A corner is hit when the pointer is within twice the threshold of it, in Manhattan distance. */
  predicate NearCorner(p: PointF, corner: PointF, scale: real)
  {
    ManhattanDistance(p, corner) <= HandleSize(scale) * 2.0
  }

  /**
   * The corner loop of `detect_resize_direction`: the tag of the first
   * corner near the pointer, or None.
   */
  function CornerHit(r: RectF, p: PointF, scale: real): (d: Option<string>)
    ensures d.Some? ==> exists k :: (0 <= k < 4 && d.value == Corners(r)[k].1 && NearCorner(p, Corners(r)[k].0, scale) &&
      forall j :: 0 <= j < k ==> !NearCorner(p, Corners(r)[j].0, scale))
    ensures d.None? <==> forall j :: 0 <= j < 4 ==> !NearCorner(p, Corners(r)[j].0, scale)
  {
    var cs := Corners(r);
    match FirstAccepted(cs, (c: (PointF, string)) => NearCorner(p, c.0, scale), 0)
    case None => None
    case Some(k) => Some(cs[k].1)
  }

  /**
   * A pointer exactly on the bottom-right corner is reported as that
   * corner only when the rectangle is wider and taller than the hit
   * distance; otherwise an earlier corner in the visiting order wins.
   */
  lemma BottomRightCornerHit(r: RectF, scale: real)
    requires r.width >= 0.0 && r.height >= 0.0
    ensures var t := HandleSize(scale) * 2.0;
      CornerHit(r, r.BottomRight(), scale) ==
        if r.width + r.height <= t then Some("nw")
        else if r.height <= t then Some("ne")
        else if r.width <= t then Some("sw")
        else Some("se")
  {
    var t := HandleSize(scale) * 2.0;
    var p := r.BottomRight();
    var cs := Corners(r);
    assert ManhattanDistance(p, cs[0].0) == r.width + r.height;
    assert ManhattanDistance(p, cs[1].0) == r.height;
    assert ManhattanDistance(p, cs[2].0) == r.width;
    assert ManhattanDistance(p, cs[3].0) == 0.0;
  }

  /** A pointer on the top-left corner is always reported as "nw", the first corner visited. */
  lemma TopLeftCornerHit(r: RectF, scale: real)
    ensures CornerHit(r, r.TopLeft(), scale) == Some("nw")
  {
    assert NearCorner(r.TopLeft(), Corners(r)[0].0, scale);
  }
}
