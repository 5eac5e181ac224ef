/**
 * The tracker's screenshot viewer, reduced to its own state: the zoom
 * counter, the two mutually exclusive tool modes, the last copied text
 * and how it is shown, the click-to-copy test, grid snapping for drawn
 * boxes, and the locate request. Qt painting, cursors, banners, the view
 * transform and timers are not modelled; the view scale is an input.
 */
module TrackerViewer {
  import opened Wrappers
  import opened Numerics
  import opened Frames
  import opened Text
  import opened Rects
  import SvGrid
  import Locate
  import SvSquareTool
  import opened CopiedText

  /** The zoom counter after a zoom by `step`: never below 0. */
  function ZoomAfter(zoom: int, step: int): (z: int)
    ensures z >= 0 && z >= zoom + step
    ensures zoom + step >= 0 ==> z == zoom + step
  {
    MaxInt(0, zoom + step)
  }

  /** One notch in and one notch out leaves a zoom counter where it was. */
  lemma ZoomInThenOut(zoom: int)
    requires zoom >= 0
    ensures ZoomAfter(ZoomAfter(zoom, 1), -1) == zoom
    ensures ZoomAfter(0, -1) == 0
  {
  }

  /** `delta and delta // abs(delta)`: the sign of a wheel delta, 0 for none. */
  function WheelStep(delta: int): (s: int)
    ensures s == 0 <==> delta == 0
    ensures s * delta == AbsInt(delta)
  {
    if delta == 0 then 0 else if delta > 0 then 1 else -1
  }

  /** The scale tool motions are divided by: the view scale, at least 1e-6. */
  function MotionScale(scale: real): (s: real)
    ensures s >= 0.000001
    ensures scale >= 0.000001 ==> s == scale
  {
    MaxReal(0.000001, scale)
  }

  /** A viewport displacement expressed in scene units: scaled back up it is the displacement again. */
  function MotionDelta(dxView: real, dyView: real, scale: real): (d: (real, real))
    ensures d.0 * MotionScale(scale) == dxView && d.1 * MotionScale(scale) == dyView
  {
    (dxView / MotionScale(scale), dyView / MotionScale(scale))
  }

  /**
   * A left release copies a point when it moved at most 3 pixels from the
   * press on each axis and lands on the pixmap, edges included.
   */
  predicate ClickCopies(press: (int, int), release: (int, int), sceneX: real, sceneY: real, width: int, height: int)
  {
    AbsInt(release.0 - press.0) <= 3 && AbsInt(release.1 - press.1) <= 3 &&
    0.0 <= sceneX <= width as real && 0.0 <= sceneY <= height as real
  }

  /** What the COPIED banner shows: a point with its percentages, a box in frame and screen terms, or the placeholder. */
  datatype CopiedDisplay =
    | PointLine(screenX: int, screenY: int, frameX: int, frameY: int, xPercent: real, yPercent: real)
    | BoxLine(frameBox: (int, int, int, int), screenBox: (int, int, int, int))
    | Placeholder

  /** A coordinate as a percentage of a nonzero frame dimension, clamped to [0, 100]. */
  function Percent(c: int, dim: int): (p: real)
    requires dim != 0
    ensures 0.0 <= p <= 100.0
    ensures 0 <= c <= dim ==> p * dim as real == c as real * 100.0
  {
    var raw := (c as real / dim as real) * 100.0;
    assert 0 <= c <= dim ==> 0.0 <= raw <= 100.0 by {
      if 0 <= c <= dim {
        assert c as real / dim as real <= 1.0;
      }
    }
    ClampReal(0.0, 100.0, raw)
  }

  /** `_get_copied_display`: what the banner shows for the copied text and the frame. */
  function CopiedDisplayOf(lastCopied: string, frame: FrameDict): (d: CopiedDisplay)
    ensures |CopiedFields(lastCopied)| != 2 && |CopiedFields(lastCopied)| != 4 ==> d == Placeholder
  {
    ValuesDisplay(ParsedFields(CopiedFields(lastCopied)), frame)
  }

  /**
   * The display for the parsed fields: two integers show a point, its
   * screen position (frame origin added) and its percentages of the frame
   * clamped to [0, 100], unless a frame dimension is 0, where the division
   * raises and the placeholder is shown. Four integers show a box and the
   * box shifted by the frame origin. Anything else, including a field that
   * is not an integer, shows the placeholder.
   */
  function ValuesDisplay(vs: seq<Option<int>>, frame: FrameDict): (d: CopiedDisplay)
    ensures d.PointLine? <==> |vs| == 2 && vs[0].Some? && vs[1].Some? && Get(frame, Width, 1) != 0 && Get(frame, Height, 1) != 0
    ensures d.PointLine? ==> vs == [Some(d.frameX), Some(d.frameY)]
    ensures d.PointLine? ==> d.screenX == Get(frame, X, 0) + d.frameX && d.screenY == Get(frame, Y, 0) + d.frameY
    ensures d.PointLine? ==> 0.0 <= d.xPercent <= 100.0 && 0.0 <= d.yPercent <= 100.0
    ensures d.BoxLine? <==> |vs| == 4 && vs[0].Some? && vs[1].Some? && vs[2].Some? && vs[3].Some?
    ensures d.BoxLine? ==> vs == [Some(d.frameBox.0), Some(d.frameBox.1), Some(d.frameBox.2), Some(d.frameBox.3)]
    ensures d.BoxLine? ==> d.screenBox.0 == Get(frame, X, 0) + d.frameBox.0 && d.screenBox.1 == Get(frame, Y, 0) + d.frameBox.1
    ensures d.BoxLine? ==> d.screenBox.2 == Get(frame, X, 0) + d.frameBox.2 && d.screenBox.3 == Get(frame, Y, 0) + d.frameBox.3
  {
    var fx, fy := Get(frame, X, 0), Get(frame, Y, 0);
    var fw, fh := Get(frame, Width, 1), Get(frame, Height, 1);
    if |vs| == 2 then
      if vs[0].None? || vs[1].None? || fw == 0 || fh == 0 then Placeholder
      else
        var cx, cy := vs[0].value, vs[1].value;
        PointLine(fx + cx, fy + cy, cx, cy, Percent(cx, fw), Percent(cy, fh))
    else if |vs| == 4 then
      if vs[0].None? || vs[1].None? || vs[2].None? || vs[3].None? then Placeholder
      else
        var x1, y1, x2, y2 := vs[0].value, vs[1].value, vs[2].value, vs[3].value;
        BoxLine((x1, y1, x2, y2), (fx + x1, fy + y1, fx + x2, fy + y2))
    else Placeholder
  }

  /** Before anything is copied the banner shows the placeholder. */
  lemma InitialCopiedShowsPlaceholder(frame: FrameDict)
    ensures CopiedDisplayOf(InitialCopied, frame) == Placeholder
  {
    InitialCopiedFields();
    DisplayOfFields(InitialCopied, frame, ParsedFields(CopiedFields(InitialCopied)));
  }

  /** The display of a text is the display of its parsed fields. */
  lemma DisplayOfFields(s: string, frame: FrameDict, vs: seq<Option<int>>)
    requires ParsedFields(CopiedFields(s)) == vs
    ensures CopiedDisplayOf(s, frame) == ValuesDisplay(vs, frame)
  {
  }

  /** Two integers show as the point they denote, on a frame with nonzero dimensions. */
  lemma PointOfValues(frame: FrameDict, i: int, j: int)
    requires Get(frame, Width, 1) != 0 && Get(frame, Height, 1) != 0
    ensures ValuesDisplay([Some(i), Some(j)], frame) ==
      PointLine(Get(frame, X, 0) + i, Get(frame, Y, 0) + j, i, j, Percent(i, Get(frame, Width, 1)), Percent(j, Get(frame, Height, 1)))
  {
  }

  /** Four integers show as the box they denote and that box shifted by the frame origin. */
  lemma BoxOfValues(frame: FrameDict, l: int, t: int, rt: int, b: int)
    ensures ValuesDisplay([Some(l), Some(t), Some(rt), Some(b)], frame) ==
      BoxLine((l, t, rt, b), (Get(frame, X, 0) + l, Get(frame, Y, 0) + t, Get(frame, X, 0) + rt, Get(frame, Y, 0) + b))
  {
  }

  /**
   * A copied point shows as that point, shifted by the frame origin on
   * screen, whenever the frame has nonzero dimensions; a click copies
   * `PointText` of its truncated scene position.
   */
  lemma PointTextDisplay(i: int, j: int, frame: FrameDict)
    requires Get(frame, Width, 1) != 0 && Get(frame, Height, 1) != 0
    ensures CopiedDisplayOf(PointText(i, j), frame) ==
      PointLine(Get(frame, X, 0) + i, Get(frame, Y, 0) + j, i, j, Percent(i, Get(frame, Width, 1)), Percent(j, Get(frame, Height, 1)))
  {
    PointTextFields(i, j);
    DisplayOfFields(PointText(i, j), frame, [Some(i), Some(j)]);
    PointOfValues(frame, i, j);
  }

  /**
   * A copied box shows as the box it copied, and on screen as that box
   * shifted by the frame origin; a square copies `EdgesText` of its
   * truncated edges.
   */
  lemma EdgesTextDisplay(l: int, t: int, rt: int, b: int, frame: FrameDict)
    ensures CopiedDisplayOf(EdgesText(l, t, rt, b), frame) ==
      BoxLine((l, t, rt, b), (Get(frame, X, 0) + l, Get(frame, Y, 0) + t, Get(frame, X, 0) + rt, Get(frame, Y, 0) + b))
  {
    EdgesTextFields(l, t, rt, b);
    DisplayOfFields(EdgesText(l, t, rt, b), frame, [Some(l), Some(t), Some(rt), Some(b)]);
    BoxOfValues(frame, l, t, rt, b);
  }

  /** An edge coordinate rounded to the nearest multiple of the grid step (ties to an even multiple). */
  function SnapValue(v: real, step: real): (s: real)
    requires step > 0.0
    ensures -step / 2.0 <= s - v <= step / 2.0
  {
    var q := v / step;
    var n := RoundHalfEven(q);
    QuotientTimesDivisor(v, step);
    ScaleHalfBand(q, n as real, step, v);
    n as real * step
  }

  lemma QuotientTimesDivisor(v: real, step: real)
    requires step > 0.0
    ensures (v / step) * step == v
  {
  }

  lemma ProductOverFactor(a: real, step: real)
    requires step > 0.0
    ensures (a * step) / step == a
  {
  }

  /** A multiple of the step is already on the grid. */
  lemma SnapOnGrid(n: int, step: real)
    requires step > 0.0
    ensures SnapValue(n as real * step, step) == n as real * step
  {
    ProductOverFactor(n as real, step);
    RoundHalfEvenOfInt(n);
  }

  /** If `v = q * step` and |q - n| <= 1/2, then |n * step - v| <= step / 2. */
  lemma ScaleHalfBand(q: real, n: real, step: real, v: real)
    requires step > 0.0 && q * step == v && -0.5 <= q - n <= 0.5
    ensures -step / 2.0 <= n * step - v <= step / 2.0
  {
    var e := n - q;
    assert n * step - v == e * step;
    NonNegativeProduct(e + 0.5, step);
    NonNegativeProduct(0.5 - e, step);
    assert (e + 0.5) * step == e * step + step / 2.0;
    assert (0.5 - e) * step == step / 2.0 - e * step;
  }

  lemma NonNegativeProduct(a: real, b: real)
    requires a >= 0.0 && b >= 0.0
    ensures a * b >= 0.0
  {
  }

  /** A value already on the grid stays put, so snapping twice is snapping once. */
  lemma SnapValueIdempotent(v: real, step: real)
    requires step > 0.0
    ensures SnapValue(SnapValue(v, step), step) == SnapValue(v, step)
  {
    var n := RoundHalfEven(v / step);
    assert SnapValue(v, step) == n as real * step;
    SnapOnGrid(n, step);
  }

  /** Snapping keeps the order of two coordinates. */
  lemma SnapValueMonotone(a: real, b: real, step: real)
    requires step > 0.0 && a <= b
    ensures SnapValue(a, step) <= SnapValue(b, step)
  {
    assert a / step <= b / step;
    RoundHalfEvenMonotone(a / step, b / step);
    var m, n := RoundHalfEven(a / step), RoundHalfEven(b / step);
    NonNegativeProduct((n - m) as real, step);
    assert n as real * step - m as real * step == (n - m) as real * step;
  }

  /**
   * `_snap_rect_to_grid`: with the grid hidden the rectangle is returned
   * as is; otherwise each edge is snapped to the pixel-art grid of the
   * frame and inverted edges are swapped. The grid steps of `base_steps`
   * are always positive, so the source's guard against a non-positive
   * step never fires and is not written here.
   */
  function SnapRectToGrid(r: RectF, showGrid: bool, frame: FrameDict): (s: RectF)
    ensures !showGrid ==> s == r
    ensures showGrid ==> s.width >= 0.0 && s.height >= 0.0
    ensures showGrid ==> var (sx, sy) := SvGrid.BaseSteps(frame);
      ((s.left == SnapValue(r.left, sx) && s.Right() == SnapValue(r.Right(), sx)) ||
       (s.left == SnapValue(r.Right(), sx) && s.Right() == SnapValue(r.left, sx))) &&
      ((s.top == SnapValue(r.top, sy) && s.Bottom() == SnapValue(r.Bottom(), sy)) ||
       (s.top == SnapValue(r.Bottom(), sy) && s.Bottom() == SnapValue(r.top, sy)))
  {
    if !showGrid then r
    else
      var (sx, sy) := SvGrid.BaseSteps(frame);
      Locate.NormalisedRect(SnapValue(r.left, sx), SnapValue(r.top, sy), SnapValue(r.Right(), sx), SnapValue(r.Bottom(), sy))
  }

  /**
   * A rectangle with no negative side snaps without a swap: each edge
   * moves by at most half a grid step.
   */
  lemma SnapMovesEdgesByHalfAStep(r: RectF, frame: FrameDict)
    requires r.width >= 0.0 && r.height >= 0.0
    ensures var s, (sx, sy) := SnapRectToGrid(r, true, frame), SvGrid.BaseSteps(frame);
      s.left == SnapValue(r.left, sx) && s.Right() == SnapValue(r.Right(), sx) &&
      s.top == SnapValue(r.top, sy) && s.Bottom() == SnapValue(r.Bottom(), sy) &&
      -sx / 2.0 <= s.left - r.left <= sx / 2.0 && -sy / 2.0 <= s.top - r.top <= sy / 2.0
  {
    var (sx, sy) := SvGrid.BaseSteps(frame);
    SnapValueMonotone(r.left, r.Right(), sx);
    SnapValueMonotone(r.top, r.Bottom(), sy);
  }

  /** Snapping a snapped rectangle changes nothing. */
  lemma SnapRectIdempotent(r: RectF, frame: FrameDict)
    ensures SnapRectToGrid(SnapRectToGrid(r, true, frame), true, frame) == SnapRectToGrid(r, true, frame)
  {
    var (sx, sy) := SvGrid.BaseSteps(frame);
    var s := SnapRectToGrid(r, true, frame);
    SnapValueIdempotent(r.left, sx);
    SnapValueIdempotent(r.Right(), sx);
    SnapValueIdempotent(r.top, sy);
    SnapValueIdempotent(r.Bottom(), sy);
    SnapMovesEdgesByHalfAStep(s, frame);
  }

  /** What a locate request does. */
  datatype LocateOutcome =
    | EnterCoordinates
    | BadFormat
    | Target(x: real, y: real, color: Locate.Color)
    | Box(rect: RectF, caption: (int, int, int, int))

  /**
   * The result of a locate request: the stripped text must be nonempty and
   * parse; a point is converted to scene coordinates and coloured from the
   * screenshot, a box has both corners converted and put in order, and is
   * captioned with their truncated coordinates.
   */
  function LocateResult(text: string, mode: string, frame: FrameDict, width: int, height: int,
                        pixel: (int, int) -> Option<seq<int>>): (o: LocateOutcome)
    ensures o == EnterCoordinates <==> Strip(text) == ""
    ensures o == BadFormat <==> Strip(text) != "" && Locate.Parse(Strip(text), mode, frame).None?
    ensures o.Target? ==> o.color == Locate.LocateColor(o.x, o.y, width, height, pixel)
    ensures o.Box? ==> o.rect.width >= 0.0 && o.rect.height >= 0.0
  {
    var t := Strip(text);
    if t == "" then EnterCoordinates
    else
      match Locate.Parse(t, mode, frame)
      case None => BadFormat
      case Some(Point(x, y)) =>
        var (sx, sy) := Locate.ConvertToSceneCoords(x, y, mode, frame);
        Target(sx, sy, Locate.LocateColor(sx, sy, width, height, pixel))
      case Some(BBox(x1, y1, x2, y2)) =>
        var (px, py) := Locate.ConvertToSceneCoords(x1, y1, mode, frame);
        var (qx, qy) := Locate.ConvertToSceneCoords(x2, y2, mode, frame);
        Box(Locate.NormalisedRect(px, py, qx, qy), (Trunc(px), Trunc(py), Trunc(qx), Trunc(qy)))
  }

  /** A text of nothing but whitespace, an ideographic space say, asks for coordinates. */
  lemma BlankLocateText(mode: string, frame: FrameDict, width: int, height: int, pixel: (int, int) -> Option<seq<int>>)
    ensures LocateResult("\U{3000}", mode, frame, width, height, pixel) == EnterCoordinates
  {
    assert StripLeft("\U{3000}") == "";
  }

  /** The viewer state after a locate request: a target replaces the old boxes and starts the animation, a box replaces them. */
  function AfterLocate(v: ViewState, o: LocateOutcome): ViewState
  {
    match o
    case EnterCoordinates => v
    case BadFormat => v
    case Target(x, y, c) => v.(locateBoxes := [], locateState := 1, target := Some((x, y)), locateColor := c)
    case Box(r, _) => v.(locateBoxes := [r])
  }

  /**
   * A point copied in FRAME COORDS mode and typed back into the locate box
   * targets the scene point it was copied from, truncated.
   */
  lemma LocateCopiedFramePoint(i: nat, j: nat, frame: FrameDict, width: int, height: int, pixel: (int, int) -> Option<seq<int>>)
    ensures var o := LocateResult(NatToString(i) + "," + NatToString(j), "FRAME COORDS", frame, width, height, pixel);
      o.Target? && o.x == i as real && o.y == j as real
  {
    CopiedFramePointParses(i, j, frame);
    LocateFramePoint(NatToString(i) + "," + NatToString(j), i as real, j as real, frame, width, height, pixel);
  }

  /** In FRAME COORDS a text that parses as a point targets that very point. */
  lemma LocateFramePoint(t: string, x: real, y: real, frame: FrameDict, width: int, height: int,
                         pixel: (int, int) -> Option<seq<int>>)
    requires Strip(t) == t && Locate.Parse(t, "FRAME COORDS", frame) == Some(Locate.Point(x, y))
    ensures LocateResult(t, "FRAME COORDS", frame, width, height, pixel) == Target(x, y, Locate.LocateColor(x, y, width, height, pixel))
  {
    LocatePoint(t, x, y, "FRAME COORDS", frame, width, height, pixel);
    assert Locate.ConvertToSceneCoords(x, y, "FRAME COORDS", frame) == (x, y);
  }

  /** The text of a copied frame point is already stripped and parses back to the point. */
  lemma CopiedFramePointParses(i: nat, j: nat, frame: FrameDict)
    ensures var t := NatToString(i) + "," + NatToString(j);
      Strip(t) == t && Locate.Parse(t, "FRAME COORDS", frame) == Some(Locate.Point(i as real, j as real))
  {
    var a, b := NatToString(i), NatToString(j);
    Locate.NatTextIsNumber(i);
    Locate.NatTextIsNumber(j);
    UnpaddedPair(a, b);
    Locate.ParsePointRoundTrip(a, b, "FRAME COORDS", frame);
  }

  /** Two numbers joined by a comma carry no surrounding space. */
  lemma UnpaddedPair(a: string, b: string)
    requires Locate.IsNumber(a) && Locate.IsNumber(b)
    ensures Strip(a + "," + b) == a + "," + b
  {
    Locate.NumberCharacters(a);
    Locate.NumberCharacters(b);
    StripNoSpace(a + "," + b);
  }

  /**
   * A box copied in FRAME COORDS mode and typed back into the locate box
   * outlines the box it was copied from, captioned with its edges.
   */
  lemma LocateCopiedFrameBox(i: nat, j: nat, k: nat, l: nat, frame: FrameDict, width: int, height: int,
                             pixel: (int, int) -> Option<seq<int>>)
    ensures var t := NatToString(i) + "," + NatToString(j) + "," + NatToString(k) + "," + NatToString(l);
      LocateResult(t, "FRAME COORDS", frame, width, height, pixel) ==
        Box(Locate.NormalisedRect(i as real, j as real, k as real, l as real), (i, j, k, l))
  {
    var t := NatToString(i) + "," + NatToString(j) + "," + NatToString(k) + "," + NatToString(l);
    CopiedFrameBoxParses(i, j, k, l, frame);
    LocateFrameBox(t, i as real, j as real, k as real, l as real, frame, width, height, pixel);
    TruncOfInt(i);
    TruncOfInt(j);
    TruncOfInt(k);
    TruncOfInt(l);
  }

  /** In FRAME COORDS a text that parses as a box outlines that very box. */
  lemma LocateFrameBox(t: string, x1: real, y1: real, x2: real, y2: real, frame: FrameDict, width: int, height: int,
                       pixel: (int, int) -> Option<seq<int>>)
    requires Strip(t) == t && Locate.Parse(t, "FRAME COORDS", frame) == Some(Locate.BBox(x1, y1, x2, y2))
    ensures LocateResult(t, "FRAME COORDS", frame, width, height, pixel) ==
      Box(Locate.NormalisedRect(x1, y1, x2, y2), (Trunc(x1), Trunc(y1), Trunc(x2), Trunc(y2)))
  {
    LocateBox(t, x1, y1, x2, y2, "FRAME COORDS", frame, width, height, pixel);
    assert Locate.ConvertToSceneCoords(x1, y1, "FRAME COORDS", frame) == (x1, y1);
    assert Locate.ConvertToSceneCoords(x2, y2, "FRAME COORDS", frame) == (x2, y2);
  }

  /** The text of a copied frame box is already stripped and parses back to the box. */
  lemma CopiedFrameBoxParses(i: nat, j: nat, k: nat, l: nat, frame: FrameDict)
    ensures var t := NatToString(i) + "," + NatToString(j) + "," + NatToString(k) + "," + NatToString(l);
      Strip(t) == t && Locate.Parse(t, "FRAME COORDS", frame) == Some(Locate.BBox(i as real, j as real, k as real, l as real))
  {
    var a, b, c, d := NatToString(i), NatToString(j), NatToString(k), NatToString(l);
    Locate.NatTextIsNumber(i);
    Locate.NatTextIsNumber(j);
    Locate.NatTextIsNumber(k);
    Locate.NatTextIsNumber(l);
    UnpaddedQuad(a, b, c, d);
    Locate.ParseBBoxRoundTrip(a, b, c, d, "FRAME COORDS", frame);
  }

  /** Four numbers joined by commas carry no surrounding space. */
  lemma UnpaddedQuad(a: string, b: string, c: string, d: string)
    requires Locate.IsNumber(a) && Locate.IsNumber(b) && Locate.IsNumber(c) && Locate.IsNumber(d)
    ensures Strip(a + "," + b + "," + c + "," + d) == a + "," + b + "," + c + "," + d
  {
    Locate.NumberCharacters(a);
    Locate.NumberCharacters(b);
    Locate.NumberCharacters(c);
    Locate.NumberCharacters(d);
    assert NoSpace(",");
    NoSpaceConcat(a, ",");
    NoSpaceConcat(a + ",", b);
    NoSpaceConcat(a + "," + b, ",");
    NoSpaceConcat(a + "," + b + ",", c);
    NoSpaceConcat(a + "," + b + "," + c, ",");
    NoSpaceConcat(a + "," + b + "," + c + ",", d);
    StripNoSpace(a + "," + b + "," + c + "," + d);
  }

  /** A text that parses as a box outlines its two corners, converted to scene coordinates and put in order. */
  lemma LocateBox(t: string, x1: real, y1: real, x2: real, y2: real, mode: string, frame: FrameDict, width: int, height: int,
                  pixel: (int, int) -> Option<seq<int>>)
    requires Strip(t) == t && Locate.Parse(t, mode, frame) == Some(Locate.BBox(x1, y1, x2, y2))
    ensures var (px, py) := Locate.ConvertToSceneCoords(x1, y1, mode, frame);
      var (qx, qy) := Locate.ConvertToSceneCoords(x2, y2, mode, frame);
      LocateResult(t, mode, frame, width, height, pixel) ==
        Box(Locate.NormalisedRect(px, py, qx, qy), (Trunc(px), Trunc(py), Trunc(qx), Trunc(qy)))
  {
  }

  /** A text that parses as a point locates that point, converted to scene coordinates. */
  lemma LocatePoint(t: string, x: real, y: real, mode: string, frame: FrameDict, width: int, height: int,
                    pixel: (int, int) -> Option<seq<int>>)
    requires Strip(t) == t && Locate.Parse(t, mode, frame) == Some(Locate.Point(x, y))
    ensures var (sx, sy) := Locate.ConvertToSceneCoords(x, y, mode, frame);
      LocateResult(t, mode, frame, width, height, pixel) == Target(sx, sy, Locate.LocateColor(sx, sy, width, height, pixel))
  {
  }

  /** The viewer's own fields. */
  datatype ViewState = ViewState(
    frameArea: FrameDict,
    hasPhoto: bool,
    pixmapWidth: int,
    pixmapHeight: int,
    zoom: int,
    showGrid: bool,
    drawSquareMode: bool,
    drawBboxMode: bool,
    lastCopied: string,
    locateState: int,
    target: Option<(real, real)>,
    locateColor: Locate.Color,
    locateBoxes: seq<RectF>)

  class Viewer {
    var view: ViewState
    var squareTool: SvSquareTool.SquareTool

    /**
     * The zoom counter is never negative, at most one tool mode is on,
     * and the square tool shows a square only in square mode.
     */
    predicate Valid()
      reads this, squareTool
    {
      view.zoom >= 0 &&
      !(view.drawSquareMode && view.drawBboxMode) &&
      squareTool.Valid() && squareTool.frameArea == view.frameArea &&
      (!view.drawSquareMode ==> squareTool.rectItem.None?)
    }

    /** A viewer on a frame and a screenshot of the given size (None for an empty pixmap). */
    constructor (frameArea: FrameDict, pixmap: Option<(int, int)>)
      ensures Valid()
      ensures view.zoom == 0 && !view.showGrid && !view.drawSquareMode && !view.drawBboxMode
      ensures view.lastCopied == InitialCopied && view.target.None? && view.locateBoxes == []
      ensures view.hasPhoto == pixmap.Some?
    {
      var w, h := if pixmap.Some? then pixmap.value.0 else 0, if pixmap.Some? then pixmap.value.1 else 0;
      view := ViewState(frameArea, pixmap.Some?, w, h, 0, false, false, false, InitialCopied, 0, None, Locate.White, []);
      squareTool := new SvSquareTool.SquareTool(frameArea);
    }

    /** `zoom`: move the counter by `step`, never below 0; nothing else changes. */
    method Zoom(step: int)
      requires Valid()
      modifies this
      ensures Valid()
      ensures view == old(view).(zoom := ZoomAfter(old(view.zoom), step))
    {
      var z := MaxInt(0, view.zoom + step);
      if z != view.zoom {
        view := view.(zoom := z);
      }
    }

    /** `wheelEvent`: with a photo, zoom one notch in the direction of the wheel. */
    method Wheel(delta: int)
      requires Valid()
      modifies this
      ensures Valid()
      ensures view == old(view).(zoom := if view.hasPhoto then ZoomAfter(old(view.zoom), WheelStep(delta)) else old(view.zoom))
    {
      if view.hasPhoto {
        var step := if delta == 0 then 0 else if delta > 0 then 1 else -1;
        Zoom(step);
      }
    }

    /** The right button toggles the grid. */
    method ToggleGrid()
      requires Valid()
      modifies this
      ensures Valid()
      ensures view == old(view).(showGrid := !old(view.showGrid))
    {
      view := view.(showGrid := !view.showGrid);
    }

    /**
     * `_on_draw_square_clicked`: toggle square mode. Turning it on turns
     * box mode off and, with a photo, places the initial square and copies
     * it; turning it off clears the square.
     */
    method ToggleSquare(scale: real)
      requires Valid()
      modifies this, squareTool
      ensures Valid()
      ensures view.drawSquareMode == !old(view.drawSquareMode)
      ensures view.drawBboxMode == (old(view.drawBboxMode) && !view.drawSquareMode)
      ensures view.drawSquareMode && view.hasPhoto ==>
        squareTool.rectItem == Some(SvSquareTool.InitialSquare(view.pixmapWidth, view.pixmapHeight, view.frameArea)) &&
        view.lastCopied == BoxText(squareTool.rectItem.value)
      ensures !(view.drawSquareMode && view.hasPhoto) ==> view.lastCopied == old(view.lastCopied)
      ensures view.zoom == old(view.zoom) && view.showGrid == old(view.showGrid) && view.frameArea == old(view.frameArea)
    {
      var on := !view.drawSquareMode;
      view := view.(drawSquareMode := on);
      if on {
        if view.drawBboxMode {
          view := view.(drawBboxMode := false);
        }
        if view.hasPhoto && squareTool.rectItem.None? {
          var _ := squareTool.CreateInitial(view.pixmapWidth, view.pixmapHeight, scale);
          view := view.(lastCopied := BoxText(squareTool.rectItem.value));
        }
      } else {
        squareTool.Clear();
      }
    }

    /**
     * `_on_draw_bbox_clicked`: toggle box mode; turning it on while square
     * mode is on turns square mode off, which clears the square.
     */
    method ToggleBBox()
      requires Valid()
      modifies this, squareTool
      ensures Valid()
      ensures view.drawBboxMode == !old(view.drawBboxMode)
      ensures view.drawSquareMode == (old(view.drawSquareMode) && !view.drawBboxMode)
      ensures old(view.drawSquareMode) && view.drawBboxMode ==> squareTool.rectItem.None?
      ensures view.lastCopied == old(view.lastCopied) && view.zoom == old(view.zoom)
    {
      var on := !view.drawBboxMode;
      view := view.(drawBboxMode := on);
      if on && view.drawSquareMode {
        view := view.(drawSquareMode := false);
        squareTool.Clear();
      }
    }

    /**
     * A left release with no tool active: copy the point under the cursor
     * when the press moved at most 3 pixels and the point is on the pixmap.
     */
    method ReleaseClick(press: (int, int), release: (int, int), sceneX: real, sceneY: real)
      requires Valid()
      modifies this
      ensures Valid()
      ensures var copies := !old(view.drawBboxMode) && !old(view.drawSquareMode) && old(view.hasPhoto) &&
          ClickCopies(press, release, sceneX, sceneY, old(view.pixmapWidth), old(view.pixmapHeight));
        view == if copies then old(view).(lastCopied := ClickText(sceneX, sceneY)) else old(view)
    {
      if !view.drawBboxMode && !view.drawSquareMode && view.hasPhoto &&
         ClickCopies(press, release, sceneX, sceneY, view.pixmapWidth, view.pixmapHeight) {
        view := view.(lastCopied := ClickText(sceneX, sceneY));
      }
    }

    /** A mouse move in square mode while dragging or resizing: the viewport motion, in scene units, moves the square. */
    method SquareMotion(dxView: real, dyView: real, scale: real)
      requires Valid()
      modifies squareTool
      ensures Valid()
      ensures var s, d := MotionScale(scale), MotionDelta(dxView, dyView, scale);
        view.drawSquareMode && (squareTool.dragging || squareTool.resizing) && old(squareTool.rectItem).Some? ==>
          squareTool.rectItem == Some(SvSquareTool.Motion(old(squareTool.rectItem).value, squareTool.dragging,
                                                          squareTool.resizing, squareTool.resizeDirection, d.0, d.1))
      ensures !(view.drawSquareMode && (old(squareTool.dragging) || old(squareTool.resizing))) ==>
        squareTool.rectItem == old(squareTool.rectItem)
    {
      if view.drawSquareMode && (squareTool.dragging || squareTool.resizing) {
        var s := MaxReal(0.000001, scale);
        squareTool.ApplyMotion(dxView / s, dyView / s, s);
      }
    }

    /** A left release in square mode after a drag or resize: finish it and copy the square. */
    method SquareRelease()
      requires Valid()
      modifies this, squareTool
      ensures Valid()
      ensures old(view.drawSquareMode) ==> !squareTool.dragging && !squareTool.resizing
      ensures squareTool.rectItem == old(squareTool.rectItem)
      ensures var acts := old(view.drawSquareMode) && (old(squareTool.dragging) || old(squareTool.resizing));
        view == if acts && squareTool.rectItem.Some? then old(view).(lastCopied := BoxText(squareTool.rectItem.value)) else old(view)
    {
      if view.drawSquareMode && (squareTool.dragging || squareTool.resizing) {
        var _ := squareTool.FinishInteraction();
        if squareTool.rectItem.Some? {
          view := view.(lastCopied := BoxText(squareTool.rectItem.value));
        }
      }
    }

    /**
     * `_on_locate_clicked`: an empty request asks for coordinates, an
     * unparsable one is a bad format; otherwise earlier boxes are cleared
     * and a point becomes the animated target while a box is drawn.
     * `mode` is the label of the active copy mode and `pixel` samples the
     * screenshot.
     */
    method LocateClicked(text: string, mode: string, pixel: (int, int) -> Option<seq<int>>) returns (outcome: LocateOutcome)
      requires Valid()
      modifies this
      ensures Valid()
      ensures outcome == LocateResult(text, mode, old(view.frameArea), old(view.pixmapWidth), old(view.pixmapHeight), pixel)
      ensures view == AfterLocate(old(view), outcome)
    {
      outcome := LocateResult(text, mode, view.frameArea, view.pixmapWidth, view.pixmapHeight, pixel);
      view := AfterLocate(view, outcome);
    }
  }
}
