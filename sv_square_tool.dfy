/**
 * The tracker viewer's square tool: a square sized from the frame's
 * pixel-art grid, dragged as a whole or resized from one of its corners
 * (or, when asked, an edge), staying square with a side of at least 4.
 * A 16 x 16 grid including the borders and four corner handles follow
 * it. Scene items and pens are not modelled. The clipboard write goes
 * through the tracker's copy-mode manager, which is not part of this
 * model; the operations that copy return the (left, top, right, bottom)
 * they hand to it.
 */
module SvSquareTool {
  import opened Numerics
  import opened Wrappers
  import opened Frames
  import opened Rects
  import opened SvGrid

  /** The smallest side a resize leaves. */
  const MinSide: real := 4.0

  /**
   * The square `create_initial` places: 16 cells of the smaller grid
   * step on a side, centred on the pixmap.
   */
  function InitialSquare(pixmapWidth: int, pixmapHeight: int, frame: FrameDict): (r: RectF)
    ensures r.width == r.height == 16.0 * MinReal(BaseSteps(frame).0, BaseSteps(frame).1)
    ensures r.width > 0.0
    ensures r.CenterX() == pixmapWidth as real / 2.0 && r.CenterY() == pixmapHeight as real / 2.0
  {
    var unit := MinReal(BaseSteps(frame).0, BaseSteps(frame).1);
    var size := unit * 16.0;
    RectF(pixmapWidth as real / 2.0 - size / 2.0, pixmapHeight as real / 2.0 - size / 2.0, size, size)
  }

  /**
   * The grid `_rebuild_grid` draws: 17 vertical lines from the left
   * border to the right one, a sixteenth of the width apart, then 17
   * horizontal lines from the top border down at the same spacing.
   */
  function SquareGrid(r: RectF): (lines: seq<LineF>)
    ensures |lines| == 34
    ensures lines[0] == LineF(r.left, r.top, r.left, r.Bottom()) && lines[16] == LineF(r.Right(), r.top, r.Right(), r.Bottom())
    ensures lines[17] == LineF(r.left, r.top, r.Right(), r.top)
    ensures lines[33] == LineF(r.left, r.top + r.width, r.Right(), r.top + r.width)
  {
    var step := r.width / 16.0;
    seq(17, i => LineF(r.left + i as real * step, r.top, r.left + i as real * step, r.Bottom())) +
    seq(17, i => LineF(r.left, r.top + i as real * step, r.Right(), r.top + i as real * step))
  }

  /** The handle `_rebuild_handles` puts on a corner: a square of the handle size centred on it. */
  function HandleAt(corner: PointF, scale: real): (h: RectF)
    ensures h.width == h.height == HandleSize(scale)
    ensures h.CenterX() == corner.x && h.CenterY() == corner.y
  {
    var size := HandleSize(scale);
    RectF(corner.x - size / 2.0, corner.y - size / 2.0, size, size)
  }

  /** The four handles, tagged nw, ne, sw, se in that order. */
  function Handles(r: RectF, scale: real): (hs: seq<(RectF, string)>)
    ensures |hs| == 4
    ensures forall k :: 0 <= k < 4 ==> hs[k] == (HandleAt(Corners(r)[k].0, scale), Corners(r)[k].1)
  {
    var cs := Corners(r);
    seq(4, k requires 0 <= k < 4 => (HandleAt(cs[k].0, scale), cs[k].1))
  }

  /** The four single-edge directions. */
  predicate IsEdge(dir: string)
  {
    dir == "n" || dir == "s" || dir == "w" || dir == "e"
  }

  /** The four corner directions. */
  predicate IsCorner(dir: string)
  {
    dir == "nw" || dir == "ne" || dir == "sw" || dir == "se"
  }

  /**
   * How much a resize grows the side: the motion along the dragged edge's
   * outward normal, and for any other direction the larger in magnitude
   * of the outward horizontal and vertical motions, the vertical one on a tie.
   */
  function Primary(dir: string, dx: real, dy: real): (p: real)
    ensures dir == "e" ==> p == dx
    ensures dir == "w" ==> p == -dx
    ensures dir == "n" ==> p == -dy
    ensures dir == "s" ==> p == dy
    ensures !IsEdge(dir) ==> AbsReal(p) == MaxReal(AbsReal(dx), AbsReal(dy))
    ensures !IsEdge(dir) && AbsReal(dx) <= AbsReal(dy) ==> p == (if 's' in dir then dy else -dy)
  {
    if dir == "e" || dir == "w" then
      if dir == "e" then dx else -dx
    else if dir == "n" || dir == "s" then
      if dir == "n" then -dy else dy
    else
      var candX := if 'e' in dir then dx else -dx;
      var candY := if 's' in dir then dy else -dy;
      if AbsReal(candX) > AbsReal(candY) then candX else candY
  }

  /** The side a resize asks for: the larger current side plus the primary motion, at least 4. */
  function ResizedSide(r: RectF, dir: string, dx: real, dy: real): (size: real)
    ensures size >= MinSide
    ensures size >= MaxReal(r.width, r.height) + Primary(dir, dx, dy)
    ensures MaxReal(r.width, r.height) + Primary(dir, dx, dy) >= MinSide ==>
      size == MaxReal(r.width, r.height) + Primary(dir, dx, dy)
  {
    MaxReal(MinSide, MaxReal(r.width, r.height) + Primary(dir, dx, dy))
  }

  /**
   * The resize branch of `apply_motion`: for one of the eight directions
   * the result is a square of the resized side; an edge resize keeps the
   * opposite edge and the centre across it, a corner resize keeps the
   * opposite corner; any other direction leaves the rectangle as it was.
   */
  function Resized(r: RectF, dir: string, dx: real, dy: real): (n: RectF)
    ensures IsEdge(dir) || IsCorner(dir) ==> n.width == n.height == ResizedSide(r, dir, dx, dy)
    ensures !IsEdge(dir) && !IsCorner(dir) ==> n == r
    ensures dir == "n" ==> n.Bottom() == r.Bottom() && n.CenterX() == r.CenterX()
    ensures dir == "s" ==> n.top == r.top && n.CenterX() == r.CenterX()
    ensures dir == "w" ==> n.Right() == r.Right() && n.CenterY() == r.CenterY()
    ensures dir == "e" ==> n.left == r.left && n.CenterY() == r.CenterY()
    ensures dir == "nw" ==> n.BottomRight() == r.BottomRight()
    ensures dir == "ne" ==> n.BottomLeft() == r.BottomLeft()
    ensures dir == "sw" ==> n.TopRight() == r.TopRight()
    ensures dir == "se" ==> n.TopLeft() == r.TopLeft()
  {
    var size := ResizedSide(r, dir, dx, dy);
    if dir == "n" then
      var cx := r.CenterX();
      r.WithTop(r.Bottom() - size).WithLeft(cx - size / 2.0).WithRight(cx + size / 2.0)
    else if dir == "s" then
      var cx := r.CenterX();
      r.WithBottom(r.top + size).WithLeft(cx - size / 2.0).WithRight(cx + size / 2.0)
    else if dir == "w" then
      var cy := r.CenterY();
      r.WithLeft(r.Right() - size).WithTop(cy - size / 2.0).WithBottom(cy + size / 2.0)
    else if dir == "e" then
      var cy := r.CenterY();
      r.WithRight(r.left + size).WithTop(cy - size / 2.0).WithBottom(cy + size / 2.0)
    else if dir == "nw" then
      var r1 := r.WithTop(r.Bottom() - size);
      r1.WithLeft(r1.Right() - size)
    else if dir == "ne" then
      var r1 := r.WithTop(r.Bottom() - size);
      r1.WithRight(r1.left + size)
    else if dir == "sw" then
      var r1 := r.WithBottom(r.top + size);
      r1.WithLeft(r1.Right() - size)
    else if dir == "se" then
      var r1 := r.WithBottom(r.top + size);
      r1.WithRight(r1.left + size)
    else r
  }

  /**
   * The rectangle `apply_motion` computes from the working square: a drag
   * translates it, otherwise a resize in the stored direction (none
   * counting as the empty direction), otherwise it stays.
   */
  function Motion(r: RectF, dragging: bool, resizing: bool, direction: Option<string>, dx: real, dy: real): RectF
  {
    if dragging then r.Translated(dx, dy)
    else if resizing then Resized(r, if direction.Some? then direction.value else "", dx, dy)
    else r
  }

  /** A motion keeps a square a square, and never leaves a side at or below zero. */
  lemma MotionKeepsSquare(r: RectF, dragging: bool, resizing: bool, direction: Option<string>, dx: real, dy: real)
    requires r.width == r.height && r.width > 0.0
    ensures var n := Motion(r, dragging, resizing, direction, dx, dy);
      n.width == n.height && n.width > 0.0
  {
    var n := Motion(r, dragging, resizing, direction, dx, dy);
    if !dragging && resizing {
      var d := if direction.Some? then direction.value else "";
      if IsEdge(d) || IsCorner(d) {
        assert n.width == ResizedSide(r, d, dx, dy) >= MinSide;
      }
    }
  }

  /**
   * Resizing a square from the bottom-right corner by (dx, dy) and then
   * by (-dx, -dy) gives the square back, as long as the first resize did
   * not hit the minimum side.
   */
  lemma CornerResizeThereAndBack(r: RectF, dx: real, dy: real)
    requires r.width == r.height && r.width >= MinSide
    requires r.width + Primary("se", dx, dy) >= MinSide
    ensures Resized(Resized(r, "se", dx, dy), "se", -dx, -dy) == r
  {
    assert 'e' in "se" && 's' in "se";
    var n := Resized(r, "se", dx, dy);
    assert Primary("se", -dx, -dy) == -Primary("se", dx, dy);
    assert n.width == n.height == r.width + Primary("se", dx, dy);
  }

  /** With equal horizontal and vertical motion, a corner resize is driven by the vertical one. */
  lemma CornerTieGoesVertical(dx: real, dy: real)
    requires AbsReal(dx) == AbsReal(dy)
    ensures Primary("se", dx, dy) == dy && Primary("ne", dx, dy) == -dy
    ensures Primary("sw", dx, dy) == dy && Primary("nw", dx, dy) == -dy
  {
    assert 's' in "se" && 's' !in "ne" && 's' in "sw" && 's' !in "nw";
    assert !IsEdge("se") && !IsEdge("ne") && !IsEdge("sw") && !IsEdge("nw");
  }

  class SquareTool {
    const frameArea: FrameDict
    /** The painted square (`rect_item.rect()`), or None when not shown. */
    var rectItem: Option<RectF>
    /** The grid lines of `grid_item`. */
    var gridLines: seq<LineF>
    var handles: seq<(RectF, string)>
    var dragging: bool
    var resizing: bool
    var resizeDirection: Option<string>
    /** The working square (`_rect_f`) motions start from. */
    var rectF: Option<RectF>

    /**
     * The working square is always the painted one; a shown square is a
     * square with a positive side, with its grid and four handles; with
     * nothing shown there is no grid and no handle.
     */
    predicate Valid()
      reads this
    {
      rectF == rectItem &&
      (rectItem.Some? ==>
        rectItem.value.width == rectItem.value.height && rectItem.value.width > 0.0 &&
        gridLines == SquareGrid(rectItem.value) && |handles| == 4) &&
      (rectItem.None? ==> gridLines == [] && handles == [])
    }

    constructor (frameArea: FrameDict)
      ensures Valid()
      ensures this.frameArea == frameArea
      ensures rectItem == None && !dragging && !resizing && resizeDirection == None
    {
      this.frameArea := frameArea;
      rectItem := None;
      gridLines := [];
      handles := [];
      dragging := false;
      resizing := false;
      resizeDirection := None;
      rectF := None;
    }

    /** What `update_clipboard` hands to the copy-mode manager: the square's left, top, right, bottom, if shown. */
    function CopiedRect(): (c: Option<(real, real, real, real)>)
      reads this
      ensures c.Some? <==> rectItem.Some?
      ensures c.Some? ==> c.value.2 - c.value.0 == rectItem.value.width && c.value.3 - c.value.1 == rectItem.value.height
    {
      match rectItem
      case None => None
      case Some(r) => Some((r.left, r.top, r.Right(), r.Bottom()))
    }

    /** `_rebuild_grid`: the 17 + 17 lines of the shown square; without one, nothing changes. */
    method RebuildGrid()
      modifies this
      ensures rectItem.Some? ==> gridLines == SquareGrid(rectItem.value)
      ensures rectItem.None? ==> gridLines == old(gridLines)
      ensures rectItem == old(rectItem) && rectF == old(rectF) && handles == old(handles)
      ensures dragging == old(dragging) && resizing == old(resizing) && resizeDirection == old(resizeDirection)
    {
      if rectItem.None? {
        return;
      }
      var r := rectItem.value;
      ghost var spec := SquareGrid(r);
      var step := r.width / 16.0;
      var lines: seq<LineF> := [];
      for i := 0 to 17
        invariant lines == spec[..i]
      {
        var x := r.left + i as real * step;
        assert spec[i] == LineF(x, r.top, x, r.Bottom());
        assert spec[..i + 1] == spec[..i] + [spec[i]];
        lines := lines + [LineF(x, r.top, x, r.Bottom())];
      }
      for i := 0 to 17
        invariant lines == spec[..17 + i]
      {
        var y := r.top + i as real * step;
        assert spec[17 + i] == LineF(r.left, y, r.Right(), y);
        assert spec[..17 + i + 1] == spec[..17 + i] + [spec[17 + i]];
        lines := lines + [LineF(r.left, y, r.Right(), y)];
      }
      assert lines == spec;
      gridLines := lines;
    }

    /** `_rebuild_handles`: a handle on each corner of the shown square; without one, nothing changes. */
    method RebuildHandles(scale: real)
      modifies this
      ensures rectItem.Some? ==> handles == Handles(rectItem.value, scale)
      ensures rectItem.None? ==> handles == old(handles)
      ensures rectItem == old(rectItem) && rectF == old(rectF) && gridLines == old(gridLines)
      ensures dragging == old(dragging) && resizing == old(resizing) && resizeDirection == old(resizeDirection)
    {
      if rectItem.None? {
        return;
      }
      var r := rectItem.value;
      ghost var spec := Handles(r, scale);
      var corners := Corners(r);
      var hs: seq<(RectF, string)> := [];
      for k := 0 to 4
        invariant hs == spec[..k]
      {
        var (pt, tag) := corners[k];
        hs := hs + [(HandleAt(pt, scale), tag)];
      }
      assert hs == spec;
      handles := hs;
    }

    /**
     * `create_initial`: show the initial square whatever was there, with
     * its grid and handles, and copy it. An interaction in progress is
     * left as it was.
     */
    method CreateInitial(pixmapWidth: int, pixmapHeight: int, scale: real) returns (copied: Option<(real, real, real, real)>)
      requires Valid()
      modifies this
      ensures Valid()
      ensures rectItem == Some(InitialSquare(pixmapWidth, pixmapHeight, frameArea))
      ensures handles == Handles(rectItem.value, scale)
      ensures copied == CopiedRect() && copied.Some?
      ensures dragging == old(dragging) && resizing == old(resizing) && resizeDirection == old(resizeDirection)
    {
      var steps := BaseSteps(frameArea);
      var unit := MinReal(steps.0, steps.1);
      var size := unit * 16.0;
      var left := pixmapWidth as real / 2.0 - size / 2.0;
      var top := pixmapHeight as real / 2.0 - size / 2.0;
      rectItem := Some(RectF(left, top, size, size));
      rectF := Some(RectF(left, top, size, size));
      RebuildGrid();
      RebuildHandles(scale);
      copied := CopiedRect();
    }

    /** `clear`: remove the square, its grid and handles, and reset every field to its initial value. */
    method Clear()
      requires Valid()
      modifies this
      ensures Valid()
      ensures rectItem == None && rectF == None && gridLines == [] && handles == []
      ensures !dragging && !resizing && resizeDirection == None
    {
      rectItem := None;
      gridLines := [];
      handles := [];
      dragging := false;
      resizing := false;
      resizeDirection := None;
      rectF := None;
    }

    /** What `detect_resize_direction` answers: None without a square, else the first corner near the pointer. */
    function DetectedDirection(p: PointF, scale: real): (d: Option<string>)
      reads this
      ensures rectItem.None? ==> d.None?
      ensures rectItem.Some? ==> d == CornerHit(rectItem.value, p, scale)
      ensures d.Some? ==> IsCorner(d.value)
    {
      match rectItem
      case None => None
      case Some(r) =>
        var c := CornerHit(r, p, scale);
        assert c.Some? ==> c.value in ["nw", "ne", "sw", "se"];
        c
    }

    /** `detect_resize_direction`: the corner loop, nw, ne, sw, se. */
    method DetectResizeDirection(p: PointF, scale: real) returns (d: Option<string>)
      ensures d == DetectedDirection(p, scale)
    {
      if rectItem.None? {
        return None;
      }
      var r := rectItem.value;
      var cornerThr := HandleSize(scale);
      var corners := Corners(r);
      var i := 0;
      while i < |corners|
        invariant 0 <= i <= |corners|
        invariant forall j :: 0 <= j < i ==> !NearCorner(p, corners[j].0, scale)
      {
        if ManhattanDistance(p, corners[i].0) <= cornerThr * 2.0 {
          assert CornerHit(r, p, scale) == Some(corners[i].1);
          return Some(corners[i].1);
        }
        i := i + 1;
      }
      return None;
    }

    /** `begin_drag`: start a drag from the shown square. */
    method BeginDrag()
      requires Valid()
      modifies this
      ensures Valid()
      ensures dragging == (old(dragging) || rectItem.Some?)
      ensures rectItem == old(rectItem) && resizing == old(resizing) && resizeDirection == old(resizeDirection)
      ensures gridLines == old(gridLines) && handles == old(handles)
    {
      if rectItem.None? {
        return;
      }
      dragging := true;
      rectF := rectItem;
    }

    /** `begin_resize`: start a resize in `direction` from the shown square. */
    method BeginResize(direction: string)
      requires Valid()
      modifies this
      ensures Valid()
      ensures old(rectItem).None? ==> resizing == old(resizing) && resizeDirection == old(resizeDirection)
      ensures old(rectItem).Some? ==> resizing && resizeDirection == Some(direction)
      ensures rectItem == old(rectItem) && dragging == old(dragging)
      ensures gridLines == old(gridLines) && handles == old(handles)
    {
      if rectItem.None? {
        return;
      }
      resizing := true;
      resizeDirection := Some(direction);
      rectF := rectItem;
    }

    /**
     * `apply_motion`: with a square shown, replace it by the moved or
     * resized working square and rebuild its grid and handles.
     */
    method ApplyMotion(dx: real, dy: real, scale: real)
      requires Valid()
      modifies this
      ensures Valid()
      ensures old(rectItem).None? ==> rectItem == None && handles == old(handles)
      ensures old(rectItem).Some? ==>
        rectItem == Some(Motion(old(rectItem).value, dragging, resizing, resizeDirection, dx, dy)) &&
        handles == Handles(rectItem.value, scale)
      ensures dragging == old(dragging) && resizing == old(resizing) && resizeDirection == old(resizeDirection)
    {
      if rectItem.None? || rectF.None? {
        return;
      }
      var newR := rectF.value;
      MotionKeepsSquare(newR, dragging, resizing, resizeDirection, dx, dy);
      if dragging {
        newR := newR.Translated(dx, dy);
      } else if resizing {
        var dir := if resizeDirection.Some? then resizeDirection.value else "";
        newR := Resized(newR, dir, dx, dy);
      }
      rectItem := Some(newR);
      rectF := Some(newR);
      RebuildGrid();
      RebuildHandles(scale);
    }

    /** `finish_interaction`: end any drag or resize and copy the square. */
    method FinishInteraction() returns (copied: Option<(real, real, real, real)>)
      requires Valid()
      modifies this
      ensures Valid()
      ensures !dragging && !resizing && resizeDirection == None
      ensures rectItem == old(rectItem) && handles == old(handles)
      ensures copied == CopiedRect()
    {
      dragging := false;
      resizing := false;
      resizeDirection := None;
      copied := CopiedRect();
    }
  }
}
