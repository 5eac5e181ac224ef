/**
 * The free bounding-box tool of the screenshot GUI: one rectangle that
 * can be dragged or resized edge by edge. Two rectangles are kept: the
 * painted one (`rect_item`, possibly snapped to the grid) and the working
 * one (`_rect_f`, never snapped) from which every motion is computed.
 * Scene items, pens and brushes are not modelled; the clipboard write is
 * returned as the `CopyText` it would hold.
 */
module BBoxTools {
  import opened Numerics
  import opened Wrappers
  import opened Frames
  import opened Rects
  import opened CopyModes

  /** The smallest side a motion may leave. */
  const MinMotionSide: real := 10.0

  /** The box `ensure_created` places: a fifth of the pixmap each way, at least 40, centred. */
  function InitialBox(pixmapWidth: int, pixmapHeight: int): (r: RectF)
    ensures r.width == MaxReal(40.0, pixmapWidth as real * 0.2) && r.height == MaxReal(40.0, pixmapHeight as real * 0.2)
    ensures r.width >= 40.0 && r.height >= 40.0
    ensures r.CenterX() == pixmapWidth as real / 2.0 && r.CenterY() == pixmapHeight as real / 2.0
  {
    var w := MaxReal(40.0, pixmapWidth as real * 0.2);
    var h := MaxReal(40.0, pixmapHeight as real * 0.2);
    RectF((pixmapWidth as real - w) / 2.0, (pixmapHeight as real - h) / 2.0, w, h)
  }

  /** `max(4, 8 / max(0.5, scale))`: how far from an edge still grabs it. */
  function EdgeMargin(scale: real): (m: real)
    ensures 4.0 <= m <= 16.0
  {
    MaxReal(4.0, 8.0 / MaxReal(0.5, scale))
  }

  predicate Within(v: real, edge: real, margin: real)
  {
    edge - margin <= v <= edge + margin
  }

  /**
   * The edge part of `detect_resize_direction`: inside the box grown by
   * the margin, the first of n, s, w, e whose band holds the pointer.
   */
  function EdgeHit(r: RectF, p: PointF, margin: real): (d: Option<string>)
    ensures d.Some? ==> d.value in ["n", "s", "w", "e"]
    ensures d.Some? ==> r.left - margin <= p.x <= r.Right() + margin && r.top - margin <= p.y <= r.Bottom() + margin
    ensures d == Some("n") ==> Within(p.y, r.top, margin)
    ensures d == Some("s") ==> Within(p.y, r.Bottom(), margin) && !Within(p.y, r.top, margin)
    ensures d == Some("w") ==> Within(p.x, r.left, margin) && !Within(p.y, r.top, margin) && !Within(p.y, r.Bottom(), margin)
    ensures d == Some("e") ==> (Within(p.x, r.Right(), margin) && !Within(p.x, r.left, margin) &&
      !Within(p.y, r.top, margin) && !Within(p.y, r.Bottom(), margin))
    ensures d.None? && r.left - margin <= p.x <= r.Right() + margin && r.top - margin <= p.y <= r.Bottom() + margin ==>
      (!Within(p.y, r.top, margin) && !Within(p.y, r.Bottom(), margin) &&
       !Within(p.x, r.left, margin) && !Within(p.x, r.Right(), margin))
  {
    if r.left - margin <= p.x <= r.Right() + margin && r.top - margin <= p.y <= r.Bottom() + margin then
      if Within(p.y, r.top, margin) then Some("n")
      else if Within(p.y, r.Bottom(), margin) then Some("s")
      else if Within(p.x, r.left, margin) then Some("w")
      else if Within(p.x, r.Right(), margin) then Some("e")
      else None
    else None
  }

  /**
   * The rectangle a motion computes from the working rectangle: a drag
   * translates it; otherwise, while resizing, each letter of the direction
   * moves its edge (n and s by dy, w and e by dx) and the rest stay.
   */
  function Moved(r: RectF, dragging: bool, resizing: bool, direction: Option<string>, dx: real, dy: real): (n: RectF)
    ensures dragging ==> n == r.Translated(dx, dy)
    ensures !dragging && !resizing ==> n == r
    ensures !dragging && resizing ==>
      var d := if direction.Some? then direction.value else "";
      n.top == (if 'n' in d then r.top + dy else r.top) &&
      n.Bottom() == (if 's' in d then r.Bottom() + dy else r.Bottom()) &&
      n.left == (if 'w' in d then r.left + dx else r.left) &&
      n.Right() == (if 'e' in d then r.Right() + dx else r.Right())
  {
    if dragging then r.Translated(dx, dy)
    else if resizing then
      var d := if direction.Some? then direction.value else "";
      var r1 := if 'n' in d then r.WithTop(r.top + dy) else r;
      var r2 := if 's' in d then r1.WithBottom(r1.Bottom() + dy) else r1;
      var r3 := if 'w' in d then r2.WithLeft(r2.left + dx) else r2;
      if 'e' in d then r3.WithRight(r3.Right() + dx) else r3
    else r
  }

  /**
   * The resize branch of `update_rect`: each edge named in the direction
   * moves by the pointer's offset along its axis, in the order n, s, w, e.
   */
  method ResizeEdges(r: RectF, dir: string, dx: real, dy: real) returns (n: RectF)
    ensures n == Moved(r, false, true, Some(dir), dx, dy)
  {
    n := r;
    if 'n' in dir {
      n := n.WithTop(n.top + dy);
    }
    if 's' in dir {
      n := n.WithBottom(n.Bottom() + dy);
    }
    if 'w' in dir {
      n := n.WithLeft(n.left + dx);
    }
    if 'e' in dir {
      n := n.WithRight(n.Right() + dx);
    }
  }

  /** A drag by (dx, dy) followed by one by (-dx, -dy) gives the rectangle back. */
  lemma DragThereAndBack(r: RectF, dx: real, dy: real)
    ensures Moved(Moved(r, true, false, None, dx, dy), true, false, None, -dx, -dy) == r
  {
  }

  /** A resize from a corner changes exactly the two sides that meet there. */
  lemma CornerResizeKeepsOppositeCorner(r: RectF, dx: real, dy: real)
    ensures Moved(r, false, true, Some("nw"), dx, dy).BottomRight() == r.BottomRight()
    ensures Moved(r, false, true, Some("se"), dx, dy).TopLeft() == r.TopLeft()
    ensures Moved(r, false, true, Some("ne"), dx, dy).BottomLeft() == r.BottomLeft()
    ensures Moved(r, false, true, Some("sw"), dx, dy).TopRight() == r.TopRight()
  {
    assert 'n' in "nw" && 'w' in "nw" && 's' !in "nw" && 'e' !in "nw";
    assert 's' in "se" && 'e' in "se" && 'n' !in "se" && 'w' !in "se";
    assert 'n' in "ne" && 'e' in "ne" && 's' !in "ne" && 'w' !in "ne";
    assert 's' in "sw" && 'w' in "sw" && 'n' !in "sw" && 'e' !in "sw";
  }

  /** The direction a press at `p` grabs on box `r`: a corner first, then an edge band. */
  function DirectionAt(r: RectF, p: PointF, scale: real): (d: Option<string>)
    ensures d.Some? ==> d.value in ["nw", "ne", "sw", "se", "n", "s", "w", "e"]
    ensures CornerHit(r, p, scale).Some? ==> d == CornerHit(r, p, scale)
    ensures CornerHit(r, p, scale).None? ==> d == EdgeHit(r, p, EdgeMargin(scale))
  {
    var c := CornerHit(r, p, scale);
    if c.Some? then c else EdgeHit(r, p, EdgeMargin(scale))
  }

  class BBoxTool {
    const frameArea: FrameDict
    /** The painted rectangle (`rect_item.rect()`), or None before creation. */
    var rectItem: Option<RectF>
    /** The unsnapped working rectangle (`_rect_f`). */
    var rectF: Option<RectF>
    var dragging: bool
    var resizing: bool
    var resizeDirection: Option<string>

    /** Both rectangles exist together, and an interaction needs a rectangle. */
    predicate Valid()
      reads this
    {
      (rectItem.None? <==> rectF.None?) &&
      (dragging ==> rectItem.Some?) &&
      (resizing ==> rectItem.Some? && resizeDirection.Some?)
    }

    constructor (frameArea: FrameDict)
      ensures Valid()
      ensures this.frameArea == frameArea
      ensures rectItem == None && rectF == None && !dragging && !resizing && resizeDirection == None
    {
      this.frameArea := frameArea;
      rectItem := None;
      rectF := None;
      dragging := false;
      resizing := false;
      resizeDirection := None;
    }

    /** `update_clipboard`: the painted rectangle's left, top, right, bottom in the given mode, if there is one. */
    function ClipboardText(mode: Mode): (t: Option<CopyText>)
      reads this
      ensures t.Some? <==> rectItem.Some?
    {
      match rectItem
      case None => None
      case Some(r) => Some(CopyRect(mode, (r.left, r.top, r.Right(), r.Bottom()), frameArea))
    }

    /** `ensure_created`: only without a box, place the initial box and copy it. */
    method EnsureCreated(pixmapWidth: int, pixmapHeight: int, mode: Mode) returns (clip: Option<CopyText>)
      requires Valid()
      modifies this
      ensures Valid()
      ensures old(rectItem).Some? ==> rectItem == old(rectItem) && rectF == old(rectF) && clip == None
      ensures old(rectItem).None? ==>
        rectItem == Some(InitialBox(pixmapWidth, pixmapHeight)) && rectF == rectItem && clip == ClipboardText(mode)
      ensures dragging == old(dragging) && resizing == old(resizing) && resizeDirection == old(resizeDirection)
    {
      clip := None;
      if rectItem.None? {
        var w := MaxReal(40.0, pixmapWidth as real * 0.2);
        var h := MaxReal(40.0, pixmapHeight as real * 0.2);
        var left := (pixmapWidth as real - w) / 2.0;
        var top := (pixmapHeight as real - h) / 2.0;
        rectItem := Some(RectF(left, top, w, h));
        rectF := Some(RectF(left, top, w, h));
        clip := ClipboardText(mode);
      }
    }

    /** What `detect_resize_direction` answers: None without a box, else a corner first, then an edge. */
    function DetectedDirection(p: PointF, scale: real): (d: Option<string>)
      reads this
      ensures rectItem.None? ==> d.None?
      ensures rectItem.Some? ==> d == DirectionAt(rectItem.value, p, scale)
    {
      match rectItem
      case None => None
      case Some(r) => DirectionAt(r, p, scale)
    }

    /** `detect_resize_direction`: the corner loop, then the edge tests. */
    method DetectResizeDirection(p: PointF, scale: real) returns (d: Option<string>)
      ensures d == DetectedDirection(p, scale)
    {
      if rectItem.None? {
        return None;
      }
      var r := rectItem.value;
      var cornerThr := HandleSize(scale);
      var edgeMargin := EdgeMargin(scale);
      var corners := Corners(r);
      var i := 0;
      while i < |corners|
        invariant 0 <= i <= |corners|
        invariant forall j :: 0 <= j < i ==> !NearCorner(p, corners[j].0, scale)
      {
        if ManhattanDistance(p, corners[i].0) <= cornerThr * 2.0 {
          assert CornerHit(r, p, scale) == Some(corners[i].1);
          return Some(corners[i].1);
        }
        i := i + 1;
      }
      assert CornerHit(r, p, scale).None?;
      return EdgeHit(r, p, edgeMargin);
    }

    /** `begin_drag`: start a drag from the painted box. */
    method BeginDrag()
      requires Valid()
      modifies this
      ensures Valid()
      ensures old(rectItem).None? ==> dragging == old(dragging) && rectF == old(rectF)
      ensures old(rectItem).Some? ==> dragging && rectF == old(rectItem)
      ensures rectItem == old(rectItem) && resizing == old(resizing) && resizeDirection == old(resizeDirection)
    {
      if rectItem.None? {
        return;
      }
      dragging := true;
      rectF := rectItem;
    }

    /** `begin_resize`: start a resize in `direction` from the painted box. */
    method BeginResize(direction: string)
      requires Valid()
      modifies this
      ensures Valid()
      ensures old(rectItem).None? ==> resizing == old(resizing) && resizeDirection == old(resizeDirection) && rectF == old(rectF)
      ensures old(rectItem).Some? ==> resizing && resizeDirection == Some(direction) && rectF == old(rectItem)
      ensures rectItem == old(rectItem) && dragging == old(dragging)
    {
      if rectItem.None? {
        return;
      }
      resizing := true;
      resizeDirection := Some(direction);
      rectF := rectItem;
    }

    /**
     * `apply_motion`: compute the moved working rectangle; commit it only
     * when both sides are at least 10, painting the snapped version when
     * the grid is shown and a snap function is given.
     */
    method ApplyMotion(dx: real, dy: real, scale: real, snapRect: Option<RectF -> RectF>, showGrid: bool)
      requires Valid()
      modifies this
      ensures Valid()
      ensures dragging == old(dragging) && resizing == old(resizing) && resizeDirection == old(resizeDirection)
      ensures old(rectItem).None? || old(rectF).None? ==> rectItem == old(rectItem) && rectF == old(rectF)
      ensures old(rectItem).Some? && old(rectF).Some? ==>
        var n := Moved(old(rectF).value, dragging, resizing, resizeDirection, dx, dy);
        if n.width >= MinMotionSide && n.height >= MinMotionSide then
          rectF == Some(n) &&
          rectItem == Some(if showGrid && snapRect.Some? then snapRect.value(n) else n)
        else
          rectItem == old(rectItem) && rectF == old(rectF)
    {
      if rectItem.None? || rectF.None? {
        return;
      }
      var newR := rectF.value;
      if dragging {
        newR := newR.Translated(dx, dy);
      } else if resizing {
        newR := ResizeEdges(newR, if resizeDirection.Some? then resizeDirection.value else "", dx, dy);
      }
      if newR.width >= MinMotionSide && newR.height >= MinMotionSide {
        var painted := if showGrid && snapRect.Some? then snapRect.value(newR) else newR;
        rectItem := Some(painted);
        rectF := Some(newR);
      }
    }

    /** `finish_interaction`: end any drag or resize and copy the painted box. */
    method FinishInteraction(mode: Mode) returns (clip: Option<CopyText>)
      requires Valid()
      modifies this
      ensures Valid()
      ensures !dragging && !resizing && resizeDirection == None
      ensures rectItem == old(rectItem) && rectF == old(rectF)
      ensures clip == ClipboardText(mode)
    {
      dragging := false;
      resizing := false;
      resizeDirection := None;
      clip := ClipboardText(mode);
    }
  }

  /**
   * A pointer more than 40 scene units inside every edge is neither near
   * a corner nor on an edge band, whatever the zoom, so pressing there
   * starts a drag rather than a resize.
   */
  lemma DeepInsideIsNoHandle(r: RectF, p: PointF, scale: real)
    requires r.left + 40.0 < p.x < r.Right() - 40.0 && r.top + 40.0 < p.y < r.Bottom() - 40.0
    ensures DirectionAt(r, p, scale) == None
  {
    var cs := Corners(r);
    forall j | 0 <= j < 4
      ensures !NearCorner(p, cs[j].0, scale)
    {
      assert ManhattanDistance(p, cs[j].0) > 80.0;
    }
  }
}
