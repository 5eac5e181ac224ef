/**
 * The screenshot GUI's square tool: a square whose side is always one of
 * the lattice sizes 16, 32, ..., 512, changed only by the size buttons
 * (which keep the centre), moved by dragging, and snapped to whole pixels
 * when a drag ends. A 16 x 16 grid of internal lines follows the square.
 * Scene items and pens are not modelled; the clipboard write is returned
 * as the `CopyText` it would hold.
 */
module LatticeSquareTool {
  import opened Numerics
  import opened Wrappers
  import opened Frames
  import opened Rects
  import opened Ranges
  import opened CopyModes

  const DefaultSize: int := 64
  const MinSize: int := 16
  const MaxSize: int := 512
  const SizeStep: int := 16

  /** `VALID_SIZES = list(range(MIN_SIZE, MAX_SIZE + SIZE_STEP, SIZE_STEP))`. */
  const ValidSizes: seq<int> := Range(MinSize, MaxSize + SizeStep, SizeStep)

  /** The lattice has 32 sizes, 16 apart, from 16 to 512. */
  lemma ValidSizesShape()
    ensures |ValidSizes| == 32
    ensures forall i :: 0 <= i < |ValidSizes| ==> ValidSizes[i] == 16 * (i + 1)
    ensures ValidSizes[0] == MinSize && ValidSizes[31] == MaxSize
    ensures DefaultSize in ValidSizes
  {
    var s := ValidSizes;
    RangeLength(MinSize, MaxSize + SizeStep, SizeStep, 31);
    RangeLength(MinSize, MaxSize + SizeStep, SizeStep, 32);
    assert s[3] == 64;
  }

  /** `VALID_SIZES.index(size)` for a size on the lattice. */
  function SizeIndex(size: int): (i: int)
    requires size in ValidSizes
    ensures 0 <= i < |ValidSizes| && ValidSizes[i] == size
  {
    ValidSizesShape();
    var k :| 0 <= k < |ValidSizes| && ValidSizes[k] == size;
    assert size / 16 - 1 == k;
    size / 16 - 1
  }

  /** The size `size_up` moves to: the next lattice size, or the same at 512. */
  function NextSize(size: int): (n: int)
    requires size in ValidSizes
    ensures n in ValidSizes
    ensures size < MaxSize ==> n == size + SizeStep
    ensures size == MaxSize ==> n == size
  {
    ValidSizesShape();
    var i := SizeIndex(size);
    if i < |ValidSizes| - 1 then ValidSizes[i + 1] else size
  }

  /** The size `size_down` moves to: the previous lattice size, or the same at 16. */
  function PrevSize(size: int): (n: int)
    requires size in ValidSizes
    ensures n in ValidSizes
    ensures size > MinSize ==> n == size - SizeStep
    ensures size == MinSize ==> n == size
  {
    ValidSizesShape();
    var i := SizeIndex(size);
    if i > 0 then ValidSizes[i - 1] else size
  }

  /** Up then down (and down then up) returns to the starting size away from the ends of the lattice. */
  lemma SizeUpDownInverse(size: int)
    requires size in ValidSizes
    ensures size < MaxSize ==> PrevSize(NextSize(size)) == size
    ensures size > MinSize ==> NextSize(PrevSize(size)) == size
  {
    ValidSizesShape();
  }

  /** `_get_closest_valid_size`: round to the nearest multiple of 16, then clamp to [16, 512]. */
  function ClosestValidSize(target: real): (n: int)
    ensures n in ValidSizes
    ensures 8.0 <= target <= 520.0 ==> -8.0 <= n as real - target <= 8.0
  {
    ValidSizesShape();
    var rounded := RoundHalfEven(target / SizeStep as real) * SizeStep;
    var clamped := MaxInt(MinSize, MinInt(MaxSize, rounded));
    assert ValidSizes[clamped / 16 - 1] == clamped;
    clamped
  }

  /** `_snap_to_grid`: `round(value)`. */
  function SnapToGrid(value: real): (n: int)
    ensures -0.5 <= value - n as real <= 0.5
  {
    RoundHalfEven(value)
  }

  /** The internal grid: 15 vertical then 15 horizontal lines at sixteenths of the side, borders excluded. */
  function InternalGrid(r: RectF): (lines: seq<LineF>)
    ensures |lines| == 30
    ensures forall i :: 0 <= i < 15 ==> lines[i] == LineF(r.left + (i + 1) as real * (r.width / 16.0), r.top, r.left + (i + 1) as real * (r.width / 16.0), r.Bottom())
    ensures forall i :: 15 <= i < 30 ==> lines[i] == LineF(r.left, r.top + (i - 14) as real * (r.width / 16.0), r.Right(), r.top + (i - 14) as real * (r.width / 16.0))
  {
    var interval := r.width / 16.0;
    seq(15, i => LineF(r.left + (i + 1) as real * interval, r.top, r.left + (i + 1) as real * interval, r.Bottom())) +
    seq(15, i => LineF(r.left, r.top + (i + 1) as real * interval, r.Right(), r.top + (i + 1) as real * interval))
  }

  /** For a square, every internal line lies strictly inside it. */
  lemma InternalGridInsideSquare(r: RectF)
    requires r.width > 0.0 && r.width == r.height
    ensures forall i :: 0 <= i < 15 ==> r.left < InternalGrid(r)[i].x1 < r.Right()
    ensures forall i :: 15 <= i < 30 ==> r.top < InternalGrid(r)[i].y1 < r.Bottom()
  {
    var lines := InternalGrid(r);
    forall i | 0 <= i < 15
      ensures r.left < lines[i].x1 < r.Right()
    {
      var u := r.width / 16.0;
      var k := (i + 1) as real;
      assert lines[i].x1 == r.left + k * u;
      ScaleBelowSide(k, u);
      assert r.Right() == r.left + 16.0 * u;
    }
    forall i | 15 <= i < 30
      ensures r.top < lines[i].y1 < r.Bottom()
    {
      var u := r.width / 16.0;
      var k := (i - 14) as real;
      assert lines[i].y1 == r.top + k * u;
      ScaleBelowSide(k, u);
      assert r.Bottom() == r.top + 16.0 * u;
    }
  }

  /** Between 1 and 15 sixteenths of a positive side lie strictly inside it. */
  lemma ScaleBelowSide(k: real, u: real)
    requires 1.0 <= k <= 15.0 && u > 0.0
    ensures 0.0 < k * u < 16.0 * u
  {
    assert k * u >= 1.0 * u by {
      assert (k - 1.0) * u >= 0.0;
    }
    assert k * u <= 15.0 * u by {
      assert (15.0 - k) * u >= 0.0;
    }
  }

  /** The grid a tool shows for its rectangle: none without a square. */
  function GridFor(rect: Option<RectF>): seq<LineF>
  {
    if rect.None? then [] else InternalGrid(rect.value)
  }

  /** What `get_size_info` reports. */
  datatype SizeInfo = SizeInfo(
    currentSize: int,
    currentSizePixels: int,
    currentIndex: int,
    canSizeUp: bool,
    canSizeDown: bool,
    gridInterval: int,
    totalCells: int)

  class SquareTool {
    const frameArea: FrameDict
    /** The square (`rect_item.rect()`), or None when not shown. */
    var rectItem: Option<RectF>
    var gridLines: seq<LineF>
    var dragging: bool
    var resizing: bool
    var resizeDirection: Option<string>
    var currentSize: int

    /**
     * The size is on the lattice, a shown square has exactly that side,
     * the grid follows the square, only a shown square can be dragged,
     * and resizing by dragging never starts.
     */
    predicate Valid()
      reads this
    {
      currentSize in ValidSizes &&
      (rectItem.Some? ==> rectItem.value.width == currentSize as real && rectItem.value.height == currentSize as real) &&
      gridLines == GridFor(rectItem) &&
      (dragging ==> rectItem.Some?) &&
      !resizing && resizeDirection.None?
    }

    constructor (frameArea: FrameDict)
      ensures Valid()
      ensures this.frameArea == frameArea
      ensures rectItem == None && gridLines == [] && !dragging && currentSize == DefaultSize
    {
      ValidSizesShape();
      this.frameArea := frameArea;
      rectItem := None;
      gridLines := [];
      dragging := false;
      resizing := false;
      resizeDirection := None;
      currentSize := DefaultSize;
    }

    /** `update_clipboard`: the square's left, top, right, bottom in the given mode, if shown. */
    function ClipboardText(mode: Mode): (t: Option<CopyText>)
      reads this
      ensures t.Some? <==> rectItem.Some?
    {
      match rectItem
      case None => None
      case Some(r) => Some(CopyRect(mode, (r.left, r.top, r.Right(), r.Bottom()), frameArea))
    }

    /** `_create_internal_grid`: drop the old lines, then add the 15 + 15 internal lines of the square, if shown. */
    method CreateInternalGrid()
      modifies this
      ensures gridLines == GridFor(rectItem)
      ensures rectItem == old(rectItem) && dragging == old(dragging) && resizing == old(resizing)
      ensures resizeDirection == old(resizeDirection) && currentSize == old(currentSize)
    {
      gridLines := [];
      if rectItem.None? {
        return;
      }
      var rect := rectItem.value;
      var gridInterval := rect.width / 16.0;
      var lines: seq<LineF> := [];
      var i := 1;
      while i < 16
        invariant 1 <= i <= 16
        invariant lines == InternalGrid(rect)[..i - 1]
      {
        var x := rect.left + i as real * gridInterval;
        assert InternalGrid(rect)[i - 1] == LineF(x, rect.top, x, rect.Bottom());
        assert InternalGrid(rect)[..i] == InternalGrid(rect)[..i - 1] + [InternalGrid(rect)[i - 1]];
        lines := lines + [LineF(x, rect.top, x, rect.Bottom())];
        i := i + 1;
      }
      i := 1;
      while i < 16
        invariant 1 <= i <= 16
        invariant lines == InternalGrid(rect)[..15 + i - 1]
      {
        var y := rect.top + i as real * gridInterval;
        assert InternalGrid(rect)[15 + i - 1] == LineF(rect.left, y, rect.Right(), y);
        assert InternalGrid(rect)[..15 + i] == InternalGrid(rect)[..15 + i - 1] + [InternalGrid(rect)[15 + i - 1]];
        lines := lines + [LineF(rect.left, y, rect.Right(), y)];
        i := i + 1;
      }
      assert InternalGrid(rect)[..30] == InternalGrid(rect);
      gridLines := lines;
    }

    /**
     * `ensure_created` (and `create_initial`, which does the same): only
     * without a square, show a default-size square centred on the pixmap.
     */
    method EnsureCreated(pixmapWidth: int, pixmapHeight: int, mode: Mode) returns (clip: Option<CopyText>)
      requires Valid()
      modifies this
      ensures Valid()
      ensures old(rectItem).Some? ==> rectItem == old(rectItem) && currentSize == old(currentSize) && clip == None
      ensures old(rectItem).None? ==>
        currentSize == DefaultSize &&
        rectItem == Some(RectF((pixmapWidth - DefaultSize) as real / 2.0, (pixmapHeight - DefaultSize) as real / 2.0,
                               DefaultSize as real, DefaultSize as real)) &&
        clip == ClipboardText(mode)
      ensures dragging == old(dragging)
    {
      clip := None;
      if rectItem.None? {
        ValidSizesShape();
        var side := DefaultSize;
        currentSize := side;
        var left := (pixmapWidth - side) as real / 2.0;
        var top := (pixmapHeight - side) as real / 2.0;
        rectItem := Some(RectF(left, top, side as real, side as real));
        CreateInternalGrid();
        clip := ClipboardText(mode);
      }
    }

    /** `clear`: hide the square, drop the grid, end any interaction and go back to the default size. */
    method Clear()
      requires Valid()
      modifies this
      ensures Valid()
      ensures rectItem == None && gridLines == [] && !dragging && !resizing && resizeDirection == None
      ensures currentSize == DefaultSize
    {
      ValidSizesShape();
      rectItem := None;
      gridLines := [];
      dragging := false;
      resizing := false;
      resizeDirection := None;
      currentSize := DefaultSize;
    }

    /** `detect_resize_direction`: this tool has no resize handles. */
    function DetectResizeDirection(p: PointF, scale: real): (d: Option<string>)
      ensures d.None?
    {
      None
    }

    /** `begin_drag`: start a drag if the square is shown. */
    method BeginDrag()
      requires Valid()
      modifies this
      ensures Valid()
      ensures dragging == (old(dragging) || rectItem.Some?)
      ensures rectItem == old(rectItem) && currentSize == old(currentSize)
    {
      if rectItem.None? {
        return;
      }
      dragging := true;
    }

    /** `begin_resize`: kept for the shared tool interface; it changes nothing. */
    method BeginResize(direction: string)
      requires Valid()
      ensures Valid()
    {
    }

    /** `_resize_to_size`: set the size; a shown square takes that side around its old centre. */
    method ResizeToSize(newSize: int, mode: Mode) returns (clip: Option<CopyText>)
      requires Valid() && newSize in ValidSizes
      modifies this
      ensures Valid()
      ensures currentSize == newSize
      ensures rectItem.Some? <==> old(rectItem).Some?
      ensures rectItem.Some? ==>
        rectItem.value.CenterX() == old(rectItem).value.CenterX() &&
        rectItem.value.CenterY() == old(rectItem).value.CenterY()
      ensures clip == ClipboardText(mode)
      ensures dragging == old(dragging)
    {
      currentSize := newSize;
      clip := None;
      if rectItem.Some? {
        var currentRect := rectItem.value;
        var centerX := currentRect.CenterX();
        var centerY := currentRect.CenterY();
        var halfSize := newSize as real / 2.0;
        rectItem := Some(RectF(centerX - halfSize, centerY - halfSize, newSize as real, newSize as real));
        CreateInternalGrid();
        clip := ClipboardText(mode);
      }
    }

    /** `size_up`: move to the next lattice size, doing nothing at 512. */
    method SizeUp(mode: Mode) returns (clip: Option<CopyText>)
      requires Valid()
      modifies this
      ensures Valid()
      ensures currentSize == NextSize(old(currentSize))
      ensures old(currentSize) == MaxSize ==> rectItem == old(rectItem) && clip == None
      ensures old(currentSize) != MaxSize ==> clip == ClipboardText(mode)
      ensures dragging == old(dragging)
      ensures rectItem.Some? <==> old(rectItem).Some?
      ensures rectItem.Some? ==> (rectItem.value.CenterX() == old(rectItem).value.CenterX() &&
        rectItem.value.CenterY() == old(rectItem).value.CenterY())
    {
      ValidSizesShape();
      clip := None;
      var currentIndex := SizeIndex(currentSize);
      if currentIndex < |ValidSizes| - 1 {
        var newSize := ValidSizes[currentIndex + 1];
        clip := ResizeToSize(newSize, mode);
      }
    }

    /** `size_down`: move to the previous lattice size, doing nothing at 16. */
    method SizeDown(mode: Mode) returns (clip: Option<CopyText>)
      requires Valid()
      modifies this
      ensures Valid()
      ensures currentSize == PrevSize(old(currentSize))
      ensures old(currentSize) == MinSize ==> rectItem == old(rectItem) && clip == None
      ensures old(currentSize) != MinSize ==> clip == ClipboardText(mode)
      ensures dragging == old(dragging)
      ensures rectItem.Some? <==> old(rectItem).Some?
      ensures rectItem.Some? ==> (rectItem.value.CenterX() == old(rectItem).value.CenterX() &&
        rectItem.value.CenterY() == old(rectItem).value.CenterY())
    {
      ValidSizesShape();
      clip := None;
      var currentIndex := SizeIndex(currentSize);
      if currentIndex > 0 {
        var newSize := ValidSizes[currentIndex - 1];
        clip := ResizeToSize(newSize, mode);
      }
    }

    /** `get_size_info`. */
    function GetSizeInfo(): (info: SizeInfo)
      reads this
      requires Valid()
      ensures info.currentSize == currentSize && info.currentSizePixels == currentSize
      ensures 0 <= info.currentIndex < |ValidSizes| && ValidSizes[info.currentIndex] == currentSize
      ensures info.canSizeUp <==> currentSize < MaxSize
      ensures info.canSizeDown <==> currentSize > MinSize
      ensures info.gridInterval * 16 == currentSize
      ensures info.totalCells == 256
    {
      ValidSizesShape();
      var currentIndex := SizeIndex(currentSize);
      SizeInfo(currentSize, currentSize, currentIndex,
               currentIndex < |ValidSizes| - 1, currentIndex > 0,
               currentSize / 16, 16 * 16)
    }

    /** `apply_motion`: while dragging a shown square, move it by (dx, dy); nothing else. */
    method ApplyMotion(dx: real, dy: real, scale: real, snapRect: Option<RectF -> RectF>, showGrid: bool)
      requires Valid()
      modifies this
      ensures Valid()
      ensures old(rectItem).None? || !old(dragging) ==> rectItem == old(rectItem)
      ensures old(rectItem).Some? && old(dragging) ==> rectItem == Some(old(rectItem).value.Translated(dx, dy))
      ensures dragging == old(dragging) && currentSize == old(currentSize)
    {
      if rectItem.None? || !dragging {
        return;
      }
      var currentRect := rectItem.value;
      var newLeft := currentRect.left + dx;
      var newTop := currentRect.top + dy;
      rectItem := Some(RectF(newLeft, newTop, currentRect.width, currentRect.height));
      CreateInternalGrid();
    }

    /**
     * `finish_interaction`: after a drag, snap the left and top edges to
     * whole pixels keeping the size; then end the interaction and copy.
     */
    method FinishInteraction(mode: Mode) returns (clip: Option<CopyText>)
      requires Valid()
      modifies this
      ensures Valid()
      ensures !dragging && !resizing && resizeDirection == None
      ensures old(dragging) && old(rectItem).Some? ==>
        rectItem == Some(RectF(SnapToGrid(old(rectItem).value.left) as real, SnapToGrid(old(rectItem).value.top) as real,
                               old(rectItem).value.width, old(rectItem).value.height))
      ensures !old(dragging) ==> rectItem == old(rectItem)
      ensures currentSize == old(currentSize)
      ensures clip == ClipboardText(mode)
    {
      if dragging && rectItem.Some? {
        var currentRect := rectItem.value;
        var snappedLeft := SnapToGrid(currentRect.left);
        var snappedTop := SnapToGrid(currentRect.top);
        rectItem := Some(RectF(snappedLeft as real, snappedTop as real, currentRect.width, currentRect.height));
        CreateInternalGrid();
      }
      dragging := false;
      resizing := false;
      resizeDirection := None;
      clip := ClipboardText(mode);
    }

    /** `current_rect`: left, top, right, bottom of the shown square. */
    function CurrentRect(): (r: Option<(real, real, real, real)>)
      reads this
      requires Valid()
      ensures r.Some? <==> rectItem.Some?
      ensures r.Some? ==> r.value.2 - r.value.0 == currentSize as real && r.value.3 - r.value.1 == currentSize as real
    {
      match rectItem
      case None => None
      case Some(q) => Some((q.left, q.top, q.Right(), q.Bottom()))
    }
  }

  /** Snapping after a drag moves the square by at most half a pixel on each axis. */
  lemma FinishMovesAtMostHalfPixel(r: RectF)
    ensures var s := RectF(SnapToGrid(r.left) as real, SnapToGrid(r.top) as real, r.width, r.height);
      AbsReal(s.left - r.left) <= 0.5 && AbsReal(s.top - r.top) <= 0.5 && s.width == r.width && s.height == r.height
  {
  }
}
