/**
 * The standalone screenshot viewer of the UI package: a zoomable view of a
 * screenshot with a pixel grid drawn once the image is shown at half size
 * or more, a hover read-out of the pixel under the mouse, and a left click
 * that copies the clicked point.
 *
 * The view transform is reduced to its horizontal scale; the scale that
 * fits the image into the viewport comes from the window and is a
 * parameter. Banner texts are described by what they show, and the
 * clipboard text by the two fractions it prints.
 */
module UiViewer {
  import opened Wrappers
  import opened Numerics
  import opened Frames
  import opened Rects
  import PixelGrid
  import opened Ranges
  import opened CopiedText
  import opened TrackerViewer

  /** `ZOOM_SCALE_FACTOR`: each zoom notch scales the view by 1.25. */
  const ZoomScaleFactor: real := 1.25

  /** `_create_pixel_grid`: one line every 1, 2, 5 or 10 pixels as the view scale drops below 8, 4 and 2. */
  function GridStep(scale: real): (s: int)
    ensures s == 1 || s == 2 || s == 5 || s == 10
    ensures scale >= 0.5 ==> s as real * scale >= 5.0
    ensures scale < 8.0 ==> s > 1
  {
    if scale >= 8.0 then 1
    else if scale >= 4.0 then 2
    else if scale >= 2.0 then 5
    else 10
  }

  /** A closer view never gets a coarser grid. */
  lemma GridStepNonIncreasing(a: real, b: real)
    requires a <= b
    ensures GridStep(b) <= GridStep(a)
  {
    if b < 8.0 {
      assert GridStep(b) > 1;
    }
  }

  /** `f` raised to a natural power. */
  function Power(f: real, n: nat): real
  {
    if n == 0 then 1.0 else f * Power(f, n - 1)
  }

  /** A base above 1 raised to a positive power stays above 1. */
  lemma {:induction false} PowerAboveOne(f: real, n: nat)
    requires f > 1.0
    ensures n > 0 ==> Power(f, n) > 1.0
    ensures Power(f, n) >= 1.0
  {
    if n > 0 {
      PowerAboveOne(f, n - 1);
      assert Power(f, n) == f * Power(f, n - 1);
      assert f * Power(f, n - 1) >= f * 1.0;
    }
  }

  /** `ZOOM_SCALE_FACTOR ** step` for an integer step. */
  function ZoomFactor(step: int): (f: real)
    ensures f > 0.0
    ensures step > 0 ==> f > 1.0
    ensures step < 0 ==> f < 1.0
    ensures step == 0 ==> f == 1.0
  {
    if step >= 0 then
      PowerAboveOne(ZoomScaleFactor, step);
      Power(ZoomScaleFactor, step)
    else
      PowerAboveOne(ZoomScaleFactor, -step);
      1.0 / Power(ZoomScaleFactor, -step)
  }

  /** Zooming in by a step and out by the same step restores the scale. */
  lemma ZoomFactorInverse(step: int)
    ensures ZoomFactor(step) * ZoomFactor(-step) == 1.0
  {
    var n := if step >= 0 then step else -step;
    PowerAboveOne(ZoomScaleFactor, n);
  }

  /**
   * What `_update_grid` leaves in place: the lines for the image at the
   * current scale when the grid is on, a photo is loaded and the scale is
   * at least 0.5; nothing otherwise.
   */
  function ShownGrid(showGrid: bool, pixmap: Option<(int, int)>, scale: real): (g: Option<seq<LineF>>)
    ensures g.Some? <==> showGrid && pixmap.Some? && scale >= 0.5
  {
    if showGrid && pixmap.Some? && scale >= 0.5 then
      Some(PixelGrid.GridLines(pixmap.value.0, pixmap.value.1, GridStep(scale)))
    else None
  }

  /**
   * `_create_pixel_grid`: vertical lines at x = 0, step, ... up to the
   * width inclusive, each spanning the height, then horizontal lines
   * likewise.
   */
  method CreatePixelGrid(width: int, height: int, scale: real) returns (lines: seq<LineF>)
    ensures lines == PixelGrid.GridLines(width, height, GridStep(scale))
  {
    var step := GridStep(scale);
    lines := PixelGrid.AppendColumns([], width, height, step);
    lines := PixelGrid.AppendRows(lines, width, height, step);
  }

  /** `max(0, min(100, c / dim * 100))` for a real coordinate and a nonzero dimension. */
  function ClampedPercent(c: real, dim: int): (p: real)
    requires dim != 0
    ensures 0.0 <= p <= 100.0
    ensures 0.0 <= c <= dim as real ==> p * dim as real == c * 100.0
  {
    var raw := (c / dim as real) * 100.0;
    assert 0.0 <= c <= dim as real ==> 0.0 <= raw <= 100.0 by {
      if 0.0 <= c <= dim as real {
        var d := dim as real;
        assert d > 0.0;
        assert (c / d) * d == c;
        assert 0.0 <= c / d <= 1.0;
      }
    }
    ClampReal(0.0, 100.0, raw)
  }

  /**
   * `_on_coordinates_changed` as written: the null point (0, 0), which the
   * viewer also passes when the mouse is off the image, shows the
   * placeholder; a frame of width or height 0 raises, and the read-out is
   * left as it was (None); any other pixel shows its screen and frame
   * position and its clamped percentages.
   */
  function HoverDisplay(point: (int, int), frame: FrameDict): (d: Option<CopiedDisplay>)
    ensures point == (0, 0) ==> d == Some(Placeholder)
    ensures point != (0, 0) ==> (d.None? <==> Get(frame, Width, 1) == 0 || Get(frame, Height, 1) == 0)
    ensures d.Some? && d.value.PointLine? ==>
      d.value.frameX == point.0 && d.value.frameY == point.1 &&
      d.value.screenX == Get(frame, X, 0) + point.0 && d.value.screenY == Get(frame, Y, 0) + point.1 &&
      0.0 <= d.value.xPercent <= 100.0 && 0.0 <= d.value.yPercent <= 100.0
  {
    if point == (0, 0) then Some(Placeholder)
    else HoveredPixel(point, frame)
  }

  /** The read-out for a pixel known to be under the mouse. */
  function HoveredPixel(point: (int, int), frame: FrameDict): (d: Option<CopiedDisplay>)
    ensures d.None? <==> Get(frame, Width, 1) == 0 || Get(frame, Height, 1) == 0
    ensures d.Some? ==> d.value.PointLine?
  {
    var fw, fh := Get(frame, Width, 1), Get(frame, Height, 1);
    if fw == 0 || fh == 0 then None
    else
      Some(PointLine(Get(frame, X, 0) + point.0, Get(frame, Y, 0) + point.1, point.0, point.1,
                     Percent(point.0, fw), Percent(point.1, fh)))
  }

  /** Hovering the top-left pixel of the image shows the same dashes as hovering nothing. */
  lemma HoverAtOriginShowsPlaceholder(frame: FrameDict)
    requires Get(frame, Width, 1) != 0 && Get(frame, Height, 1) != 0
    ensures HoverDisplay((0, 0), frame) == Some(Placeholder)
    ensures HoverDisplay((0, 0), frame) != HoveredPixel((0, 0), frame)
  {
  }

  /**
   * The read-out with "not under the mouse" kept apart from the pixel
   * (0, 0): every hovered pixel, the origin included, shows its position.
   */
  function HoverLine(point: Option<(int, int)>, frame: FrameDict): (d: Option<CopiedDisplay>)
    ensures point.None? ==> d == Some(Placeholder)
    ensures point.Some? && Get(frame, Width, 1) != 0 && Get(frame, Height, 1) != 0 ==>
      d.Some? && d.value.PointLine? && d.value.frameX == point.value.0 && d.value.frameY == point.value.1
  {
    match point
    case None => Some(Placeholder)
    case Some(p) => HoveredPixel(p, frame)
  }

  /** Away from the origin the corrected read-out agrees with the one written. */
  lemma HoverLineAgrees(p: (int, int), frame: FrameDict)
    requires p != (0, 0)
    ensures HoverLine(Some(p), frame) == HoverDisplay(p, frame)
  {
  }

  /**
   * `_get_copied_coordinates_display`: only a two-field copy is shown (a
   * four-field one shows the placeholder), and the two fields must read as
   * integers on a frame with nonzero dimensions.
   */
  function UiCopiedDisplay(lastCopied: string, frame: FrameDict): (d: CopiedDisplay)
    ensures !d.BoxLine?
    ensures d.PointLine? ==> ParsedFields(CopiedFields(lastCopied)) == [Some(d.frameX), Some(d.frameY)]
  {
    var vs := ParsedFields(CopiedFields(lastCopied));
    if |vs| == 2 then ValuesDisplay(vs, frame) else Placeholder
  }

  /** The UI viewer shows what the tracker viewer shows, except that it never shows a box. */
  lemma UiCopiedDisplayAgrees(lastCopied: string, frame: FrameDict)
    ensures var t := CopiedDisplayOf(lastCopied, frame);
      UiCopiedDisplay(lastCopied, frame) == if t.BoxLine? then Placeholder else t
  {
    var vs := ParsedFields(CopiedFields(lastCopied));
    DisplayOfFields(lastCopied, frame, vs);
  }

  /** A copied click shows as the point it copied, on a frame with nonzero dimensions. */
  lemma CopiedClickShown(i: int, j: int, frame: FrameDict)
    requires Get(frame, Width, 1) != 0 && Get(frame, Height, 1) != 0
    ensures UiCopiedDisplay(PointText(i, j), frame) ==
      PointLine(Get(frame, X, 0) + i, Get(frame, Y, 0) + j, i, j, Percent(i, Get(frame, Width, 1)), Percent(j, Get(frame, Height, 1)))
  {
    PointTextFields(i, j);
    PointOfValues(frame, i, j);
  }

  class Viewer {
    var frameArea: FrameDict
    var pixmap: Option<(int, int)>
    var zoom: int
    var scale: real
    var showGrid: bool
    var grid: Option<seq<LineF>>
    var lastCopied: string

    /** The zoom counter is never negative and stays 0 without a photo; a grid is present only while shown over a photo. */
    predicate Valid()
      reads this
    {
      CounterValid() && (grid.Some? ==> showGrid && pixmap.Some?)
    }

    /** The zoom counter alone: never negative, and 0 without a photo. */
    predicate CounterValid()
      reads this
    {
      zoom >= 0 && (pixmap.None? ==> zoom == 0)
    }

    /**
     * A viewer on a frame and a screenshot (None for an empty pixmap):
     * the zoom counter starts at 0 and a photo is fitted to the viewport.
     */
    constructor (frameArea: FrameDict, pixmap: Option<(int, int)>, fitScale: real)
      ensures Valid()
      ensures this.frameArea == frameArea && this.pixmap == pixmap
      ensures zoom == 0 && !showGrid && grid.None? && lastCopied == InitialCopied
      ensures scale == if pixmap.Some? then fitScale else 1.0
    {
      this.frameArea := frameArea;
      this.pixmap := pixmap;
      zoom := 0;
      scale := if pixmap.Some? then fitScale else 1.0;
      showGrid := false;
      grid := None;
      lastCopied := InitialCopied;
    }

    /** `_update_grid`: drop the old grid and draw a new one when it is on, a photo is loaded and the scale is at least 0.5. */
    method UpdateGrid()
      requires CounterValid()
      modifies this
      ensures Valid()
      ensures grid == ShownGrid(showGrid, pixmap, scale)
      ensures frameArea == old(frameArea) && pixmap == old(pixmap) && zoom == old(zoom) && scale == old(scale)
      ensures showGrid == old(showGrid) && lastCopied == old(lastCopied)
    {
      grid := None;
      if showGrid && pixmap.Some? {
        if scale >= 0.5 {
          var lines := CreatePixelGrid(pixmap.value.0, pixmap.value.1, scale);
          grid := Some(lines);
        }
      }
    }

    /**
     * `zoom`: without a photo nothing happens; otherwise the counter moves
     * to max(0, zoom + step) and, when it changed, the view is scaled by
     * 1.25 ** step (or fitted again at 0) and the grid redrawn.
     */
    method Zoom(step: int, fitScale: real)
      requires Valid()
      modifies this
      ensures Valid()
      ensures zoom == if pixmap.Some? then ZoomAfter(old(zoom), step) else old(zoom)
      ensures zoom == old(zoom) ==> scale == old(scale) && grid == old(grid)
      ensures zoom != old(zoom) ==>
        scale == (if zoom > 0 then old(scale) * ZoomFactor(step) else fitScale) &&
        grid == ShownGrid(showGrid, pixmap, scale)
      ensures frameArea == old(frameArea) && pixmap == old(pixmap) && showGrid == old(showGrid) && lastCopied == old(lastCopied)
    {
      if pixmap.None? {
        return;
      }
      var z := MaxInt(0, zoom + step);
      if z != zoom {
        zoom := z;
        if zoom > 0 {
          scale := scale * ZoomFactor(step);
        } else {
          scale := fitScale;
        }
        UpdateGrid();
      }
    }

    /** `wheelEvent`: with a photo, zoom one notch in the direction of a nonzero wheel delta. */
    method Wheel(delta: int, fitScale: real)
      requires Valid()
      modifies this
      ensures Valid()
      ensures zoom == if pixmap.Some? then ZoomAfter(old(zoom), WheelStep(delta)) else old(zoom)
      ensures delta == 0 ==> zoom == old(zoom) && scale == old(scale) && grid == old(grid)
      ensures frameArea == old(frameArea) && pixmap == old(pixmap) && showGrid == old(showGrid) && lastCopied == old(lastCopied)
    {
      if pixmap.Some? {
        if delta != 0 {
          Zoom(WheelStep(delta), fitScale);
        }
      }
    }

    /** A right press toggles the grid and redraws it. */
    method ToggleGrid()
      requires Valid()
      modifies this
      ensures Valid()
      ensures showGrid == !old(showGrid)
      ensures grid == ShownGrid(showGrid, pixmap, scale)
      ensures frameArea == old(frameArea) && pixmap == old(pixmap) && zoom == old(zoom) && scale == old(scale)
      ensures lastCopied == old(lastCopied)
    {
      showGrid := !showGrid;
      UpdateGrid();
    }

    /**
     * A left release: when it moved at most 3 pixels from the press, a
     * photo is loaded and the point lies on the image, the clamped
     * percentages over 100 go to the clipboard and the truncated point
     * becomes the last copied text. Dividing by a zero frame width or
     * height raises inside the copy, which then does nothing.
     */
    method ReleaseClick(press: (int, int), release: (int, int), sceneX: real, sceneY: real) returns (clipboard: Option<(real, real)>)
      requires Valid()
      modifies this
      ensures Valid()
      ensures clipboard.Some? <==>
        pixmap.Some? && ClickCopies(press, release, sceneX, sceneY, pixmap.value.0, pixmap.value.1) &&
        Get(frameArea, Width, 1) != 0 && Get(frameArea, Height, 1) != 0
      ensures clipboard.Some? ==>
        0.0 <= clipboard.value.0 <= 1.0 && 0.0 <= clipboard.value.1 <= 1.0 &&
        clipboard.value == (ClampedPercent(sceneX, Get(frameArea, Width, 1)) / 100.0, ClampedPercent(sceneY, Get(frameArea, Height, 1)) / 100.0)
      ensures lastCopied == if clipboard.Some? then ClickText(sceneX, sceneY) else old(lastCopied)
      ensures frameArea == old(frameArea) && pixmap == old(pixmap) && zoom == old(zoom) && scale == old(scale)
      ensures showGrid == old(showGrid) && grid == old(grid)
    {
      clipboard := None;
      if AbsInt(release.0 - press.0) <= 3 && AbsInt(release.1 - press.1) <= 3 && pixmap.Some? {
        if 0.0 <= sceneX <= pixmap.value.0 as real && 0.0 <= sceneY <= pixmap.value.1 as real {
          var fw := Get(frameArea, Width, 1);
          var fh := Get(frameArea, Height, 1);
          if fw != 0 && fh != 0 {
            var xp := ClampedPercent(sceneX, fw);
            var yp := ClampedPercent(sceneY, fh);
            clipboard := Some((xp / 100.0, yp / 100.0));
            lastCopied := ClickText(sceneX, sceneY);
          }
        }
      }
    }
  }

  /** On a frame of positive size, a copied point inside it scales back from its clipboard fraction. */
  lemma ClipboardFractionScalesBack(c: real, dim: int)
    requires 0 < dim && 0.0 <= c <= dim as real
    ensures (ClampedPercent(c, dim) / 100.0) * dim as real == c
  {
    var p := ClampedPercent(c, dim);
    assert p * dim as real == c * 100.0;
    assert (p / 100.0) * dim as real == (p * dim as real) / 100.0;
  }
}
