/**
 * The screenshot GUI's pixel grid: a line spacing chosen from the zoom
 * level so that the grid stays readable, and vertical and horizontal
 * lines at every multiple of that spacing across the image. The Qt item
 * group becomes the sequence of lines it would hold, verticals first.
 */
module PixelGrid {
  import opened Wrappers
  import opened Frames
  import opened Rects
  import opened Ranges

  /** `base_steps`: kept for compatibility, one image pixel per step whatever the frame. */
  function BaseSteps(frame: FrameDict): (steps: (real, real))
    ensures steps == (1.0, 1.0)
  {
    (1.0, 1.0)
  }

  /** The spacing, in image pixels, for a positive zoom: 1 at 16x, 2 at 8x, 4 at 4x, 8 at 2x, else 16. */
  function GridSpacing(scale: real): (s: int)
    ensures s == 1 || s == 2 || s == 4 || s == 8 || s == 16
  {
    if scale >= 16.0 then 1
    else if scale >= 8.0 then 2
    else if scale >= 4.0 then 4
    else if scale >= 2.0 then 8
    else 16
  }

  /** Zooming in never widens the spacing. */
  lemma SpacingNonIncreasing(a: real, b: real)
    requires a <= b
    ensures GridSpacing(b) <= GridSpacing(a)
  {
  }

  /**
   * From 1x up to 16x a grid cell is between 16 and 32 screen pixels wide,
   * and at 16x and beyond it is at least 16: the grid never gets denser
   * than one line per 16 screen pixels once the image is shown at 1x or more.
   */
  lemma ScreenSpacingBand(scale: real)
    requires scale >= 1.0
    ensures GridSpacing(scale) as real * scale >= 16.0
    ensures scale < 16.0 ==> GridSpacing(scale) as real * scale < 32.0
  {
  }

  /** The positions 0, s, 2s, ... up to and including `extent`. */
  function Positions(extent: int, s: int): (xs: seq<int>)
    requires s > 0
    ensures forall i :: 0 <= i < |xs| ==> xs[i] == i * s && 0 <= xs[i] <= extent
  {
    Range(0, extent + 1, s)
  }

  /** There are `extent / s + 1` positions for a non-negative extent, and none for a negative one. */
  lemma PositionsCount(extent: int, s: int)
    requires s > 0
    ensures |Positions(extent, s)| == if extent < 0 then 0 else extent / s + 1
  {
    var n := |Positions(extent, s)|;
    if extent < 0 {
      RangeLength(0, extent + 1, s, 0);
    } else {
      var q := extent / s;
      assert q * s <= extent < (q + 1) * s by {
        assert extent == q * s + extent % s;
      }
      RangeLength(0, extent + 1, s, q);
      RangeLength(0, extent + 1, s, q + 1);
    }
  }

  /** A vertical line at `x` from the top to the bottom of the image. */
  function Column(x: int, height: int): LineF
  {
    LineF(x as real, 0.0, x as real, height as real)
  }

  /** A horizontal line at `y` from the left to the right of the image. */
  function Row(y: int, width: int): LineF
  {
    LineF(0.0, y as real, width as real, y as real)
  }

  /** A column at each position across the width. */
  function Columns(width: int, height: int, s: int): (lines: seq<LineF>)
    requires s > 0
  {
    seq(|Positions(width, s)|, i requires 0 <= i < |Positions(width, s)| => Column(Positions(width, s)[i], height))
  }

  /** One full-height vertical line at each x = i * s within [0, width]. */
  lemma ColumnsShape(width: int, height: int, s: int)
    requires s > 0
    ensures var lines := Columns(width, height, s);
      |lines| == |Positions(width, s)| &&
      forall i :: 0 <= i < |lines| ==>
        lines[i].x1 == lines[i].x2 == (i * s) as real && 0.0 <= lines[i].x1 <= width as real &&
        lines[i].y1 == 0.0 && lines[i].y2 == height as real
  {
  }

  /** A row at each position down the height. */
  function Rows(width: int, height: int, s: int): (lines: seq<LineF>)
    requires s > 0
  {
    seq(|Positions(height, s)|, j requires 0 <= j < |Positions(height, s)| => Row(Positions(height, s)[j], width))
  }

  /** One full-width horizontal line at each y = j * s within [0, height]. */
  lemma RowsShape(width: int, height: int, s: int)
    requires s > 0
    ensures var lines := Rows(width, height, s);
      |lines| == |Positions(height, s)| &&
      forall j :: 0 <= j < |lines| ==>
        lines[j].y1 == lines[j].y2 == (j * s) as real && 0.0 <= lines[j].y1 <= height as real &&
        lines[j].x1 == 0.0 && lines[j].x2 == width as real
  {
  }

  /** The lines of the grid: the columns, then the rows. */
  function GridLines(width: int, height: int, s: int): (lines: seq<LineF>)
    requires s > 0
  {
    Columns(width, height, s) + Rows(width, height, s)
  }

  /**
   * The first loop of the grid builders: a column at x = 0, s, 2s, ...
   * while x <= width, appended after `lines0`.
   */
  method AppendColumns(lines0: seq<LineF>, width: int, height: int, s: int) returns (lines: seq<LineF>)
    requires s > 0
    ensures lines == lines0 + Columns(width, height, s)
  {
    ghost var xs := Positions(width, s);
    ghost var columns := Columns(width, height, s);
    lines := lines0;
    var x := 0;
    ghost var k := 0;
    RangeLength(0, width + 1, s, 0);
    while x <= width
      invariant 0 <= k <= |xs| && (k < |xs| ==> x == xs[k]) && (k == |xs| ==> x > width)
      invariant lines == lines0 + columns[..k]
      decreases width - x
    {
      RangeStep(0, width + 1, s, k);
      assert columns[..k + 1] == columns[..k] + [Column(x, height)];
      lines := lines + [Column(x, height)];
      x, k := x + s, k + 1;
    }
    assert columns[..k] == columns;
  }

  /** The second loop: a row at y = 0, s, 2s, ... while y <= height, appended after `lines0`. */
  method AppendRows(lines0: seq<LineF>, width: int, height: int, s: int) returns (lines: seq<LineF>)
    requires s > 0
    ensures lines == lines0 + Rows(width, height, s)
  {
    ghost var ys := Positions(height, s);
    ghost var rows := Rows(width, height, s);
    lines := lines0;
    var y := 0;
    ghost var m := 0;
    RangeLength(0, height + 1, s, 0);
    while y <= height
      invariant 0 <= m <= |ys| && (m < |ys| ==> y == ys[m]) && (m == |ys| ==> y > height)
      invariant lines == lines0 + rows[..m]
      decreases height - y
    {
      RangeStep(0, height + 1, s, m);
      assert rows[..m + 1] == rows[..m] + [Row(y, width)];
      lines := lines + [Row(y, width)];
      y, m := y + s, m + 1;
    }
    assert rows[..m] == rows;
  }

  /**
   * `create_pixel_grid`: None for a non-positive zoom; otherwise the
   * columns at x = 0, s, ... while x <= width, then the rows likewise.
   */
  method CreatePixelGrid(width: int, height: int, frame: FrameDict, scale: real) returns (g: Option<seq<LineF>>)
    ensures scale <= 0.0 <==> g.None?
    ensures g.Some? ==> g.value == GridLines(width, height, GridSpacing(scale))
  {
    if scale <= 0.0 {
      return None;
    }
    var spacing := GridSpacing(scale);
    var lines := AppendColumns([], width, height, spacing);
    lines := AppendRows(lines, width, height, spacing);
    return Some(lines);
  }
}
