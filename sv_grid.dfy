/**
 * The tracker viewer's pixel-art grid: the frame is divided into a
 * logical 192 x 128 grid of cells, and every first, second, fifth or
 * tenth grid line is drawn depending on how many screen pixels a cell
 * covers at the current zoom. Lines falling outside the image are
 * dropped. The Qt item group becomes the sequence of lines it would hold.
 */
module SvGrid {
  import opened Numerics
  import opened Frames
  import opened Rects
  import opened Ranges

  const BaseW: int := 1080
  const BaseH: int := 720
  const PixelArtGridWidth: int := 192
  const PixelArtGridHeight: int := 128

  /**
   * `base_steps`: the size of one logical cell, the frame width over 192
   * and the frame height over 128, a missing or non-positive dimension
   * counting as 1. Both steps are positive, so the grid is always built.
   */
  function BaseSteps(frame: FrameDict): (steps: (real, real))
    ensures steps.0 > 0.0 && steps.1 > 0.0
    ensures steps.0 * PixelArtGridWidth as real == MaxInt(1, Get(frame, Width, 1)) as real
    ensures steps.1 * PixelArtGridHeight as real == MaxInt(1, Get(frame, Height, 1)) as real
  {
    var fw := MaxInt(1, Get(frame, Width, 1)) as real;
    var fh := MaxInt(1, Get(frame, Height, 1)) as real;
    (fw / PixelArtGridWidth as real, fh / PixelArtGridHeight as real)
  }

  /** `stride`: draw every line when a cell covers 8 screen pixels, every 2nd at 4, every 5th at 2, else every 10th. */
  function Stride(px: real): (n: int)
    ensures n == 1 || n == 2 || n == 5 || n == 10
  {
    if px >= 8.0 then 1
    else if px >= 4.0 then 2
    else if px >= 2.0 then 5
    else 10
  }

  /**
   * A larger cell never gets a larger stride, and the drawn lines are at
   * least 8 screen pixels apart once a cell covers 0.8 pixels.
   */
  lemma StrideNonIncreasing(a: real, b: real)
    requires a <= b
    ensures Stride(b) <= Stride(a)
    ensures a >= 0.8 ==> Stride(a) as real * a >= 8.0
  {
  }

  /** The zoom factor as the grid uses it: never below 0.0001. */
  function EffectiveScale(scale: real): (s: real)
    ensures s >= 0.0001 && s >= scale
    ensures scale >= 0.0001 ==> s == scale
  {
    MaxReal(0.0001, scale)
  }

  /**
   * `range(0, last + 1, stride)`: the indices 0, stride, 2 * stride, ...
   * up to and including `last`.
   */
  function StrideIndices(last: nat, stride: int): (idx: seq<int>)
    requires stride > 0
    ensures |idx| == last / stride + 1
  {
    seq(last / stride + 1, i => i * stride)
  }

  /** The indices are exactly Python's `range(0, last + 1, stride)`. */
  lemma StrideIndicesIsRange(last: nat, stride: int)
    requires stride > 0
    ensures StrideIndices(last, stride) == Range(0, last + 1, stride)
  {
    var idx, r := StrideIndices(last, stride), Range(0, last + 1, stride);
    var q := last / stride;
    assert q * stride <= last < (q + 1) * stride by {
      assert last == q * stride + last % stride;
    }
    RangeLength(0, last + 1, stride, q);
    RangeLength(0, last + 1, stride, q + 1);
    assert |idx| == |r|;
    forall i | 0 <= i < |idx|
      ensures idx[i] == r[i]
    {
    }
  }

  /** The screen pixels one logical cell of size `step` covers at the given zoom. */
  function CellPixels(step: real, scale: real): real
  {
    step * EffectiveScale(scale)
  }

  /** The candidate positions `idx[i] * step` of a line sequence. */
  function Scaled(idx: seq<int>, step: real): (xs: seq<real>)
    ensures |xs| == |idx|
    ensures forall i :: 0 <= i < |idx| ==> xs[i] == idx[i] as real * step
  {
    seq(|idx|, i requires 0 <= i < |idx| => idx[i] as real * step)
  }

  /** The vertical lines at the candidate positions `xs` that lie within [0, width], in order. */
  function KeptColumns(xs: seq<real>, width: int, height: int): (lines: seq<LineF>)
    ensures |lines| <= |xs|
  {
    if |xs| == 0 then []
    else
      var x := xs[|xs| - 1];
      KeptColumns(xs[..|xs| - 1], width, height) +
      (if 0.0 <= x <= width as real then [LineF(x, 0.0, x, height as real)] else [])
  }

  /** The horizontal lines at the candidate positions `ys` that lie within [0, height], in order. */
  function KeptRows(ys: seq<real>, width: int, height: int): (lines: seq<LineF>)
    ensures |lines| <= |ys|
  {
    if |ys| == 0 then []
    else
      var y := ys[|ys| - 1];
      KeptRows(ys[..|ys| - 1], width, height) +
      (if 0.0 <= y <= height as real then [LineF(0.0, y, width as real, y)] else [])
  }

  /** Every kept column is a full-height vertical line inside [0, width]. */
  lemma {:induction false} KeptColumnsSound(xs: seq<real>, width: int, height: int)
    ensures forall l :: l in KeptColumns(xs, width, height) ==>
      l.x1 == l.x2 && 0.0 <= l.x1 <= width as real && l.y1 == 0.0 && l.y2 == height as real
  {
    if |xs| > 0 {
      KeptColumnsSound(xs[..|xs| - 1], width, height);
    }
  }

  /** Every kept row is a full-width horizontal line inside [0, height]. */
  lemma {:induction false} KeptRowsSound(ys: seq<real>, width: int, height: int)
    ensures forall l :: l in KeptRows(ys, width, height) ==>
      l.y1 == l.y2 && 0.0 <= l.y1 <= height as real && l.x1 == 0.0 && l.x2 == width as real
  {
    if |ys| > 0 {
      KeptRowsSound(ys[..|ys| - 1], width, height);
    }
  }

  /** Every candidate column inside the image is kept. */
  lemma {:induction false} KeptColumnsComplete(xs: seq<real>, width: int, height: int, k: int)
    requires 0 <= k < |xs| && 0.0 <= xs[k] <= width as real
    ensures LineF(xs[k], 0.0, xs[k], height as real) in KeptColumns(xs, width, height)
  {
    if k < |xs| - 1 {
      assert xs[..|xs| - 1][k] == xs[k];
      KeptColumnsComplete(xs[..|xs| - 1], width, height, k);
    }
  }

  /** Every candidate row inside the image is kept. */
  lemma {:induction false} KeptRowsComplete(ys: seq<real>, width: int, height: int, k: int)
    requires 0 <= k < |ys| && 0.0 <= ys[k] <= height as real
    ensures LineF(0.0, ys[k], width as real, ys[k]) in KeptRows(ys, width, height)
  {
    if k < |ys| - 1 {
      assert ys[..|ys| - 1][k] == ys[k];
      KeptRowsComplete(ys[..|ys| - 1], width, height, k);
    }
  }

  /** The column loop of `create_pixel_grid`: a line at `i * step` for each index `i` whose position is inside [0, width]. */
  method AddColumns(columns: seq<int>, step: real, width: int, height: int) returns (cols: seq<LineF>)
    ensures cols == KeptColumns(Scaled(columns, step), width, height)
  {
    ghost var xs := Scaled(columns, step);
    cols := [];
    for k := 0 to |columns|
      invariant cols == KeptColumns(xs[..k], width, height)
    {
      var x := columns[k] as real * step;
      assert xs[..k + 1][..k] == xs[..k];
      if 0.0 <= x <= width as real {
        cols := cols + [LineF(x, 0.0, x, height as real)];
      }
    }
    assert xs[..|columns|] == xs;
  }

  /** The row loop of `create_pixel_grid`: a line at `j * step` for each index `j` whose position is inside [0, height]. */
  method AddRows(rows: seq<int>, step: real, width: int, height: int) returns (kept: seq<LineF>)
    ensures kept == KeptRows(Scaled(rows, step), width, height)
  {
    ghost var ys := Scaled(rows, step);
    kept := [];
    for k := 0 to |rows|
      invariant kept == KeptRows(ys[..k], width, height)
    {
      var y := rows[k] as real * step;
      assert ys[..k + 1][..k] == ys[..k];
      if 0.0 <= y <= height as real {
        kept := kept + [LineF(0.0, y, width as real, y)];
      }
    }
    assert ys[..|rows|] == ys;
  }

  /**
   * `create_pixel_grid`: walk the column indices 0, stride, ... up to 192
   * and the row indices up to 128, keeping the lines inside the image. The
   * `step <= 0` guard of the source never fires, so a grid always comes back.
   */
  method CreatePixelGrid(width: int, height: int, frame: FrameDict, scale: real) returns (lines: seq<LineF>)
    ensures lines ==
      KeptColumns(Scaled(StrideIndices(PixelArtGridWidth, Stride(CellPixels(BaseSteps(frame).0, scale))), BaseSteps(frame).0), width, height) +
      KeptRows(Scaled(StrideIndices(PixelArtGridHeight, Stride(CellPixels(BaseSteps(frame).1, scale))), BaseSteps(frame).1), width, height)
  {
    var stepX, stepY := BaseSteps(frame).0, BaseSteps(frame).1;
    var s := EffectiveScale(scale);
    var pxX := stepX * s;
    var pxY := stepY * s;
    assert pxX == CellPixels(stepX, scale) && pxY == CellPixels(stepY, scale);
    var colStride := Stride(pxX);
    var rowStride := Stride(pxY);
    var columnIndices := StrideIndices(PixelArtGridWidth, colStride);
    var rowIndices := StrideIndices(PixelArtGridHeight, rowStride);
    var cols := AddColumns(columnIndices, stepX, width, height);
    var rows := AddRows(rowIndices, stepY, width, height);
    lines := cols + rows;
  }

  /**
   * For an image the size of the frame, the right and bottom borders of
   * the image get a line whenever the stride divides 192 (for columns)
   * or 128 (for rows): the last index drawn is then the last grid line.
   */
  lemma EdgeLinesWhenStrideDivides(w: int, h: int, stride: int)
    requires w >= 1 && h >= 1 && stride > 0
    ensures var f := MakeFrame(0, 0, w, h);
      PixelArtGridWidth % stride == 0 ==>
        LineF(w as real, 0.0, w as real, h as real) in KeptColumns(Scaled(StrideIndices(PixelArtGridWidth, stride), BaseSteps(f).0), w, h)
    ensures var f := MakeFrame(0, 0, w, h);
      PixelArtGridHeight % stride == 0 ==>
        LineF(0.0, h as real, w as real, h as real) in KeptRows(Scaled(StrideIndices(PixelArtGridHeight, stride), BaseSteps(f).1), w, h)
  {
    var f := MakeFrame(0, 0, w, h);
    if PixelArtGridWidth % stride == 0 {
      var k := PixelArtGridWidth / stride;
      assert k * stride == PixelArtGridWidth;
      var xs := Scaled(StrideIndices(PixelArtGridWidth, stride), BaseSteps(f).0);
      assert xs[k] == w as real;
      KeptColumnsComplete(xs, w, h, k);
    }
    if PixelArtGridHeight % stride == 0 {
      var k := PixelArtGridHeight / stride;
      assert k * stride == PixelArtGridHeight;
      var ys := Scaled(StrideIndices(PixelArtGridHeight, stride), BaseSteps(f).1);
      assert ys[k] == h as real;
      KeptRowsComplete(ys, w, h, k);
    }
  }
}
