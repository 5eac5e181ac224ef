/**
 * The copy-mode switch of the screenshot GUI: three modes visited in a
 * cycle, and the numbers each mode puts on the clipboard for a point or
 * a rectangle given in frame-relative coordinates. The clipboard itself
 * and the decimal rendering of the numbers are not modelled; a copy
 * yields the list of numbers it would print.
 */
module CopyModes {
  import opened Numerics
  import opened Frames

  datatype Mode = Percentage | FrameCoords | ScreenCoords

  /** `CopyModeManager.MODES`, in cycle order. */
  const Modes: seq<Mode> := [Percentage, FrameCoords, ScreenCoords]

  /** The label each mode shows. */
  function ModeName(m: Mode): string
  {
    match m
    case Percentage => "PERCENTAGE"
    case FrameCoords => "FRAME COORDS"
    case ScreenCoords => "SCREEN COORDS"
  }

  /** The numbers a copy puts on the clipboard: fractions (printed with six decimals) or integers. */
  datatype CopyText = Fractions(fractions: seq<real>) | Integers(integers: seq<int>)

  /** The index after `i` in the cycle. */
  function NextIndex(i: int): (j: int)
    requires 0 <= i < |Modes|
    ensures 0 <= j < |Modes|
    ensures j == if i == |Modes| - 1 then 0 else i + 1
  {
    (i + 1) % |Modes|
  }

  /** Three steps of the cycle come back to where they started. */
  lemma CycleHasPeriodThree(i: int)
    requires 0 <= i < |Modes|
    ensures NextIndex(NextIndex(NextIndex(i))) == i
    ensures NextIndex(i) != i && NextIndex(NextIndex(i)) != i
  {
  }

  class CopyModeManager {
    var index: int

    predicate Valid()
      reads this
    {
      0 <= index < |Modes|
    }

    /** A new manager starts in PERCENTAGE. */
    constructor ()
      ensures Valid() && index == 0 && Mode() == Percentage
    {
      index := 0;
    }

    /** The `mode` property. */
    function Mode(): (m: Mode)
      reads this
      requires Valid()
      ensures m == Modes[index]
    {
      Modes[index]
    }

    /** `cycle`: advance to the next mode and return its label. */
    method Cycle() returns (name: string)
      requires Valid()
      modifies this
      ensures Valid()
      ensures index == NextIndex(old(index))
      ensures name == ModeName(Mode())
    {
      index := (index + 1) % |Modes|;
      name := ModeName(Modes[index]);
    }
  }

  /**
   * `copy_point`: PERCENTAGE divides by the frame size (at least 1, a
   * missing key reading as 1), FRAME COORDS truncates, SCREEN COORDS adds
   * the frame origin to the truncated values.
   */
  function CopyPoint(m: Mode, frameX: real, frameY: real, frame: FrameDict): (t: CopyText)
    ensures m == Percentage <==> t.Fractions?
    ensures m == Percentage ==> (|t.fractions| == 2 &&
      t.fractions[0] * MaxInt(1, Get(frame, Width, 1)) as real == frameX &&
      t.fractions[1] * MaxInt(1, Get(frame, Height, 1)) as real == frameY)
    ensures m == FrameCoords ==> t.integers == [Trunc(frameX), Trunc(frameY)]
    ensures m == ScreenCoords ==> (|t.integers| == 2 &&
      t.integers[0] - Get(frame, X, 0) == Trunc(frameX) && t.integers[1] - Get(frame, Y, 0) == Trunc(frameY))
  {
    match m
    case Percentage =>
      var fw := MaxInt(1, Get(frame, Width, 1));
      var fh := MaxInt(1, Get(frame, Height, 1));
      Fractions([frameX / fw as real, frameY / fh as real])
    case FrameCoords =>
      Integers([Trunc(frameX), Trunc(frameY)])
    case ScreenCoords =>
      var fx := Get(frame, X, 0);
      var fy := Get(frame, Y, 0);
      Integers([fx + Trunc(frameX), fy + Trunc(frameY)])
  }

  /** `copy_rect`: the same per-mode rule applied to x1, y1, x2, y2 in that order. */
  function CopyRect(m: Mode, rect: (real, real, real, real), frame: FrameDict): (t: CopyText)
    ensures m == Percentage <==> t.Fractions?
  {
    var (x1, y1, x2, y2) := rect;
    match m
    case Percentage =>
      var fw := MaxInt(1, Get(frame, Width, 1));
      var fh := MaxInt(1, Get(frame, Height, 1));
      Fractions([x1 / fw as real, y1 / fh as real, x2 / fw as real, y2 / fh as real])
    case FrameCoords =>
      Integers([Trunc(x1), Trunc(y1), Trunc(x2), Trunc(y2)])
    case ScreenCoords =>
      var fx := Get(frame, X, 0);
      var fy := Get(frame, Y, 0);
      Integers([fx + Trunc(x1), fy + Trunc(y1), fx + Trunc(x2), fy + Trunc(y2)])
  }

  /** A rectangle copies as its top-left point followed by its bottom-right point, in every mode. */
  lemma CopyRectIsTwoPoints(m: Mode, x1: real, y1: real, x2: real, y2: real, frame: FrameDict)
    ensures var r, p, q := CopyRect(m, (x1, y1, x2, y2), frame), CopyPoint(m, x1, y1, frame), CopyPoint(m, x2, y2, frame);
      if m == Percentage then r.fractions == p.fractions + q.fractions
      else r.integers == p.integers + q.integers
  {
  }

  /** SCREEN COORDS is FRAME COORDS shifted by the frame origin, number by number. */
  lemma ScreenIsFramePlusOrigin(x: real, y: real, frame: FrameDict)
    ensures var s, f := CopyPoint(ScreenCoords, x, y, frame), CopyPoint(FrameCoords, x, y, frame);
      s.integers == [f.integers[0] + Get(frame, X, 0), f.integers[1] + Get(frame, Y, 0)]
  {
  }

  /** An empty frame copies percentages of a 1x1 frame and screen coordinates equal to frame coordinates. */
  lemma EmptyFrameCopies(x: real, y: real)
    ensures CopyPoint(Percentage, x, y, NoFrame) == Fractions([x, y])
    ensures CopyPoint(ScreenCoords, x, y, NoFrame) == CopyPoint(FrameCoords, x, y, NoFrame)
  {
  }
}
