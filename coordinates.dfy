/**
 * The coordinate system manager: it holds the current frame area and
 * converts between screen, frame-relative and percentage coordinates. It
 * also fits the 3:2 frame inside a window's client rectangle.
 *
 * Only `UpdateFrameArea` changes state; every other operation reads the
 * frame area and its arguments and is a function.
 */
module Coordinates {
  import opened Numerics
  import opened Frames

  /** `TARGET_ASPECT_RATIO = 3.0 / 2.0`. */
  const TargetAspectRatio: real := 3.0 / 2.0

  /** One axis of `frame_to_percentage`: `100 * f / max(1, dim)`. */
  function ToPercent(f: int, dim: int): real
  {
    100.0 * f as real / MaxInt(1, dim) as real
  }

  /** One axis of `percentage_to_frame`: `int(p * dim / 100)`. */
  function FromPercent(p: real, dim: int): int
  {
    Trunc(p * dim as real / 100.0)
  }

  /** What `auto_detect_coordinate_type` returns. */
  datatype CoordinateType = DecimalPercent | IntegerPercent | ScreenType | FrameType

  class CoordinateSystem {
    var frameArea: FrameDict

    /** A new instance has no frame. */
    constructor ()
      ensures frameArea == NoFrame
    {
      frameArea := NoFrame;
    }

    /** The frame is replaced wholesale, never merged. */
    method UpdateFrameArea(f: FrameDict)
      modifies this
      ensures frameArea == f
    {
      frameArea := f;
    }

    /** Inclusive bounds test against the frame; missing keys read as 0. */
    predicate IsInsideFrame(sx: int, sy: int)
      reads this
      ensures IsInsideFrame(sx, sy) ==> IsSet(frameArea)
      ensures IsInsideFrame(sx, sy) ==> Get(frameArea, Width, 0) >= 0 && Get(frameArea, Height, 0) >= 0
    {
      IsSet(frameArea) &&
      Get(frameArea, X, 0) <= sx <= Get(frameArea, X, 0) + Get(frameArea, Width, 0) &&
      Get(frameArea, Y, 0) <= sy <= Get(frameArea, Y, 0) + Get(frameArea, Height, 0)
    }

    /** Subtract the frame origin; the identity with no frame. */
    function ScreenToFrameCoords(sx: int, sy: int): (r: (int, int))
      reads this
      ensures !IsSet(frameArea) ==> r == (sx, sy)
      ensures IsSet(frameArea) ==> sx == r.0 + Get(frameArea, X, 0) && sy == r.1 + Get(frameArea, Y, 0)
    {
      if !IsSet(frameArea) then (sx, sy)
      else (sx - Get(frameArea, X, 0), sy - Get(frameArea, Y, 0))
    }

    /** Add the frame origin; the identity with no frame. */
    function FrameToScreenCoords(fx: int, fy: int): (r: (int, int))
      reads this
      ensures !IsSet(frameArea) ==> r == (fx, fy)
      ensures IsSet(frameArea) ==> r.0 - Get(frameArea, X, 0) == fx && r.1 - Get(frameArea, Y, 0) == fy
    {
      if !IsSet(frameArea) then (fx, fy)
      else (fx + Get(frameArea, X, 0), fy + Get(frameArea, Y, 0))
    }

    /** `100 * f / max(1, dim)`; (0, 0) with no frame. A missing dimension reads as 1. */
    function FrameToPercentage(fx: int, fy: int): (r: (real, real))
      reads this
      ensures !IsSet(frameArea) ==> r == (0.0, 0.0)
      ensures IsSet(frameArea) ==>
        r.0 * MaxInt(1, Get(frameArea, Width, 1)) as real == 100.0 * fx as real &&
        r.1 * MaxInt(1, Get(frameArea, Height, 1)) as real == 100.0 * fy as real
    {
      if !IsSet(frameArea) then (0.0, 0.0)
      else (ToPercent(fx, Get(frameArea, Width, 1)), ToPercent(fy, Get(frameArea, Height, 1)))
    }

    /** `int(p * dim / 100)`: scaled and then truncated toward zero; (0, 0) with no frame. */
    function PercentageToFrame(xp: real, yp: real): (r: (int, int))
      reads this
      ensures !IsSet(frameArea) ==> r == (0, 0)
      ensures IsSet(frameArea) ==>
        r.0 == Trunc(xp * Get(frameArea, Width, 1) as real / 100.0) &&
        r.1 == Trunc(yp * Get(frameArea, Height, 1) as real / 100.0)
    {
      if !IsSet(frameArea) then (0, 0)
      else (FromPercent(xp, Get(frameArea, Width, 1)), FromPercent(yp, Get(frameArea, Height, 1)))
    }

    /**
     * Classify a raw pair by magnitude, in a fixed order: decimal
     * percentages, then integer percentages, then screen, then frame.
     */
    static function AutoDetectCoordinateType(x: real, y: real): (t: CoordinateType)
      ensures t == DecimalPercent <==> 0.0 <= x <= 1.0 && 0.0 <= y <= 1.0
      ensures t == IntegerPercent <==>
        0.0 <= x <= 100.0 && 0.0 <= y <= 100.0 && (x > 1.0 || y > 1.0)
      ensures t == ScreenType <==>
        !(0.0 <= x <= 100.0 && 0.0 <= y <= 100.0) && (x >= 1000.0 || y >= 1000.0)
    {
      if 0.0 <= x <= 1.0 && 0.0 <= y <= 1.0 then DecimalPercent
      else if 0.0 <= x <= 100.0 && 0.0 <= y <= 100.0 && (x > 1.0 || y > 1.0) then IntegerPercent
      else if x >= 1000.0 || y >= 1000.0 then ScreenType
      else FrameType
    }

    /** Classify, then dispatch to the matching conversion. */
    function ConvertToFrameCoords(x: real, y: real): (r: (real, real))
      reads this
      ensures AutoDetectCoordinateType(x, y) == FrameType ==> r == (x, y)
      ensures AutoDetectCoordinateType(x, y) == ScreenType && IsSet(frameArea) ==>
        r == ((Trunc(x) - Get(frameArea, X, 0)) as real, (Trunc(y) - Get(frameArea, Y, 0)) as real)
      ensures AutoDetectCoordinateType(x, y) == ScreenType && !IsSet(frameArea) ==>
        r == (Trunc(x) as real, Trunc(y) as real)
      ensures AutoDetectCoordinateType(x, y) == DecimalPercent && IsSet(frameArea) ==>
        r == (Trunc(x * Get(frameArea, Width, 1) as real) as real,
              Trunc(y * Get(frameArea, Height, 1) as real) as real)
      ensures AutoDetectCoordinateType(x, y) == IntegerPercent && IsSet(frameArea) ==>
        r == (Trunc(x * Get(frameArea, Width, 1) as real / 100.0) as real,
              Trunc(y * Get(frameArea, Height, 1) as real / 100.0) as real)
      ensures AutoDetectCoordinateType(x, y) in {DecimalPercent, IntegerPercent} && !IsSet(frameArea) ==>
        r == (0.0, 0.0)
    {
      match AutoDetectCoordinateType(x, y)
      case DecimalPercent =>
        var p := PercentageToFrame(x * 100.0, y * 100.0);
        assert x * 100.0 * Get(frameArea, Width, 1) as real / 100.0 == x * Get(frameArea, Width, 1) as real;
        assert y * 100.0 * Get(frameArea, Height, 1) as real / 100.0 == y * Get(frameArea, Height, 1) as real;
        (p.0 as real, p.1 as real)
      case IntegerPercent =>
        var p := PercentageToFrame(x, y);
        (p.0 as real, p.1 as real)
      case ScreenType =>
        var s := ScreenToFrameCoords(Trunc(x), Trunc(y));
        (s.0 as real, s.1 as real)
      case FrameType => (x, y)
    }

    /**
     * Fit a 3:2 rectangle inside the client rectangle. When the client is
     * wider than 3:2 the frame takes the full height and is centred
     * horizontally; otherwise (including `ch == 0`, whose ratio defaults
     * to 1) it takes the full width and is centred vertically. Widths and
     * heights are truncated with `int()`; the centring offset uses `//`.
     */
    static function CalculateFrameArea(cx: int, cy: int, cw: int, ch: int): (f: FrameDict)
      ensures f.x.Some? && f.y.Some? && f.width.Some? && f.height.Some?
      ensures ch > 0 && 2 * cw > 3 * ch ==>
        f.height.value == ch && f.width.value == (3 * ch) / 2 && f.y.value == cy && f.x.value == cx + (cw - (3 * ch) / 2) / 2
      ensures ch > 0 && 2 * cw <= 3 * ch && cw >= 0 ==>
        f.width.value == cw && f.height.value == (2 * cw) / 3 && f.x.value == cx && f.y.value == cy + (ch - (2 * cw) / 3) / 2
      ensures ch == 0 && cw >= 0 ==>
        f.width.value == cw && f.height.value == (2 * cw) / 3 && f.x.value == cx && f.y.value == cy + (ch - (2 * cw) / 3) / 2
    {
      var wider := ch != 0 && (cw as real) / (ch as real) > TargetAspectRatio;
      assert ch > 0 ==> (wider <==> 2 * cw > 3 * ch) by {
        if ch > 0 { RatioAboveTarget(cw, ch); }
      }
      assert ch >= 0 ==> Trunc((3 * ch) as real / 2 as real) == (3 * ch) / 2 by {
        if ch >= 0 { TruncOfRatio(3 * ch, 2); }
      }
      assert cw >= 0 ==> Trunc((2 * cw) as real / 3 as real) == (2 * cw) / 3 by {
        if cw >= 0 { TruncOfRatio(2 * cw, 3); }
      }
      assert ch as real * TargetAspectRatio == (3 * ch) as real / 2 as real;
      assert cw as real / TargetAspectRatio == (2 * cw) as real / 3 as real;
      if wider then
        var frameHeight := ch;
        var frameWidth := Trunc(frameHeight as real * TargetAspectRatio);
        MakeFrame(cx + (cw - frameWidth) / 2, cy, frameWidth, frameHeight)
      else
        var frameWidth := cw;
        var frameHeight := Trunc(frameWidth as real / TargetAspectRatio);
        MakeFrame(cx, cy + (ch - frameHeight) / 2, frameWidth, frameHeight)
    }

    /** Saturate to [0, width] x [0, height]; a passthrough with no frame. */
    function ClampToFrameBounds(fx: int, fy: int): (r: (int, int))
      reads this
      ensures !IsSet(frameArea) ==> r == (fx, fy)
      ensures IsSet(frameArea) ==> 0 <= r.0 && 0 <= r.1
      ensures IsSet(frameArea) && Get(frameArea, Width, 1) >= 0 ==> r.0 <= Get(frameArea, Width, 1)
      ensures IsSet(frameArea) && Get(frameArea, Height, 1) >= 0 ==> r.1 <= Get(frameArea, Height, 1)
      ensures IsSet(frameArea) && 0 <= fx <= Get(frameArea, Width, 1) ==> r.0 == fx
      ensures IsSet(frameArea) && 0 <= fy <= Get(frameArea, Height, 1) ==> r.1 == fy
    {
      if !IsSet(frameArea) then (fx, fy)
      else
        (MaxInt(0, MinInt(fx, Get(frameArea, Width, 1))),
         MaxInt(0, MinInt(fy, Get(frameArea, Height, 1))))
    }

    /** Saturate both percentages to [0, 100]. */
    static function ClampPercentageBounds(xp: real, yp: real): (r: (real, real))
      ensures 0.0 <= r.0 <= 100.0 && 0.0 <= r.1 <= 100.0
      ensures 0.0 <= xp <= 100.0 ==> r.0 == xp
      ensures 0.0 <= yp <= 100.0 ==> r.1 == yp
    {
      (ClampReal(0.0, 100.0, xp), ClampReal(0.0, 100.0, yp))
    }
  }

  /** For a positive height, "wider than 3:2" as the source computes it (a float ratio) is `2 * cw > 3 * ch`. */
  lemma RatioAboveTarget(cw: int, ch: int)
    requires ch > 0
    ensures (cw as real) / (ch as real) > TargetAspectRatio <==> 2 * cw > 3 * ch
  {
    var r, c := (cw as real) / (ch as real), ch as real;
    assert r * c == cw as real;
    ScaleKeepsOrder(r, TargetAspectRatio, c);
    assert TargetAspectRatio * c == (3 * ch) as real / 2.0;
  }

  /** Truncating a non-negative integer divided by a small positive constant is integer division. */
  lemma TruncOfRatio(a: int, b: int)
    requires a >= 0 && (b == 2 || b == 3)
    ensures Trunc(a as real / b as real) == a / b
  {
    var q, m := a / b, a % b;
    assert a == q * b + m && 0 <= m < b;
    if b == 2 {
      assert a as real / 2.0 == q as real + m as real / 2.0;
    } else {
      assert a as real / 3.0 == q as real + m as real / 3.0;
    }
  }

  /** For a positive client rectangle the fitted frame lies entirely inside it. */
  lemma FrameInsideClient(cx: int, cy: int, cw: int, ch: int)
    requires cw > 0 && ch > 0
    ensures var f := CoordinateSystem.CalculateFrameArea(cx, cy, cw, ch);
      cx <= f.x.value && f.x.value + f.width.value <= cx + cw &&
      cy <= f.y.value && f.y.value + f.height.value <= cy + ch &&
      f.width.value >= 1 && f.height.value >= 0
  {
    var f := CoordinateSystem.CalculateFrameArea(cx, cy, cw, ch);
    if 2 * cw > 3 * ch {
      assert 2 * ((3 * ch) / 2) <= 3 * ch;
    } else {
      assert 3 * ((2 * cw) / 3) <= 2 * cw;
    }
  }

  /**
   * The fitted frame is as close to 3:2 as integer truncation allows: in
   * the fit-height branch `3h - 2w` is 0 or 1, in the fit-width branch
   * `2w - 3h` is 0, 1 or 2.
   */
  lemma FrameAspect(cx: int, cy: int, cw: int, ch: int)
    requires cw >= 0 && ch > 0
    ensures var f := CoordinateSystem.CalculateFrameArea(cx, cy, cw, ch);
      if 2 * cw > 3 * ch then 0 <= 3 * f.height.value - 2 * f.width.value <= 1
      else 0 <= 2 * f.width.value - 3 * f.height.value <= 2
  {
  }

  /** Screen to frame and back is the identity, with or without a frame. */
  lemma ScreenFrameRoundTrip(cs: CoordinateSystem, sx: int, sy: int)
    ensures cs.FrameToScreenCoords(cs.ScreenToFrameCoords(sx, sy).0, cs.ScreenToFrameCoords(sx, sy).1) == (sx, sy)
  {
  }

  /** Frame to screen and back is the identity, with or without a frame. */
  lemma FrameScreenRoundTrip(cs: CoordinateSystem, fx: int, fy: int)
    ensures cs.ScreenToFrameCoords(cs.FrameToScreenCoords(fx, fy).0, cs.FrameToScreenCoords(fx, fy).1) == (fx, fy)
  {
  }

  /** A point is inside the frame exactly when its frame coordinates lie in [0, width] x [0, height]. */
  lemma InsideFrameIffFrameCoordsInRange(cs: CoordinateSystem, sx: int, sy: int)
    ensures cs.IsInsideFrame(sx, sy) <==>
      IsSet(cs.frameArea) &&
      0 <= cs.ScreenToFrameCoords(sx, sy).0 <= Get(cs.frameArea, Width, 0) &&
      0 <= cs.ScreenToFrameCoords(sx, sy).1 <= Get(cs.frameArea, Height, 0)
  {
  }

  /** The frame (100, 100, 800, 600) contains the point (400, 300). */
  lemma InsideFrameExample(cs: CoordinateSystem)
    requires cs.frameArea == MakeFrame(100, 100, 800, 600)
    ensures cs.IsInsideFrame(400, 300)
  {
  }

  /** With positive dimensions, percentages convert back to the frame point exactly. */
  lemma PercentageRoundTrip(cs: CoordinateSystem, fx: int, fy: int)
    requires IsSet(cs.frameArea) && Get(cs.frameArea, Width, 1) >= 1 && Get(cs.frameArea, Height, 1) >= 1
    ensures var p := cs.FrameToPercentage(fx, fy); cs.PercentageToFrame(p.0, p.1) == (fx, fy)
  {
    PercentBack(fx, Get(cs.frameArea, Width, 1));
    PercentBack(fy, Get(cs.frameArea, Height, 1));
  }

  /** One axis of the round trip: `int((100 * f / max(1, d)) * d / 100) == f` for `d >= 1`. */
  lemma PercentBack(f: int, d: int)
    requires d >= 1
    ensures FromPercent(ToPercent(f, d), d) == f
  {
    assert MaxInt(1, d) == d;
    var p := 100.0 * f as real / d as real;
    assert p * d as real == 100.0 * f as real;
    assert p * d as real / 100.0 == f as real;
    TruncOfInt(f);
  }

  /** Clamping to the frame is idempotent. */
  lemma ClampToFrameBoundsIdempotent(cs: CoordinateSystem, fx: int, fy: int)
    ensures var c := cs.ClampToFrameBounds(fx, fy); cs.ClampToFrameBounds(c.0, c.1) == c
  {
  }

  /** Clamping percentages is idempotent. */
  lemma ClampPercentageBoundsIdempotent(xp: real, yp: real)
    ensures var c := CoordinateSystem.ClampPercentageBounds(xp, yp);
      CoordinateSystem.ClampPercentageBounds(c.0, c.1) == c
  {
  }

  /** The decision order on sample inputs: (1, 1) is a decimal percentage, not an integer one. */
  lemma ClassifierExamples()
    ensures CoordinateSystem.AutoDetectCoordinateType(0.5, 0.9) == DecimalPercent
    ensures CoordinateSystem.AutoDetectCoordinateType(1.0, 1.0) == DecimalPercent
    ensures CoordinateSystem.AutoDetectCoordinateType(50.0, 75.0) == IntegerPercent
    ensures CoordinateSystem.AutoDetectCoordinateType(1920.0, 1080.0) == ScreenType
    ensures CoordinateSystem.AutoDetectCoordinateType(400.0, 300.0) == FrameType
  {
  }

  /** A negative component is never a percentage; below 1000 on both axes it is a frame coordinate. */
  lemma NegativeInputIsNotPercentage(x: real, y: real)
    requires x < 0.0 || y < 0.0
    ensures CoordinateSystem.AutoDetectCoordinateType(x, y) in {ScreenType, FrameType}
    ensures x < 1000.0 && y < 1000.0 ==> CoordinateSystem.AutoDetectCoordinateType(x, y) == FrameType
  {
  }
}
