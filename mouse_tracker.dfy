/**
 * The pointer information builder of the core mouse tracker. On every
 * timer tick it reads the cursor, then writes into a fresh info dictionary
 * the screen position, the window-relative keys (when the window callback
 * reports a `window_rect`) and the frame-relative keys (when the frame
 * callback reports a nonempty frame, which it also stores in its
 * coordinate system).
 *
 * The cursor read and the two callbacks are outside code: the method takes
 * what they returned on this tick. A cursor read that raised is `None`; a
 * window callback that is unset, returned nothing or returned no
 * `window_rect` is `None`; a frame callback that is unset or returned
 * nothing is the empty frame.
 */
module MouseTracker {
  import opened Wrappers
  import opened Numerics
  import opened Frames
  import Coordinates

  /** The keys the info dictionary may hold. */
  datatype InfoKey =
    | ScreenX | ScreenY
    | InsideWindow | WindowXPercent | WindowYPercent
    | InsideFrame | FrameX | FrameY | XPercent | YPercent

  /** The values stored under those keys: integers, flags and percentages. */
  datatype InfoValue = IntValue(i: int) | FlagValue(b: bool) | RealValue(r: real)

  type Info = map<InfoKey, InfoValue>

  /** A window rectangle `(x1, y1, x2, y2)` as the window callback reports it. */
  type WindowRect = (int, int, int, int)

  /** `_get_cursor_position`: the cursor, or (0, 0) when reading it raised. */
  function CursorPosition(cursor: Option<(int, int)>): (p: (int, int))
    ensures cursor.Some? ==> p == cursor.value
    ensures cursor.None? ==> p == (0, 0)
  {
    if cursor.Some? then cursor.value else (0, 0)
  }

  /** The inclusive test `x1 <= sx <= x2 and y1 <= sy <= y2`. */
  predicate InsideRect(sx: int, sy: int, w: WindowRect)
  {
    w.0 <= sx <= w.2 && w.1 <= sy <= w.3
  }

  /** `100 * offset / max(1, extent)`, a true division. */
  function Percentage(offset: int, extent: int): (p: real)
    ensures p * MaxInt(1, extent) as real == 100.0 * offset as real
    ensures 0 <= offset <= MaxInt(1, extent) ==> 0.0 <= p <= 100.0
  {
    var d := MaxInt(1, extent) as real;
    var p := 100.0 * offset as real / d;
    assert p * d == 100.0 * offset as real;
    ScaleKeepsOrder(p, 100.0, d);
    ScaleKeepsOrder(0.0, p, d);
    p
  }

  /** The keys `_add_window_info` writes for the cursor and the reported window. */
  function WindowEntries(sx: int, sy: int, window: Option<WindowRect>): Info
  {
    match window
    case None => map[]
    case Some(w) =>
      if InsideRect(sx, sy, w) then
        map[InsideWindow := FlagValue(true),
            WindowXPercent := RealValue(Percentage(sx - w.0, w.2 - w.0)),
            WindowYPercent := RealValue(Percentage(sy - w.1, w.3 - w.1))]
      else map[InsideWindow := FlagValue(false)]
  }

  /** The inclusive frame test, missing keys reading as 0; false for the empty frame. */
  predicate InsideFrameArea(sx: int, sy: int, frame: FrameDict)
  {
    IsSet(frame) &&
    Get(frame, X, 0) <= sx <= Get(frame, X, 0) + Get(frame, Width, 0) &&
    Get(frame, Y, 0) <= sy <= Get(frame, Y, 0) + Get(frame, Height, 0)
  }

  /** The keys `_add_frame_info` writes for the cursor and the reported frame. */
  function FrameEntries(sx: int, sy: int, frame: FrameDict): Info
  {
    if !IsSet(frame) then map[]
    else if InsideFrameArea(sx, sy, frame) then
      var rx, ry := sx - Get(frame, X, 0), sy - Get(frame, Y, 0);
      map[InsideFrame := FlagValue(true),
          FrameX := IntValue(rx), FrameY := IntValue(ry),
          XPercent := RealValue(Percentage(rx, Get(frame, Width, 0))),
          YPercent := RealValue(Percentage(ry, Get(frame, Height, 0)))]
    else map[InsideFrame := FlagValue(false)]
  }

  /** The dictionary `_get_position_info` returns for one tick. */
  function PositionInfo(cursor: Option<(int, int)>, window: Option<WindowRect>, frame: FrameDict): Info
  {
    var (sx, sy) := CursorPosition(cursor);
    map[ScreenX := IntValue(sx), ScreenY := IntValue(sy)] + WindowEntries(sx, sy, window) + FrameEntries(sx, sy, frame)
  }

  class MouseTracker {
    var hasWindowCallback: bool
    var hasFrameCallback: bool
    var coordSystem: Coordinates.CoordinateSystem
    var lastPositionInfo: Info

    /** A new tracker has no callbacks, a coordinate system without a frame and no recorded position. */
    constructor ()
      ensures !hasWindowCallback && !hasFrameCallback
      ensures coordSystem.frameArea == NoFrame && lastPositionInfo == map[]
    {
      hasWindowCallback, hasFrameCallback := false, false;
      coordSystem := new Coordinates.CoordinateSystem();
      lastPositionInfo := map[];
    }

    /** `set_coordinate_callbacks`: both callbacks are installed. */
    method SetCoordinateCallbacks()
      modifies this
      ensures hasWindowCallback && hasFrameCallback
      ensures coordSystem == old(coordSystem) && lastPositionInfo == old(lastPositionInfo)
    {
      hasWindowCallback, hasFrameCallback := true, true;
    }

    /** `_add_window_info`: with a reported window, record whether the cursor is inside it and, if so, where. */
    method AddWindowInfo(info: Info, sx: int, sy: int, window: Option<WindowRect>) returns (out: Info)
      ensures out == info + WindowEntries(sx, sy, if hasWindowCallback then window else None)
    {
      out := info;
      if !hasWindowCallback || window.None? {
        return;
      }
      var (wx1, wy1, wx2, wy2) := window.value;
      if wx1 <= sx <= wx2 && wy1 <= sy <= wy2 {
        out := out[InsideWindow := FlagValue(true)];
        out := out[WindowXPercent := RealValue(100.0 * (sx - wx1) as real / MaxInt(1, wx2 - wx1) as real)];
        out := out[WindowYPercent := RealValue(100.0 * (sy - wy1) as real / MaxInt(1, wy2 - wy1) as real)];
      } else {
        out := out[InsideWindow := FlagValue(false)];
      }
    }

    /**
     * `_add_frame_info`: with a reported frame, store it in the coordinate
     * system and record whether the cursor is inside it and, if so, its
     * frame coordinates and percentages as the coordinate system computes
     * them.
     */
    method AddFrameInfo(info: Info, sx: int, sy: int, frame: FrameDict) returns (out: Info)
      modifies coordSystem
      ensures out == info + FrameEntries(sx, sy, if hasFrameCallback then frame else NoFrame)
      ensures coordSystem.frameArea == if hasFrameCallback && IsSet(frame) then frame else old(coordSystem.frameArea)
    {
      out := info;
      if !hasFrameCallback || !IsSet(frame) {
        return;
      }
      coordSystem.UpdateFrameArea(frame);
      if coordSystem.IsInsideFrame(sx, sy) {
        out := out[InsideFrame := FlagValue(true)];
        var (fx, fy) := coordSystem.ScreenToFrameCoords(sx, sy);
        out := out[FrameX := IntValue(fx)];
        out := out[FrameY := IntValue(fy)];
        var (xp, yp) := coordSystem.FrameToPercentage(fx, fy);
        PercentageDefaultWidth(fx, frame, Width);
        PercentageDefaultWidth(fy, frame, Height);
        out := out[XPercent := RealValue(xp)];
        out := out[YPercent := RealValue(yp)];
      } else {
        out := out[InsideFrame := FlagValue(false)];
      }
    }

    /** `_get_position_info`: the screen position, then the window keys, then the frame keys. */
    method GetPositionInfo(cursor: Option<(int, int)>, window: Option<WindowRect>, frame: FrameDict) returns (info: Info)
      modifies coordSystem
      ensures info == PositionInfo(cursor, if hasWindowCallback then window else None, if hasFrameCallback then frame else NoFrame)
      ensures coordSystem.frameArea == if hasFrameCallback && IsSet(frame) then frame else old(coordSystem.frameArea)
    {
      var sx, sy := 0, 0;
      if cursor.Some? {
        sx, sy := cursor.value.0, cursor.value.1;
      }
      info := map[ScreenX := IntValue(sx), ScreenY := IntValue(sy)];
      info := AddWindowInfo(info, sx, sy, window);
      info := AddFrameInfo(info, sx, sy, frame);
    }

    /** `_emit_position`: the info of this tick becomes the last recorded position. */
    method EmitPosition(cursor: Option<(int, int)>, window: Option<WindowRect>, frame: FrameDict) returns (info: Info)
      modifies this, coordSystem
      ensures info == PositionInfo(cursor, if old(hasWindowCallback) then window else None, if old(hasFrameCallback) then frame else NoFrame)
      ensures lastPositionInfo == info
      ensures hasWindowCallback == old(hasWindowCallback) && hasFrameCallback == old(hasFrameCallback)
    {
      info := GetPositionInfo(cursor, window, frame);
      lastPositionInfo := info;
    }
  }

  /**
   * The coordinate system reads a missing dimension as 1 where the frame
   * keys read it as 0; both give a divisor of 1, so the percentages agree.
   */
  lemma PercentageDefaultWidth(f: int, frame: FrameDict, k: Key)
    ensures Percentage(f, Get(frame, k, 0)) == 100.0 * f as real / MaxInt(1, Get(frame, k, 1)) as real
  {
    assert MaxInt(1, Get(frame, k, 0)) == MaxInt(1, Get(frame, k, 1));
  }

  /** Every info dictionary holds the screen position, which is (0, 0) when the cursor could not be read. */
  lemma ScreenKeysAlwaysPresent(cursor: Option<(int, int)>, window: Option<WindowRect>, frame: FrameDict)
    ensures var info := PositionInfo(cursor, window, frame);
      ScreenX in info && ScreenY in info &&
      info[ScreenX] == IntValue(CursorPosition(cursor).0) && info[ScreenY] == IntValue(CursorPosition(cursor).1)
    ensures cursor.None? ==>
      PositionInfo(cursor, window, frame)[ScreenX] == IntValue(0) && PositionInfo(cursor, window, frame)[ScreenY] == IntValue(0)
  {
  }

  /**
   * Window keys appear exactly when a window is reported; `inside_window`
   * is the inclusive test, and the percentages appear exactly when it
   * holds, each within [0, 100].
   */
  lemma WindowKeys(cursor: Option<(int, int)>, window: Option<WindowRect>, frame: FrameDict)
    ensures var info := PositionInfo(cursor, window, frame);
      var (sx, sy) := CursorPosition(cursor);
      (InsideWindow in info <==> window.Some?) &&
      (window.Some? ==> info[InsideWindow] == FlagValue(InsideRect(sx, sy, window.value))) &&
      (WindowXPercent in info <==> window.Some? && InsideRect(sx, sy, window.value)) &&
      (WindowYPercent in info <==> window.Some? && InsideRect(sx, sy, window.value))
    ensures var info := PositionInfo(cursor, window, frame);
      WindowXPercent in info ==> 0.0 <= info[WindowXPercent].r <= 100.0 && 0.0 <= info[WindowYPercent].r <= 100.0
  {
    var (sx, sy) := CursorPosition(cursor);
    var we := WindowEntries(sx, sy, window);
    FrameEntriesKeys(sx, sy, frame);
    SeparateEntries(sx, sy, we, FrameEntries(sx, sy, frame), InsideWindow);
    SeparateEntries(sx, sy, we, FrameEntries(sx, sy, frame), WindowXPercent);
    SeparateEntries(sx, sy, we, FrameEntries(sx, sy, frame), WindowYPercent);
  }

  /** The frame entries hold only the five frame keys. */
  lemma FrameEntriesKeys(sx: int, sy: int, frame: FrameDict)
    ensures forall k :: k in FrameEntries(sx, sy, frame) ==> k in {InsideFrame, FrameX, FrameY, XPercent, YPercent}
  {
  }

  /** The window entries hold only the three window keys. */
  lemma WindowEntriesKeys(sx: int, sy: int, window: Option<WindowRect>)
    ensures forall k :: k in WindowEntries(sx, sy, window) ==> k in {InsideWindow, WindowXPercent, WindowYPercent}
  {
  }

  /**
   * A key outside the screen position that only one of the two entry maps
   * can hold is found in the info dictionary exactly when that map holds
   * it, with that map's value.
   */
  lemma SeparateEntries(sx: int, sy: int, we: Info, fe: Info, k: InfoKey)
    requires k != ScreenX && k != ScreenY && (k !in we || k !in fe)
    ensures var info := map[ScreenX := IntValue(sx), ScreenY := IntValue(sy)] + we + fe;
      (k in info <==> k in we || k in fe) &&
      (k in we ==> info[k] == we[k]) && (k in fe ==> info[k] == fe[k])
  {
  }

  /**
   * Frame keys appear exactly when a nonempty frame is reported;
   * `inside_frame` is the inclusive test, and inside the frame the frame
   * coordinates are the screen position less the origin.
   */
  lemma FrameKeys(cursor: Option<(int, int)>, window: Option<WindowRect>, frame: FrameDict)
    ensures var info := PositionInfo(cursor, window, frame);
      var (sx, sy) := CursorPosition(cursor);
      (InsideFrame in info <==> IsSet(frame)) &&
      (IsSet(frame) ==> info[InsideFrame] == FlagValue(InsideFrameArea(sx, sy, frame))) &&
      (FrameX in info <==> InsideFrameArea(sx, sy, frame)) && (FrameY in info <==> InsideFrameArea(sx, sy, frame)) &&
      (XPercent in info <==> InsideFrameArea(sx, sy, frame)) && (YPercent in info <==> InsideFrameArea(sx, sy, frame))
  {
    var (sx, sy) := CursorPosition(cursor);
    var we, fe := WindowEntries(sx, sy, window), FrameEntries(sx, sy, frame);
    WindowEntriesKeys(sx, sy, window);
    SeparateEntries(sx, sy, we, fe, InsideFrame);
    SeparateEntries(sx, sy, we, fe, FrameX);
    SeparateEntries(sx, sy, we, fe, FrameY);
    SeparateEntries(sx, sy, we, fe, XPercent);
    SeparateEntries(sx, sy, we, fe, YPercent);
  }

  /** Inside the frame the frame coordinates are the screen position less the frame origin. */
  lemma FrameOffsets(cursor: Option<(int, int)>, window: Option<WindowRect>, frame: FrameDict)
    requires InsideFrameArea(CursorPosition(cursor).0, CursorPosition(cursor).1, frame)
    ensures var info := PositionInfo(cursor, window, frame);
      var (sx, sy) := CursorPosition(cursor);
      FrameX in info && FrameY in info &&
      info[FrameX] == IntValue(sx - Get(frame, X, 0)) && info[FrameY] == IntValue(sy - Get(frame, Y, 0))
  {
    var (sx, sy) := CursorPosition(cursor);
    var we, fe := WindowEntries(sx, sy, window), FrameEntries(sx, sy, frame);
    WindowEntriesKeys(sx, sy, window);
    SeparateEntries(sx, sy, we, fe, FrameX);
    SeparateEntries(sx, sy, we, fe, FrameY);
  }

  /** Inside the frame the percentages lie in [0, 100] and scale back to the frame coordinates. */
  lemma FramePercentagesInRange(cursor: Option<(int, int)>, window: Option<WindowRect>, frame: FrameDict)
    requires InsideFrameArea(CursorPosition(cursor).0, CursorPosition(cursor).1, frame)
    ensures var info := PositionInfo(cursor, window, frame);
      XPercent in info && YPercent in info && info[XPercent].RealValue? && info[YPercent].RealValue? &&
      0.0 <= info[XPercent].r <= 100.0 && 0.0 <= info[YPercent].r <= 100.0 &&
      info[XPercent].r * MaxInt(1, Get(frame, Width, 0)) as real == 100.0 * (CursorPosition(cursor).0 - Get(frame, X, 0)) as real
  {
    var (sx, sy) := CursorPosition(cursor);
    var we, fe := WindowEntries(sx, sy, window), FrameEntries(sx, sy, frame);
    WindowEntriesKeys(sx, sy, window);
    SeparateEntries(sx, sy, we, fe, XPercent);
    SeparateEntries(sx, sy, we, fe, YPercent);
    FrameEntriesInside(sx, sy, frame);
    var px, py := Percentage(sx - Get(frame, X, 0), Get(frame, Width, 0)), Percentage(sy - Get(frame, Y, 0), Get(frame, Height, 0));
    assert fe[XPercent] == RealValue(px) && fe[YPercent] == RealValue(py);
  }

  /** Inside a reported frame its entries are the flag, the offsets from the origin and their percentages. */
  lemma FrameEntriesInside(sx: int, sy: int, frame: FrameDict)
    requires InsideFrameArea(sx, sy, frame)
    ensures var rx, ry := sx - Get(frame, X, 0), sy - Get(frame, Y, 0);
      FrameEntries(sx, sy, frame) ==
        map[InsideFrame := FlagValue(true), FrameX := IntValue(rx), FrameY := IntValue(ry),
            XPercent := RealValue(100.0 * rx as real / MaxInt(1, Get(frame, Width, 0)) as real),
            YPercent := RealValue(100.0 * ry as real / MaxInt(1, Get(frame, Height, 0)) as real)]
  {
  }

  /** Five successive key writes are a union with the map of those five entries. */
  lemma FiveWrites<K, V>(m: map<K, V>, k1: K, v1: V, k2: K, v2: V, k3: K, v3: V, k4: K, v4: V, k5: K, v5: V)
    ensures m[k1 := v1][k2 := v2][k3 := v3][k4 := v4][k5 := v5] ==
      m + map[k1 := v1, k2 := v2, k3 := v3, k4 := v4, k5 := v5]
  {
  }

  /** Three successive key writes are a union with the map of those three entries. */
  lemma ThreeWrites<K, V>(m: map<K, V>, k1: K, v1: V, k2: K, v2: V, k3: K, v3: V)
    ensures m[k1 := v1][k2 := v2][k3 := v3] == m + map[k1 := v1, k2 := v2, k3 := v3]
  {
  }
}
