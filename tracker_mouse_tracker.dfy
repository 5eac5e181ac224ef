/**
 * The tracker's own copy of the mouse tracker. Its `_get_position_info`
 * builds the same dictionary inline: it reads the frame keys itself
 * (missing ones as 0) instead of asking its coordinate system, which only
 * stores the frame and tests containment. It is proved to produce exactly
 * the core tracker's dictionary.
 */
module TrackerMouseTracker {
  import opened Wrappers
  import opened Numerics
  import opened Frames
  import SharedCoordinates
  import opened MouseTracker

  class InlineMouseTracker {
    var hasWindowCallback: bool
    var hasFrameCallback: bool
    var coordSystem: SharedCoordinates.CoordinateSystem
    var lastPositionInfo: Info

    /** A new tracker has no callbacks, a coordinate system without a frame and no recorded position. */
    constructor ()
      ensures !hasWindowCallback && !hasFrameCallback
      ensures coordSystem.frameArea == NoFrame && lastPositionInfo == map[]
    {
      hasWindowCallback, hasFrameCallback := false, false;
      coordSystem := new SharedCoordinates.CoordinateSystem();
      lastPositionInfo := map[];
    }

    /** `set_coordinate_callbacks`: both callbacks are installed. */
    method SetCoordinateCallbacks()
      modifies this
      ensures hasWindowCallback && hasFrameCallback
      ensures coordSystem == old(coordSystem) && lastPositionInfo == old(lastPositionInfo)
    {
      hasWindowCallback, hasFrameCallback := true, true;
    }

    /**
     * `_get_position_info`: the screen position, the window block, then
     * the frame block. The result is the core tracker's dictionary for the
     * same cursor, window and frame, and a reported frame is stored in the
     * coordinate system.
     */
    method GetPositionInfo(cursor: Option<(int, int)>, window: Option<WindowRect>, frame: FrameDict) returns (info: Info)
      modifies coordSystem
      ensures info == PositionInfo(cursor, if hasWindowCallback then window else None, if hasFrameCallback then frame else NoFrame)
      ensures coordSystem.frameArea == if hasFrameCallback && IsSet(frame) then frame else old(coordSystem.frameArea)
    {
      var sx, sy := 0, 0;
      if cursor.Some? {
        sx, sy := cursor.value.0, cursor.value.1;
      }
      info := map[ScreenX := IntValue(sx), ScreenY := IntValue(sy)];
      info := AddWindowKeys(info, sx, sy, window);
      ghost var before := info;
      if hasFrameCallback && IsSet(frame) {
        coordSystem.UpdateFrameArea(frame);
        info := AddFrameKeys(info, sx, sy, frame);
      }
      assert info == before + FrameEntries(sx, sy, if hasFrameCallback then frame else NoFrame);
    }

    /**
     * The window block of `_get_position_info`: with a reported window,
     * the inclusive test and, inside, `100 * offset / max(1, extent)` on
     * each axis.
     */
    method AddWindowKeys(info: Info, sx: int, sy: int, window: Option<WindowRect>) returns (out: Info)
      ensures out == info + WindowEntries(sx, sy, if hasWindowCallback then window else None)
    {
      out := info;
      if hasWindowCallback && window.Some? {
        var (wx1, wy1, wx2, wy2) := window.value;
        if wx1 <= sx <= wx2 && wy1 <= sy <= wy2 {
          out := out[InsideWindow := FlagValue(true)];
          out := out[WindowXPercent := RealValue(100.0 * (sx - wx1) as real / MaxInt(1, wx2 - wx1) as real)];
          out := out[WindowYPercent := RealValue(100.0 * (sy - wy1) as real / MaxInt(1, wy2 - wy1) as real)];
          ThreeWrites(info, InsideWindow, FlagValue(true),
                      WindowXPercent, RealValue(100.0 * (sx - wx1) as real / MaxInt(1, wx2 - wx1) as real),
                      WindowYPercent, RealValue(100.0 * (sy - wy1) as real / MaxInt(1, wy2 - wy1) as real));
        } else {
          out := out[InsideWindow := FlagValue(false)];
        }
      }
    }

    /**
     * The frame block of `_get_position_info`, once the reported frame is
     * stored: the inclusive test, then the offsets from the frame origin and
     * `100 * offset / max(1, dimension)`, missing keys reading as 0.
     */
    method AddFrameKeys(info: Info, sx: int, sy: int, frame: FrameDict) returns (out: Info)
      requires IsSet(frame) && coordSystem.frameArea == frame
      ensures out == info + FrameEntries(sx, sy, frame)
    {
      out := info;
      if coordSystem.IsInsideFrame(sx, sy) {
        out := out[InsideFrame := FlagValue(true)];
        var px := Get(frame, X, 0);
        var py := Get(frame, Y, 0);
        var pw := Get(frame, Width, 0);
        var ph := Get(frame, Height, 0);
        var relX := sx - px;
        var relY := sy - py;
        out := out[FrameX := IntValue(relX)];
        out := out[FrameY := IntValue(relY)];
        out := out[XPercent := RealValue(100.0 * relX as real / MaxInt(1, pw) as real)];
        out := out[YPercent := RealValue(100.0 * relY as real / MaxInt(1, ph) as real)];
        FrameEntriesInside(sx, sy, frame);
        FiveWrites(info, InsideFrame, FlagValue(true), FrameX, IntValue(relX), FrameY, IntValue(relY),
                   XPercent, RealValue(100.0 * relX as real / MaxInt(1, pw) as real),
                   YPercent, RealValue(100.0 * relY as real / MaxInt(1, ph) as real));
      } else {
        out := out[InsideFrame := FlagValue(false)];
      }
    }

    /** `_emit_position`: the info of this tick becomes the last recorded position. */
    method EmitPosition(cursor: Option<(int, int)>, window: Option<WindowRect>, frame: FrameDict) returns (info: Info)
      modifies this, coordSystem
      ensures info == PositionInfo(cursor, if old(hasWindowCallback) then window else None, if old(hasFrameCallback) then frame else NoFrame)
      ensures lastPositionInfo == info
      ensures hasWindowCallback == old(hasWindowCallback) && hasFrameCallback == old(hasFrameCallback)
    {
      info := GetPositionInfo(cursor, window, frame);
      lastPositionInfo := info;
    }
  }
}
