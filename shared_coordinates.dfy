/**
 * The trimmed-down coordinate system kept beside the tracker: it only
 * stores the frame area and tests containment.
 */
module SharedCoordinates {
  import opened Frames
  import Coordinates

  class CoordinateSystem {
    var frameArea: FrameDict

    /** A new instance has no frame. */
    constructor ()
      ensures frameArea == NoFrame
    {
      frameArea := NoFrame;
    }

    /** The frame is replaced wholesale. */
    method UpdateFrameArea(f: FrameDict)
      modifies this
      ensures frameArea == f
    {
      frameArea := f;
    }

    /** False with no frame; otherwise the inclusive bounds test, missing keys reading as 0. */
    predicate IsInsideFrame(sx: int, sy: int)
      reads this
      ensures IsInsideFrame(sx, sy) ==> IsSet(frameArea)
      ensures IsInsideFrame(sx, sy) ==> Get(frameArea, Width, 0) >= 0 && Get(frameArea, Height, 0) >= 0
    {
      if !IsSet(frameArea) then false
      else
        var px := Get(frameArea, X, 0);
        var py := Get(frameArea, Y, 0);
        var pw := Get(frameArea, Width, 0);
        var ph := Get(frameArea, Height, 0);
        px <= sx <= px + pw && py <= sy <= py + ph
    }
  }

  /** The tracker's containment test answers exactly as the core coordinate system's does for the same frame. */
  lemma AgreesWithCoreIsInsideFrame(shared: CoordinateSystem, core: Coordinates.CoordinateSystem, sx: int, sy: int)
    requires shared.frameArea == core.frameArea
    ensures shared.IsInsideFrame(sx, sy) == core.IsInsideFrame(sx, sy)
  {
  }
}
