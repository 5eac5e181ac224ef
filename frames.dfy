/**
 * A frame area as the source passes it around: a dictionary that may hold
 * the keys "x", "y", "width" and "height". Every reader uses `.get(key,
 * default)`, and every guard tests `not frame_area`, which is true both for
 * `None` and for `{}`; the frame with no key stands for both here. A
 * dictionary over these four keys is written as one optional entry per key.
 */
module Frames {
  import opened Numerics
  import opened Wrappers

  datatype Key = X | Y | Width | Height

  datatype FrameDict = FrameDict(x: Option<int>, y: Option<int>, width: Option<int>, height: Option<int>)

  /** The empty dictionary (and `None`). */
  const NoFrame: FrameDict := FrameDict(None, None, None, None)

  /** Whether key `k` is present. */
  predicate Has(f: FrameDict, k: Key)
  {
    match k
    case X => f.x.Some?
    case Y => f.y.Some?
    case Width => f.width.Some?
    case Height => f.height.Some?
  }

  /** `frame.get(k, default)`. */
  function Get(f: FrameDict, k: Key, default: int): int
  {
    var e := match k
      case X => f.x
      case Y => f.y
      case Width => f.width
      case Height => f.height;
    if e.Some? then e.value else default
  }

  /** The truth value of a frame dictionary: `not frame` fails exactly on the empty one. */
  predicate IsSet(f: FrameDict)
  {
    f != NoFrame
  }

  /** The dictionary literal `{"x": x, "y": y, "width": w, "height": h}`. */
  function MakeFrame(x: int, y: int, w: int, h: int): FrameDict
  {
    FrameDict(Some(x), Some(y), Some(w), Some(h))
  }
}
