/**
 * Border refinement: a resolved frame whose width is within a few pixels
 * of the known target width is nudged to exactly that width, trying at
 * most three (left, right) edge adjustments in a fixed order and keeping
 * the first one whose two border samples differ.
 *
 * The screen is not read here: the pixel sampler is a parameter that
 * returns `Some(colour)` or `None` when sampling raises. Two variants are
 * modelled, `RefineFrameBorders` (window detection) and
 * `RefineFrameBordersPyautogui` (tracker), each a method with the source's
 * loop, proved equal to a specification function (`RefinedFrame`,
 * `RefinedFramePyautogui`) about which the properties are stated; they share the candidate list
 * and the first-match search and differ in what they return outside the
 * tolerance, in the sampled row and in the bounds guard.
 */
module BorderRefinement {
  import opened Numerics
  import opened Frames
  import opened Wrappers

  /** `TARGET_FRAME_WIDTH`. */
  const TargetFrameWidth: int := 2054
  /** `REFINEMENT_TOLERANCE`. */
  const RefinementTolerance: int := 10
  /** `MONITOR_BOUNDS_LEFT` and `MONITOR_BOUNDS_RIGHT`: the safe sampling range [-3840, 7680). */
  const MonitorBoundsLeft: int := -3840
  const MonitorBoundsRight: int := 7680

  /** An edge adjustment: (added to x, added to the right edge). */
  type Adjustment = (int, int)

  /** The width a frame of width `width` has after adjustment `a`. */
  function AdjustedWidth(width: int, a: Adjustment): int
  {
    width - a.0 + a.1
  }

  /** How much adjustment `a` widens a frame: `AdjustedWidth(w, a) == w + Growth(a)` for every `w`. */
  function Growth(a: Adjustment): int
  {
    a.1 - a.0
  }

  /**
   * The candidate list, as written: empty unless `|widthDiff| <= 4`;
   * otherwise right-only, left-only, then a split of both edges. The split
   * for growth is written `-width_diff // 2`, which Python reads as
   * `(-width_diff) // 2`.
   */
  function GetBorderAdjustments(widthDiff: int): (adj: seq<Adjustment>)
    ensures AbsInt(widthDiff) > 4 ==> adj == []
    ensures AbsInt(widthDiff) <= 4 ==> |adj| == 3
    ensures AbsInt(widthDiff) <= 4 ==> adj[0].0 == 0 && adj[1].1 == 0
    ensures AbsInt(widthDiff) <= 4 ==> Growth(adj[0]) == widthDiff && Growth(adj[1]) == widthDiff
    ensures AbsInt(widthDiff) <= 4 && (widthDiff <= 0 || widthDiff % 2 == 0) ==> Growth(adj[2]) == widthDiff
    ensures 0 < widthDiff <= 4 && widthDiff % 2 == 1 ==> Growth(adj[2]) == widthDiff + 1
  {
    if AbsInt(widthDiff) <= 4 then
      if widthDiff > 0 then
        [(0, widthDiff), (-widthDiff, 0), ((-widthDiff) / 2, widthDiff / 2 + widthDiff % 2)]
      else
        var d: int := AbsInt(widthDiff);
        [(0, -d), (d, 0), (d / 2, -(d / 2 + d % 2))]
    else
      []
  }

  /**
   * The candidate list as evidently intended: the growth split puts
   * `width_diff // 2` on the left and the rest on the right, like the
   * shrink split does.
   */
  function GetBorderAdjustmentsCorrected(widthDiff: int): (adj: seq<Adjustment>)
    ensures AbsInt(widthDiff) > 4 ==> adj == []
    ensures AbsInt(widthDiff) <= 4 ==> |adj| == 3 && adj[0].0 == 0 && adj[1].1 == 0
    ensures forall i :: 0 <= i < |adj| ==> Growth(adj[i]) == widthDiff
  {
    if AbsInt(widthDiff) <= 4 then
      if widthDiff > 0 then
        [(0, widthDiff), (-widthDiff, 0), (-(widthDiff / 2), widthDiff / 2 + widthDiff % 2)]
      else
        var d: int := AbsInt(widthDiff);
        [(0, -d), (d, 0), (d / 2, -(d / 2 + d % 2))]
    else
      []
  }

  /**
   * `_validate_border_adjustment`: sample one pixel left of the new left
   * edge and one at the new right edge, on row `y + 50`; refuse if either
   * column is outside [-3840, 7680) or a sample raises; accept iff the
   * two colours differ.
   */
  function ValidateBorderAdjustment<C(==)>(sample: (int, int) -> Option<C>, newX: int, newWidth: int, y: int): (ok: bool)
    ensures ok <==>
      MonitorBoundsLeft <= newX - 1 < MonitorBoundsRight &&
      MonitorBoundsLeft <= newX + newWidth < MonitorBoundsRight &&
      sample(newX - 1, y + 50).Some? && sample(newX + newWidth, y + 50).Some? &&
      sample(newX - 1, y + 50).value != sample(newX + newWidth, y + 50).value
  {
    var validationY := y + 50;
    var leftX := newX - 1;
    var rightX := newX + newWidth;
    if !(MonitorBoundsLeft <= leftX < MonitorBoundsRight && MonitorBoundsLeft <= rightX < MonitorBoundsRight) then
      false
    else
      match (sample(leftX, validationY), sample(rightX, validationY))
      case (Some(l), Some(r)) => l != r
      case _ => false
  }

  /** The loop's test in `_refine_frame_borders`: exact target width, then the validator. */
  predicate Accepted<C(==)>(sample: (int, int) -> Option<C>, x: int, y: int, width: int, a: Adjustment)
  {
    AdjustedWidth(width, a) == TargetFrameWidth && ValidateBorderAdjustment(sample, x + a.0, AdjustedWidth(width, a), y)
  }

  /**
   * The index of the first candidate at or after `from` that `Accepted`
   * takes, or None: what the loop of `_refine_frame_borders` finds.
   */
  function FirstValid<C(==)>(sample: (int, int) -> Option<C>, x: int, y: int, width: int, cands: seq<Adjustment>, from: nat): (k: Option<nat>)
    requires from <= |cands|
    decreases |cands| - from
    ensures k.Some? ==> from <= k.value < |cands| && Accepted(sample, x, y, width, cands[k.value])
    ensures k.Some? ==> forall j :: from <= j < k.value ==> !Accepted(sample, x, y, width, cands[j])
    ensures k.None? ==> forall j :: from <= j < |cands| ==> !Accepted(sample, x, y, width, cands[j])
  {
    if from == |cands| then None
    else if Accepted(sample, x, y, width, cands[from]) then Some(from)
    else FirstValid(sample, x, y, width, cands, from + 1)
  }

  /** The candidate list, as written or corrected. */
  function Candidates(corrected: bool, widthDiff: int): seq<Adjustment>
  {
    if corrected then GetBorderAdjustmentsCorrected(widthDiff) else GetBorderAdjustments(widthDiff)
  }

  /** What the loop of `_refine_frame_borders` returns: the first accepted candidate applied, or the input frame. */
  function SearchResult<C(==)>(sample: (int, int) -> Option<C>, frame: FrameDict, x: int, y: int, width: int, height: int,
                               cands: seq<Adjustment>): FrameDict
  {
    match FirstValid(sample, x, y, width, cands, 0)
    case None => frame
    case Some(k) => MakeFrame(x + cands[k].0, y, AdjustedWidth(width, cands[k]), height)
  }

  /** The search and the result shared by both border-list variants of `_refine_frame_borders`. */
  function RefineWith<C(==)>(sample: (int, int) -> Option<C>, frame: FrameDict, corrected: bool): FrameDict
  {
    if !IsSet(frame) then frame
    else
      var x, y := Get(frame, X, 0), Get(frame, Y, 0);
      var width, height := Get(frame, Width, 0), Get(frame, Height, 0);
      if AbsInt(width - TargetFrameWidth) > RefinementTolerance then frame
      else if TargetFrameWidth - width == 0 then frame
      else if width == 2053 then MakeFrame(x, y, TargetFrameWidth, height)
      else SearchResult(sample, frame, x, y, width, height, Candidates(corrected, TargetFrameWidth - width))
  }

  /** What `_refine_frame_borders` returns, as written. */
  function RefinedFrame<C(==)>(sample: (int, int) -> Option<C>, frame: FrameDict): FrameDict
  {
    RefineWith(sample, frame, false)
  }

  /** What `_refine_frame_borders` returns with the corrected candidate list. */
  function RefinedFrameCorrected<C(==)>(sample: (int, int) -> Option<C>, frame: FrameDict): FrameDict
  {
    RefineWith(sample, frame, true)
  }

  /**
   * The acceptance test in `_refine_frame_borders_pyautogui`: exact target
   * width, only `left_x >= -3840` and `right_x < 7680` as the bounds guard,
   * row `y + height // 2`, and a sample that raises rejects the candidate.
   */
  predicate AcceptedPyautogui<C(==)>(sample: (int, int) -> Option<C>, x: int, y: int, width: int, height: int, a: Adjustment)
  {
    var newX := x + a.0;
    var newWidth := AdjustedWidth(width, a);
    var validationY := y + height / 2;
    newWidth == TargetFrameWidth &&
    newX - 1 >= MonitorBoundsLeft && newX + newWidth < MonitorBoundsRight &&
    match (sample(newX - 1, validationY), sample(newX + newWidth, validationY))
    case (Some(l), Some(r)) => l != r
    case _ => false
  }

  /** The index of the first candidate at or after `from` that `AcceptedPyautogui` takes, or None. */
  function FirstValidPyautogui<C(==)>(sample: (int, int) -> Option<C>, x: int, y: int, width: int, height: int, cands: seq<Adjustment>, from: nat)
    : (k: Option<nat>)
    requires from <= |cands|
    decreases |cands| - from
    ensures k.Some? ==> from <= k.value < |cands| && AcceptedPyautogui(sample, x, y, width, height, cands[k.value])
    ensures k.Some? ==> forall j :: from <= j < k.value ==> !AcceptedPyautogui(sample, x, y, width, height, cands[j])
    ensures k.None? ==> forall j :: from <= j < |cands| ==> !AcceptedPyautogui(sample, x, y, width, height, cands[j])
  {
    if from == |cands| then None
    else if AcceptedPyautogui(sample, x, y, width, height, cands[from]) then Some(from)
    else FirstValidPyautogui(sample, x, y, width, height, cands, from + 1)
  }

  /** What the loop of `_refine_frame_borders_pyautogui` returns. */
  function SearchResultPyautogui<C(==)>(sample: (int, int) -> Option<C>, frame: FrameDict, x: int, y: int, width: int, height: int,
                                        cands: seq<Adjustment>): FrameDict
  {
    match FirstValidPyautogui(sample, x, y, width, height, cands, 0)
    case None => frame
    case Some(k) => MakeFrame(x + cands[k].0, y, AdjustedWidth(width, cands[k]), height)
  }

  /** What `_refine_frame_borders_pyautogui` returns: None for an empty frame or one outside the tolerance. */
  function RefinedFramePyautogui<C(==)>(sample: (int, int) -> Option<C>, frame: FrameDict): Option<FrameDict>
  {
    if !IsSet(frame) then None
    else
      var x, y := Get(frame, X, 0), Get(frame, Y, 0);
      var width, height := Get(frame, Width, 0), Get(frame, Height, 0);
      if AbsInt(width - TargetFrameWidth) > 10 then None
      else if TargetFrameWidth - width == 0 then Some(frame)
      else if width == 2053 then Some(MakeFrame(x, y, TargetFrameWidth, height))
      else Some(SearchResultPyautogui(sample, frame, x, y, width, height, GetBorderAdjustments(TargetFrameWidth - width)))
  }

  /**
   * What `_refine_frame_borders` promises: y and height are kept; an empty
   * frame, one outside the tolerance, one already on target or one too far
   * off for any candidate comes back unchanged; width 2053 is widened at
   * the same x; any other change lands on the target width.
   */
  lemma RefinedFrameShape<C>(sample: (int, int) -> Option<C>, frame: FrameDict)
    ensures var r, w := RefinedFrame(sample, frame), Get(frame, Width, 0);
      Get(r, Y, 0) == Get(frame, Y, 0) && Get(r, Height, 0) == Get(frame, Height, 0) &&
      (!IsSet(frame) ==> r == frame) &&
      (AbsInt(w - TargetFrameWidth) > RefinementTolerance ==> r == frame) &&
      (w == TargetFrameWidth ==> r == frame) &&
      (IsSet(frame) && w == 2053 ==> r == MakeFrame(Get(frame, X, 0), Get(frame, Y, 0), TargetFrameWidth, Get(frame, Height, 0))) &&
      (4 < AbsInt(TargetFrameWidth - w) ==> r == frame) &&
      (r == frame || Get(r, Width, 0) == TargetFrameWidth)
  {
  }

  /** With the corrected list, y and height are kept and any change lands on the target width. */
  lemma RefinedFrameCorrectedShape<C>(sample: (int, int) -> Option<C>, frame: FrameDict)
    ensures var r := RefinedFrameCorrected(sample, frame);
      Get(r, Y, 0) == Get(frame, Y, 0) && Get(r, Height, 0) == Get(frame, Height, 0) &&
      (r == frame || Get(r, Width, 0) == TargetFrameWidth)
  {
  }

  /**
   * What `_refine_frame_borders_pyautogui` promises: None exactly for an
   * empty frame or one outside the tolerance; otherwise the same facts as
   * the window-detection variant.
   */
  lemma RefinedFramePyautoguiShape<C>(sample: (int, int) -> Option<C>, frame: FrameDict)
    ensures var r, w := RefinedFramePyautogui(sample, frame), Get(frame, Width, 0);
      (r.None? <==> !IsSet(frame) || AbsInt(w - TargetFrameWidth) > RefinementTolerance) &&
      (r.Some? ==> Get(r.value, Y, 0) == Get(frame, Y, 0) && Get(r.value, Height, 0) == Get(frame, Height, 0)) &&
      (r.Some? && w == TargetFrameWidth ==> r.value == frame) &&
      (r.Some? && w == 2053 ==> r.value == MakeFrame(Get(frame, X, 0), Get(frame, Y, 0), TargetFrameWidth, Get(frame, Height, 0))) &&
      (r.Some? && 4 < AbsInt(TargetFrameWidth - w) ==> r.value == frame) &&
      (r.Some? ==> r.value == frame || Get(r.value, Width, 0) == TargetFrameWidth)
  {
  }

  /**
   * `_refine_frame_borders`: the early returns, then the loop over the
   * candidates that returns the first one of exact target width whose
   * borders validate.
   */
  method RefineFrameBorders<C(==)>(sample: (int, int) -> Option<C>, frame: FrameDict) returns (r: FrameDict)
    ensures r == RefinedFrame(sample, frame)
  {
    r := RefineFrameBordersWith(sample, frame, false);
  }

  /** `_refine_frame_borders` with the corrected candidate list. */
  method RefineFrameBordersCorrected<C(==)>(sample: (int, int) -> Option<C>, frame: FrameDict) returns (r: FrameDict)
    ensures r == RefinedFrameCorrected(sample, frame)
  {
    r := RefineFrameBordersWith(sample, frame, true);
  }

  /** The body of `_refine_frame_borders`, over the as-written or the corrected candidate list. */
  method RefineFrameBordersWith<C(==)>(sample: (int, int) -> Option<C>, frame: FrameDict, corrected: bool) returns (r: FrameDict)
    ensures r == RefineWith(sample, frame, corrected)
  {
    if !IsSet(frame) {
      return frame;
    }
    var x, y := Get(frame, X, 0), Get(frame, Y, 0);
    var width, height := Get(frame, Width, 0), Get(frame, Height, 0);
    if AbsInt(width - TargetFrameWidth) > RefinementTolerance {
      return frame;
    }
    var widthDiff := TargetFrameWidth - width;
    if widthDiff == 0 {
      return frame;
    }
    if width == 2053 {
      return MakeFrame(x, y, TargetFrameWidth, height);
    }
    var adjustments := if corrected then GetBorderAdjustmentsCorrected(widthDiff) else GetBorderAdjustments(widthDiff);
    r := TryAdjustments(sample, frame, x, y, width, height, adjustments);
  }

  /**
   * The loop of `_refine_frame_borders`: the first candidate of exact
   * target width whose borders validate is applied; with none, the input
   * frame comes back.
   */
  method TryAdjustments<C(==)>(sample: (int, int) -> Option<C>, frame: FrameDict, x: int, y: int, width: int, height: int,
                               adjustments: seq<Adjustment>) returns (r: FrameDict)
    ensures r == SearchResult(sample, frame, x, y, width, height, adjustments)
  {
    var i := 0;
    while i < |adjustments|
      invariant 0 <= i <= |adjustments|
      invariant forall j :: 0 <= j < i ==> !Accepted(sample, x, y, width, adjustments[j])
    {
      var (leftAdj, rightAdj) := adjustments[i];
      var newX := x + leftAdj;
      var newWidth := width - leftAdj + rightAdj;
      if newWidth == TargetFrameWidth && ValidateBorderAdjustment(sample, newX, newWidth, y) {
        SearchStopsAt(sample, frame, x, y, width, height, adjustments, i);
        return MakeFrame(newX, y, newWidth, height);
      }
      i := i + 1;
    }
    SearchStopsAt(sample, frame, x, y, width, height, adjustments, i);
    return frame;
  }

  /**
   * `_refine_frame_borders_pyautogui`: the same early returns with None
   * outside the tolerance, then the loop over the inline candidate list.
   */
  method RefineFrameBordersPyautogui<C(==)>(sample: (int, int) -> Option<C>, frame: FrameDict) returns (r: Option<FrameDict>)
    ensures r == RefinedFramePyautogui(sample, frame)
  {
    if !IsSet(frame) {
      return None;
    }
    var x, y := Get(frame, X, 0), Get(frame, Y, 0);
    var width, height := Get(frame, Width, 0), Get(frame, Height, 0);
    var targetWidth := 2054;
    if AbsInt(width - targetWidth) > 10 {
      return None;
    }
    var widthDiff := targetWidth - width;
    if widthDiff == 0 {
      return Some(frame);
    }
    if width == 2053 {
      return Some(MakeFrame(x, y, targetWidth, height));
    }
    var adjustments := GetBorderAdjustments(widthDiff);
    var refined := TryAdjustmentsPyautogui(sample, frame, x, y, width, height, adjustments);
    return Some(refined);
  }

  /**
   * The loop of `_refine_frame_borders_pyautogui`: candidates of the wrong
   * width are skipped, the rest checked against the bounds and sampled on
   * row `y + height // 2`; a sample that raises moves on to the next one.
   */
  method TryAdjustmentsPyautogui<C(==)>(sample: (int, int) -> Option<C>, frame: FrameDict, x: int, y: int, width: int, height: int,
                                        adjustments: seq<Adjustment>) returns (r: FrameDict)
    ensures r == SearchResultPyautogui(sample, frame, x, y, width, height, adjustments)
  {
    var targetWidth := 2054;
    var validationY := y + height / 2;
    var i := 0;
    while i < |adjustments|
      invariant 0 <= i <= |adjustments|
      invariant forall j :: 0 <= j < i ==> !AcceptedPyautogui(sample, x, y, width, height, adjustments[j])
    {
      var (leftAdj, rightAdj) := adjustments[i];
      var newX := x + leftAdj;
      var newWidth := width - leftAdj + rightAdj;
      if newWidth == targetWidth {
        var leftX := newX - 1;
        var rightX := newX + newWidth;
        if leftX >= -3840 && rightX < 7680 {
          var leftPixel := sample(leftX, validationY);
          var rightPixel := sample(rightX, validationY);
          if leftPixel.Some? && rightPixel.Some? && leftPixel.value != rightPixel.value {
            SearchStopsAtPyautogui(sample, frame, x, y, width, height, adjustments, i);
            return MakeFrame(newX, y, newWidth, height);
          }
        }
      }
      i := i + 1;
    }
    SearchStopsAtPyautogui(sample, frame, x, y, width, height, adjustments, i);
    return frame;
  }

  /**
   * Where the loop of `TryAdjustments` stops: at index `i`, with every
   * earlier candidate rejected, the search result is candidate `i` if it
   * is accepted, and the input frame when the list is exhausted.
   */
  lemma SearchStopsAt<C>(sample: (int, int) -> Option<C>, frame: FrameDict, x: int, y: int, width: int, height: int,
                         cands: seq<Adjustment>, i: nat)
    requires i <= |cands| && forall j :: 0 <= j < i ==> !Accepted(sample, x, y, width, cands[j])
    ensures i == |cands| ==> SearchResult(sample, frame, x, y, width, height, cands) == frame
    ensures i < |cands| && Accepted(sample, x, y, width, cands[i]) ==>
      SearchResult(sample, frame, x, y, width, height, cands) == MakeFrame(x + cands[i].0, y, AdjustedWidth(width, cands[i]), height)
  {
    var found := FirstValid(sample, x, y, width, cands, 0);
    if found.Some? {
      assert found.value >= i;
    }
  }

  /** The same stopping facts for the loop of `TryAdjustmentsPyautogui`. */
  lemma SearchStopsAtPyautogui<C>(sample: (int, int) -> Option<C>, frame: FrameDict, x: int, y: int, width: int, height: int,
                                  cands: seq<Adjustment>, i: nat)
    requires i <= |cands| && forall j :: 0 <= j < i ==> !AcceptedPyautogui(sample, x, y, width, height, cands[j])
    ensures i == |cands| ==> SearchResultPyautogui(sample, frame, x, y, width, height, cands) == frame
    ensures i < |cands| && AcceptedPyautogui(sample, x, y, width, height, cands[i]) ==>
      SearchResultPyautogui(sample, frame, x, y, width, height, cands) == MakeFrame(x + cands[i].0, y, AdjustedWidth(width, cands[i]), height)
  {
    var found := FirstValidPyautogui(sample, x, y, width, height, cands, 0);
    if found.Some? {
      assert found.value >= i;
    }
  }

  /**
   * The loop's result is the first accepted candidate applied, every
   * earlier one rejected, or the input frame when none is accepted.
   */
  lemma SearchFirstMatch<C>(sample: (int, int) -> Option<C>, frame: FrameDict, x: int, y: int, w: int, h: int, cands: seq<Adjustment>)
    ensures var r := SearchResult(sample, frame, x, y, w, h, cands);
      (r == frame && forall j :: 0 <= j < |cands| ==> !Accepted(sample, x, y, w, cands[j])) ||
      (exists k :: 0 <= k < |cands| && Accepted(sample, x, y, w, cands[k]) &&
        (forall j :: 0 <= j < k ==> !Accepted(sample, x, y, w, cands[j])) &&
        r == MakeFrame(x + cands[k].0, y, AdjustedWidth(w, cands[k]), h))
  {
    var found := FirstValid(sample, x, y, w, cands, 0);
    if found.Some? {
      var k := found.value;
      assert 0 <= k < |cands| && Accepted(sample, x, y, w, cands[k]) &&
        (forall j :: 0 <= j < k ==> !Accepted(sample, x, y, w, cands[j])) &&
        SearchResult(sample, frame, x, y, w, h, cands) == MakeFrame(x + cands[k].0, y, AdjustedWidth(w, cands[k]), h);
    }
  }

  /** The same for the loop of the tracker variant. */
  lemma SearchFirstMatchPyautogui<C>(sample: (int, int) -> Option<C>, frame: FrameDict, x: int, y: int, w: int, h: int, cands: seq<Adjustment>)
    ensures var r := SearchResultPyautogui(sample, frame, x, y, w, h, cands);
      (r == frame && forall j :: 0 <= j < |cands| ==> !AcceptedPyautogui(sample, x, y, w, h, cands[j])) ||
      (exists k :: 0 <= k < |cands| && AcceptedPyautogui(sample, x, y, w, h, cands[k]) &&
        (forall j :: 0 <= j < k ==> !AcceptedPyautogui(sample, x, y, w, h, cands[j])) &&
        r == MakeFrame(x + cands[k].0, y, AdjustedWidth(w, cands[k]), h))
  {
    var found := FirstValidPyautogui(sample, x, y, w, h, cands, 0);
    if found.Some? {
      var k := found.value;
      assert 0 <= k < |cands| && AcceptedPyautogui(sample, x, y, w, h, cands[k]) &&
        (forall j :: 0 <= j < k ==> !AcceptedPyautogui(sample, x, y, w, h, cands[j])) &&
        SearchResultPyautogui(sample, frame, x, y, w, h, cands) == MakeFrame(x + cands[k].0, y, AdjustedWidth(w, cands[k]), h);
    }
  }

  /**
   * Within four pixels of the target, but not at 2053, `_refine_frame_borders`
   * returns what its loop over `_get_border_adjustments(width_diff)` returns.
   */
  lemma RefineSearchesCandidates<C>(sample: (int, int) -> Option<C>, frame: FrameDict)
    requires IsSet(frame)
    requires 1 < AbsInt(TargetFrameWidth - Get(frame, Width, 0)) <= 4
    ensures var w := Get(frame, Width, 0);
      RefinedFrame(sample, frame) ==
        SearchResult(sample, frame, Get(frame, X, 0), Get(frame, Y, 0), w, Get(frame, Height, 0), GetBorderAdjustments(TargetFrameWidth - w))
  {
  }

  /** The same for the tracker variant, whose result is wrapped in Some. */
  lemma RefinePyautoguiSearchesCandidates<C>(sample: (int, int) -> Option<C>, frame: FrameDict)
    requires IsSet(frame)
    requires 1 < AbsInt(TargetFrameWidth - Get(frame, Width, 0)) <= 4
    ensures var w := Get(frame, Width, 0);
      RefinedFramePyautogui(sample, frame) ==
        Some(SearchResultPyautogui(sample, frame, Get(frame, X, 0), Get(frame, Y, 0), w, Get(frame, Height, 0), GetBorderAdjustments(TargetFrameWidth - w)))
  {
  }

  /**
   * A sampler that raises on every call never lets a candidate through, so
   * the tracker variant falls back to the input frame.
   */
  lemma RefinePyautoguiFailingSampler<C>(sample: (int, int) -> Option<C>, frame: FrameDict)
    requires IsSet(frame) && 1 < AbsInt(TargetFrameWidth - Get(frame, Width, 0)) <= 4
    requires forall px, py :: sample(px, py) == None
    ensures RefinedFramePyautogui(sample, frame) == Some(frame)
  {
    var x, y, w, h := Get(frame, X, 0), Get(frame, Y, 0), Get(frame, Width, 0), Get(frame, Height, 0);
    RefinePyautoguiSearchesCandidates(sample, frame);
    SearchFirstMatchPyautogui(sample, frame, x, y, w, h, GetBorderAdjustments(TargetFrameWidth - w));
  }

  /** Where the result does not depend on pixels (width 2053, or no candidates) both variants ignore the sampler. */
  lemma SamplerNotConsulted<C>(s1: (int, int) -> Option<C>, s2: (int, int) -> Option<C>, frame: FrameDict)
    requires Get(frame, Width, 0) == 2053 || 4 < AbsInt(TargetFrameWidth - Get(frame, Width, 0))
    ensures RefinedFrame(s1, frame) == RefinedFrame(s2, frame)
    ensures RefinedFramePyautogui(s1, frame) == RefinedFramePyautogui(s2, frame)
  {
  }

  /**
   * As written, growing by 3 (width 2051) makes the split candidate
   * (-2, 2), whose width 2055 misses the target, so the split is never
   * accepted whatever the pixels say.
   */
  lemma OddGrowthSplitOvershoots<C>(sample: (int, int) -> Option<C>, x: int, y: int, h: int)
    ensures GetBorderAdjustments(3)[2] == (-2, 2)
    ensures AdjustedWidth(2051, GetBorderAdjustments(3)[2]) == 2055
    ensures !Accepted(sample, x, y, 2051, GetBorderAdjustments(3)[2])
    ensures !AcceptedPyautogui(sample, x, y, 2051, h, GetBorderAdjustments(3)[2])
  {
  }

  /**
   * With the corrected list the split candidate reaches the target: when
   * the first two candidates are rejected and the split's borders differ,
   * growing by 3 moves the left edge by one and the right edge by two.
   */
  lemma CorrectedSplitIsTried<C>(sample: (int, int) -> Option<C>, frame: FrameDict)
    requires IsSet(frame) && Get(frame, Width, 0) == 2051
    requires var x, y := Get(frame, X, 0), Get(frame, Y, 0);
      var cands := GetBorderAdjustmentsCorrected(3);
      !Accepted(sample, x, y, 2051, cands[0]) && !Accepted(sample, x, y, 2051, cands[1]) &&
      ValidateBorderAdjustment(sample, x - 1, 2054, y)
    ensures RefinedFrameCorrected(sample, frame) ==
      MakeFrame(Get(frame, X, 0) - 1, Get(frame, Y, 0), 2054, Get(frame, Height, 0))
  {
    var x, y := Get(frame, X, 0), Get(frame, Y, 0);
    var cands := GetBorderAdjustmentsCorrected(3);
    assert cands[2] == (-1, 2);
    assert Accepted(sample, x, y, 2051, cands[2]);
    assert FirstValid(sample, x, y, 2051, cands, 0) == Some(2);
  }
}
