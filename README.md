# Widget Window Spy — a verified model of its geometry core

Widget Window Spy finds a target window and fits a 3:2 "frame" inside its client area. It tracks the mouse relative to that window and frame. It also opens screenshot viewers in which a point, a square or a box can be picked and copied in one of three coordinate modes.

This project models the parts of the program that compute things:

- **Frame geometry and conversion.**
  - the 3:2 fit;
  - screen/frame/percentage conversion;
  - the containment test and the clamps;
  - the magnitude-based classifier;
  - the mode-dispatching converter.
- **Border refinement.** Two first-match searches that nudge the frame to exactly 2054 pixels wide. The pixel sampler is a function parameter.
- **Region tools.** The screenshot-GUI box tool and lattice square tool, and the tracker's resizable square tool. Each is a class whose methods update the tool's rectangle and its drag and resize state.
- **Copy modes.** The mode cycle and the numbers a point or rectangle copies as.
- **Three pixel grids.** The screenshot GUI's, the tracker's and the UI viewer's, each as a loop that builds the line list.
- **Locate.** The coordinate parser, the scene conversion, the box normalisation and the marker colour.
- **The two screenshot viewers.**
  - the zoom counter and the wheel;
  - the tool-mode exclusion;
  - the grid snap;
  - the copied-text read-out;
  - the click test;
  - the locate request;
  - the UI viewer's grid guard and percentage copy.
- **Pointer info.** The two mouse trackers, which build the pointer-info dictionary key by key.

A frame dictionary is a `Frames.FrameDict`: one optional integer for each of the keys `x`, `y`, `width` and `height`, the only keys the source writes or reads. `Get(f, k, default)` is `dict.get`, and `NoFrame` is the empty dictionary. Python floats are modelled as exact `real`s. `int()` is `Numerics.Trunc` (toward zero), `round()` is `Numerics.RoundHalfEven`, and `//` is written out where operands can be negative. The pixel sampler, the cursor reading, the reported window and frame, and the view scale are parameters. Clipboard output is a returned value.

## Model

| member | source | states |
|---|---|---|
| Coordinates.CoordinateSystem.constructor | src/core/coordinates.py:17-18 | a new coordinate system has no frame |
| Coordinates.CoordinateSystem.UpdateFrameArea | src/core/coordinates.py:20-22 | the frame is replaced wholesale |
| Coordinates.CoordinateSystem.IsInsideFrame | src/core/coordinates.py:24-34 | false with no frame; a point inside implies a frame of non-negative width and height (the exact inclusive bounds are `InsideFrameIffFrameCoordsInRange`) |
| Coordinates.CoordinateSystem.ScreenToFrameCoords | src/core/coordinates.py:36-43 | the result plus the frame origin is the screen point; the identity with no frame |
| Coordinates.CoordinateSystem.FrameToScreenCoords | src/core/coordinates.py:45-52 | the result less the frame origin is the frame point; the identity with no frame |
| Coordinates.CoordinateSystem.FrameToPercentage | src/core/coordinates.py:54-64 | each percentage times max(1, dimension), a missing key reading 1, is 100 times the coordinate; (0, 0) with no frame |
| Coordinates.CoordinateSystem.PercentageToFrame | src/core/coordinates.py:66-76 | the percentage scaled by the dimension over 100, truncated toward zero; (0, 0) with no frame |
| Coordinates.CoordinateSystem.AutoDetectCoordinateType | src/core/coordinates.py:78-90 | each class holds exactly under its condition in the fixed order: decimal percent, integer percent, screen, else frame |
| Coordinates.CoordinateSystem.ConvertToFrameCoords | src/core/coordinates.py:92-107 | per class: decimal values scaled by the dimension and truncated, integer percents by dimension/100, screen values truncated less the origin, frame values unchanged; (0, 0) for percentages without a frame |
| Coordinates.CoordinateSystem.CalculateFrameArea | src/core/coordinates.py:109-129 | wider than 3:2: full height, width ⌊3h/2⌋, centred horizontally with `//`; otherwise (including a zero height): full width, height ⌊2w/3⌋, centred vertically |
| Coordinates.CoordinateSystem.ClampToFrameBounds | src/core/coordinates.py:135-145 | the result lies in [0, width] × [0, height], in-range values are kept, a passthrough with no frame |
| Coordinates.CoordinateSystem.ClampPercentageBounds | src/core/coordinates.py:147-151 | the result lies in [0, 100]² and in-range values are kept |
| Coordinates.RatioAboveTarget | src/core/coordinates.py:114-116 | for a positive height the float ratio test `w/h > 1.5` is exactly `2w > 3h` |
| Coordinates.TruncOfRatio | src/core/coordinates.py:119-125 | `int(a / 2)` and `int(a / 3)` of a non-negative integer are integer divisions |
| Coordinates.FrameInsideClient | src/core/coordinates.py:115-127 | for a positive client rectangle the fitted frame lies inside it |
| Coordinates.FrameAspect | src/core/coordinates.py:116-127 | the fitted frame is within one truncation of 3:2 (3h − 2w ∈ {0, 1} or 2w − 3h ∈ {0, 1, 2}) |
| Coordinates.ScreenFrameRoundTrip | src/core/coordinates.py:36-52 | screen → frame → screen is the identity, with or without a frame |
| Coordinates.FrameScreenRoundTrip | src/core/coordinates.py:36-52 | frame → screen → frame is the identity, with or without a frame |
| Coordinates.InsideFrameIffFrameCoordsInRange | src/core/coordinates.py:24-43 | the inclusive containment test holds exactly when the frame coordinates lie in [0, width] × [0, height] |
| Coordinates.InsideFrameExample | tests/test_structure.py:37-38 | frame (100, 100, 800, 600) contains (400, 300) |
| Coordinates.PercentageRoundTrip | src/core/coordinates.py:54-76 | with positive dimensions, frame → percentage → frame is the identity |
| Coordinates.PercentBack | src/core/coordinates.py:54-76 | on one axis of positive extent, a frame offset turned into a percentage and back is the offset |
| Coordinates.ClampToFrameBoundsIdempotent | src/core/coordinates.py:135-145 | clamping twice is clamping once |
| Coordinates.ClampPercentageBoundsIdempotent | src/core/coordinates.py:147-151 | clamping percentages twice is clamping once |
| Coordinates.ClassifierExamples | src/core/coordinates.py:83-90 | (1, 1) is a decimal percentage; (50, 75) integer percent; (1920, 1080) screen; (400, 300) frame |
| Coordinates.NegativeInputIsNotPercentage | src/core/coordinates.py:83-90 | a negative component is never a percentage, and below 1000 on both axes it is a frame coordinate |
| SharedCoordinates.CoordinateSystem.constructor | src/shared_utilities/coordinates.py:11-12 | a new instance has no frame |
| SharedCoordinates.CoordinateSystem.UpdateFrameArea | src/shared_utilities/coordinates.py:14-15 | the frame is replaced wholesale |
| SharedCoordinates.CoordinateSystem.IsInsideFrame | src/shared_utilities/coordinates.py:17-24 | true only for a nonempty frame of non-negative size |
| SharedCoordinates.AgreesWithCoreIsInsideFrame | src/shared_utilities/coordinates.py:17-24 | the shared containment test answers exactly as the core one for the same frame |
| BorderRefinement.GetBorderAdjustments | src/utils/window_detection.py:211-230 | no candidates when \|diff\| > 4; otherwise three, right-only then left-only (each reaching width + diff), then the split, which reaches width + diff except for odd growth, where it reaches width + diff + 1 |
| BorderRefinement.GetBorderAdjustmentsCorrected | src/utils/window_detection.py:211-230 | the intended list: the same order, and every candidate reaches width + diff |
| BorderRefinement.ValidateBorderAdjustment | src/utils/window_detection.py:233-257 | accepts iff both sample columns lie in [−3840, 7680), both samples on row y + 50 succeed and they differ |
| BorderRefinement.FirstValid | src/utils/window_detection.py:198-203 | the index found is the first at or after the start whose candidate has exact width and validates; None means no candidate from the start on is accepted |
| BorderRefinement.FirstValidPyautogui | src/tracker/refine.py:44-57 | the same first-match characterisation under the tracker variant's acceptance test |
| BorderRefinement.RefinedFrameShape | src/utils/window_detection.py:168-208 | y and height are kept; an empty frame, one out of tolerance, width 2054 or \|diff\| > 4 come back unchanged; width 2053 becomes width 2054 at the same x; any other result has width 2054 |
| BorderRefinement.RefinedFrameCorrectedShape | src/utils/window_detection.py:168-208 | the same search over the corrected list keeps y and height, and returns the input or a frame of width 2054 |
| BorderRefinement.RefinedFramePyautoguiShape | src/tracker/refine.py:12-60 | None exactly for an empty frame or one outside the tolerance; otherwise y and height kept, the 2054, 2053 and \|diff\| > 4 cases as in the core variant, and any changed result has width 2054 |
| BorderRefinement.RefineFrameBorders | src/utils/window_detection.py:168-208 | the early returns and the first-match loop compute `RefinedFrame` |
| BorderRefinement.RefineFrameBordersCorrected | src/utils/window_detection.py:168-208 | the same method over the corrected list computes `RefinedFrameCorrected` |
| BorderRefinement.RefineFrameBordersWith | src/utils/window_detection.py:173-205 | the empty-frame, tolerance, on-target and 2053 returns, then the loop, give `RefineWith` for either list |
| BorderRefinement.TryAdjustments | src/utils/window_detection.py:198-205 | the loop returns the first candidate of exact width whose borders validate, applied to the frame, else the input |
| BorderRefinement.RefineFrameBordersPyautogui | src/tracker/refine.py:12-60 | the early returns (None for an empty frame or one outside the tolerance) and the loop compute `RefinedFramePyautogui` |
| BorderRefinement.TryAdjustmentsPyautogui | src/tracker/refine.py:44-58 | the loop that skips wrong widths, guards bounds, samples on row y + height // 2 and moves on when sampling raises returns the first accepted candidate applied, else the input |
| BorderRefinement.SearchStopsAt | src/utils/window_detection.py:198-205 | after rejecting candidates 0..i−1, the loop's result is candidate i when it is accepted, or the input when the list is exhausted |
| BorderRefinement.SearchStopsAtPyautogui | src/tracker/refine.py:44-58 | the same stopping facts for the tracker variant's loop |
| BorderRefinement.SearchFirstMatch | src/utils/window_detection.py:198-205 | either no candidate is accepted and the input comes back, or the first accepted one k decides: x + left adjustment, y kept, adjusted width, height kept |
| BorderRefinement.SearchFirstMatchPyautogui | src/tracker/refine.py:44-58 | the same first-match characterisation for the tracker variant |
| BorderRefinement.RefineSearchesCandidates | src/utils/window_detection.py:186-205 | for 1 < \|diff\| ≤ 4 the result is what the loop over `_get_border_adjustments(diff)` returns |
| BorderRefinement.RefinePyautoguiSearchesCandidates | src/tracker/refine.py:24-58 | the same for the tracker variant, wrapped in Some |
| BorderRefinement.RefinePyautoguiFailingSampler | src/tracker/refine.py:51-58 | a sampler that always raises makes the tracker variant return the input frame |
| BorderRefinement.SamplerNotConsulted | src/utils/window_detection.py:192-205 | at width 2053, or with \|diff\| > 4, both variants give the same result for any two samplers |
| BorderRefinement.OddGrowthSplitOvershoots | src/utils/window_detection.py:220 | as written, growing by 3 gives split (−2, 2) and width 2055, which neither variant can accept |
| BorderRefinement.CorrectedSplitIsTried | src/utils/window_detection.py:198-203 | with the corrected list, width 2051 whose first two candidates fail and whose split validates becomes (x − 1, y, 2054, h) |
| LatticeSquareTool.ValidSizesShape | src/screenshot_gui/utilities/square_tool.py:19-25 | the lattice is the 32 sizes 16, 32, …, 512 and contains the default 64 |
| LatticeSquareTool.SizeIndex | src/screenshot_gui/utilities/square_tool.py:180 | the index of a lattice size holds that size |
| LatticeSquareTool.NextSize | src/screenshot_gui/utilities/square_tool.py:162-168 | stays on the lattice; +16 below 512, unchanged at 512 |
| LatticeSquareTool.PrevSize | src/screenshot_gui/utilities/square_tool.py:169-175 | stays on the lattice; −16 above 16, unchanged at 16 |
| LatticeSquareTool.SizeUpDownInverse | src/screenshot_gui/utilities/square_tool.py:162-175 | up then down, and down then up, return to the size away from the ends |
| LatticeSquareTool.ClosestValidSize | src/screenshot_gui/utilities/square_tool.py:45-50 | the result is on the lattice and, for targets in [8, 520], within 8 of the target |
| LatticeSquareTool.SnapToGrid | src/screenshot_gui/utilities/square_tool.py:41-43 | the result is within half a pixel of the value |
| LatticeSquareTool.InternalGrid | src/screenshot_gui/utilities/square_tool.py:56-82 | 30 lines: 15 vertical at sixteenths of the side, then 15 horizontal |
| LatticeSquareTool.InternalGridInsideSquare | src/screenshot_gui/utilities/square_tool.py:56-82 | for a square, every internal line lies strictly inside it |
| LatticeSquareTool.SquareTool.constructor | src/screenshot_gui/utilities/square_tool.py:27-36 | no square, no grid, not dragging, size 64 |
| LatticeSquareTool.SquareTool.ClipboardText | src/screenshot_gui/utilities/square_tool.py:240-249 | something is copied exactly when a square exists |
| LatticeSquareTool.SquareTool.CreateInternalGrid | src/screenshot_gui/utilities/square_tool.py:56-93 | the grid lines are those of the square (none without one); nothing else changes |
| LatticeSquareTool.SquareTool.EnsureCreated | src/screenshot_gui/utilities/square_tool.py:95-127 | with a square nothing changes; without one, a 64×64 square at ((W−64)/2, (H−64)/2) is placed and copied |
| LatticeSquareTool.SquareTool.Clear | src/screenshot_gui/utilities/square_tool.py:128-144 | no square, no grid, every interaction flag cleared, size back to 64 |
| LatticeSquareTool.SquareTool.DetectResizeDirection | src/screenshot_gui/utilities/square_tool.py:145-148 | always None |
| LatticeSquareTool.SquareTool.BeginDrag | src/screenshot_gui/utilities/square_tool.py:149-154 | dragging becomes true exactly when a square exists; geometry unchanged |
| LatticeSquareTool.SquareTool.BeginResize | src/screenshot_gui/utilities/square_tool.py:155-161 | a no-op that keeps the tool valid |
| LatticeSquareTool.SquareTool.ResizeToSize | src/screenshot_gui/utilities/square_tool.py:205-224 | the size becomes the new lattice size even without a square; an existing square keeps its centre |
| LatticeSquareTool.SquareTool.SizeUp | src/screenshot_gui/utilities/square_tool.py:162-168 | the size becomes `NextSize`; a no-op at 512; the centre is kept |
| LatticeSquareTool.SquareTool.SizeDown | src/screenshot_gui/utilities/square_tool.py:169-175 | the size becomes `PrevSize`; a no-op at 16; the centre is kept |
| LatticeSquareTool.SquareTool.GetSizeInfo | src/screenshot_gui/utilities/square_tool.py:176-190 | the index holds the size, can-size-up iff below 512, can-size-down iff above 16, interval size/16, 256 cells |
| LatticeSquareTool.SquareTool.ApplyMotion | src/screenshot_gui/utilities/square_tool.py:192-204 | only with a square while dragging: translate by (dx, dy), size kept |
| LatticeSquareTool.SquareTool.FinishInteraction | src/screenshot_gui/utilities/square_tool.py:225-238 | all three interaction fields cleared; after a drag left/top are rounded; otherwise geometry unchanged; the square is copied |
| LatticeSquareTool.SquareTool.CurrentRect | src/screenshot_gui/utilities/square_tool.py:250-255 | present exactly with a square, whose sides both equal the current size |
| LatticeSquareTool.FinishMovesAtMostHalfPixel | src/screenshot_gui/utilities/square_tool.py:228-233 | snapping after a drag moves each of left and top by at most half a pixel and keeps the size |
| BBoxTools.InitialBox | src/screenshot_gui/utilities/bbox_tool.py:19-25 | w = max(40, 0.2·W), h = max(40, 0.2·H), centred in the pixmap |
| BBoxTools.EdgeMargin | src/screenshot_gui/utilities/bbox_tool.py:40 | max(4, 8 / max(0.5, scale)), at least 4 |
| BBoxTools.EdgeHit | src/screenshot_gui/utilities/bbox_tool.py:49-63 | inside the grown box, the first of n, s, w, e whose band holds the pointer, else None |
| BBoxTools.Moved | src/screenshot_gui/utilities/bbox_tool.py:81-93 | a drag translates; a resize moves exactly the edges whose letters are in the direction |
| BBoxTools.DragThereAndBack | src/screenshot_gui/utilities/bbox_tool.py:82-83 | a drag by (dx, dy) then (−dx, −dy) restores the rectangle |
| BBoxTools.CornerResizeKeepsOppositeCorner | src/screenshot_gui/utilities/bbox_tool.py:84-93 | a corner resize keeps the opposite corner fixed |
| BBoxTools.DirectionAt | src/screenshot_gui/utilities/bbox_tool.py:38-63 | the corner hit if any, otherwise the edge hit |
| BBoxTools.BBoxTool.constructor | src/screenshot_gui/utilities/bbox_tool.py:9-17 | no box, no working rectangle, no interaction |
| BBoxTools.BBoxTool.ClipboardText | src/screenshot_gui/utilities/bbox_tool.py:105-109 | something is copied exactly when a box exists; the text is `CopyRect` of its left, top, right and bottom edges in the mode |
| BBoxTools.BBoxTool.EnsureCreated | src/screenshot_gui/utilities/bbox_tool.py:19-33 | without a box, both rectangles become `InitialBox` and it is copied; with one, nothing changes |
| BBoxTools.BBoxTool.DetectedDirection | src/screenshot_gui/utilities/bbox_tool.py:35-63 | None without a box; otherwise `DirectionAt` on the painted box |
| BBoxTools.BBoxTool.DetectResizeDirection | src/screenshot_gui/utilities/bbox_tool.py:35-63 | the corner loop and edge tests compute `DetectedDirection` |
| BBoxTools.BBoxTool.BeginDrag | src/screenshot_gui/utilities/bbox_tool.py:65-69 | with a box: dragging, working rectangle := painted box; without one a no-op |
| BBoxTools.BBoxTool.BeginResize | src/screenshot_gui/utilities/bbox_tool.py:71-76 | with a box: resizing in the direction from the painted box; without one a no-op |
| BBoxTools.BBoxTool.ApplyMotion | src/screenshot_gui/utilities/bbox_tool.py:78-97 | the moved rectangle is committed only when both sides ≥ 10, painting the snapped version only when the grid is shown and a snap is given; otherwise both rectangles are unchanged |
| BBoxTools.ResizeEdges | src/screenshot_gui/utilities/bbox_tool.py:84-93 | the resize branch moves exactly the edges named in the direction, by dy for n and s and by dx for w and e |
| BBoxTools.BBoxTool.FinishInteraction | src/screenshot_gui/utilities/bbox_tool.py:99-103 | all three interaction fields cleared, geometry unchanged, the box copied |
| BBoxTools.DeepInsideIsNoHandle | src/screenshot_gui/utilities/bbox_tool.py:39-63 | a pointer more than 40 units inside every edge grabs no handle at any zoom |
| Rects.CornerHit | src/screenshot_gui/utilities/bbox_tool.py:41-48 | the first corner in nw, ne, sw, se order within 2·max(6, 10/max(0.5, scale)) Manhattan distance |
| Rects.HandleSize | src/screenshot_gui/utilities/bbox_tool.py:39 | the corner threshold max(6, 10 / max(0.5, scale)) lies in [6, 20] and is max(6, 10/scale) from half zoom up |
| Rects.ManhattanDistance | src/screenshot_gui/utilities/bbox_tool.py:47 | non-negative, zero exactly for equal points, at least each axis distance |
| Rects.BottomRightCornerHit | src/screenshot_gui/utilities/bbox_tool.py:41-48 | a pointer on the bottom-right corner is reported as se only when the box is larger than the hit distance; otherwise an earlier corner wins |
| Rects.TopLeftCornerHit | src/screenshot_gui/utilities/bbox_tool.py:41-48 | a pointer on the top-left corner is always nw |
| SvSquareTool.InitialSquare | src/tracker/sv_utils/square_tool.py:21-26 | a square of side 16·min(step_x, step_y), positive, centred on the pixmap |
| SvSquareTool.SquareGrid | src/tracker/sv_utils/square_tool.py:54-78 | 34 lines: 17 vertical from the left to the right border, then 17 horizontal |
| SvSquareTool.Handles | src/tracker/sv_utils/square_tool.py:79-101 | four handles of the handle size centred on the corners, nw, ne, sw, se |
| SvSquareTool.Primary | src/tracker/sv_utils/square_tool.py:137-145 | ±dx for e/w, ±dy for n/s; for corners the larger-magnitude signed motion, vertical on a tie |
| SvSquareTool.ResizedSide | src/tracker/sv_utils/square_tool.py:146-148 | max(4, max(w, h) + primary) |
| SvSquareTool.Resized | src/tracker/sv_utils/square_tool.py:146-180 | for each of the eight directions a square of the resized side that keeps the opposite corner, or the opposite edge and the cross centre; any other direction leaves it |
| SvSquareTool.MotionKeepsSquare | src/tracker/sv_utils/square_tool.py:130-185 | a motion keeps a positive square a positive square |
| SvSquareTool.CornerResizeThereAndBack | src/tracker/sv_utils/square_tool.py:146-180 | a se resize by (dx, dy) then (−dx, −dy) restores the square when the minimum was not hit |
| SvSquareTool.CornerTieGoesVertical | src/tracker/sv_utils/square_tool.py:141-145 | with equal motions every corner resize is driven by the vertical one |
| SvSquareTool.SquareTool.constructor | src/tracker/sv_utils/square_tool.py:9-20 | no square and no interaction |
| SvSquareTool.SquareTool.CopiedRect | src/tracker/sv_utils/square_tool.py:192-196 | present exactly with a square, spanning its width and height |
| SvSquareTool.SquareTool.RebuildGrid | src/tracker/sv_utils/square_tool.py:54-78 | with a square the grid becomes `SquareGrid` of it; nothing else changes |
| SvSquareTool.SquareTool.RebuildHandles | src/tracker/sv_utils/square_tool.py:79-101 | with a square the handles become `Handles` of it; nothing else changes |
| SvSquareTool.SquareTool.CreateInitial | src/tracker/sv_utils/square_tool.py:21-38 | the square becomes `InitialSquare`, with its handles, and is copied |
| SvSquareTool.SquareTool.Clear | src/tracker/sv_utils/square_tool.py:39-53 | every field back to its constructor value |
| SvSquareTool.SquareTool.DetectedDirection | src/tracker/sv_utils/square_tool.py:102-116 | None without a square; otherwise the corner hit, always a corner |
| SvSquareTool.SquareTool.DetectResizeDirection | src/tracker/sv_utils/square_tool.py:102-116 | the corner loop computes `DetectedDirection` |
| SvSquareTool.SquareTool.BeginDrag | src/tracker/sv_utils/square_tool.py:117-122 | dragging becomes true exactly when a square exists |
| SvSquareTool.SquareTool.BeginResize | src/tracker/sv_utils/square_tool.py:123-129 | with a square: resizing in the given direction; without one a no-op |
| SvSquareTool.SquareTool.ApplyMotion | src/tracker/sv_utils/square_tool.py:130-185 | with a square, the square becomes `Motion` of it and the handles are rebuilt; without one nothing changes |
| SvSquareTool.SquareTool.FinishInteraction | src/tracker/sv_utils/square_tool.py:186-191 | all three interaction fields cleared, geometry unchanged, the square copied |
| CopyModes.NextIndex | src/screenshot_gui/utilities/copy_modes.py:15-17 | the next index mod 3, staying in [0, 3) |
| CopyModes.CycleHasPeriodThree | src/screenshot_gui/utilities/copy_modes.py:15-17 | three cycles restore the mode and fewer do not |
| CopyModes.CopyModeManager.constructor | src/screenshot_gui/utilities/copy_modes.py:8-10 | the mode starts at PERCENTAGE |
| CopyModes.CopyModeManager.Mode | src/screenshot_gui/utilities/copy_modes.py:12-13 | the mode at the current index |
| CopyModes.CopyModeManager.Cycle | src/screenshot_gui/utilities/copy_modes.py:15-17 | the index advances mod 3 and the new mode's name is returned |
| CopyModes.CopyPoint | src/screenshot_gui/utilities/copy_modes.py:19-29 | PERCENTAGE gives fractions that times max(1, dimension) are the coordinates; FRAME COORDS the truncated values; SCREEN COORDS those plus the frame origin |
| CopyModes.CopyRect | src/screenshot_gui/utilities/copy_modes.py:31-42 | fractions exactly in PERCENTAGE mode |
| CopyModes.CopyRectIsTwoPoints | src/screenshot_gui/utilities/copy_modes.py:31-42 | a rectangle copies as its (x1, y1) point followed by its (x2, y2) point, in every mode |
| CopyModes.ScreenIsFramePlusOrigin | src/screenshot_gui/utilities/copy_modes.py:24-29 | SCREEN COORDS is FRAME COORDS plus the origin, number by number |
| CopyModes.EmptyFrameCopies | src/screenshot_gui/utilities/copy_modes.py:20-29 | an empty frame copies percentages of a 1×1 frame and screen equal to frame coordinates |
| PixelGrid.BaseSteps | src/screenshot_gui/utilities/grid.py:6-8 | always (1, 1) |
| PixelGrid.GridSpacing | src/screenshot_gui/utilities/grid.py:26-35 | one of 1, 2, 4, 8, 16 |
| PixelGrid.SpacingNonIncreasing | src/screenshot_gui/utilities/grid.py:14-35 | zooming in never widens the spacing |
| PixelGrid.ScreenSpacingBand | src/screenshot_gui/utilities/grid.py:26-35 | from 1× to 16× a cell spans 16 to 32 screen pixels, and at least 16 beyond |
| PixelGrid.PositionsCount | src/screenshot_gui/utilities/grid.py:37-51 | extent / s + 1 positions for a non-negative extent, none for a negative one |
| PixelGrid.ColumnsShape | src/screenshot_gui/utilities/grid.py:37-43 | one full-height vertical line at each x = i·s within [0, width] |
| PixelGrid.AppendColumns | src/screenshot_gui/utilities/grid.py:37-43 | the `while x <= width` loop appends exactly those column lines |
| PixelGrid.RowsShape | src/screenshot_gui/utilities/grid.py:45-51 | one full-width horizontal line at each y = j·s within [0, height] |
| PixelGrid.AppendRows | src/screenshot_gui/utilities/grid.py:45-51 | the `while y <= height` loop appends exactly those row lines |
| PixelGrid.CreatePixelGrid | src/screenshot_gui/utilities/grid.py:11-53 | None exactly for scale ≤ 0; otherwise the columns then rows at the zoom's spacing |
| SvGrid.BaseSteps | src/tracker/sv_utils/grid.py:11-14 | both steps positive, step_x·192 = max(1, width) and step_y·128 = max(1, height) |
| SvGrid.Stride | src/tracker/sv_utils/grid.py:30-37 | one of 1, 2, 5, 10 |
| SvGrid.StrideNonIncreasing | src/tracker/sv_utils/grid.py:30-40 | a larger cell never gets a larger stride; at 0.8 px per cell lines are ≥ 8 screen px apart |
| SvGrid.EffectiveScale | src/tracker/sv_utils/grid.py:26 | max(0.0001, scale) |
| SvGrid.StrideIndices | src/tracker/sv_utils/grid.py:43-51 | last / stride + 1 indices |
| SvGrid.StrideIndicesIsRange | src/tracker/sv_utils/grid.py:43-51 | the indices are exactly `range(0, last + 1, stride)` |
| SvGrid.KeptColumnsSound | src/tracker/sv_utils/grid.py:43-48 | every kept column is a full-height line inside [0, width] |
| SvGrid.KeptRowsSound | src/tracker/sv_utils/grid.py:51-56 | every kept row is a full-width line inside [0, height] |
| SvGrid.KeptColumnsComplete | src/tracker/sv_utils/grid.py:43-48 | every candidate column inside [0, width] is kept |
| SvGrid.KeptRowsComplete | src/tracker/sv_utils/grid.py:51-56 | every candidate row inside [0, height] is kept |
| SvGrid.AddColumns | src/tracker/sv_utils/grid.py:43-48 | the column loop computes the kept columns at i·step_x |
| SvGrid.AddRows | src/tracker/sv_utils/grid.py:51-56 | the row loop computes the kept rows at j·step_y |
| SvGrid.CreatePixelGrid | src/tracker/sv_utils/grid.py:17-58 | the kept columns for indices 0..192 at the column stride, then the kept rows for 0..128 at the row stride; never None |
| SvGrid.EdgeLinesWhenStrideDivides | src/tracker/sv_utils/grid.py:42-56 | for an image the size of the frame, the right and bottom borders get a line when the stride divides 192 or 128 |
| Locate.NumberValue | src/tracker/sv_utils/locate.py:18-22 | `float()` of a matched number is non-negative |
| Locate.NumberCharacters | src/tracker/sv_utils/locate.py:8-11 | a number holds no whitespace or comma |
| Locate.NatTextIsNumber | src/tracker/sv_utils/locate.py:8-11 | `str(n)` matches the number pattern and is worth n |
| Locate.Fields | src/tracker/sv_utils/locate.py:15 | the fields of the stripped, space-free input |
| Locate.Parse | src/tracker/sv_utils/locate.py:14-24 | four numbers give a box (tried first), two a point, anything else None; mode and frame play no part |
| Locate.FieldsOfNumbers | src/tracker/sv_utils/locate.py:14-24 | numbers joined by commas split back into those numbers |
| Locate.ParsePointRoundTrip | src/tracker/sv_utils/locate.py:20-23 | `a,b` of two numbers parses as the point they denote |
| Locate.WhitespaceInPoint | src/tracker/sv_utils/locate.py:8 | any `str.isspace` character other than a space (an ideographic space, say) between the comma and a number is taken by `\s*`, so `a,<c>b` still parses as the point (a, b) |
| Locate.PaddedPoint | src/tracker/sv_utils/locate.py:8 | padding without spaces or commas that `strip()` removes from the second field leaves the point (a, b) |
| Locate.IdeographicSpaceExample | src/tracker/sv_utils/locate.py:8 | "12,\u300034" parses as the point (12, 34) |
| Locate.ParseBBoxRoundTrip | src/tracker/sv_utils/locate.py:16-19 | `a,b,c,d` of four numbers parses as the box they denote |
| Locate.NumberExamples | src/tracker/sv_utils/locate.py:8-11 | "12", ".5" and "0.75" match, worth 12, 0.5 and 0.75 |
| Locate.NotNumberExamples | src/tracker/sv_utils/locate.py:8-11 | "5.", "-1", "1e3" and the empty text do not match |
| Locate.ConvertToSceneCoords | src/tracker/sv_utils/locate.py:27-38 | PERCENTAGE multiplies by the dimensions, FRAME COORDS and unknown modes pass through, SCREEN COORDS subtracts the origin |
| Locate.LocateInvertsCopy | src/tracker/sv_utils/locate.py:27-38 | locating a copied point in the same mode lands on it (exactly for PERCENTAGE, truncated for the integer modes) |
| Locate.RelocatePercentage | src/tracker/sv_utils/locate.py:27-31 | a point copied as PERCENTAGE from a frame of positive size locates back exactly on itself |
| Locate.NormalisedRect | src/tracker/sv_utils/locate.py:41-44 | the outline has no negative side and contains both corners |
| Locate.NormalisedRectSymmetric | src/tracker/sv_utils/locate.py:41-44 | the outline does not depend on which corner comes first |
| Locate.LocateColor | src/tracker/sv_utils/locate.py:53-68 | yellow exactly when the truncated target is in the image and its first three channels exceed 200 |
| Locate.LocateColorNearEdge | src/tracker/sv_utils/locate.py:57 | truncation lets a target less than one pixel outside sample pixel 0; one a whole pixel outside is white |
| CopiedText.PointTextFields | src/tracker/screenshot_viewer.py:414-421 | a copied click's text splits and parses back into its two integers |
| CopiedText.EdgesTextFields | src/tracker/screenshot_viewer.py:414-427 | a copied box's text splits and parses back into its four edges |
| CopiedText.InitialCopiedFields | src/tracker/screenshot_viewer.py:414-421 | the initial "----, ----" has two fields, neither an integer |
| CopiedText.InitialCopiedSplit | src/tracker/screenshot_viewer.py:414 | the placeholder, spaces removed and split at the comma, is two runs of dashes |
| CopiedText.DashesNotANumber | src/tracker/screenshot_viewer.py:418-419 | `int("----")` fails |
| Text.ParseIntToString | src/tracker/screenshot_viewer.py:418-419 | `int(str(i))` is i for every integer, negative ones included |
| CopiedText.ParsedIntTexts | src/tracker/screenshot_viewer.py:414-427 | `int(str(n))` of each field is n |
| TrackerViewer.ZoomAfter | src/tracker/screenshot_viewer.py:358-363 | max(0, zoom + step): non-negative, and zoom + step when that is |
| TrackerViewer.ZoomInThenOut | src/tracker/screenshot_viewer.py:358-363 | one notch in and out restores the counter; out at 0 stays 0 |
| TrackerViewer.WheelStep | src/tracker/screenshot_viewer.py:372-375 | the sign of the delta, 0 exactly for 0 |
| TrackerViewer.MotionScale | src/tracker/screenshot_viewer.py:603 | at least 1e-6, and the view scale itself when that is at least 1e-6 |
| TrackerViewer.MotionDelta | src/tracker/screenshot_viewer.py:602-625 | the scene delta times max(1e-6, scale) is the viewport delta |
| TrackerViewer.Percent | src/tracker/screenshot_viewer.py:425-426 | in [0, 100], and c·100/dim when c is in [0, dim] |
| TrackerViewer.CopiedDisplayOf | src/tracker/screenshot_viewer.py:412-434 | neither 2 nor 4 fields shows the placeholder |
| TrackerViewer.ValuesDisplay | src/tracker/screenshot_viewer.py:412-434 | a point line iff two integers and nonzero dimensions, with screen = frame + origin and clamped percentages; a box line iff four integers, shifted by the origin |
| TrackerViewer.InitialCopiedShowsPlaceholder | src/tracker/screenshot_viewer.py:412-434 | before any copy the read-out is the placeholder |
| TrackerViewer.PointTextDisplay | src/tracker/screenshot_viewer.py:412-426 | a copied click shows as that point, shifted by the origin on screen |
| TrackerViewer.EdgesTextDisplay | src/tracker/screenshot_viewer.py:427-431 | a copied box shows as that box and its shifted copy |
| TrackerViewer.SnapValue | src/tracker/screenshot_viewer.py:722-725 | the snapped edge is within half a step of the edge |
| TrackerViewer.SnapValueIdempotent | src/tracker/screenshot_viewer.py:722-725 | snapping twice is snapping once |
| TrackerViewer.SnapValueMonotone | src/tracker/screenshot_viewer.py:722-725 | snapping keeps the order of two coordinates |
| TrackerViewer.SnapRectToGrid | src/tracker/screenshot_viewer.py:716-730 | the identity with the grid hidden; otherwise each edge snapped, inverted edges swapped, no negative side |
| TrackerViewer.SnapMovesEdgesByHalfAStep | src/tracker/screenshot_viewer.py:722-730 | a rectangle with no negative side snaps without a swap, each edge moving by at most half a step |
| TrackerViewer.SnapRectIdempotent | src/tracker/screenshot_viewer.py:716-730 | snapping a snapped rectangle changes nothing |
| TrackerViewer.LocateResult | src/tracker/screenshot_viewer.py:526-554 | "Enter coordinates" iff the stripped text is empty, "Bad format" iff it does not parse; a target has the locate colour; a box has no negative side |
| TrackerViewer.BlankLocateText | src/tracker/screenshot_viewer.py:528-531 | a text made only of an ideographic space strips to nothing and asks for coordinates |
| TrackerViewer.LocatePoint | src/tracker/screenshot_viewer.py:532-541 | a text that parses as a point targets that point converted to scene coordinates |
| TrackerViewer.LocateCopiedFramePoint | src/tracker/screenshot_viewer.py:526-541 | a point copied in FRAME COORDS and typed back targets the point it came from |
| TrackerViewer.LocateFramePoint | src/tracker/screenshot_viewer.py:532-541 | in FRAME COORDS a text that parses as a point targets that very point |
| TrackerViewer.LocateBox | src/tracker/screenshot_viewer.py:542-551 | a text that parses as a box outlines its two corners converted to scene coordinates and put in order, captioned with their truncations |
| TrackerViewer.LocateCopiedFrameBox | src/tracker/screenshot_viewer.py:526-551 | a box copied in FRAME COORDS and typed back outlines the box it came from, captioned with its four edges |
| TrackerViewer.LocateFrameBox | src/tracker/screenshot_viewer.py:542-551 | in FRAME COORDS a text that parses as a box outlines exactly that box |
| TrackerViewer.Viewer.constructor | src/tracker/screenshot_viewer.py:62-117 | zoom 0, grid and both tools off, the placeholder copied, no locate target or boxes |
| TrackerViewer.Viewer.Zoom | src/tracker/screenshot_viewer.py:358-370 | the counter becomes `ZoomAfter`; nothing else changes |
| TrackerViewer.Viewer.Wheel | src/tracker/screenshot_viewer.py:372-376 | with a photo, zoom by the wheel's sign; without one nothing changes |
| TrackerViewer.Viewer.ToggleGrid | src/tracker/screenshot_viewer.py:561-565 | the right button flips the grid flag only |
| TrackerViewer.Viewer.ToggleSquare | src/tracker/screenshot_viewer.py:488-509 | square mode flips; turning it on turns box mode off and, with a photo, places and copies the initial square |
| TrackerViewer.Viewer.ToggleBBox | src/tracker/screenshot_viewer.py:510-525 | box mode flips; turning it on turns square mode off and clears the square |
| TrackerViewer.Viewer.ReleaseClick | src/tracker/screenshot_viewer.py:677-686 | with no tool and a photo, a release within 3 px of the press on the pixmap copies the truncated point; otherwise nothing changes |
| TrackerViewer.Viewer.SquareMotion | src/tracker/screenshot_viewer.py:602-610 | in square mode while interacting, the square takes the motion scaled back by the view scale |
| TrackerViewer.Viewer.SquareRelease | src/tracker/screenshot_viewer.py:656-665 | ends the interaction and copies the square's truncated edges |
| TrackerViewer.Viewer.LocateClicked | src/tracker/screenshot_viewer.py:526-554 | the outcome is `LocateResult`, and the view becomes `AfterLocate` of it |
| UiViewer.GridStep | src/ui/screenshot_viewer.py:573-581 | one of 1, 2, 5, 10; a line at least every 5 screen px from 0.5×; coarser than 1 below 8× |
| UiViewer.GridStepNonIncreasing | src/ui/screenshot_viewer.py:573-581 | a closer view never gets a coarser grid |
| UiViewer.ZoomFactor | src/ui/screenshot_viewer.py:364 | 1.25 ** step: positive, above 1 for positive steps, below 1 for negative, 1 at 0 |
| UiViewer.ZoomFactorInverse | src/ui/screenshot_viewer.py:364 | zooming in by a step and out by it restores the scale |
| UiViewer.ShownGrid | src/ui/screenshot_viewer.py:544-559 | a grid exactly when it is on, a photo is loaded and the scale ≥ 0.5 |
| UiViewer.CreatePixelGrid | src/ui/screenshot_viewer.py:563-595 | the two loops compute the columns then rows over 0..width and 0..height at the zoom's step |
| UiViewer.ClampedPercent | src/ui/screenshot_viewer.py:531-532 | in [0, 100], and c·100/dim when c is in [0, dim] |
| UiViewer.HoverDisplay | src/ui/screenshot_viewer.py:434-455 | as written: (0, 0) shows the placeholder; a zero dimension raises (None); any other pixel shows its screen and frame position and clamped percentages |
| UiViewer.HoverAtOriginShowsPlaceholder | src/ui/screenshot_viewer.py:423-436 | hovering pixel (0, 0) shows the same placeholder as hovering nothing |
| UiViewer.HoverLine | src/ui/screenshot_viewer.py:423-455 | corrected: nothing hovered shows the placeholder and every hovered pixel, the origin included, shows its position |
| UiViewer.HoverLineAgrees | src/ui/screenshot_viewer.py:434-455 | away from the origin the corrected read-out equals the one written |
| UiViewer.UiCopiedDisplay | src/ui/screenshot_viewer.py:467-491 | never a box; a point line only for two integer fields, which it shows |
| UiViewer.UiCopiedDisplayAgrees | src/ui/screenshot_viewer.py:467-491 | the tracker viewer's read-out with a box replaced by the placeholder |
| UiViewer.CopiedClickShown | src/ui/screenshot_viewer.py:467-488 | a copied click shows as the point it copied |
| UiViewer.Viewer.constructor | src/ui/screenshot_viewer.py:45-100 | zoom 0, grid off, the placeholder copied; a photo is fitted |
| UiViewer.Viewer.UpdateGrid | src/ui/screenshot_viewer.py:544-561 | the grid becomes `ShownGrid`; nothing else changes |
| UiViewer.Viewer.Zoom | src/ui/screenshot_viewer.py:355-369 | no-op without a photo; otherwise the counter becomes `ZoomAfter`, and on change the scale is multiplied by `ZoomFactor` (fitted again at 0) and the grid redrawn |
| UiViewer.Viewer.Wheel | src/ui/screenshot_viewer.py:371-376 | with a photo, zoom by the sign of a nonzero delta; a zero delta changes nothing |
| UiViewer.Viewer.ToggleGrid | src/ui/screenshot_viewer.py:406-409 | the right button flips the grid flag and redraws it |
| UiViewer.Viewer.ReleaseClick | src/ui/screenshot_viewer.py:390-404 | copies exactly for a ≤ 3 px click on the photo with nonzero frame dimensions: fractions in [0, 1] equal to the clamped percentages / 100, and the truncated point becomes the copied text |
| UiViewer.ClipboardFractionScalesBack | src/ui/screenshot_viewer.py:531-535 | a fraction copied inside a positive frame scales back to the coordinate |
| MouseTracker.CursorPosition | src/core/mouse_tracker.py:70-81 | the cursor, or (0, 0) when reading it raised |
| MouseTracker.Percentage | src/core/mouse_tracker.py:96-97 | p·max(1, extent) = 100·offset, in [0, 100] for an offset in range |
| MouseTracker.MouseTracker.constructor | src/core/mouse_tracker.py:23-29 | no callbacks, no frame, no recorded position |
| MouseTracker.MouseTracker.SetCoordinateCallbacks | src/core/mouse_tracker.py:31-34 | both callbacks installed, nothing else changes |
| MouseTracker.MouseTracker.AddWindowInfo | src/core/mouse_tracker.py:83-98 | adds exactly the window entries, none without a callback or window |
| MouseTracker.MouseTracker.AddFrameInfo | src/core/mouse_tracker.py:100-126 | adds exactly the frame entries, none without a callback or frame; a reported frame is stored |
| MouseTracker.MouseTracker.GetPositionInfo | src/core/mouse_tracker.py:55-68 | the result is `PositionInfo` of the cursor, the window (if its callback is set) and the frame (if its callback is set) |
| MouseTracker.MouseTracker.EmitPosition | src/core/mouse_tracker.py:49-53 | the tick's info becomes the last recorded position |
| MouseTracker.PercentageDefaultWidth | src/core/mouse_tracker.py:120-124 | a missing dimension read as 0 or as 1 gives the same divisor max(1, ·) |
| MouseTracker.ScreenKeysAlwaysPresent | src/core/mouse_tracker.py:57-81 | screen_x/screen_y are always present, and (0, 0) when the cursor read failed |
| MouseTracker.WindowKeys | src/core/mouse_tracker.py:85-98 | inside_window present iff a window is reported, and is the inclusive test; the percentages present iff inside, each in [0, 100] |
| MouseTracker.FrameKeys | src/core/mouse_tracker.py:102-126 | inside_frame present iff the frame is nonempty, and is the inclusive test; frame_x/frame_y and percentages present iff inside |
| MouseTracker.FrameOffsets | src/core/mouse_tracker.py:116-119 | inside the frame, frame_x and frame_y are the screen position less the frame origin |
| MouseTracker.FramePercentagesInRange | src/core/mouse_tracker.py:116-124 | inside the frame the percentages lie in [0, 100] and scale back to the offsets |
| MouseTracker.FrameEntriesInside | src/core/mouse_tracker.py:110-124 | inside the frame the entries are the flag, the offsets and their percentages |
| TrackerMouseTracker.InlineMouseTracker.constructor | src/tracker/mouse_tracker.py:16-22 | no callbacks, no frame, no recorded position |
| TrackerMouseTracker.InlineMouseTracker.SetCoordinateCallbacks | src/tracker/mouse_tracker.py:24-26 | both callbacks installed |
| TrackerMouseTracker.InlineMouseTracker.GetPositionInfo | src/tracker/mouse_tracker.py:39-79 | the inline builder produces exactly the core tracker's `PositionInfo` and stores a reported frame |
| TrackerMouseTracker.InlineMouseTracker.AddWindowKeys | src/tracker/mouse_tracker.py:51-60 | the inline window block adds exactly the window entries, none without a callback or window |
| TrackerMouseTracker.InlineMouseTracker.AddFrameKeys | src/tracker/mouse_tracker.py:61-78 | the inline frame block adds exactly the frame entries |
| TrackerMouseTracker.InlineMouseTracker.EmitPosition | src/tracker/mouse_tracker.py:34-37 | the tick's info becomes the last recorded position |

## Left out

- Qt widgets and event plumbing are not modelled: layouts, banners, stylesheets, cursors, painting, scene item bookkeeping (`addItem`/`removeItem`) and the mouse event dispatch. A grid is its list of lines, and a tool's rectangle is a value.
- Window discovery (win32 enumeration, `ClientToScreen`) is OS I/O and is not modelled. src/shared_utilities/window_detection.py only repeats the frame fit of `CalculateFrameArea`.
- Foreign calls become parameters:
  - `pyautogui.pixel` is the `sample` function, with None for a call that raises.
  - `GetCursorPos` is the optional cursor.
  - The window and frame callbacks are the values they return.
  - The screenshot pixel read is the `pixel` function.
- Clipboard writes become returned values: `CopyText` numbers, the UI viewer's fraction pair, and the copied text a viewer keeps.
- Float text rendering is left abstract: `:.6f`, `:>7.4f` and the banner strings. The model states the numbers the strings carry. The integer texts `str(n)` and `f"{n:>4}"` are modelled exactly.
- Reals are exact. IEEE rounding of Python floats is not modelled.
- Timers and animation are not modelled: start/stop tracking, the polling timer, and the locate animation frames and their stop (`_update_locate_animation`, `_stop_locate_animation`). Only the state a locate request sets is modelled.
- Config persistence (src/shared_utilities/config_manager.py) is file I/O.
- Trivial getters are not modelled: `get_frame_info`, `get_last_position`, `is_tracking` and `hasPhoto` have no logic.
- src/tracker/coordinates.py, which the tracker's mouse tracker imports, is not part of this model. Its coordinate system is modelled by src/shared_utilities/coordinates.py, which the tracker's `_get_position_info` uses only to store the frame and test containment.
- src/tracker/sv_utils/bbox_tool.py and src/tracker/sv_utils/copy_modes.py are not part of this model.
  - The tracker viewer's box-tool calls are not modelled; toggling box mode is.
  - Its clipboard writes are not modelled; the copied text it keeps is.
- The UI viewer's `_on_draw_bbox_clicked`, `_on_locate_clicked` and `_on_clear_clicked` do nothing, so its `draw_bbox_mode` is always false and is not a field.
- `resetView` fits the photo to the viewport, a Qt computation. Its resulting scale is the `fitScale` parameter. The tracker viewer's own scale changes on zoom are not tracked; only its counter is.
- Text.ParseInt models `int()` on decimal digits with an optional sign and surrounding whitespace. It does not accept Python's `_` digit separators or non-ASCII digits, which none of the texts the viewers write contain.
- Coordinates.CoordinateSystem.CalculateFrameArea: the contract does not state the result for a negative client width or height. The body still follows the source there.
- Coordinates.CoordinateSystem.ClampToFrameBounds: the upper bounds are stated only for non-negative frame dimensions. With a negative dimension the source's clamp returns 0, whatever it is.
- BorderRefinement.RefineFrameBorders: an exception inside the search can only come from the sampler. The validator catches it, so the outer `except` of the source is not modelled separately.
- SvGrid.CreatePixelGrid: the `step <= 0` guard never fires, because `BaseSteps` is always positive, so the method always returns lines and the None branch is not modelled.
- TrackerViewer.SnapRectToGrid: its guard against a non-positive step is likewise unreachable and not modelled.

## Findings

| source | as written | input that shows it | evidently intended | confidence | as-written member | corrected member |
|---|---|---|---|---|---|---|
| src/utils/window_detection.py:220 (also src/tracker/refine.py:35) | the growth split is `(-width_diff // 2, width_diff // 2 + width_diff % 2)`; Python reads this as `(-width_diff) // 2`, which floors an odd deficit one step further left | width 2051 (deficit 3): split (−2, 2) gives width 2055, so the split candidate can never be accepted | `-(width_diff // 2)`, giving (−1, 2) and width 2054, like the shrink split | high (not executed) | BorderRefinement.OddGrowthSplitOvershoots | BorderRefinement.CorrectedSplitIsTried |
| src/ui/screenshot_viewer.py:436 (also src/tracker/screenshot_viewer.py:394) | `_on_coordinates_changed` tests `point.isNull()`. `updateCoordinates` passes a null `QPoint()` for "not under the mouse", and a hovered pixel (0, 0) is also null. The tracker's viewer has the same test: its `updateCoordinates` builds the point at lines 388-390 and its read-out is the same computation, so `HoverDisplay` stands for both | hovering the top-left pixel of the image shows the "----" placeholder instead of its coordinates | keep "not hovered" apart from pixel (0, 0) and show every hovered pixel | medium (not executed) | UiViewer.HoverAtOriginShowsPlaceholder | UiViewer.HoverLineAgrees |
