# Label brush of imglib2-labkit, modelled in Dafny

This project models the interactive label-painting core of imglib2-labkit:
the `LabelBrushController`, which keeps the brush radius, the active label
index, the drag anchor and the list of per-label bit regions, and paints or
erases brush footprints into the active region; and the parts of
`LabelingComponent` that choose the viewer mode and the pixel generator and
that replace the held labeling only over an identical interval.

Files and modules:

- `java_lang.dfy` (`JavaLang`): Java `int` arithmetic with two's-complement
  wrap, `Math.min`/`Math.max`, and the two exceptions the code can throw,
  returned as an `Outcome` (`Pass` or `Fail(error)`).
- `grid.dfy` (`Grid`): grid points, intervals with `Intervals.contains`, and
  the `double[3]` vectors of stroke interpolation as exact reals.
- `labeling.dfy` (`Labelings`): a `Region` class (a bit image over an
  interval; its field `on` is the set of `true` pixels) and the `Labeling`
  value (label names, interval, regions in label order). The repository's
  `Labeling` class is not part of this model; `CreateLabeling` follows how
  `new Labeling(names, interval)` is used.
- `label_brush.dfy` (`LabelBrush`): the controller as a class whose event
  methods update its fields in place, with the specification functions they
  are proved against: `Dab` (one footprint), `Stroke` (footprints in order),
  `IntermediateCount` and `SegmentCenters` (the gap-filling loop), and the
  scroll functions `RadiusAfterScroll` and `LabelAfterScroll`.
- `labeling_component.dfy` (`LabelingComponents`): generator selection, the
  2D/3D decision, and the component class that holds the labeling and
  forwards a replacement to the controller, as the holder's notification does.

Collaborators the source only calls are function-valued constants of the
controller: `toLabelSpace` stands for `setCoordinates` (display to global
coordinates, then the inverse label transform), `getPaintPixels` for the
generator's iterator (a finite coordinate sequence for a generator, centre,
timepoint and radius), and `length` for `LinAlgHelpers.length`, of which the
model knows only that the zero vector has length 0. The current timepoint of
the viewer is a parameter of every paint method.

Where the code departs from what it evidently intends, the model follows the
code: `updateLabeling` clamps the label index to the label count, not to the last
index (see Findings), and a radius scroll-up on `Integer.MAX_VALUE` wraps.

## Model

| member | source | states |
|---|---|---|
| JavaLang.Wrap | src/main/java/net/imglib2/atlas/control/brush/LabelBrushController.java:246-248 | the Java `int` that a mathematical integer wraps to: itself when it fits, otherwise the value congruent to it modulo 2^32 |
| JavaLang.Min | src/main/java/net/imglib2/atlas/control/brush/LabelBrushController.java:105 | `Math.min`: the result is at most both arguments and equals one of them |
| JavaLang.Max | src/main/java/net/imglib2/atlas/control/brush/LabelBrushController.java:248 | `Math.max`: the result is at least both arguments and equals one of them |
| JavaLang.Inc | src/main/java/net/imglib2/atlas/control/brush/LabelBrushController.java:246 | `x + 1` on Java `int`: exact below `INT_MAX`, wraps to `INT_MIN` at it |
| JavaLang.Dec | src/main/java/net/imglib2/atlas/control/brush/LabelBrushController.java:248 | `x - 1` on Java `int`: exact above `INT_MIN`, wraps to `INT_MAX` at it |
| Labelings.Region.constructor | src/main/java/net/imglib2/atlas/LabelingComponent.java:122 | a new region lies over the given interval with every bit `false` |
| Grid.Contains | src/main/java/net/imglib2/atlas/control/brush/LabelBrushController.java:142 | `Intervals.contains`: every coordinate of the position lies within its axis bounds, so the position has the interval's number of dimensions |
| Grid.Sub | src/main/java/net/imglib2/atlas/control/brush/LabelBrushController.java:166 | `LinAlgHelpers.subtract`: adding the subtrahend back gives the minuend, and a point minus itself is the zero vector |
| Grid.Normalize | src/main/java/net/imglib2/atlas/control/brush/LabelBrushController.java:169 | `LinAlgHelpers.normalize` by the length `l`: scaling the result by `l` gives the vector back; for `l == 0` the vector is returned unchanged (the source divides by zero, and that vector is never used) |
| Grid.Add | src/main/java/net/imglib2/atlas/control/brush/LabelBrushController.java:173 | `LinAlgHelpers.add`: subtracting the addend from the sum gives the other operand back |
| Labelings.Region.Set | src/main/java/net/imglib2/atlas/control/brush/LabelBrushController.java:143 | writing a bit sets exactly that pixel to `v`, every other pixel keeps its value, and the region stays inside its interval |
| Labelings.CreateLabeling | src/main/java/net/imglib2/atlas/LabelingComponent.java:122 | one fresh, pairwise distinct, all-false region per label name, each over the given interval |
| LabelBrush.DoPaint | src/main/java/net/imglib2/atlas/control/brush/LabelBrushController.java:219-235 | the `Paint` behaviour writes `true`, the `Erase` behaviour writes `false` |
| LabelBrush.Dab | src/main/java/net/imglib2/atlas/control/brush/LabelBrushController.java:135-144 | after one footprint, every generated pixel inside the interval is `v` and every other pixel keeps its prior value; no pixel outside the interval becomes true |
| LabelBrush.LaterDabWins | src/main/java/net/imglib2/atlas/control/brush/LabelBrushController.java:139-144 | two writes of the same footprint equal the second alone, so paint-then-erase equals erase |
| LabelBrush.DabIdempotent | src/main/java/net/imglib2/atlas/control/brush/LabelBrushController.java:143 | painting twice equals painting once; erasing twice equals erasing once |
| LabelBrush.PaintThenEraseClears | src/main/java/net/imglib2/atlas/control/brush/LabelBrushController.java:225-235 | after Paint then Erase of one footprint, every in-bounds footprint pixel is false |
| LabelBrush.EraseUndoesPaint | src/main/java/net/imglib2/atlas/control/brush/LabelBrushController.java:225-235 | erasing a footprint that was all false before it was painted restores the region exactly |
| LabelBrush.Stroke | src/main/java/net/imglib2/atlas/control/brush/LabelBrushController.java:155-177 | the pixels after writing the footprints in order, each by `Dab` on the result of the ones before; its meaning is stated by the lemmas below |
| LabelBrush.StrokeIsUnion | src/main/java/net/imglib2/atlas/control/brush/LabelBrushController.java:155-177 | a stroke of dabs sets (or clears) exactly the union of the dabs' in-bounds pixels, whatever their order |
| LabelBrush.StrokeStaysWithinInterval | src/main/java/net/imglib2/atlas/control/brush/LabelBrushController.java:142 | a stroke never sets a pixel outside the region's interval |
| LabelBrush.SameCoverageSameStroke | src/main/java/net/imglib2/atlas/control/brush/LabelBrushController.java:171-176 | two strokes covering the same in-bounds pixels leave the same region, however densely they sample the path |
| LabelBrush.IntermediateCount | src/main/java/net/imglib2/atlas/control/brush/LabelBrushController.java:171 | the count `n` of the loop `for (int i = 1; i < l; ++i)`: `n == 0` or `n < l`, and `l <= n + 1` |
| LabelBrush.DabIndexExact | src/main/java/net/imglib2/atlas/control/brush/LabelBrushController.java:171 | an integer `i` satisfies `1 <= i < l` iff `1 <= i <= IntermediateCount(l)` |
| LabelBrush.Advance | src/main/java/net/imglib2/atlas/control/brush/LabelBrushController.java:171-174 | the point `p1` after `k` executions of `p1 += d`; `AdvanceIsEvenlySpaced` gives its closed form |
| LabelBrush.AdvanceIsEvenlySpaced | src/main/java/net/imglib2/atlas/control/brush/LabelBrushController.java:166-173 | after `k` steps of `p1 += d` the point is `a + k d`: the intermediate dabs are evenly spaced |
| LabelBrush.SegmentCenters | src/main/java/net/imglib2/atlas/control/brush/LabelBrushController.java:171-174 | the centres of the intermediate dabs in painting order, the `k`-th after `k + 1` advances |
| LabelBrush.RadiusAfterScroll | src/main/java/net/imglib2/atlas/control/brush/LabelBrushController.java:243-248 | a vertical scroll down never gives a negative radius, and one notch changes a non-negative radius below `INT_MAX` by at most 1 |
| LabelBrush.RadiusScrollUp | src/main/java/net/imglib2/atlas/control/brush/LabelBrushController.java:243-246 | a vertical scroll with negative rotation adds exactly 1 to the radius (below `INT_MAX`) |
| LabelBrush.RadiusScrollDown | src/main/java/net/imglib2/atlas/control/brush/LabelBrushController.java:247-248 | a vertical scroll with positive rotation gives `max(0, r - 1)` |
| LabelBrush.RadiusScrollIgnored | src/main/java/net/imglib2/atlas/control/brush/LabelBrushController.java:243-248 | a horizontal scroll or a zero rotation leaves the radius unchanged |
| LabelBrush.RadiusStaysNonNegative | src/main/java/net/imglib2/atlas/control/brush/LabelBrushController.java:243-248 | a non-negative radius below `INT_MAX` stays non-negative under any scroll |
| LabelBrush.RadiusScrollDownUndoesUp | src/main/java/net/imglib2/atlas/control/brush/LabelBrushController.java:245-248 | one scroll down undoes one scroll up on a non-negative radius |
| LabelBrush.LabelAfterScroll | src/main/java/net/imglib2/atlas/control/brush/LabelBrushController.java:263-268 | a vertical scroll up never passes the last label index `size - 1`; a vertical scroll down never goes below 0 |
| LabelBrush.LabelScrollUp | src/main/java/net/imglib2/atlas/control/brush/LabelBrushController.java:265-266 | scrolling up sets the label to `min(label + 1, size - 1)` |
| LabelBrush.LabelScrollDown | src/main/java/net/imglib2/atlas/control/brush/LabelBrushController.java:267-268 | scrolling down sets the label to `max(label - 1, 0)` |
| LabelBrush.LabelScrollIgnored | src/main/java/net/imglib2/atlas/control/brush/LabelBrushController.java:263-268 | a horizontal scroll or a zero rotation leaves the label index unchanged |
| LabelBrush.LabelScrollStaysInRange | src/main/java/net/imglib2/atlas/control/brush/LabelBrushController.java:263-268 | a label index in `[0, size - 1]` stays in that range under any scroll |
| LabelBrush.LabelScrollDownUndoesUp | src/main/java/net/imglib2/atlas/control/brush/LabelBrushController.java:265-268 | scrolling down after an unclamped scroll up returns to the same label |
| LabelBrush.ClampOnUpdate | src/main/java/net/imglib2/atlas/control/brush/LabelBrushController.java:105 | the clamp on replacement: the index never exceeds its old value nor the new region count, and is one of the two |
| LabelBrush.UpdateClampReachesSize | src/main/java/net/imglib2/atlas/control/brush/LabelBrushController.java:105 | as written, replacing the labeling with at most `label` regions leaves the index equal to the region count, which is not a valid index |
| LabelBrush.ClampIntoLabels | src/main/java/net/imglib2/atlas/control/brush/LabelBrushController.java:105 | the intended clamp: for a non-empty labeling the index lands in `[0, size - 1]`, a valid index is kept, a too large one becomes `size - 1` |
| LabelBrush.PastEndLabelScenario | src/main/java/net/imglib2/atlas/control/brush/LabelBrushController.java:103-106 | with label 2 of 3 active, replacing by a 2-label labeling makes the next `init` throw `IndexOutOfBoundsException` |
| LabelBrush.BrushController.constructor | src/main/java/net/imglib2/atlas/control/brush/LabelBrushController.java:79-101 | a fresh controller has radius 5, label 0 (the clamp of 0), anchor (0, 0) and the labeling's regions in order |
| LabelBrush.BrushController.GetCurrentLabel | src/main/java/net/imglib2/atlas/control/brush/LabelBrushController.java:64-67 | the active label index; the region the paint methods write to is exactly the region at that index when it is valid, and none otherwise |
| LabelBrush.BrushController.SetCurrentLabel | src/main/java/net/imglib2/atlas/control/brush/LabelBrushController.java:64-72 | the label index becomes the given value, unchecked |
| LabelBrush.BrushController.UpdateLabeling | src/main/java/net/imglib2/atlas/control/brush/LabelBrushController.java:103-106 | the region list becomes the new labeling's regions in order and the index becomes `min(label, size)` |
| LabelBrush.BrushController.UpdateLabelingCorrected | src/main/java/net/imglib2/atlas/control/brush/LabelBrushController.java:103-106 | as `updateLabeling` with the intended clamp; afterwards a non-empty labeling always has a valid active label |
| LabelBrush.BrushController.ChangeBrushRadius | src/main/java/net/imglib2/atlas/control/brush/LabelBrushController.java:241-254 | only the radius changes, to `RadiusAfterScroll` of the old radius and the event |
| LabelBrush.BrushController.ChangeLabel | src/main/java/net/imglib2/atlas/control/brush/LabelBrushController.java:261-274 | only the label index changes, to `LabelAfterScroll` of the old index, the region count and the event; the radius is untouched |
| LabelBrush.BrushController.PaintAt | src/main/java/net/imglib2/atlas/control/brush/LabelBrushController.java:131-147 | with a valid label index the active region becomes `Dab` of its old pixels and the generated footprint; otherwise `IndexOutOfBoundsException` and no region changes |
| LabelBrush.BrushController.SegmentDabs | src/main/java/net/imglib2/atlas/control/brush/LabelBrushController.java:155-177 | the footprints a segment paints: one per loop iteration at the advanced centres, then the endpoint dab; `SegmentDabCount` states their number |
| LabelBrush.BrushController.SegmentDabCount | src/main/java/net/imglib2/atlas/control/brush/LabelBrushController.java:155-177 | a segment paints `IntermediateCount(l) + 1` dabs, the endpoint dab last |
| LabelBrush.BrushController.ShortSegmentPaintsEndpoint | src/main/java/net/imglib2/atlas/control/brush/LabelBrushController.java:168-176 | a segment of length at most 1 (a zero-length one included) paints exactly the endpoint dab |
| LabelBrush.BrushController.ZeroSegmentPaintsEndpoint | src/main/java/net/imglib2/atlas/control/brush/LabelBrushController.java:166-176 | a drag that ends at its own anchor has length 0, so the loop does not run and only the endpoint dab is painted |
| LabelBrush.BrushController.PaintSegment | src/main/java/net/imglib2/atlas/control/brush/LabelBrushController.java:155-177 | the active region becomes the `Stroke` of the intermediate dabs in order and then the endpoint dab; an invalid label index throws and changes nothing |
| LabelBrush.BrushController.Init | src/main/java/net/imglib2/atlas/control/brush/LabelBrushController.java:185-196 | the anchor becomes `(x, y)` (even if the paint then throws) and one dab is painted at `(x, y)` |
| LabelBrush.BrushController.Drag | src/main/java/net/imglib2/atlas/control/brush/LabelBrushController.java:199-212 | the segment from the old anchor to `(x, y)` is painted, then the anchor becomes `(x, y)`; when the paint throws the anchor stays; the region stays inside its interval |
| LabelBrush.BrushController.End | src/main/java/net/imglib2/atlas/control/brush/LabelBrushController.java:215-217 | ending a drag changes no state |
| LabelingComponents.SpatialGenerator | src/main/java/net/imglib2/atlas/LabelingComponent.java:118 | the spatial generator is the hypersphere neighbourhood with scale 1.0 |
| LabelingComponents.InitPixelGenerator | src/main/java/net/imglib2/atlas/LabelingComponent.java:114-119 | time-series data gets the time-series generator with temporal axis `numDimensions - 1` over the spatial hypersphere generator; other data the spatial generator; for data with at least one axis the temporal axis is an existing axis |
| LabelingComponents.ViewerIs2D | src/main/java/net/imglib2/atlas/LabelingComponent.java:71 | time series and data with other than 3 dimensions get a 2D viewer; non-time-series 3D data gets a 3D one |
| LabelingComponents.ThreeDViewerOnlyForVolumes | src/main/java/net/imglib2/atlas/LabelingComponent.java:69-71 | `is2D` is false exactly for non-time-series data with 3 dimensions, which is painted with the spatial generator; time series always get a 2D viewer |
| LabelingComponents.LabelingComponent.TrainClassifier | src/main/java/net/imglib2/atlas/LabelingComponent.java:64-131 | the viewer mode is `ViewerIs2D`, the labeling is all-false over the data's interval, and the controller paints into its regions with the generator `InitPixelGenerator` chose |
| LabelingComponents.LabelingComponent.GetLabeling | src/main/java/net/imglib2/atlas/LabelingComponent.java:100-102 | the held labeling; while the controller is subscribed to it, the controller paints only into regions of that labeling |
| LabelingComponents.LabelingComponent.SetLabeling | src/main/java/net/imglib2/atlas/LabelingComponent.java:147-151 | a labeling over another interval throws `IllegalArgumentException` and nothing changes; otherwise `getLabeling()` returns it and the controller has re-read its regions; the interval never changes |

## Left out

- LabelBrush.BrushController.PaintSegment: the loop counter is an unbounded integer; for a segment longer than `INT_MAX` units the source's `int i` wraps and its loop never ends, which the model does not capture.
- LabelBrush.BrushController: the display-to-label mapping `toLabelSpace` is fixed when the controller is created, so a view transform that changes between events (panning, zooming) is not modelled; in the source it is read afresh on every event.
- Labelings.CreateLabeling: one region per entry of `names`, in order; how the repository's `Labeling` treats duplicate names is not part of this model.
- Display-to-grid mapping (`setCoordinates`: `displayToGlobalCoordinates` and the inverse label transform) is an abstract function from display `(x, y)` to a label-space point.
- The footprint contents are abstract: `getPaintPixels` is a function value, so the hypersphere shape, the radius-0 single pixel, the time-series axis handling and the absence of duplicate coordinates are not modelled; only which generator is chosen is.
- `LinAlgHelpers.length` is abstract apart from the zero vector having length 0 (non-negativity and the Euclidean formula are not modelled); vector arithmetic uses exact reals, so `double` rounding in `p1 += d` and NaN from normalising a zero vector are not modelled (that vector is never used).
- Display coordinates are unbounded integers inside `setCoordinates`; the anchor fields are 32-bit.
- The wheel rotation is a real number; a NaN rotation is not modelled.
- The `synchronized` blocks (per-footprint lock, anchor lock) are left out: the model is sequential, so a labeling replacement between two dabs of one segment cannot happen in it.
- Overlay, cursor and repaint calls (`BrushOverlay`, `MoveBrush`, `requestRepaint`, `getDisplay().repaint`) are UI side effects and are left out; `MoveBrush` changes no controller state.
- The holder's subscriber list is reduced to its one subscriber in this core, the controller; the color map provider and the labels layer also subscribe but are not part of this model.
- `Intervals.equals` is modelled as equality of the interval's bounds.
- `BACKGROUND` and `brushNormalAxis` are not read by the modelled code.
- Swing and BDV wiring (`addAction`, `addBehaviour`, `initBdv`'s panel layout, the color-map updater, showing the raw data) is display code and is left out.
- `SegmentationService` (a REST endpoint) and `EnhancedLabelingComponent` (a split-pane layout) are not part of this model.

## Findings

| source | as written | input that shows it | evidently intended | confidence | as-written member | corrected member |
|---|---|---|---|---|---|---|
| src/main/java/net/imglib2/atlas/control/brush/LabelBrushController.java:105 | `currentLabel = Math.min(currentLabel, labels.size())` lets the index equal the region count | three labels with label 2 active, then a two-label labeling is set: the index stays 2, and the next paint's `labels.get(2)` throws `IndexOutOfBoundsException` | clamp to the last index, `size - 1`, as the label scroll at line 266 does | not executed; high | LabelBrush.PastEndLabelScenario | LabelBrush.ClampIntoLabels |

The controller's `UpdateLabeling` and the component's `SetLabeling` keep the
code's clamp, since that is what the program does;
`UpdateLabelingCorrected` is the replacement listener with the intended
clamp, and it guarantees a valid active label for every non-empty labeling.
