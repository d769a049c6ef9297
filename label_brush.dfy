/**
  The interactive label brush: brush radius and active label index, the drag
  anchor, and painting or erasing brush footprints into the active label's
  region, one dab at a time, with gap-filling dabs along each drag segment.
 */
module LabelBrush {
  import opened JavaLang
  import opened Grid
  import opened Labelings

  /** The neighbourhood shape of the brush. */
  datatype Shape = HyperSphere

  /**
    The pixel generator variants: a neighbourhood generator over all axes, or
    the time-series wrapper that adds a temporal axis to a spatial generator.
   */
  datatype PixelGenerator =
    | Neighborhood(shape: Shape, scale: real)
    | ForTimeSeries(timeAxis: int, spatial: PixelGenerator)

  /**
    `getPaintPixels(generator, centre, timepoint, radius)`: the coordinates of one
    brush footprint, in the order the generator's iterator yields them.
   */
  type PixelSource = (PixelGenerator, Vec3, int, int) -> seq<Point>

  /** `setCoordinates(x, y)`: a display position, at depth 0, mapped to label space. */
  type DisplayToLabel = (int, int) -> Vec3

  /** The two drag behaviours. */
  datatype Mode = Paint | Erase

  /** `doPaint()`: the bit a behaviour writes. */
  function DoPaint(mode: Mode): (v: bool)
    ensures mode == Paint ==> v
    ensures mode == Erase ==> !v
  {
    mode == Paint
  }

  // ---------------------------------------------------------------------------
  // One dab

  /** The footprint's coordinates that lie inside the region's interval. */
  function InBounds(iv: Interval, footprint: seq<Point>): set<Point>
  {
    set p | p in footprint && Contains(iv, p)
  }

  /**
    The true pixels of a region after one footprint is written with `v`: each
    generated coordinate inside the interval takes the value `v`, generated
    coordinates outside it are skipped, every other pixel keeps its value.
   */
  function Dab(on: set<Point>, iv: Interval, footprint: seq<Point>, v: bool): (r: set<Point>)
    ensures forall p :: p in r <==> if p in footprint && Contains(iv, p) then v else p in on
    ensures WithinInterval(on, iv) ==> WithinInterval(r, iv)
  {
    if v then on + InBounds(iv, footprint) else on - InBounds(iv, footprint)
  }

  /** Writing one more generated coordinate extends the dab by that single pixel. */
  lemma DabStep(on: set<Point>, iv: Interval, footprint: seq<Point>, k: nat, v: bool)
    requires k < |footprint|
    ensures var prev := Dab(on, iv, footprint[..k], v);
            Dab(on, iv, footprint[..k + 1], v) ==
              if !Contains(iv, footprint[k]) then prev
              else if v then prev + {footprint[k]}
              else prev - {footprint[k]}
  {
  }

  /** Over one footprint the last write wins: the first dab leaves no trace. */
  lemma LaterDabWins(on: set<Point>, iv: Interval, footprint: seq<Point>, v: bool, w: bool)
    ensures Dab(Dab(on, iv, footprint, v), iv, footprint, w) == Dab(on, iv, footprint, w)
  {
  }

  /** Painting (or erasing) the same footprint twice is the same as doing it once. */
  lemma DabIdempotent(on: set<Point>, iv: Interval, footprint: seq<Point>, v: bool)
    ensures Dab(Dab(on, iv, footprint, v), iv, footprint, v) == Dab(on, iv, footprint, v)
  {
    LaterDabWins(on, iv, footprint, v, v);
  }

  /** Erasing after painting leaves every in-bounds footprint pixel false. */
  lemma PaintThenEraseClears(on: set<Point>, iv: Interval, footprint: seq<Point>, p: Point)
    requires p in footprint && Contains(iv, p)
    ensures p !in Dab(Dab(on, iv, footprint, true), iv, footprint, false)
  {
  }

  /** Erasing a footprint whose pixels were all false before it was painted restores the region. */
  lemma EraseUndoesPaint(on: set<Point>, iv: Interval, footprint: seq<Point>)
    requires InBounds(iv, footprint) !! on
    ensures Dab(Dab(on, iv, footprint, true), iv, footprint, false) == on
  {
  }

  // ---------------------------------------------------------------------------
  // A stroke: dabs in order

  /** The true pixels after the footprints `dabs` are written one after another with `v`. */
  function Stroke(on: set<Point>, iv: Interval, dabs: seq<seq<Point>>, v: bool): set<Point>
    decreases |dabs|
  {
    if dabs == [] then on
    else Dab(Stroke(on, iv, dabs[..|dabs| - 1], v), iv, dabs[|dabs| - 1], v)
  }

  /** Every in-bounds pixel of any footprint of the stroke. */
  ghost function Covered(iv: Interval, dabs: seq<seq<Point>>): set<Point>
  {
    set k, p | 0 <= k < |dabs| && p in dabs[k] && Contains(iv, p) :: p
  }

  lemma CoveredSnoc(iv: Interval, dabs: seq<seq<Point>>)
    requires dabs != []
    ensures Covered(iv, dabs) ==
      Covered(iv, dabs[..|dabs| - 1]) + InBounds(iv, dabs[|dabs| - 1])
  {
  }


  /**
    A painted stroke is the union of its footprints over the prior region; an
    erased stroke removes that union. Order of the dabs does not matter.
   */
  lemma {:induction false} StrokeIsUnion(on: set<Point>, iv: Interval, dabs: seq<seq<Point>>, v: bool)
    ensures Stroke(on, iv, dabs, v) ==
      if v then on + Covered(iv, dabs) else on - Covered(iv, dabs)
    decreases |dabs|
  {
    if dabs != [] {
      var n := |dabs| - 1;
      StrokeIsUnion(on, iv, dabs[..n], v);
      CoveredSnoc(iv, dabs);
    }
  }

  /** No stroke sets a pixel outside the region's interval. */
  lemma {:induction false} StrokeStaysWithinInterval(on: set<Point>, iv: Interval, dabs: seq<seq<Point>>, v: bool)
    requires WithinInterval(on, iv)
    ensures WithinInterval(Stroke(on, iv, dabs, v), iv)
    decreases |dabs|
  {
    if dabs != [] {
      StrokeStaysWithinInterval(on, iv, dabs[..|dabs| - 1], v);
    }
  }

  /**
    Two strokes whose footprints cover the same in-bounds pixels leave the
    region in the same state, however densely each samples the path.
   */
  lemma SameCoverageSameStroke(on: set<Point>, iv: Interval, dabs1: seq<seq<Point>>, dabs2: seq<seq<Point>>, v: bool)
    requires Covered(iv, dabs1) == Covered(iv, dabs2)
    ensures Stroke(on, iv, dabs1, v) == Stroke(on, iv, dabs2, v)
  {
    StrokeIsUnion(on, iv, dabs1, v);
    StrokeIsUnion(on, iv, dabs2, v);
  }

  // ---------------------------------------------------------------------------
  // Segment interpolation

  /**
    The number of loop iterations of `for (int i = 1; i < l; ++i)`: the count
    of integers `i` with `1 <= i < l`.
   */
  function IntermediateCount(l: real): (n: nat)
    ensures n == 0 || (n as real) < l
    ensures l <= (n + 1) as real
  {
    if l <= 1.0 then 0
    else if l.Floor as real == l then l.Floor - 1
    else l.Floor
  }

  /** The loop's index `i` runs exactly over `1 .. IntermediateCount(l)`. */
  lemma DabIndexExact(l: real, i: int)
    ensures (1 <= i && (i as real) < l) <==> 1 <= i <= IntermediateCount(l)
  {
  }

  /** The point `p1` after `k` steps of `p1 += d`. */
  function Advance(a: Vec3, d: Vec3, k: nat): Vec3
  {
    if k == 0 then a else Add(Advance(a, d, k - 1), d)
  }

  /** The intermediate points are evenly spaced: the k-th lies at `a + k d`. */
  lemma {:induction false} AdvanceIsEvenlySpaced(a: Vec3, d: Vec3, k: nat)
    ensures Advance(a, d, k) ==
      Vec3(a.x + (k as real) * d.x, a.y + (k as real) * d.y, a.z + (k as real) * d.z)
  {
    if k > 0 {
      AdvanceIsEvenlySpaced(a, d, k - 1);
    }
  }

  /** The centres of the `n` intermediate dabs, in painting order. */
  function SegmentCenters(a: Vec3, d: Vec3, n: nat): seq<Vec3>
  {
    seq(n, k requires 0 <= k < n => Advance(a, d, k + 1))
  }

  /** The footprints generated at each of `centers`. */
  function Footprints(pixels: PixelSource, g: PixelGenerator, centers: seq<Vec3>, timepoint: int, radius: int): seq<seq<Point>>
  {
    seq(|centers|, k requires 0 <= k < |centers| => pixels(g, centers[k], timepoint, radius))
  }

  lemma SegmentCentersStep(a: Vec3, d: Vec3, n: nat)
    ensures SegmentCenters(a, d, n + 1) == SegmentCenters(a, d, n) + [Advance(a, d, n + 1)]
  {
  }

  lemma FootprintsStep(pixels: PixelSource, g: PixelGenerator, centers: seq<Vec3>, c: Vec3, timepoint: int, radius: int)
    ensures Footprints(pixels, g, centers + [c], timepoint, radius) ==
      Footprints(pixels, g, centers, timepoint, radius) + [pixels(g, c, timepoint, radius)]
  {
  }

  lemma StrokeStep(on: set<Point>, iv: Interval, dabs: seq<seq<Point>>, footprint: seq<Point>, v: bool)
    ensures Stroke(on, iv, dabs + [footprint], v) == Dab(Stroke(on, iv, dabs, v), iv, footprint, v)
  {
  }

  // ---------------------------------------------------------------------------
  // Scroll handlers

  /** The radius after one `ChangeBrushRadius` scroll event. */
  function RadiusAfterScroll(radius: int32, wheelRotation: real, isHorizontal: bool): (r: int32)
    ensures !isHorizontal && wheelRotation > 0.0 ==> 0 <= r
    ensures 0 <= radius < INT_MAX ==> radius - 1 <= r <= radius + 1
  {
    if isHorizontal || wheelRotation == 0.0 then radius
    else if wheelRotation < 0.0 then Inc(radius)
    else Max(0, Dec(radius))
  }

  /** A vertical scroll with negative rotation grows the radius by exactly one. */
  lemma RadiusScrollUp(radius: int32, wheelRotation: real)
    requires wheelRotation < 0.0 && radius < INT_MAX
    ensures RadiusAfterScroll(radius, wheelRotation, false) == radius + 1
  {
  }

  /** A vertical scroll with positive rotation shrinks the radius by one, never below zero. */
  lemma RadiusScrollDown(radius: int32, wheelRotation: real)
    requires wheelRotation > 0.0 && radius > INT_MIN
    ensures RadiusAfterScroll(radius, wheelRotation, false) == Max(0, radius - 1)
  {
  }

  /** Horizontal and zero scrolls leave the radius alone. */
  lemma RadiusScrollIgnored(radius: int32, wheelRotation: real, isHorizontal: bool)
    requires isHorizontal || wheelRotation == 0.0
    ensures RadiusAfterScroll(radius, wheelRotation, isHorizontal) == radius
  {
  }

  /** Scrolling never makes a non-negative radius negative, short of `int` overflow. */
  lemma RadiusStaysNonNegative(radius: int32, wheelRotation: real, isHorizontal: bool)
    requires 0 <= radius < INT_MAX
    ensures 0 <= RadiusAfterScroll(radius, wheelRotation, isHorizontal)
  {
  }

  /** One scroll down undoes one scroll up. */
  lemma RadiusScrollDownUndoesUp(radius: int32, up: real, down: real)
    requires 0 <= radius < INT_MAX && up < 0.0 && down > 0.0
    ensures RadiusAfterScroll(RadiusAfterScroll(radius, up, false), down, false) == radius
  {
  }

  /** The active label after one `ChangeLabel` scroll event over `size` regions. */
  function LabelAfterScroll(current: int32, size: nat, wheelRotation: real, isHorizontal: bool): (r: int32)
    ensures !isHorizontal && wheelRotation < 0.0 ==> r <= size - 1
    ensures !isHorizontal && wheelRotation > 0.0 ==> 0 <= r
  {
    if isHorizontal || wheelRotation == 0.0 then current
    else if wheelRotation < 0.0 then Min(Inc(current), size - 1)
    else Max(Dec(current), 0)
  }

  /** Scrolling up moves to the next label, stopping at the last one. */
  lemma LabelScrollUp(current: int32, size: nat, wheelRotation: real)
    requires wheelRotation < 0.0 && current < INT_MAX
    ensures LabelAfterScroll(current, size, wheelRotation, false) == Min(current + 1, size - 1)
  {
  }

  /** Scrolling down moves to the previous label, stopping at label 0. */
  lemma LabelScrollDown(current: int32, size: nat, wheelRotation: real)
    requires wheelRotation > 0.0 && current > INT_MIN
    ensures LabelAfterScroll(current, size, wheelRotation, false) == Max(current - 1, 0)
  {
  }

  /** A horizontal scroll or a zero rotation leaves the label unchanged. */
  lemma LabelScrollIgnored(current: int32, size: nat, wheelRotation: real, isHorizontal: bool)
    requires isHorizontal || wheelRotation == 0.0
    ensures LabelAfterScroll(current, size, wheelRotation, isHorizontal) == current
  {
  }

  /** A valid label index stays valid under any scroll. */
  lemma LabelScrollStaysInRange(current: int32, size: nat, wheelRotation: real, isHorizontal: bool)
    requires 0 <= current < size <= INT_MAX
    ensures 0 <= LabelAfterScroll(current, size, wheelRotation, isHorizontal) < size
  {
  }

  /** Scrolling down after scrolling up returns to the label, unless the up step was clamped. */
  lemma LabelScrollDownUndoesUp(current: int32, size: nat, up: real, down: real)
    requires 0 <= current < size - 1 && up < 0.0 && down > 0.0
    ensures LabelAfterScroll(LabelAfterScroll(current, size, up, false), size, down, false) == current
  {
  }

  // ---------------------------------------------------------------------------
  // Labeling replacement

  /** `Math.min(currentLabel, labels.size())`, the clamp `updateLabeling` applies. */
  function ClampOnUpdate(current: int32, size: nat): (r: int32)
    ensures r <= current && r <= size
    ensures r == current || r == size
  {
    Min(current, size)
  }

  /**
    As written, the clamp on replacement lets the index equal the new label
    count, which is one past the last region.
   */
  lemma UpdateClampReachesSize(current: int32, size: nat)
    requires size <= current
    ensures ClampOnUpdate(current, size) == size
    ensures !(0 <= ClampOnUpdate(current, size) < size)
  {
  }

  /** The intended clamp on replacement: into `[0, size - 1]`. */
  function ClampIntoLabels(current: int32, size: nat): (r: int32)
    ensures size > 0 ==> 0 <= r < size
    ensures 0 <= current < size ==> r == current
    ensures size > 0 && current >= size ==> r == size - 1
  {
    Max(0, Min(current, size - 1))
  }

  // ---------------------------------------------------------------------------
  // The controller

  class BrushController {
    var brushRadius: int32
    var currentLabel: int32
    /** The display position where the current drag segment starts. */
    var oX: int32
    var oY: int32
    /** The regions of the current labeling, in label order. */
    var labels: seq<Region>

    const pixelsGenerator: PixelGenerator
    const getPaintPixels: PixelSource
    const toLabelSpace: DisplayToLabel
    const length: Length

    constructor (labeling: Labeling, pixelsGenerator: PixelGenerator, getPaintPixels: PixelSource,
                 toLabelSpace: DisplayToLabel, length: Length)
      ensures brushRadius == 5 && currentLabel == 0
      ensures oX == 0 && oY == 0
      ensures labels == labeling.regions
      ensures this.pixelsGenerator == pixelsGenerator && this.getPaintPixels == getPaintPixels
      ensures this.toLabelSpace == toLabelSpace && this.length == length
    {
      this.pixelsGenerator := pixelsGenerator;
      this.getPaintPixels := getPaintPixels;
      this.toLabelSpace := toLabelSpace;
      this.length := length;
      brushRadius := 5;
      currentLabel := 0;
      oX, oY := 0, 0;
      labels := [];
      new;
      UpdateLabeling(labeling);
    }

    /** `getCurrentLabel()`: the index whose region the paint methods write to. */
    function GetCurrentLabel(): (r: int32)
      reads this
      ensures Active() == if 0 <= r < |labels| then {labels[r]} else {}
    {
      currentLabel
    }

    method SetCurrentLabel(current: int32)
      modifies this`currentLabel
      ensures GetCurrentLabel() == current
    {
      currentLabel := current;
    }

    /** The listener registered with the labeling holder. */
    method UpdateLabeling(labeling: Labeling)
      modifies this`labels, this`currentLabel
      ensures labels == labeling.regions
      ensures currentLabel == ClampOnUpdate(old(currentLabel), |labeling.regions|)
    {
      labels := labeling.regions;
      currentLabel := Min(currentLabel, |labels|) as int32;
    }

    /** The replacement listener with the intended clamp into `[0, size - 1]`. */
    method UpdateLabelingCorrected(labeling: Labeling)
      modifies this`labels, this`currentLabel
      ensures labels == labeling.regions
      ensures currentLabel == ClampIntoLabels(old(currentLabel), |labeling.regions|)
      ensures labels != [] ==> LabelInRange()
    {
      labels := labeling.regions;
      currentLabel := ClampIntoLabels(currentLabel, |labels|);
    }

    method ChangeBrushRadius(wheelRotation: real, isHorizontal: bool)
      modifies this`brushRadius
      ensures brushRadius == RadiusAfterScroll(old(brushRadius), wheelRotation, isHorizontal)
    {
      if !isHorizontal {
        if wheelRotation < 0.0 {
          brushRadius := Inc(brushRadius);
        } else if wheelRotation > 0.0 {
          brushRadius := Max(0, Dec(brushRadius)) as int32;
        }
      }
    }

    method ChangeLabel(wheelRotation: real, isHorizontal: bool)
      modifies this`currentLabel
      ensures currentLabel == LabelAfterScroll(old(currentLabel), |labels|, wheelRotation, isHorizontal)
    {
      if !isHorizontal {
        if wheelRotation < 0.0 {
          currentLabel := Min(Inc(currentLabel), |labels| - 1) as int32;
        } else if wheelRotation > 0.0 {
          currentLabel := Max(Dec(currentLabel), 0) as int32;
        }
      }
    }

    /** `labels.get(currentLabel)` does not throw. */
    predicate LabelInRange()
      reads this`currentLabel, this`labels
    {
      0 <= currentLabel < |labels|
    }

    /** The region a paint writes into, if any. */
    ghost function Active(): set<Region>
      reads this`currentLabel, this`labels
    {
      if LabelInRange() then {labels[currentLabel]} else {}
    }

    /** The footprint generated at `center` with the current radius. */
    ghost function Footprint(center: Vec3, timepoint: int): seq<Point>
      reads this`brushRadius
    {
      getPaintPixels(pixelsGenerator, center, timepoint, brushRadius)
    }

    /**
      `paint(coords)`: one dab into the active region. With the label index out
      of range `labels.get` throws before any pixel is written.
     */
    method PaintAt(coords: Vec3, timepoint: int, mode: Mode) returns (r: Outcome)
      modifies Active()
      ensures r == if LabelInRange() then Pass else Fail(IndexOutOfBounds)
      ensures LabelInRange() ==>
        labels[currentLabel].on ==
          Dab(old(labels[currentLabel].on), labels[currentLabel].interval, Footprint(coords, timepoint), DoPaint(mode))
      ensures LabelInRange() && old(labels[currentLabel].Valid()) ==> labels[currentLabel].Valid()
    {
      if !LabelInRange() {
        return Fail(IndexOutOfBounds);
      }
      var region := labels[currentLabel];
      var it := getPaintPixels(pixelsGenerator, coords, timepoint, brushRadius);
      ghost var before := region.on;
      var k := 0;
      while k < |it|
        invariant 0 <= k <= |it|
        invariant region.on == Dab(before, region.interval, it[..k], DoPaint(mode))
      {
        DabStep(before, region.interval, it, k, DoPaint(mode));
        if Contains(region.interval, it[k]) {
          region.Set(it[k], DoPaint(mode));
        }
        k := k + 1;
      }
      assert it[..k] == it;
      r := Pass;
    }

    /**
      The footprints a segment from display `(x1, y1)` to `(x2, y2)` paints: the
      intermediate dabs one normalised step apart, then the endpoint dab.
     */
    ghost function SegmentDabs(x1: int, y1: int, x2: int, y2: int, timepoint: int): seq<seq<Point>>
      reads this`brushRadius
    {
      var a := toLabelSpace(x1, y1);
      var b := toLabelSpace(x2, y2);
      var l := length(Sub(b, a));
      Footprints(getPaintPixels, pixelsGenerator, SegmentCenters(a, Normalize(Sub(b, a), l), IntermediateCount(l)), timepoint, brushRadius)
        + [Footprint(b, timepoint)]
    }

    /** A segment paints one dab per integer `1 <= i < l`, then the endpoint dab last. */
    lemma SegmentDabCount(x1: int, y1: int, x2: int, y2: int, timepoint: int)
      ensures var l := length(Sub(toLabelSpace(x2, y2), toLabelSpace(x1, y1)));
              var dabs := SegmentDabs(x1, y1, x2, y2, timepoint);
              |dabs| == IntermediateCount(l) + 1 &&
              dabs[|dabs| - 1] == Footprint(toLabelSpace(x2, y2), timepoint)
    {
    }

    /** A segment no longer than one unit (a zero-length one included) paints only the endpoint dab. */
    lemma ShortSegmentPaintsEndpoint(x1: int, y1: int, x2: int, y2: int, timepoint: int)
      requires length(Sub(toLabelSpace(x2, y2), toLabelSpace(x1, y1))) <= 1.0
      ensures SegmentDabs(x1, y1, x2, y2, timepoint) == [Footprint(toLabelSpace(x2, y2), timepoint)]
    {
    }

    /** A drag that ends where it started paints only the endpoint dab. */
    lemma ZeroSegmentPaintsEndpoint(x: int, y: int, timepoint: int)
      ensures SegmentDabs(x, y, x, y, timepoint) == [Footprint(toLabelSpace(x, y), timepoint)]
    {
      var a := toLabelSpace(x, y);
      assert length(Sub(a, a)) == 0.0;
      ShortSegmentPaintsEndpoint(x, y, x, y, timepoint);
    }

    /** `paint(x1, y1, x2, y2)`: the segment's dabs in order. */
    method PaintSegment(x1: int, y1: int, x2: int, y2: int, timepoint: int, mode: Mode) returns (r: Outcome)
      modifies Active()
      ensures r == if LabelInRange() then Pass else Fail(IndexOutOfBounds)
      ensures LabelInRange() ==>
        labels[currentLabel].on ==
          Stroke(old(labels[currentLabel].on), labels[currentLabel].interval,
                 SegmentDabs(x1, y1, x2, y2, timepoint), DoPaint(mode))
    {
      var p1 := toLabelSpace(x1, y1);
      ghost var a := p1;
      var labelLocation := toLabelSpace(x2, y2);
      var d := Sub(labelLocation, p1);
      var l := length(d);
      d := Normalize(d, l);
      ghost var n := IntermediateCount(l);
      ghost var done: seq<seq<Point>> := [];
      ghost var before := if LabelInRange() then labels[currentLabel].on else {};
      var i := 1;
      while (i as real) < l
        invariant 1 <= i <= n + 1
        invariant p1 == Advance(a, d, i - 1)
        invariant done == Footprints(getPaintPixels, pixelsGenerator, SegmentCenters(a, d, i - 1), timepoint, brushRadius)
        invariant LabelInRange() ==>
          labels[currentLabel].on == Stroke(before, labels[currentLabel].interval, done, DoPaint(mode))
        decreases n + 1 - i
      {
        DabIndexExact(l, i);
        p1 := Add(p1, d);
        r := PaintAt(p1, timepoint, mode);
        if r.Fail? {
          return;
        }
        SegmentCentersStep(a, d, i - 1);
        FootprintsStep(getPaintPixels, pixelsGenerator, SegmentCenters(a, d, i - 1), p1, timepoint, brushRadius);
        assert LabelInRange();
        StrokeStep(before, labels[currentLabel].interval, done, Footprint(p1, timepoint), DoPaint(mode));
        done := done + [Footprint(p1, timepoint)];
        i := i + 1;
      }
      DabIndexExact(l, i);
      r := PaintAt(labelLocation, timepoint, mode);
      if LabelInRange() {
        StrokeStep(before, labels[currentLabel].interval, done, Footprint(labelLocation, timepoint), DoPaint(mode));
      }
      done := done + [Footprint(labelLocation, timepoint)];
      assert done == SegmentDabs(x1, y1, x2, y2, timepoint);
    }

    /** `init(x, y)`: a drag starts; the anchor moves first, then one dab. */
    method Init(mode: Mode, x: int32, y: int32, timepoint: int) returns (r: Outcome)
      modifies this`oX, this`oY, Active()
      ensures oX == x && oY == y
      ensures r == if LabelInRange() then Pass else Fail(IndexOutOfBounds)
      ensures LabelInRange() ==>
        labels[currentLabel].on ==
          Dab(old(labels[currentLabel].on), labels[currentLabel].interval,
              Footprint(toLabelSpace(x, y), timepoint), DoPaint(mode))
    {
      oX, oY := x, y;
      r := PaintAt(toLabelSpace(x, y), timepoint, mode);
    }

    /** `drag(x, y)`: paint the segment from the anchor, then move the anchor. */
    method Drag(mode: Mode, x: int32, y: int32, timepoint: int) returns (r: Outcome)
      modifies this`oX, this`oY, Active()
      ensures r == if LabelInRange() then Pass else Fail(IndexOutOfBounds)
      ensures r.Pass? ==> oX == x && oY == y
      ensures r.Fail? ==> oX == old(oX) && oY == old(oY)
      ensures LabelInRange() ==>
        labels[currentLabel].on ==
          Stroke(old(labels[currentLabel].on), labels[currentLabel].interval,
                 SegmentDabs(old(oX), old(oY), x, y, timepoint), DoPaint(mode))
      ensures LabelInRange() && old(labels[currentLabel].Valid()) ==> labels[currentLabel].Valid()
    {
      ghost var before := if LabelInRange() then labels[currentLabel].on else {};
      r := PaintSegment(oX, oY, x, y, timepoint, mode);
      if LabelInRange() && WithinInterval(before, labels[currentLabel].interval) {
        StrokeStaysWithinInterval(before, labels[currentLabel].interval, SegmentDabs(old(oX), old(oY), x, y, timepoint), DoPaint(mode));
      }
      if r.Pass? {
        oX, oY := x, y;
      }
    }

    /** `end(x, y)`: a drag ends; nothing to finish. */
    method End(x: int32, y: int32)
      ensures unchanged(this)
    {
    }
  }

  /**
    The replacement clamp as written, on a concrete session: with three labels
    and label 2 active, replacing the labeling by a two-label one leaves index 2
    active, and the next paint throws.
   */
  method PastEndLabelScenario() returns (r: Outcome)
    ensures r == Fail(IndexOutOfBounds)
  {
    var iv := Interval([0, 0], [99, 99]);
    var three := CreateLabeling(["a", "b", "c"], iv);
    var two := CreateLabeling(["a", "b"], iv);
    var brush := new BrushController(three, Neighborhood(HyperSphere, 1.0),
      (g, c, t, radius) => [[0, 0]], (x, y) => Vec3(x as real, y as real, 0.0), v => 0.0);
    brush.ChangeLabel(-1.0, false);
    brush.ChangeLabel(-1.0, false);
    assert brush.currentLabel == 2;
    brush.UpdateLabeling(two);
    r := brush.Init(Paint, 10, 10, 0);
  }
}
