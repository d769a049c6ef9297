/**
  The labeling component: it decides the viewer mode, chooses the pixel
  generator for the brush, holds the current labeling, and accepts a
  replacement labeling only over the same interval, passing it on to the brush
  controller that subscribed to the holder.
 */
module LabelingComponents {
  import opened JavaLang
  import opened Grid
  import opened Labelings
  import opened LabelBrush

  /** The plain hypersphere neighbourhood generator with scale 1.0. */
  function SpatialGenerator(): (g: PixelGenerator)
    ensures g.Neighborhood? && g.shape == HyperSphere && g.scale == 1.0
  {
    Neighborhood(HyperSphere, 1.0)
  }

  /**
    `initPixelGenerator`: time-series data gets the time-series wrapper with its
    last axis as the temporal one; all other data the plain spatial generator.
   */
  function InitPixelGenerator(isTimeSeries: bool, numDimensions: int): (g: PixelGenerator)
    ensures g.ForTimeSeries? <==> isTimeSeries
    ensures isTimeSeries ==> g.timeAxis == numDimensions - 1 && g.spatial == SpatialGenerator()
    ensures !isTimeSeries ==> g == SpatialGenerator()
    ensures isTimeSeries && numDimensions >= 1 ==> 0 <= g.timeAxis < numDimensions
  {
    if isTimeSeries then ForTimeSeries(numDimensions - 1, SpatialGenerator())
    else SpatialGenerator()
  }

  /** The `is2D` flag `trainClassifier` passes to `initBdv`. */
  function ViewerIs2D(isTimeSeries: bool, nDim: int): (is2D: bool)
    ensures isTimeSeries ==> is2D
    ensures nDim != 3 ==> is2D
    ensures !isTimeSeries && nDim == 3 ==> !is2D
  {
    isTimeSeries || nDim != 3
  }

  /**
    The viewer runs in 3D mode exactly for three-dimensional data that is not a
    time series, and such data is painted with the plain spatial generator.
   */
  lemma ThreeDViewerOnlyForVolumes(isTimeSeries: bool, nDim: int)
    ensures !ViewerIs2D(isTimeSeries, nDim) <==> !isTimeSeries && nDim == 3
    ensures !ViewerIs2D(isTimeSeries, nDim) ==> InitPixelGenerator(isTimeSeries, nDim) == SpatialGenerator()
    ensures isTimeSeries ==> ViewerIs2D(isTimeSeries, nDim) && InitPixelGenerator(isTimeSeries, nDim).ForTimeSeries?
  {
  }

  class LabelingComponent {
    /** The mode the viewer was created in. */
    const is2D: bool
    /** The value of the `Holder<Labeling>`. */
    var labeling: Labeling
    /** The holder's subscriber that paints into the labeling's regions. */
    const brushController: BrushController

    /** The controller always paints into the regions of the held labeling. */
    ghost predicate Valid()
      reads this, brushController
    {
      brushController.labels == labeling.regions
    }

    /**
      `trainClassifier` followed by `initLabelsLayer`, without the display
      wiring: choose the viewer mode, create the labeling over the data's
      interval, and create the controller subscribed to it.
     */
    constructor TrainClassifier(names: seq<string>, rawData: Interval, isTimeSeries: bool,
                                getPaintPixels: PixelSource, toLabelSpace: DisplayToLabel, length: Length)
      ensures Valid() && fresh(brushController)
      ensures is2D == ViewerIs2D(isTimeSeries, NumDimensions(rawData))
      ensures labeling.names == names && labeling.interval == rawData
      ensures |labeling.regions| == |names|
      ensures forall k :: 0 <= k < |names| ==> labeling.regions[k].on == {} && labeling.regions[k].interval == rawData
      ensures brushController.pixelsGenerator == InitPixelGenerator(isTimeSeries, NumDimensions(rawData))
      ensures brushController.brushRadius == 5 && brushController.currentLabel == 0
    {
      is2D := ViewerIs2D(isTimeSeries, NumDimensions(rawData));
      var l := CreateLabeling(names, rawData);
      labeling := l;
      brushController := new BrushController(l, InitPixelGenerator(isTimeSeries, NumDimensions(l.interval)),
                                             getPaintPixels, toLabelSpace, length);
    }

    /** `getLabeling()`: the holder's current value. */
    function GetLabeling(): (l: Labeling)
      reads this, brushController
      ensures Valid() ==> brushController.Active() <= set k | 0 <= k < |l.regions| :: l.regions[k]
    {
      labeling
    }

    /**
      `setLabeling`: a labeling over a different interval is refused with
      `IllegalArgumentException` and nothing changes; otherwise it becomes the
      held value and the holder notifies the brush controller.
     */
    method SetLabeling(l: Labeling) returns (r: Outcome)
      requires Valid()
      modifies this, brushController
      ensures Valid()
      ensures r == if l.interval == old(labeling.interval) then Pass else Fail(IllegalArgument)
      ensures labeling.interval == old(labeling.interval)
      ensures r.Fail? ==> labeling == old(labeling) && unchanged(brushController)
      ensures r.Pass? ==> GetLabeling() == l
      ensures r.Pass? ==>
        brushController.currentLabel == ClampOnUpdate(old(brushController.currentLabel), |l.regions|)
      ensures brushController.brushRadius == old(brushController.brushRadius)
      ensures brushController.oX == old(brushController.oX) && brushController.oY == old(brushController.oY)
    {
      if l.interval != labeling.interval {
        return Fail(IllegalArgument);
      }
      labeling := l;
      brushController.UpdateLabeling(l);
      r := Pass;
    }
  }
}
