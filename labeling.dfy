/**
  The label data: a boolean region per label over one shared interval, and the
  labeling that owns the interval and the regions in label order. The
  `Labeling` class of the repository is not part of this model; it is
  represented by what the brush controller and the component read from it.
 */
module Labelings {
  import opened Grid

  /** Only pixels of the interval can be `true`. */
  ghost predicate WithinInterval(on: set<Point>, iv: Interval)
  {
    forall p :: p in on ==> Contains(iv, p)
  }

  /**
    An `IterableRegion<BitType>`: a bit image over `interval`, updated in place.
    `on` holds the pixels whose bit is `true`; every other pixel is `false`.
   */
  class Region {
    const interval: Interval
    var on: set<Point>

    ghost predicate Valid()
      reads this
    {
      WithinInterval(on, interval)
    }

    constructor (interval: Interval)
      ensures this.interval == interval && on == {}
      ensures Valid()
    {
      this.interval := interval;
      on := {};
    }

    /** The bit at `p`. */
    function Get(p: Point): bool
      reads this
    {
      p in on
    }

    /** `BitType.set(v)` on the pixel at `p` of the interval. */
    method Set(p: Point, v: bool)
      requires Contains(interval, p)
      modifies this
      ensures on == if v then old(on) + {p} else old(on) - {p}
      ensures old(Valid()) ==> Valid()
      ensures Get(p) == v
      ensures forall q :: q != p ==> Get(q) == old(Get(q))
    {
      if v {
        on := on + {p};
      } else {
        on := on - {p};
      }
    }
  }

  /** A labeling: label names in order, the shared interval, one region per name. */
  datatype Labeling = Labeling(names: seq<string>, interval: Interval, regions: seq<Region>)

  /** `new Labeling(names, interval)`: one fresh, all-false region per name. */
  method CreateLabeling(names: seq<string>, interval: Interval) returns (l: Labeling)
    ensures l.names == names && l.interval == interval && |l.regions| == |names|
    ensures forall k :: 0 <= k < |names| ==>
      fresh(l.regions[k]) && l.regions[k].interval == interval && l.regions[k].on == {}
    ensures forall j, k :: 0 <= j < k < |names| ==> l.regions[j] != l.regions[k]
  {
    var regions: seq<Region> := [];
    while |regions| < |names|
      invariant |regions| <= |names|
      invariant forall k :: 0 <= k < |regions| ==>
        fresh(regions[k]) && regions[k].interval == interval && regions[k].on == {}
      invariant forall j, k :: 0 <= j < k < |regions| ==> regions[j] != regions[k]
    {
      var r := new Region(interval);
      regions := regions + [r];
    }
    l := Labeling(names, interval, regions);
  }
}
