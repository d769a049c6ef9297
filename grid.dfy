/**
  Integer grid coordinates, axis-aligned intervals over them, and the
  three-component real vectors the brush uses for stroke interpolation.
 */
module Grid {

  /** A grid coordinate, one integer per axis. */
  type Point = seq<int>

  /** An n-dimensional integer interval with inclusive bounds per axis. */
  datatype Interval = Interval(min: seq<int>, max: seq<int>)

  function NumDimensions(iv: Interval): nat
  {
    |iv.min|
  }

  /** `Intervals.contains(interval, position)`: every coordinate lies within its axis bounds. */
  predicate Contains(iv: Interval, p: Point)
    ensures Contains(iv, p) ==> |p| == NumDimensions(iv)
  {
    |p| == |iv.min| == |iv.max| &&
    forall d :: 0 <= d < |p| ==> iv.min[d] <= p[d] <= iv.max[d]
  }

  /** A point in continuous label space (`double[3]` in the viewer). */
  datatype Vec3 = Vec3(x: real, y: real, z: real)

  /** `LinAlgHelpers.add`. */
  function Add(a: Vec3, b: Vec3): (r: Vec3)
    ensures r.x - b.x == a.x && r.y - b.y == a.y && r.z - b.z == a.z
  {
    Vec3(a.x + b.x, a.y + b.y, a.z + b.z)
  }

  /** `LinAlgHelpers.subtract`. */
  function Sub(a: Vec3, b: Vec3): (r: Vec3)
    ensures Add(b, r) == a
    ensures a == b ==> r == Vec3(0.0, 0.0, 0.0)
  {
    Vec3(a.x - b.x, a.y - b.y, a.z - b.z)
  }

  /**
    `LinAlgHelpers.normalize`, given the vector's length `l`. For `l == 0` the
    Java code divides by zero; that vector is never used, so any value does.
   */
  function Normalize(d: Vec3, l: real): (r: Vec3)
    ensures l != 0.0 ==> Vec3(r.x * l, r.y * l, r.z * l) == d
    ensures l == 0.0 ==> r == d
  {
    if l == 0.0 then d else Vec3(d.x / l, d.y / l, d.z / l)
  }

  /**
    `LinAlgHelpers.length`: the Euclidean length, abstract here except that the
    zero vector has length exactly 0.
   */
  type Length = f: Vec3 -> real | f(Vec3(0.0, 0.0, 0.0)) == 0.0
    witness (v: Vec3) => 0.0
}
