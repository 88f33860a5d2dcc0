// The map-driving demo's route: a polyline whose every segment has its own
// tube radius.
module Routes {
  import opened Vectors
  import opened Utilities

  /** What PointToSegmentDistance is told about segment i: its end points
      and the length and unit normal the pathway stores for it. */
  datatype Segment = Segment(start: Vec3, end: Vec3, length: real, normal: Vec3)

  /** What PointToSegmentDistance yields: the distance to the segment and
      the nearest point on it (the pathway's `chosen`). */
  datatype Projection = Projection(distance: real, chosen: Vec3)

  /** The state of MapPointToPath's search: the best point on the path, its
      tangent and its outsideness so far. */
  datatype PathPoint = PathPoint(onPath: Vec3, tangent: Vec3, outside: real)

  class GCRoute {
    const pointCount: int
    const cyclic: bool
    const points: array<Vec3>
    const radii: array<real>
    // Computed by the base pathway's initialisation, which is not part of
    // this model: segment lengths and unit normals, indexed by the segment's
    // end point.
    const lengths: seq<real>
    const normals: seq<Vec3>
    // The base pathway's distance routine.
    const pointToSegment: (Vec3, Segment) -> Projection
    // Scratch fields the distance routine reads.
    var segmentLength: real
    var segmentNormal: Vec3

    ghost predicate Valid()
    {
      pointCount >= 0 && points.Length == pointCount && radii.Length == pointCount &&
      |lengths| == pointCount && |normals| == pointCount
    }

    /** The point the constructor stores at index i. */
    static function SourcePoint(pointsIn: seq<Vec3>, cyclic: bool, count: int, i: int): Vec3
      requires 0 <= i < count
      requires |pointsIn| >= count || (cyclic && |pointsIn| >= count - 1 && |pointsIn| >= 1)
    {
      if cyclic && i == count - 1 then pointsIn[0] else pointsIn[i]
    }

    /** `count`, `lengths` and `normals` are what the base initialisation
        derives from the arguments. */
    constructor (count: int, pointsIn: seq<Vec3>, radiiIn: seq<real>, isCyclic: bool,
                 segmentLengths: seq<real>, segmentNormals: seq<Vec3>,
                 distance: (Vec3, Segment) -> Projection)
      requires count >= 0 && |radiiIn| >= count && |radiiIn| >= 1
      requires |pointsIn| >= count || (isCyclic && |pointsIn| >= count - 1 && |pointsIn| >= 1)
      requires |segmentLengths| == count && |segmentNormals| == count
      ensures Valid() && fresh(points) && fresh(radii)
      ensures pointCount == count && cyclic == isCyclic
      ensures lengths == segmentLengths && normals == segmentNormals && pointToSegment == distance
      ensures forall i | 0 <= i < count :: radii[i] == radiiIn[i]
      ensures forall i | 0 <= i < count :: points[i] == SourcePoint(pointsIn, isCyclic, count, i)
      ensures isCyclic && count >= 1 ==> points[count - 1] == pointsIn[0]
    {
      pointCount := count;
      cyclic := isCyclic;
      lengths := segmentLengths;
      normals := segmentNormals;
      pointToSegment := distance;
      var ps := new Vec3[count](_ => Zero);
      var rs := new real[count];
      for i := 0 to count
        invariant forall k | 0 <= k < i :: rs[k] == radiiIn[k]
        invariant forall k | 0 <= k < i :: ps[k] == SourcePoint(pointsIn, isCyclic, count, k)
      {
        var closeCycle := isCyclic && i == count - 1;
        var j := if closeCycle then 0 else i;
        ps[i] := pointsIn[j];
        rs[i] := radiiIn[i];
      }
      points := ps;
      radii := rs;
    }

    /** Segment i runs from points[i - 1] to points[i]. */
    function SegmentAt(i: int): Segment
      reads points
      requires Valid() && 1 <= i < pointCount
    {
      Segment(points[i - 1], points[i], lengths[i], normals[i])
    }

    function SegmentDistance(point: Vec3, i: int): real
      reads points
      requires Valid() && 1 <= i < pointCount
    {
      pointToSegment(point, SegmentAt(i)).distance
    }

    /** How far the point is outside segment i's tube (negative inside). */
    function SegmentOutside(point: Vec3, i: int): real
      reads points, radii
      requires Valid() && 1 <= i < pointCount
    {
      SegmentDistance(point, i) - radii[i]
    }

    // ------------------------------------------------------ nearest segment

    /** IndexOfNearestSegment's running (index, minimum) after segments 1..k-1. */
    function NearestUpTo(point: Vec3, k: int): (int, real)
      reads points
      requires Valid() && (k <= 1 || k <= pointCount)
      decreases k
    {
      if k <= 1 then (0, MaxFloat)
      else
        var (index, minDistance) := NearestUpTo(point, k - 1);
        var d := SegmentDistance(point, k - 1);
        if d < minDistance then (k - 1, d) else (index, minDistance)
    }

    /** The search's result is the first segment of least distance, or 0 with
        the start value when no segment comes under it. */
    lemma {:induction false} NearestIsFirstMinimum(point: Vec3, k: int)
      requires Valid() && (k <= 1 || k <= pointCount)
      ensures var (index, m) := NearestUpTo(point, k);
        && 0 <= index && (k >= 2 ==> index < k) && (k < 2 ==> index == 0)
        && m <= MaxFloat
        && (index == 0 ==> m == MaxFloat)
        && (index >= 1 ==> m == SegmentDistance(point, index))
        && (forall i | 1 <= i < k :: m <= SegmentDistance(point, i))
        && (forall i | 1 <= i < index :: m < SegmentDistance(point, i))
      decreases k
    {
      if k > 1 {
        NearestIsFirstMinimum(point, k - 1);
      }
    }

    /** IndexOfNearestSegment: the first segment nearest the point. The
        scratch fields are left at the last segment scanned. */
    method IndexOfNearestSegment(point: Vec3) returns (index: int)
      requires Valid()
      modifies this
      ensures index == NearestUpTo(point, pointCount).0
      ensures pointCount >= 2 ==> segmentLength == lengths[pointCount - 1] && segmentNormal == normals[pointCount - 1]
      ensures pointCount < 2 ==> segmentLength == old(segmentLength) && segmentNormal == old(segmentNormal)
    {
      index := 0;
      var minDistance := MaxFloat;
      var i := 1;
      while i < pointCount
        invariant 1 <= i && (i == 1 || i <= pointCount)
        invariant (index, minDistance) == NearestUpTo(point, i)
        invariant i >= 2 ==> segmentLength == lengths[i - 1] && segmentNormal == normals[i - 1]
        invariant i < 2 ==> segmentLength == old(segmentLength) && segmentNormal == old(segmentNormal)
      {
        segmentLength := lengths[i];
        segmentNormal := normals[i];
        var d := pointToSegment(point, Segment(points[i - 1], points[i], segmentLength, segmentNormal)).distance;
        if d < minDistance {
          minDistance := d;
          index := i;
        }
        i := i + 1;
      }
    }

    // ------------------------------------------------------ map point to path

    /** MapPointToPath's running state after segments 1..k-1. */
    function ProjectionUpTo(point: Vec3, k: int): PathPoint
      reads points, radii
      requires Valid() && (k <= 1 || k <= pointCount)
      decreases k
    {
      if k <= 1 then PathPoint(Zero, Zero, MaxFloat)
      else
        var best := ProjectionUpTo(point, k - 1);
        var o := SegmentOutside(point, k - 1);
        if o < best.outside then PathPoint(pointToSegment(point, SegmentAt(k - 1)).chosen, normals[k - 1], o)
        else best
    }

    /** The least outsideness over the segments, taken from the first segment
        that reaches it; when none comes under the start value, the point on
        path and the tangent stay zero. */
    lemma {:induction false} ProjectionIsFirstMinimum(point: Vec3, k: int)
      requires Valid() && (k <= 1 || k <= pointCount)
      ensures var p := ProjectionUpTo(point, k);
        && p.outside <= MaxFloat
        && (forall i | 1 <= i < k :: p.outside <= SegmentOutside(point, i))
        && ((p.outside == MaxFloat && p.onPath == Zero && p.tangent == Zero) ||
            (exists i | 1 <= i < k ::
               && p.outside == SegmentOutside(point, i)
               && p.onPath == pointToSegment(point, SegmentAt(i)).chosen
               && p.tangent == normals[i]
               && forall j | 1 <= j < i :: p.outside < SegmentOutside(point, j)))
      decreases k
    {
      if k > 1 {
        ProjectionIsFirstMinimum(point, k - 1);
        var p := ProjectionUpTo(point, k);
        if SegmentOutside(point, k - 1) < ProjectionUpTo(point, k - 1).outside {
          assert p.outside == SegmentOutside(point, k - 1);
        }
      }
    }

    /** MapPointToPath: the nearest point on the path, the path tangent
        there, and how far outside the tube the point lies. */
    method MapPointToPath(point: Vec3) returns (onPath: Vec3, tangent: Vec3, outside: real)
      requires Valid()
      modifies this
      ensures PathPoint(onPath, tangent, outside) == ProjectionUpTo(point, pointCount)
      ensures pointCount >= 2 ==> segmentLength == lengths[pointCount - 1] && segmentNormal == normals[pointCount - 1]
      ensures pointCount < 2 ==> segmentLength == old(segmentLength) && segmentNormal == old(segmentNormal)
    {
      onPath := Zero;
      tangent := Zero;
      outside := MaxFloat;
      var i := 1;
      while i < pointCount
        invariant 1 <= i && (i == 1 || i <= pointCount)
        invariant PathPoint(onPath, tangent, outside) == ProjectionUpTo(point, i)
        invariant i >= 2 ==> segmentLength == lengths[i - 1] && segmentNormal == normals[i - 1]
        invariant i < 2 ==> segmentLength == old(segmentLength) && segmentNormal == old(segmentNormal)
      {
        segmentLength := lengths[i];
        segmentNormal := normals[i];
        var projection := pointToSegment(point, Segment(points[i - 1], points[i], segmentLength, segmentNormal));
        var o := projection.distance - radii[i];
        if o < outside {
          outside := o;
          onPath := projection.chosen;
          tangent := segmentNormal;
        }
        i := i + 1;
      }
    }

    // ------------------------------------------------------ tangents

    /** DotSegmentUnitTangents: the dot product of two segment tangents. */
    function DotSegmentUnitTangents(segmentIndex0: int, segmentIndex1: int): real
      requires Valid() && 0 <= segmentIndex0 < pointCount && 0 <= segmentIndex1 < pointCount
    {
      Dot(normals[segmentIndex0], normals[segmentIndex1])
    }

    /** The turn measure does not depend on the order of the two segments. */
    lemma DotSegmentUnitTangentsSymmetric(a: int, b: int)
      requires Valid() && 0 <= a < pointCount && 0 <= b < pointCount
      ensures DotSegmentUnitTangents(a, b) == DotSegmentUnitTangents(b, a)
    {
      DotSymmetric(normals[a], normals[b]);
    }

    /** IsInsidePathSegment as a value: false off the segment range,
        otherwise whether the point is strictly inside that segment's tube. */
    function InsidePathSegment(point: Vec3, segmentIndex: int): (inside: bool)
      reads points, radii
      requires Valid()
      ensures inside <==> 1 <= segmentIndex < pointCount && SegmentDistance(point, segmentIndex) < radii[segmentIndex]
    {
      if segmentIndex < 1 || segmentIndex >= pointCount then false
      else SegmentOutside(point, segmentIndex) < 0.0
    }

    /** IsInsidePathSegment, with its write of the scratch fields. */
    method IsInsidePathSegment(point: Vec3, segmentIndex: int) returns (inside: bool)
      requires Valid()
      modifies this
      ensures inside == InsidePathSegment(point, segmentIndex)
      ensures 1 <= segmentIndex < pointCount ==>
        segmentLength == lengths[segmentIndex] && segmentNormal == normals[segmentIndex]
      ensures !(1 <= segmentIndex < pointCount) ==>
        segmentLength == old(segmentLength) && segmentNormal == old(segmentNormal)
    {
      if segmentIndex < 1 || segmentIndex >= pointCount {
        return false;
      }
      var i := segmentIndex;
      segmentLength := lengths[i];
      segmentNormal := normals[i];
      var d := pointToSegment(point, Segment(points[i - 1], points[i], segmentLength, segmentNormal)).distance;
      var o := d - radii[i];
      return o < 0.0;
    }

    /** TangentAt(point): the tangent of the nearest segment (of segment 0
        when no segment comes under the start distance). */
    function TangentAt(point: Vec3): (tangent: Vec3)
      reads points
      requires Valid() && pointCount >= 1
      ensures (exists j | 1 <= j < pointCount :: SegmentDistance(point, j) < MaxFloat) ==>
        exists i | 1 <= i < pointCount :: tangent == normals[i] &&
          forall j | 1 <= j < pointCount :: SegmentDistance(point, i) <= SegmentDistance(point, j)
    {
      NearestIsFirstMinimum(point, pointCount);
      normals[NearestUpTo(point, pointCount).0]
    }

    /** The segment whose tangent TangentAt(point, direction) uses: the
        nearest one, or the next one along the direction when the point is
        already inside that one's tube. */
    function TangentSegment(point: Vec3, direction: int): int
      reads points, radii
      requires Valid()
    {
      var segmentIndex := NearestUpTo(point, pointCount).0;
      var insideNextSegment := InsidePathSegment(point, segmentIndex + direction);
      segmentIndex + (if insideNextSegment then direction else 0)
    }

    /** The chosen segment index is always a valid index into the tangents. */
    lemma TangentSegmentInRange(point: Vec3, direction: int)
      requires Valid() && pointCount >= 1
      ensures 0 <= TangentSegment(point, direction) < pointCount
      ensures var s := TangentSegment(point, direction);
        s == NearestUpTo(point, pointCount).0 ||
        (s == NearestUpTo(point, pointCount).0 + direction && InsidePathSegment(point, s))
    {
      NearestIsFirstMinimum(point, pointCount);
    }

    /** TangentAt(point, direction): the chosen segment's tangent scaled by
        the path-following direction. */
    function TangentAtInDirection(point: Vec3, direction: int): (tangent: Vec3)
      reads points, radii
      requires Valid() && pointCount >= 1
      ensures exists i | 0 <= i < pointCount ::
        && tangent == Scale(normals[i], direction as real)
        && (i == NearestUpTo(point, pointCount).0 ||
            (i == NearestUpTo(point, pointCount).0 + direction && InsidePathSegment(point, i)))
    {
      TangentSegmentInRange(point, direction);
      Scale(normals[TangentSegment(point, direction)], direction as real)
    }

    // ------------------------------------------------------ waypoints

    /** The radius around waypoint i: the larger of the radii of the
        segments on either side. */
    function WaypointRadius(i: int): real
      reads radii
      requires Valid() && 0 <= i < pointCount
    {
      MaxR(radii[i], radii[(i + 1) % pointCount])
    }

    /** NearWaypoint: whether some waypoint 1..pointCount-1 is closer than
        its radius; waypoint 0 is never examined. */
    method NearWaypoint(point: Vec3, sqrt: real -> real) returns (near: bool)
      requires Valid()
      ensures near <==> exists i | 1 <= i < pointCount :: Distance(point, points[i], sqrt) < WaypointRadius(i)
    {
      var i := 1;
      while i < pointCount
        invariant 1 <= i && (i == 1 || i <= pointCount)
        invariant forall k | 1 <= k < i :: Distance(point, points[k], sqrt) >= WaypointRadius(k)
      {
        var r := MaxR(radii[i], radii[(i + 1) % pointCount]);
        var d := Length(Sub(point, points[i]), sqrt);
        if d < r {
          return true;
        }
        i := i + 1;
      }
      return false;
    }
  }
}
