// The soccer field's axis-aligned box: two corners stored as given, and
// per-axis membership tests on the ground plane.
module AABBoxes {
  import opened Vectors

  /** The corners are stored without any check that min lies below max. */
  datatype AABBox = AABBox(min: Vec3, max: Vec3)

  /** IsInsideX: p lies between the corners along X, both bounds included. */
  predicate IsInsideX(box: AABBox, p: Vec3)
  {
    !(p.x < box.min.x || p.x > box.max.x)
  }

  /** IsInsideZ: p lies between the corners along Z, both bounds included. */
  predicate IsInsideZ(box: AABBox, p: Vec3)
  {
    !(p.z < box.min.z || p.z > box.max.z)
  }

  /** Both tests are closed intervals: the corners' own coordinates are
      inside whenever the box is not inverted on that axis, and a point
      just past either corner is outside. */
  lemma InsideIsClosedInterval(box: AABBox, p: Vec3)
    ensures IsInsideX(box, p) <==> box.min.x <= p.x && p.x <= box.max.x
    ensures IsInsideZ(box, p) <==> box.min.z <= p.z && p.z <= box.max.z
    ensures box.min.x <= box.max.x ==> IsInsideX(box, box.min) && IsInsideX(box, box.max)
    ensures box.min.z <= box.max.z ==> IsInsideZ(box, box.min) && IsInsideZ(box, box.max)
  {
  }

  /** IsInsideX looks only at X, and IsInsideZ only at Z. */
  lemma InsideDependsOnOneAxis(box: AABBox, p: Vec3, q: Vec3)
    ensures p.x == q.x ==> (IsInsideX(box, p) <==> IsInsideX(box, q))
    ensures p.z == q.z ==> (IsInsideZ(box, p) <==> IsInsideZ(box, q))
  {
  }

  /** A box whose corners are swapped on an axis contains no point on that
      axis. */
  lemma InvertedBoxIsEmpty(box: AABBox, p: Vec3)
    ensures box.min.x > box.max.x ==> !IsInsideX(box, p)
    ensures box.min.z > box.max.z ==> !IsInsideZ(box, p)
  {
  }
}
