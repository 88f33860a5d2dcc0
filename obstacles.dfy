// Spherical obstacles and the dynamic obstacle registry shared in shape by
// the capture-the-flag and boids demos: a list of obstacles with a count
// that starts at -1 ("not yet initialised"), grows one obstacle at a time
// up to 100 and shrinks from the end; and the clearance queries over it.
module Obstacles {
  import opened Vectors
  import opened Utilities

  datatype SphericalObstacle = SphericalObstacle(radius: real, center: Vec3)

  const MaxObstacleCount := 100

  /** The gap between a sphere of radius r at c and an obstacle's surface
      (negative when they overlap). */
  function Clearance(r: real, c: Vec3, o: SphericalObstacle, sqrt: real -> real): real
  {
    Distance(c, o.center, sqrt) - (r + o.radius)
  }

  /** TestOneObstacleOverlap: the smaller of the running minimum and the
      clearance between the sphere (c, r) and the sphere (center, radius). */
  function TestOneObstacleOverlap(minClearance: real, r: real, radius: real, c: Vec3, center: Vec3,
                                  sqrt: real -> real): (m: real)
    ensures m <= minClearance && m <= Distance(c, center, sqrt) - (r + radius)
    ensures m == minClearance || m == Distance(c, center, sqrt) - (r + radius)
  {
    var d := Distance(c, center, sqrt);
    var clearance := d - (r + radius);
    if minClearance > clearance then clearance else minClearance
  }

  /** The running minimum after testing the sphere (c, r) against every
      obstacle in order, starting from start. */
  function MinClearance(start: real, r: real, c: Vec3, obstacles: seq<SphericalObstacle>,
                        sqrt: real -> real): real
    decreases |obstacles|
  {
    if |obstacles| == 0 then start
    else
      var last := obstacles[|obstacles| - 1];
      TestOneObstacleOverlap(MinClearance(start, r, c, obstacles[..|obstacles| - 1], sqrt),
                             r, last.radius, c, last.center, sqrt)
  }

  /** The running minimum is the least of the start value and every
      obstacle's clearance: no larger than any of them, and equal to one. */
  lemma {:induction false} MinClearanceIsMinimum(start: real, r: real, c: Vec3,
                                                  obstacles: seq<SphericalObstacle>, sqrt: real -> real)
    ensures MinClearance(start, r, c, obstacles, sqrt) <= start
    ensures forall i | 0 <= i < |obstacles| ::
              MinClearance(start, r, c, obstacles, sqrt) <= Clearance(r, c, obstacles[i], sqrt)
    ensures MinClearance(start, r, c, obstacles, sqrt) == start
            || exists i | 0 <= i < |obstacles| ::
                 MinClearance(start, r, c, obstacles, sqrt) == Clearance(r, c, obstacles[i], sqrt)
    decreases |obstacles|
  {
    if |obstacles| > 0 {
      var prefix := obstacles[..|obstacles| - 1];
      MinClearanceIsMinimum(start, r, c, prefix, sqrt);
      forall i | 0 <= i < |prefix|
        ensures obstacles[i] == prefix[i]
      {
      }
    }
  }

  /** A registry whose every clearance reaches bound has a minimum of at
      least bound, when the start value does too. */
  lemma MinClearanceAtLeast(start: real, r: real, c: Vec3, obstacles: seq<SphericalObstacle>,
                            sqrt: real -> real, bound: real)
    requires start >= bound
    requires forall i | 0 <= i < |obstacles| :: Clearance(r, c, obstacles[i], sqrt) >= bound
    ensures MinClearance(start, r, c, obstacles, sqrt) >= bound
  {
    MinClearanceIsMinimum(start, r, c, obstacles, sqrt);
  }

  class ObstacleRegistry {
    var obstacleCount: int
    var allObstacles: seq<SphericalObstacle>

    /** Before initialisation the count is -1 and the list empty; after it
        the count is the list's length, at most 100. */
    ghost predicate Valid()
      reads this
    {
      || (obstacleCount == -1 && allObstacles == [])
      || (0 <= obstacleCount == |allObstacles| <= MaxObstacleCount)
    }

    constructor ()
      ensures Valid() && obstacleCount == -1 && allObstacles == []
    {
      obstacleCount := -1;
      allObstacles := [];
    }

    /** RemoveOneObstacle: drops the last obstacle, unless there is none. */
    method RemoveOneObstacle()
      requires Valid()
      modifies this
      ensures Valid()
      ensures old(obstacleCount) > 0 ==>
                obstacleCount == old(obstacleCount) - 1
                && allObstacles == old(allObstacles)[..old(obstacleCount) - 1]
      ensures old(obstacleCount) <= 0 ==>
                obstacleCount == old(obstacleCount) && allObstacles == old(allObstacles)
    {
      if obstacleCount > 0 {
        obstacleCount := obstacleCount - 1;
        allObstacles := allObstacles[..obstacleCount];
      }
    }

    /** MinDistanceToObstacle: the least clearance between the point and
        any obstacle, float.MaxValue when there is none. */
    method MinDistanceToObstacle(point: Vec3, sqrt: real -> real) returns (minClearance: real)
      ensures minClearance == MinClearance(MaxFloat, 0.0, point, allObstacles, sqrt)
      ensures |allObstacles| == 0 ==> minClearance == MaxFloat
      ensures forall i | 0 <= i < |allObstacles| ::
                minClearance <= Clearance(0.0, point, allObstacles[i], sqrt)
    {
      var r := 0.0;
      var c := point;
      minClearance := MaxFloat;
      for so := 0 to |allObstacles|
        invariant minClearance == MinClearance(MaxFloat, r, c, allObstacles[..so], sqrt)
      {
        assert allObstacles[..so + 1][..so] == allObstacles[..so];
        minClearance := TestOneObstacleOverlap(minClearance, r, allObstacles[so].radius, c,
                                               allObstacles[so].center, sqrt);
      }
      assert allObstacles[..|allObstacles|] == allObstacles;
      MinClearanceIsMinimum(MaxFloat, 0.0, point, allObstacles, sqrt);
    }
  }
}
