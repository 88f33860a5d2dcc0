// A boid of the flocking demo: its reset state, the flocking blend, and the
// spherical world boundary; and the state all boids share (the boundary
// strategy and the obstacle registry), which the demo keeps in statics.
//
// The steering behaviours (separation, alignment, cohesion, obstacle
// avoidance, seek), the spherical wrap-around and the random draws belong
// to the steering library and come in as values.
module Boids {
  import opened Vectors
  import opened Utilities
  import opened Obstacles
  import opened ProximityDatabases

  const AvoidancePredictTimeMin: real := 0.9
  const WorldRadius: real := 50.0

  /** The obstacle registry of the boids demo is filled to capacity. */
  const InitialObstacleCount := 100

  /** The number of boundary strategies: 0 steers back, 1 wraps around. */
  const BoundaryConditionCount := 2

  const SeparationRadius: real := 5.0
  const SeparationAngle: real := -0.707
  const SeparationWeight: real := 12.0
  const AlignmentRadius: real := 7.5
  const AlignmentAngle: real := 0.7
  const AlignmentWeight: real := 8.0
  const CohesionRadius: real := 9.0
  const CohesionAngle: real := -0.15
  const CohesionWeight: real := 8.0

  /** The radius of the neighbour search: the widest of the three component
      radii, so every component sees all the flockmates it considers. */
  function NeighbourSearchRadius(): (r: real)
    ensures r >= SeparationRadius && r >= AlignmentRadius && r >= CohesionRadius
    ensures r == SeparationRadius || r == AlignmentRadius || r == CohesionRadius
  {
    MaxR(SeparationRadius, MaxR(AlignmentRadius, CohesionRadius))
  }

  /** A steering behaviour of the library, queried with a radius and an
      angle over the neighbours the search found. */
  type Behaviour = (real, real) -> Vec3

  /** The weighted sum of the three flocking components. */
  function FlockingBlend(separation: Behaviour, alignment: Behaviour, cohesion: Behaviour): Vec3
  {
    Add(Add(Scale(separation(SeparationRadius, SeparationAngle), SeparationWeight),
            Scale(alignment(AlignmentRadius, AlignmentAngle), AlignmentWeight)),
        Scale(cohesion(CohesionRadius, CohesionAngle), CohesionWeight))
  }

  /** SteerToFlock: obstacle avoidance, whenever it asks for anything,
      replaces flocking outright; otherwise the three weighted components
      are summed. */
  function SteerToFlock(separation: Behaviour, alignment: Behaviour, cohesion: Behaviour,
                        avoidance: Vec3): (r: Vec3)
    ensures avoidance != Zero ==> r == avoidance
    ensures avoidance == Zero ==> r == FlockingBlend(separation, alignment, cohesion)
  {
    var steer := FlockingBlend(separation, alignment, cohesion);
    if avoidance != Zero then avoidance else steer
  }

  /** While avoiding, the flockmates have no say; while not, the blend
      weighs separation 12 and alignment and cohesion 8 each, so equal
      component pulls add up to 28 times one of them. */
  lemma FlockingWeights(separation: Behaviour, alignment: Behaviour, cohesion: Behaviour,
                        otherSeparation: Behaviour, avoidance: Vec3, v: Vec3)
    ensures avoidance != Zero ==>
              SteerToFlock(separation, alignment, cohesion, avoidance)
              == SteerToFlock(otherSeparation, alignment, cohesion, avoidance)
    ensures separation(SeparationRadius, SeparationAngle) == v
            && alignment(AlignmentRadius, AlignmentAngle) == v
            && cohesion(CohesionRadius, CohesionAngle) == v ==>
              SteerToFlock(separation, alignment, cohesion, Zero) == Scale(v, 28.0)
  {
  }

  /** Boid.Reset's heading: a random unit direction folded into the
      quadrant of non-negative x and z, flattened onto the ground plane. */
  function ResetHeading(d: Vec3): (r: Vec3)
    ensures r.y == 0.0 && r.x >= 0.0 && r.z >= 0.0
    ensures Abs(r.x) == Abs(d.x) && Abs(r.z) == Abs(d.z)
  {
    Vec3(Abs(d.x), 0.0, Abs(d.z))
  }

  /** Boid.Reset's position: 10 along X plus a random point of the unit
      sphere scaled by 20. */
  function StartPosition(offset: Vec3): Vec3
  {
    Add(Scale(UnitX, 10.0), Scale(offset, 20.0))
  }

  /** A start position drawn from the unit sphere lies within 20 of the
      point 10 along X. */
  lemma StartPositionNearSpawn(offset: Vec3)
    requires LengthSquared(offset) <= 1.0
    ensures LengthSquared(Sub(StartPosition(offset), Scale(UnitX, 10.0))) <= 400.0
  {
    var d := Sub(StartPosition(offset), Scale(UnitX, 10.0));
    assert d == Scale(offset, 20.0);
    ScaleLengthSquared(offset, 20.0);
  }

  /** The random draws one Reset consumes. */
  datatype BoidStart = BoidStart(heading: Vec3, offset: Vec3)

  /** The motion state Reset sets and the boundary may move. */
  datatype BoidMotion = BoidMotion(position: Vec3, forward: Vec3, speed: real, maxForce: real,
                                   maxSpeed: real)

  /** Reset's state: steering force 27, top speed 9, starting at 30% of it,
      facing ResetHeading and placed at StartPosition. */
  function ResetMotion(start: BoidStart): (m: BoidMotion)
    ensures m.maxForce == 27.0 && m.maxSpeed == 9.0
    ensures 0.0 < m.speed < m.maxSpeed && m.speed == m.maxSpeed * 0.3
    ensures m.forward == ResetHeading(start.heading) && m.position == StartPosition(start.offset)
  {
    BoidMotion(StartPosition(start.offset), ResetHeading(start.heading), 9.0 * 0.3, 27.0, 9.0)
  }

  /** The state the boids share: the boundary strategy and the obstacle
      registry. */
  class BoidWorld {
    var boundaryCondition: int
    const obstacles: ObstacleRegistry

    /** The strategy index stays among the two strategies. */
    ghost predicate Valid()
      reads this, obstacles
    {
      0 <= boundaryCondition < BoundaryConditionCount && obstacles.Valid()
    }

    constructor ()
      ensures Valid() && boundaryCondition == 0
      ensures fresh(obstacles) && obstacles.obstacleCount == -1 && obstacles.allObstacles == []
    {
      boundaryCondition := 0;
      obstacles := new ObstacleRegistry();
    }

    /** NextBoundaryCondition: switches to the other strategy. */
    method NextBoundaryCondition()
      requires Valid()
      modifies this`boundaryCondition
      ensures Valid()
      ensures boundaryCondition == 1 - old(boundaryCondition)
    {
      boundaryCondition := Remainder(boundaryCondition + 1, BoundaryConditionCount);
    }

    /** AddOneObstacle: below capacity, appends the drawn obstacle; at
        capacity the registry is unchanged. Boids place obstacles without
        any spacing test. */
    method AddOneObstacle(o: SphericalObstacle)
      requires obstacles.Valid() && obstacles.obstacleCount >= 0
      modifies obstacles
      ensures obstacles.Valid()
      ensures old(obstacles.obstacleCount) < MaxObstacleCount ==>
                && obstacles.obstacleCount == old(obstacles.obstacleCount) + 1
                && obstacles.allObstacles == old(obstacles.allObstacles) + [o]
      ensures old(obstacles.obstacleCount) >= MaxObstacleCount ==>
                && obstacles.obstacleCount == old(obstacles.obstacleCount)
                && obstacles.allObstacles == old(obstacles.allObstacles)
    {
      if obstacles.obstacleCount < MaxObstacleCount {
        obstacles.allObstacles := obstacles.allObstacles + [o];
        obstacles.obstacleCount := obstacles.obstacleCount + 1;
      }
    }

    /** InitializeObstacles: only on first use (count -1), fills the
        registry with the 100 drawn obstacles in order. */
    method InitializeObstacles(draws: seq<SphericalObstacle>)
      requires obstacles.Valid() && |draws| == InitialObstacleCount
      modifies obstacles
      ensures obstacles.Valid()
      ensures old(obstacles.obstacleCount) == -1 ==>
                obstacles.obstacleCount == InitialObstacleCount && obstacles.allObstacles == draws
      ensures old(obstacles.obstacleCount) != -1 ==>
                && obstacles.obstacleCount == old(obstacles.obstacleCount)
                && obstacles.allObstacles == old(obstacles.allObstacles)
    {
      if obstacles.obstacleCount == -1 {
        obstacles.obstacleCount := 0;
        for i := 0 to InitialObstacleCount
          invariant obstacles.Valid()
          invariant obstacles.obstacleCount == i && obstacles.allObstacles == draws[..i]
        {
          AddOneObstacle(draws[i]);
          assert draws[..i + 1] == draws[..i] + [draws[i]];
        }
        assert draws[..InitialObstacleCount] == draws;
      }
    }
  }

  class Boid {
    var motion: BoidMotion
    var database: ProximityDatabase

    /** A new boid joins the given database and is reset. */
    constructor (pd: ProximityDatabase, start: BoidStart)
      ensures database == pd && motion == ResetMotion(start)
    {
      database := pd;
      motion := ResetMotion(start);
    }

    /** Reset: the vehicle's reset state for the given draws; the database
        is kept. */
    method Reset(start: BoidStart)
      modifies this`motion
      ensures motion == ResetMotion(start)
    {
      motion := ResetMotion(start);
    }

    /** NewPD: moves the boid to another database. */
    method NewPD(pd: ProximityDatabase)
      modifies this`database
      ensures database == pd
    {
      database := pd;
    }

    /** HandleBoundary: nothing while the boid is inside the world sphere.
        Outside it, strategy 0 returns the part of the seek-to-centre force
        across the boid's heading, and strategy 1 moves the boid to the
        wrapped-around position and returns no force. */
    method HandleBoundary(world: BoidWorld, seekCenter: Vec3, wrapped: Vec3, sqrt: real -> real)
      returns (steer: Vec3)
      modifies this`motion
      ensures Length(old(motion.position), sqrt) < WorldRadius ==> steer == Zero && motion == old(motion)
      ensures !(Length(old(motion.position), sqrt) < WorldRadius) ==>
                && (world.boundaryCondition == 0 ==>
                      steer == PerpendicularComponent(seekCenter, motion.forward) && motion == old(motion))
                && (world.boundaryCondition == 1 ==>
                      steer == Zero && motion == old(motion).(position := wrapped))
                && (world.boundaryCondition != 0 && world.boundaryCondition != 1 ==>
                      steer == Zero && motion == old(motion))
    {
      if Length(motion.position, sqrt) < WorldRadius {
        return Zero;
      }
      if world.boundaryCondition == 0 {
        steer := PerpendicularComponent(seekCenter, motion.forward);
      } else if world.boundaryCondition == 1 {
        motion := motion.(position := wrapped);
        steer := Zero;
      } else {
        steer := Zero;
      }
    }

    /** Update: the steering the boid applies this frame, flocking plus the
        boundary's correction (which may first move the boid). Inside the
        world sphere that is flocking alone; outside it, strategy 0 adds
        the lateral pull back toward the centre, and strategy 1 adds
        nothing but moves the boid to the wrapped-around position.
        Applying the force belongs to the library. */
    method Update(world: BoidWorld, separation: Behaviour, alignment: Behaviour, cohesion: Behaviour,
                  avoidance: Vec3, seekCenter: Vec3, wrapped: Vec3, sqrt: real -> real)
      returns (steer: Vec3)
      modifies this`motion
      ensures var flocking := SteerToFlock(separation, alignment, cohesion, avoidance);
              var inside := Length(old(motion.position), sqrt) < WorldRadius;
        && (inside ==> steer == flocking && motion == old(motion))
        && (!inside && world.boundaryCondition == 0 ==>
              steer == Add(flocking, PerpendicularComponent(seekCenter, old(motion).forward))
              && motion == old(motion))
        && (!inside && world.boundaryCondition == 1 ==>
              steer == flocking && motion == old(motion).(position := wrapped))
        && (!inside && world.boundaryCondition != 0 && world.boundaryCondition != 1 ==>
              steer == flocking && motion == old(motion))
    {
      var flocking := SteerToFlock(separation, alignment, cohesion, avoidance);
      var boundary := HandleBoundary(world, seekCenter, wrapped, sqrt);
      steer := Add(flocking, boundary);
      assert boundary == Zero ==> steer == flocking;
    }
  }
}
