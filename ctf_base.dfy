// The capture-the-flag demo's shared ground: the home base, the seeker's
// states, and the obstacle registry, whose new obstacles are drawn at
// random until one keeps its distance from every existing obstacle and
// from the home base.
//
// Random draws are not modelled: each operation that draws takes the
// sequence of candidates the generator would produce, in order.
module CtfBases {
  import opened Options
  import opened Vectors
  import opened Utilities
  import opened Obstacles

  const HomeBaseCenter: Vec3 := Zero
  const HomeBaseRadius: real := 1.5
  const MinStartRadius: real := 30.0
  const MaxStartRadius: real := 40.0

  /** InitializeObstacles starts with 40% of the registry's capacity. */
  const InitialObstacleCount := 40

  datatype SeekerState = Running | Tagged | AtGoal

  /** The vehicle state a capture-the-flag character keeps: where it is and
      faces, its size and speed limits, and whether it is steering around
      an obstacle. */
  datatype CtfVehicle = CtfVehicle(position: Vec3, forward: Vec3, radius: real, speed: real,
                                   maxForce: real, maxSpeed: real, avoiding: bool)

  /** CtfBase.Reset's own settings: speed, force and speed limit 3, not
      avoiding, placed at the chosen start (kept when no start was found)
      and facing the new heading. */
  function BaseReset(v: CtfVehicle, start: Option<Vec3>, heading: Vec3): (r: CtfVehicle)
    ensures r.speed == 3.0 && r.maxForce == 3.0 && r.maxSpeed == 3.0 && !r.avoiding
    ensures r.radius == v.radius
    ensures r.position == (if start.Some? then start.value else v.position)
  {
    CtfVehicle(if start.Some? then start.value else v.position, heading, v.radius, 3.0, 3.0, 3.0, false)
  }

  /** The home base, seen as an obstacle. */
  const HomeBase: SphericalObstacle := SphericalObstacle(HomeBaseRadius, HomeBaseCenter)

  /** The clearance a new obstacle must keep: twice the seeker's diameter. */
  function RequiredClearance(seekerRadius: real): real
  {
    seekerRadius * 4.0
  }

  /** The test that ends AddOneObstacle's draw loop: the candidate's least
      clearance to the existing obstacles, and then to a home base shrunk by
      the required clearance, reaches the required clearance. */
  predicate AcceptsCandidate(existing: seq<SphericalObstacle>, o: SphericalObstacle, required: real,
                             sqrt: real -> real)
  {
    var minClearance := MinClearance(MaxFloat, o.radius, o.center, existing, sqrt);
    TestOneObstacleOverlap(minClearance, o.radius, HomeBaseRadius - required, o.center,
                           HomeBaseCenter, sqrt) >= required
  }

  /** A candidate is accepted exactly when it keeps the required clearance
      from every existing obstacle and does not overlap the home base
      (and the required clearance is below float.MaxValue). */
  lemma AcceptedIsClear(existing: seq<SphericalObstacle>, o: SphericalObstacle, required: real,
                        sqrt: real -> real)
    ensures AcceptsCandidate(existing, o, required, sqrt) <==>
              && required <= MaxFloat
              && (forall i | 0 <= i < |existing| :: Clearance(o.radius, o.center, existing[i], sqrt) >= required)
              && Clearance(o.radius, o.center, HomeBase, sqrt) >= 0.0
  {
    MinClearanceIsMinimum(MaxFloat, o.radius, o.center, existing, sqrt);
    if required <= MaxFloat
       && (forall i | 0 <= i < |existing| :: Clearance(o.radius, o.center, existing[i], sqrt) >= required) {
      MinClearanceAtLeast(MaxFloat, o.radius, o.center, existing, sqrt, required);
    }
  }

  /** Every pair of obstacles keeps the required clearance, and none
      overlaps the home base. */
  ghost predicate WellSpaced(obstacles: seq<SphericalObstacle>, required: real, sqrt: real -> real)
  {
    && (forall i, j | 0 <= i < j < |obstacles| ::
          Clearance(obstacles[j].radius, obstacles[j].center, obstacles[i], sqrt) >= required)
    && (forall i | 0 <= i < |obstacles| ::
          Clearance(obstacles[i].radius, obstacles[i].center, HomeBase, sqrt) >= 0.0)
  }

  /** Appending an accepted candidate keeps a registry well spaced, and so
      does dropping obstacles from its end. */
  lemma WellSpacedAppendAndTruncate(obstacles: seq<SphericalObstacle>, o: SphericalObstacle, n: nat,
                                    required: real, sqrt: real -> real)
    requires WellSpaced(obstacles, required, sqrt)
    requires n <= |obstacles|
    ensures AcceptsCandidate(obstacles, o, required, sqrt) ==> WellSpaced(obstacles + [o], required, sqrt)
    ensures WellSpaced(obstacles[..n], required, sqrt)
  {
    AcceptedIsClear(obstacles, o, required, sqrt);
    var grown := obstacles + [o];
    forall i | 0 <= i < |obstacles|
      ensures grown[i] == obstacles[i]
    {
    }
  }

  /** The body of AddOneObstacle's draw loop: the candidate's clearance to
      every existing obstacle, then to the shrunk home base. */
  method CandidateClearance(existing: seq<SphericalObstacle>, o: SphericalObstacle, required: real,
                            sqrt: real -> real) returns (minClearance: real)
    ensures minClearance >= required <==> AcceptsCandidate(existing, o, required, sqrt)
  {
    minClearance := MaxFloat;
    for so := 0 to |existing|
      invariant minClearance == MinClearance(MaxFloat, o.radius, o.center, existing[..so], sqrt)
    {
      assert existing[..so + 1][..so] == existing[..so];
      minClearance := TestOneObstacleOverlap(minClearance, o.radius, existing[so].radius, o.center,
                                             existing[so].center, sqrt);
    }
    assert existing[..|existing|] == existing;
    minClearance := TestOneObstacleOverlap(minClearance, o.radius, HomeBaseRadius - required, o.center,
                                           HomeBaseCenter, sqrt);
  }

  /** AddOneObstacle's draw loop: the index of the first accepted
      candidate, or -1 when none is accepted. */
  method FirstAcceptedDraw(existing: seq<SphericalObstacle>, draws: seq<SphericalObstacle>, required: real,
                           sqrt: real -> real) returns (k: int)
    ensures -1 <= k < |draws|
    ensures k == -1 <==> forall j | 0 <= j < |draws| :: !AcceptsCandidate(existing, draws[j], required, sqrt)
    ensures 0 <= k ==> AcceptsCandidate(existing, draws[k], required, sqrt)
    ensures forall j | 0 <= j < k :: !AcceptsCandidate(existing, draws[j], required, sqrt)
  {
    k := 0;
    while k < |draws|
      invariant 0 <= k <= |draws|
      invariant forall j | 0 <= j < k :: !AcceptsCandidate(existing, draws[j], required, sqrt)
    {
      var minClearance := CandidateClearance(existing, draws[k], required, sqrt);
      if minClearance >= required {
        return;
      }
      k := k + 1;
    }
    k := -1;
  }

  /** AddOneObstacle: below capacity, appends the first candidate draw
      that is accepted; at capacity, or when no draw is accepted, the
      registry is unchanged. Appending keeps the registry well spaced. */
  method AddOneObstacle(reg: ObstacleRegistry, draws: seq<SphericalObstacle>, seekerRadius: real,
                        sqrt: real -> real) returns (added: bool)
    requires reg.Valid() && reg.obstacleCount >= 0
    modifies reg
    ensures reg.Valid()
    ensures added <==> old(reg.obstacleCount) < MaxObstacleCount
                       && exists k | 0 <= k < |draws| ::
                            AcceptsCandidate(old(reg.allObstacles), draws[k], RequiredClearance(seekerRadius), sqrt)
    ensures added ==>
              && reg.obstacleCount == old(reg.obstacleCount) + 1
              && exists k | 0 <= k < |draws| ::
                   && AcceptsCandidate(old(reg.allObstacles), draws[k], RequiredClearance(seekerRadius), sqrt)
                   && (forall j | 0 <= j < k ::
                         !AcceptsCandidate(old(reg.allObstacles), draws[j], RequiredClearance(seekerRadius), sqrt))
                   && reg.allObstacles == old(reg.allObstacles) + [draws[k]]
    ensures !added ==> reg.obstacleCount == old(reg.obstacleCount) && reg.allObstacles == old(reg.allObstacles)
    ensures WellSpaced(old(reg.allObstacles), RequiredClearance(seekerRadius), sqrt) ==>
              WellSpaced(reg.allObstacles, RequiredClearance(seekerRadius), sqrt)
  {
    added := false;
    if reg.obstacleCount < MaxObstacleCount {
      var required := RequiredClearance(seekerRadius);
      var existing := reg.allObstacles;
      var k := FirstAcceptedDraw(existing, draws, required, sqrt);
      if k >= 0 {
        if WellSpaced(existing, required, sqrt) {
          WellSpacedAppendAndTruncate(existing, draws[k], 0, required, sqrt);
        }
        reg.allObstacles := existing + [draws[k]];
        reg.obstacleCount := reg.obstacleCount + 1;
        added := true;
      }
    }
  }

  /** InitializeObstacles: only on first use (count -1), starts an empty
      registry and adds 40 obstacles, one per batch of candidate draws;
      the result is well spaced. */
  method InitializeObstacles(reg: ObstacleRegistry, batches: seq<seq<SphericalObstacle>>, seekerRadius: real,
                             sqrt: real -> real)
    requires reg.Valid() && |batches| == InitialObstacleCount
    modifies reg
    ensures reg.Valid()
    ensures old(reg.obstacleCount) != -1 ==>
              reg.obstacleCount == old(reg.obstacleCount) && reg.allObstacles == old(reg.allObstacles)
    ensures old(reg.obstacleCount) == -1 ==>
              && 0 <= reg.obstacleCount <= InitialObstacleCount
              && WellSpaced(reg.allObstacles, RequiredClearance(seekerRadius), sqrt)
  {
    if reg.obstacleCount == -1 {
      reg.obstacleCount := 0;
      for i := 0 to InitialObstacleCount
        invariant reg.Valid() && 0 <= reg.obstacleCount <= i
        invariant WellSpaced(reg.allObstacles, RequiredClearance(seekerRadius), sqrt)
      {
        var _ := AddOneObstacle(reg, batches[i], seekerRadius, sqrt);
      }
    }
  }

  /** RandomizeStartingPositionAndHeading: the first candidate position
      whose least clearance to the obstacles is at least five radii; none
      when every candidate is too close (the source then keeps drawing). */
  method RandomizeStartingPosition(reg: ObstacleRegistry, candidates: seq<Vec3>, radius: real,
                                   sqrt: real -> real) returns (position: Option<Vec3>)
    ensures position.Some? ==>
              && position.value in candidates
              && MinClearance(MaxFloat, 0.0, position.value, reg.allObstacles, sqrt) >= radius * 5.0
              && forall i | 0 <= i < |reg.allObstacles| ::
                   Clearance(0.0, position.value, reg.allObstacles[i], sqrt) >= radius * 5.0
    ensures position.None? ==>
              forall k | 0 <= k < |candidates| ::
                MinClearance(MaxFloat, 0.0, candidates[k], reg.allObstacles, sqrt) < radius * 5.0
  {
    for k := 0 to |candidates|
      invariant forall j | 0 <= j < k ::
                  MinClearance(MaxFloat, 0.0, candidates[j], reg.allObstacles, sqrt) < radius * 5.0
    {
      var d := reg.MinDistanceToObstacle(candidates[k], sqrt);
      if !(d < radius * 5.0) {
        return Some(candidates[k]);
      }
    }
    return None;
  }
}
