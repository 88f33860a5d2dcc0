// The capture-the-flag enemies: each pursues the seeker, predicting no
// further ahead than the seeker's remaining run to the base, steers around
// obstacles first, brakes once the seeker has stopped running, and tags a
// running seeker it touches.
//
// The pursuit and obstacle-avoidance behaviours and the vehicle's motion
// under a steering force belong to the vehicle library; they arrive as
// values (the pursuit as a function of the prediction time, the position
// after the move as a parameter).
module CtfEnemies {
  import opened Options
  import opened Vectors
  import opened Obstacles
  import opened CtfBases
  import opened CtfSeekers

  /** The pursuit's prediction bound: 0.9 of the time the seeker needs to
      cover its distance to the base, less the enemy's radius and the
      base's; zero once that distance is negative. A seeker at speed zero
      makes the float quotient infinite or undefined: none. */
  function MaxPredictionTime(seekerToGoalDist: real, radius: real, seekerSpeed: real): (t: Option<real>)
    ensures seekerToGoalDist - radius - HomeBaseRadius < 0.0 ==> t == Some(0.0)
    ensures seekerSpeed > 0.0 ==> t.Some? && t.value >= 0.0
    ensures t.None? <==> seekerToGoalDist - radius - HomeBaseRadius >= 0.0 && seekerSpeed == 0.0
  {
    var adjustedDistance := seekerToGoalDist - radius - HomeBaseRadius;
    if adjustedDistance < 0.0 then Some(0.0)
    else if seekerSpeed == 0.0 then None
    else Some(adjustedDistance / seekerSpeed * 0.9)
  }

  /** One enemy's steering decision: the force, the Avoiding flag, and
      whether it brakes. */
  datatype EnemySteering = EnemySteering(steer: Vec3, avoiding: bool, brake: bool)

  /** The decision as the source writes it: while the seeker runs, the
      Avoiding flag is set when the avoidance force is zero, and then the
      enemy pursues; a non-zero avoidance force is followed. Once the
      seeker stops, the enemy brakes and the flag is kept. */
  function EnemySteerAsWritten(seekerState: SeekerState, avoidance: Vec3, pursuit: Vec3, avoiding: bool)
    : (r: EnemySteering)
    ensures seekerState == Running ==> (r.avoiding <==> avoidance == Zero)
    ensures seekerState == Running ==> r.steer == (if avoidance == Zero then pursuit else avoidance) && !r.brake
    ensures seekerState != Running ==> r == EnemySteering(Zero, avoiding, true)
  {
    if seekerState == Running then
      var flag := avoidance == Zero;
      EnemySteering(if flag then pursuit else avoidance, flag, false)
    else EnemySteering(Zero, avoiding, true)
  }

  /** The same decision with the flag meaning what its name and the
      seeker's use of it say: set exactly when the enemy steers by a
      non-zero avoidance force. */
  function EnemySteer(seekerState: SeekerState, avoidance: Vec3, pursuit: Vec3, avoiding: bool)
    : (r: EnemySteering)
    ensures seekerState == Running ==> (r.avoiding <==> avoidance != Zero)
    ensures seekerState == Running ==> (r.avoiding ==> r.steer == avoidance) && (!r.avoiding ==> r.steer == pursuit)
    ensures seekerState == Running ==> !r.brake
    ensures seekerState != Running ==> r == EnemySteering(Zero, avoiding, true)
  {
    if seekerState == Running then
      var flag := avoidance != Zero;
      EnemySteering(if flag then avoidance else pursuit, flag, false)
    else EnemySteering(Zero, avoiding, true)
  }

  /** The source's flag is the negation of the intended one whenever the
      seeker runs, while the force chosen is the same: an enemy steering
      around an obstacle reports that it is not avoiding. */
  lemma AsWrittenAvoidingFlagIsInverted(seekerState: SeekerState, avoidance: Vec3, pursuit: Vec3, avoiding: bool)
    ensures EnemySteerAsWritten(seekerState, avoidance, pursuit, avoiding).steer
            == EnemySteer(seekerState, avoidance, pursuit, avoiding).steer
    ensures seekerState == Running ==>
              EnemySteerAsWritten(seekerState, avoidance, pursuit, avoiding).avoiding
              != EnemySteer(seekerState, avoidance, pursuit, avoiding).avoiding
    ensures !EnemySteerAsWritten(Running, UnitX, Zero, false).avoiding
            && EnemySteerAsWritten(Running, UnitX, Zero, false).steer == UnitX
  {
  }

  class CtfEnemy {
    var vehicle: CtfVehicle

    /** Reset: the common capture-the-flag reset. */
    method Reset(reg: ObstacleRegistry, candidates: seq<Vec3>, heading: Vec3, sqrt: real -> real)
      modifies this
      ensures vehicle.speed == 3.0 && vehicle.maxForce == 3.0 && vehicle.maxSpeed == 3.0
      ensures !vehicle.avoiding && vehicle.radius == old(vehicle.radius) && vehicle.forward == heading
      ensures vehicle.position == old(vehicle.position)
              || (vehicle.position in candidates
                  && forall i | 0 <= i < |reg.allObstacles| ::
                       Clearance(0.0, vehicle.position, reg.allObstacles[i], sqrt) >= vehicle.radius * 5.0)
    {
      var start := RandomizeStartingPosition(reg, candidates, vehicle.radius, sqrt);
      vehicle := BaseReset(vehicle, start, heading);
    }

    /** Update: decides the steering against the seeker's current state,
        moves to movedPosition, and tags the seeker when it is running and
        within the sum of the two radii. */
    method Update(seeker: CtfSeeker, avoidance: Vec3, pursuit: Option<real> -> Vec3, movedPosition: Vec3,
                  sqrt: real -> real)
      returns (steer: Vec3, brake: bool)
      modifies this, seeker
      ensures var t := MaxPredictionTime(Distance(HomeBaseCenter, old(seeker.vehicle.position), sqrt),
                                         old(vehicle.radius), old(seeker.vehicle.speed));
              var decision := EnemySteer(old(seeker.state), avoidance, pursuit(t), old(vehicle.avoiding));
              steer == decision.steer && brake == decision.brake && vehicle.avoiding == decision.avoiding
      ensures vehicle == old(vehicle).(position := movedPosition, avoiding := vehicle.avoiding)
      ensures seeker.state == TagSeeker(old(seeker.state), Distance(movedPosition, seeker.vehicle.position, sqrt),
                                        vehicle.radius + seeker.vehicle.radius)
      ensures seeker.vehicle == old(seeker.vehicle) && seeker.evading == old(seeker.evading)
      ensures seeker.lastRunningTime == old(seeker.lastRunningTime)
      ensures seeker.avoidancePredictTime == old(seeker.avoidancePredictTime)
    {
      var seekerToGoalDist := Distance(HomeBaseCenter, seeker.vehicle.position, sqrt);
      var maxPredictionTime := MaxPredictionTime(seekerToGoalDist, vehicle.radius, seeker.vehicle.speed);
      var decision := EnemySteer(seeker.state, avoidance, pursuit(maxPredictionTime), vehicle.avoiding);
      steer, brake := decision.steer, decision.brake;
      vehicle := vehicle.(position := movedPosition, avoiding := decision.avoiding);
      var seekerToMeDist := Distance(vehicle.position, seeker.vehicle.position, sqrt);
      var sumOfRadii := vehicle.radius + seeker.vehicle.radius;
      if seekerToMeDist < sumOfRadii {
        if seeker.state == Running {
          seeker.state := Tagged;
        }
      }
    }
  }
}
