// The capture-the-flag seeker: it runs for the home base, steering around
// obstacles and past the enemies, until it reaches the base or is tagged;
// some seconds after it stops running the demo queues a reset.
//
// Steering behaviours of the vehicle library (seek, evade, obstacle
// avoidance, the enemies' predicted positions, the "is ahead/aside" tests)
// are outside this model and arrive as values; the seeker's decisions
// over them are modelled. The demo-wide look-ahead time that only the
// seeker writes is held by the seeker.
module CtfSeekers {
  import opened Options
  import opened Vectors
  import opened Obstacles
  import opened CtfBases
  import Demos

  const AvoidancePredictTimeMin: real := 0.9
  const AvoidancePredictTimeMax: real := 2.0
  const ResetDelay: real := 4.0

  // ------------------------------------------------------------ state machine

  /** UpdateState's first step: a running seeker closer to the base than
      its radius plus the base's radius has reached the goal. */
  function ArriveAtBase(state: SeekerState, baseDistance: real, radius: real): (r: SeekerState)
    ensures state != Running ==> r == state
    ensures r != state ==> r == AtGoal
  {
    if state == Running && baseDistance < radius + HomeBaseRadius then AtGoal else state
  }

  /** An enemy's tagging test: a running seeker closer to the enemy than
      their radii's sum is tagged. */
  function TagSeeker(state: SeekerState, distance: real, sumOfRadii: real): (r: SeekerState)
    ensures state != Running ==> r == state
    ensures r != state ==> r == Tagged
  {
    if distance < sumOfRadii && state == Running then Tagged else state
  }

  /** What can happen to the seeker's state between two resets. */
  datatype SeekerEvent =
    | Arrival(baseDistance: real, radius: real)
    | Touch(distance: real, sumOfRadii: real)

  function RunEvents(state: SeekerState, events: seq<SeekerEvent>): SeekerState
    decreases |events|
  {
    if |events| == 0 then state
    else
      var next := match events[0]
        case Arrival(d, r) => ArriveAtBase(state, d, r)
        case Touch(d, s) => TagSeeker(state, d, s);
      RunEvents(next, events[1..])
  }

  /** Reaching the goal and being tagged are final: no sequence of events
      leads back to Running, and a state that is not Running never
      changes. */
  lemma {:induction false} StopIsFinal(state: SeekerState, events: seq<SeekerEvent>)
    ensures state != Running ==> RunEvents(state, events) == state
    ensures RunEvents(state, events) == Running ==> state == Running
    decreases |events|
  {
    if |events| > 0 {
      var next := match events[0]
        case Arrival(d, r) => ArriveAtBase(state, d, r)
        case Touch(d, s) => TagSeeker(state, d, s);
      StopIsFinal(next, events[1..]);
    }
  }

  // ------------------------------------------------------- decisions on values

  /** The look-ahead uses the goal's distance over the speed; at speed zero
      the float quotient is infinite or undefined, and never "near". */
  predicate GoalIsNear(goalDistance: real, speed: real)
  {
    speed != 0.0 && goalDistance / speed < AvoidancePredictTimeMax
  }

  /** The obstacle look-ahead time: the long one only on a clear path,
      heading toward a goal that is not near. */
  function LookAheadTime(clearPath: bool, headingTowardGoal: bool, goalDistance: real, speed: real): (t: real)
    ensures t == AvoidancePredictTimeMin || t == AvoidancePredictTimeMax
    ensures t == AvoidancePredictTimeMax <==> clearPath && headingTowardGoal && !GoalIsNear(goalDistance, speed)
  {
    if clearPath && headingTowardGoal && !GoalIsNear(goalDistance, speed) then AvoidancePredictTimeMax
    else AvoidancePredictTimeMin
  }

  /** An enemy as the seeker sees it: its radius and where it is predicted
      to be after the seeker's time estimate. */
  datatype EnemySighting = EnemySighting(radius: real, futurePosition: Vec3)

  /** Whether one enemy blocks the corridor from the seeker to the base:
      its predicted position lies along the corridor (not too far behind,
      not past the base), within eight radii of the corridor's axis, and
      it is not safely behind the seeker. With the seeker exactly on the
      base the goal direction is undefined (NaN in floats) and no
      comparison holds, so no enemy blocks. */
  predicate BlocksPath(v: CtfVehicle, goalIsAside: bool, e: EnemySighting, sqrt: real -> real)
  {
    var sideThreshold := v.radius * 8.0;
    var behindThreshold := v.radius * 2.0;
    var goalOffset := Sub(HomeBaseCenter, v.position);
    var goalDistance := Length(goalOffset, sqrt);
    goalDistance != 0.0 &&
    var goalDirection := Div(goalOffset, goalDistance);
    var eOffset := Sub(e.futurePosition, v.position);
    var alongCorridor := Dot(goalDirection, eOffset);
    var inCorridor := alongCorridor > -behindThreshold && alongCorridor < goalDistance;
    var eForwardDistance := Dot(v.forward, eOffset);
    var acrossCorridor := Length(Sub(eOffset, Scale(goalDirection, alongCorridor)), sqrt);
    var eFront := eForwardDistance + e.radius;
    var eIsBehind := eFront < -behindThreshold;
    var eIsWayBehind := eFront < -2.0 * behindThreshold;
    var safeToTurnTowardsGoal := (eIsBehind && goalIsAside) || eIsWayBehind;
    inCorridor && acrossCorridor < sideThreshold && !safeToTurnTowardsGoal
  }

  /** An enemy whose front lies more than four radii behind the seeker is
      safe to turn past, wherever it is along the corridor. */
  lemma EnemyWayBehindNeverBlocks(v: CtfVehicle, goalIsAside: bool, e: EnemySighting, sqrt: real -> real)
    requires Dot(v.forward, Sub(e.futurePosition, v.position)) + e.radius < -4.0 * v.radius
    ensures !BlocksPath(v, goalIsAside, e, sqrt)
  {
  }

  class CtfSeeker {
    var vehicle: CtfVehicle
    var state: SeekerState
    var evading: bool
    var lastRunningTime: real
    var avoidancePredictTime: real

    /** Reset: the common reset, then running and not evading. */
    method Reset(reg: ObstacleRegistry, candidates: seq<Vec3>, heading: Vec3, sqrt: real -> real)
      modifies this
      ensures state == Running && !evading
      ensures vehicle.speed == 3.0 && vehicle.maxForce == 3.0 && vehicle.maxSpeed == 3.0
      ensures !vehicle.avoiding && vehicle.radius == old(vehicle.radius) && vehicle.forward == heading
      ensures vehicle.position == old(vehicle.position)
              || (vehicle.position in candidates
                  && forall i | 0 <= i < |reg.allObstacles| ::
                       Clearance(0.0, vehicle.position, reg.allObstacles[i], sqrt) >= vehicle.radius * 5.0)
      ensures lastRunningTime == old(lastRunningTime) && avoidancePredictTime == old(avoidancePredictTime)
    {
      var start := RandomizeStartingPosition(reg, candidates, vehicle.radius, sqrt);
      vehicle := BaseReset(vehicle, start, heading);
      state := Running;
      evading := false;
    }

    /** UpdateState: arrival at the base ends the run; while running the
        time is recorded, and once the seeker has stopped for longer than
        the reset delay a plug-in reset is queued with the demo. */
    method UpdateState(currentTime: real, demo: Demos.Demo, sqrt: real -> real)
      modifies this, demo
      ensures state == ArriveAtBase(old(state), Distance(vehicle.position, HomeBaseCenter, sqrt), vehicle.radius)
      ensures state == Running ==> lastRunningTime == currentTime && demo.delayedResetPlugIn == old(demo.delayedResetPlugIn)
      ensures state != Running ==>
                lastRunningTime == old(lastRunningTime)
                && demo.delayedResetPlugIn == (old(demo.delayedResetPlugIn) || currentTime > old(lastRunningTime) + ResetDelay)
      ensures vehicle == old(vehicle) && evading == old(evading) && avoidancePredictTime == old(avoidancePredictTime)
      ensures demo.phase == old(demo.phase) && demo.phaseStackIndex == old(demo.phaseStackIndex)
      ensures demo.frameRatePresetIndex == old(demo.frameRatePresetIndex) && demo.clock == old(demo.clock)
      ensures demo.selectedVehicle == old(demo.selectedVehicle) && demo.prevKeyState == old(demo.prevKeyState)
    {
      if state == Running {
        var baseDistance := Distance(vehicle.position, HomeBaseCenter, sqrt);
        if baseDistance < vehicle.radius + HomeBaseRadius {
          state := AtGoal;
        }
      }
      if state == Running {
        lastRunningTime := currentTime;
      } else {
        var resetTime := lastRunningTime + ResetDelay;
        if currentTime > resetTime {
          demo.QueueDelayedResetPlugIn();
        }
      }
    }

    /** AdjustObstacleAvoidanceLookAhead: evading exactly when the path is
        blocked, and the look-ahead time to match. */
    method AdjustObstacleAvoidanceLookAhead(clearPath: bool, headingTowardGoal: bool, sqrt: real -> real)
      modifies this
      ensures evading == !clearPath
      ensures avoidancePredictTime ==
                LookAheadTime(clearPath, headingTowardGoal, Distance(HomeBaseCenter, vehicle.position, sqrt), vehicle.speed)
      ensures vehicle == old(vehicle) && state == old(state) && lastRunningTime == old(lastRunningTime)
    {
      if clearPath {
        evading := false;
        var goalDistance := Distance(HomeBaseCenter, vehicle.position, sqrt);
        var isNear := vehicle.speed != 0.0 && goalDistance / vehicle.speed < AvoidancePredictTimeMax;
        var useMax := headingTowardGoal && !isNear;
        avoidancePredictTime := if useMax then AvoidancePredictTimeMax else AvoidancePredictTimeMin;
      } else {
        evading := true;
        avoidancePredictTime := AvoidancePredictTimeMin;
      }
    }

    /** IsPathToGoalClear: looks at every enemy, and is true exactly when
        none of them blocks the corridor to the base. */
    method IsPathToGoalClear(enemies: seq<EnemySighting>, goalIsAside: bool, sqrt: real -> real)
      returns (clear: bool)
      ensures clear <==> forall i | 0 <= i < |enemies| :: !BlocksPath(vehicle, goalIsAside, enemies[i], sqrt)
    {
      clear := true;
      for i := 0 to |enemies|
        invariant clear <==> forall k | 0 <= k < i :: !BlocksPath(vehicle, goalIsAside, enemies[k], sqrt)
      {
        if BlocksPath(vehicle, goalIsAside, enemies[i], sqrt) {
          clear := false;
        }
      }
    }

    /** SteeringForSeeker: obstacle avoidance at the new look-ahead time
        wins whenever it is non-zero; otherwise the limited seek on a clear
        path, the limited seek-and-evade on a blocked one. */
    method SteeringForSeeker(enemies: seq<EnemySighting>, goalIsAside: bool, headingTowardGoal: bool,
                             steerToAvoid: real -> Vec3, seekSteer: Vec3, evadeSteer: Vec3, sqrt: real -> real)
      returns (steer: Vec3)
      modifies this
      ensures evading <==> exists i | 0 <= i < |enemies| :: BlocksPath(old(vehicle), goalIsAside, enemies[i], sqrt)
      ensures avoidancePredictTime ==
                LookAheadTime(!evading, headingTowardGoal, Distance(HomeBaseCenter, vehicle.position, sqrt), vehicle.speed)
      ensures vehicle == old(vehicle).(avoiding := steerToAvoid(avoidancePredictTime) != Zero)
      ensures vehicle.avoiding ==> steer == steerToAvoid(avoidancePredictTime)
      ensures !vehicle.avoiding ==> steer == (if evading then evadeSteer else seekSteer)
      ensures state == old(state) && lastRunningTime == old(lastRunningTime)
    {
      var clearPath := IsPathToGoalClear(enemies, goalIsAside, sqrt);
      AdjustObstacleAvoidanceLookAhead(clearPath, headingTowardGoal, sqrt);
      var obstacleAvoidance := steerToAvoid(avoidancePredictTime);
      vehicle := vehicle.(avoiding := obstacleAvoidance != Zero);
      if vehicle.avoiding {
        return obstacleAvoidance;
      } else if clearPath {
        return seekSteer;
      } else {
        return evadeSteer;
      }
    }

    /** Update: the state transitions, then the steering of a running
        seeker, or braking with no steering once it has stopped running. */
    method Update(currentTime: real, demo: Demos.Demo, enemies: seq<EnemySighting>, goalIsAside: bool,
                  headingTowardGoal: bool, steerToAvoid: real -> Vec3, seekSteer: Vec3, evadeSteer: Vec3,
                  sqrt: real -> real)
      returns (steer: Vec3, brake: bool)
      modifies this, demo
      ensures state == ArriveAtBase(old(state), Distance(old(vehicle).position, HomeBaseCenter, sqrt), old(vehicle).radius)
      ensures state != Running ==> steer == Zero && brake && vehicle == old(vehicle) && evading == old(evading)
      ensures state == Running ==>
                && !brake && lastRunningTime == currentTime
                && (vehicle.avoiding ==> steer == steerToAvoid(avoidancePredictTime))
                && (!vehicle.avoiding ==> steer == (if evading then evadeSteer else seekSteer))
    {
      UpdateState(currentTime, demo, sqrt);
      steer := Zero;
      brake := false;
      if state == Running {
        steer := SteeringForSeeker(enemies, goalIsAside, headingTowardGoal, steerToAvoid, seekSteer, evadeSteer, sqrt);
      } else {
        brake := true;
      }
    }
  }
}
