// The map driver's value-level rules: arc-length limiting, the curvature
// floor, the look-ahead time, the speed cap, the turning-radius override and
// the obstacle-avoidance decision table.
module MapDriverRules {
  import opened Vectors
  import opened Utilities

  /** The turning radius of the modelled vehicle, in meters. */
  const MinimumTurningRadius: real := 5.0

  /** The smallest curvature magnitude NonZeroCurvature lets through
      (a radius of 100,000 meters). */
  const MinCurvature: real := 1.0 / 100000.0

  /** The "no obstacle seen" value of the four nearest-obstacle indices. */
  const NoObstacle: int := 9999

  // ------------------------------------------------------------ arc length

  /** ArcLengthLimit: the signed arc length with its magnitude capped. */
  function ArcLengthLimit(length: real, limit: real): real
  {
    if length > 0.0 then MinR(length, limit) else -MinR(-length, limit)
  }

  /** For a non-negative limit the result keeps the sign of the length and
      has magnitude min(|length|, limit). */
  lemma ArcLengthLimitProperties(length: real, limit: real)
    requires limit >= 0.0
    ensures length > 0.0 ==> ArcLengthLimit(length, limit) >= 0.0
    ensures length < 0.0 ==> ArcLengthLimit(length, limit) <= 0.0
    ensures length == 0.0 ==> ArcLengthLimit(length, limit) == 0.0
    ensures Abs(ArcLengthLimit(length, limit)) == MinR(Abs(length), limit)
  {
  }

  // ------------------------------------------------------------ curvature

  /** NonZeroCurvatureQQQ: the curvature, or MinCurvature when it lies
      strictly between -MinCurvature and +MinCurvature. */
  function NonZeroCurvature(curvature: real): (c: real)
    ensures c != 0.0
    ensures Abs(c) >= MinCurvature
    ensures Abs(curvature) >= MinCurvature ==> c == curvature
    ensures Abs(curvature) < MinCurvature ==> c == MinCurvature
  {
    var tooSmall := curvature < MinCurvature && curvature > -MinCurvature;
    if tooSmall then MinCurvature else curvature
  }

  /** The sign the driver derives from 1 / NonZeroCurvature: +1 when the
      signed radius is negative, -1 otherwise. */
  function CurvatureSign(curvature: real): (sign: real)
    ensures sign == 1.0 || sign == -1.0
    ensures sign == 1.0 <==> curvature <= -MinCurvature
  {
    var signedRadius := 1.0 / NonZeroCurvature(curvature);
    if signedRadius < 0.0 then 1.0 else -1.0
  }

  // ------------------------------------------------------------ look-ahead

  /** CombinedLookAheadTime: zero for a stopped vehicle, otherwise the larger
      of the minimum time and the time to cover the minimum distance. */
  function CombinedLookAheadTime(speed: real, minTime: real, minDistance: real): (t: real)
    ensures speed == 0.0 ==> t == 0.0
    ensures speed != 0.0 ==> t >= minTime && t >= minDistance / speed
    ensures speed != 0.0 ==> t == minTime || t == minDistance / speed
  {
    if speed == 0.0 then 0.0 else MaxR(minTime, minDistance / speed)
  }

  /** Moving forward, the look-ahead covers at least the minimum distance. */
  lemma LookAheadCoversMinimumDistance(speed: real, minTime: real, minDistance: real)
    requires speed > 0.0
    ensures CombinedLookAheadTime(speed, minTime, minDistance) * speed >= minDistance
    ensures CombinedLookAheadTime(speed, minTime, minDistance) >= minTime
  {
    var t := CombinedLookAheadTime(speed, minTime, minDistance);
    MulLe(minDistance / speed, t, speed);
  }

  // ------------------------------------------------------------ speed cap

  /** The speed fraction allowed by the heading relative to the path. */
  function HeadingSpeed(parallelness: real): real
  {
    var mw := 0.2;
    if parallelness < 0.0 then mw else Interpolate(parallelness, mw, 1.0)
  }

  /** The speed fraction allowed by the curvature: full throttle straight,
      10% at the vehicle's maximum curvature. */
  function CurveSpeed(curvature: real, sqrt: real -> real): real
  {
    var maxC := 1.0 / MinimumTurningRadius;
    var relativeCurvature := sqrt(Clip(Abs(curvature) / maxC, 0.0, 1.0));
    Interpolate(relativeCurvature, 1.0, 0.1)
  }

  /** The relative speed MaxSpeedForCurvature scales MaxSpeed by; the
      parallelness is the dot product of the path heading and Forward. */
  function MaxRelativeSpeed(curvedSteering: bool, demoSelect: int, curvature: real, parallelness: real,
                            sqrt: real -> real): real
  {
    if !curvedSteering then 1.0
    else if demoSelect != 2 then CurveSpeed(curvature, sqrt)
    else MinR(CurveSpeed(curvature, sqrt), HeadingSpeed(parallelness))
  }

  /** A square root of a fraction is a fraction. */
  lemma RootOfFraction(v: real, sqrt: real -> real)
    requires IsSqrt(sqrt) && 0.0 <= v <= 1.0
    ensures 0.0 <= sqrt(v) <= 1.0
  {
    if v > 0.0 {
      var s := sqrt(v);
      if s > 1.0 {
        MulLt(1.0, s, s);
      }
    }
  }

  /** The speed cap lies between 10% and 100% of the top speed, whatever
      the curvature and heading; it is full speed without curved steering. */
  lemma MaxRelativeSpeedBounds(curvedSteering: bool, demoSelect: int, curvature: real, parallelness: real,
                               sqrt: real -> real)
    requires IsSqrt(sqrt)
    ensures 0.1 <= MaxRelativeSpeed(curvedSteering, demoSelect, curvature, parallelness, sqrt) <= 1.0
    ensures !curvedSteering ==> MaxRelativeSpeed(curvedSteering, demoSelect, curvature, parallelness, sqrt) == 1.0
    ensures curvedSteering && demoSelect != 2 && curvature == 0.0 ==>
      MaxRelativeSpeed(curvedSteering, demoSelect, curvature, parallelness, sqrt) == 1.0
  {
    var maxC := 1.0 / MinimumTurningRadius;
    var fraction := Clip(Abs(curvature) / maxC, 0.0, 1.0);
    ClipBounds(Abs(curvature) / maxC, 0.0, 1.0);
    RootOfFraction(fraction, sqrt);
    var rc := sqrt(fraction);
    assert 0.0 <= 0.9 * rc <= 0.9;
    if parallelness >= 0.0 {
      assert 0.8 * parallelness >= 0.0;
    }
  }

  /** MaxSpeedForCurvature: the top speed scaled by the relative cap. */
  function MaxSpeedForCurvature(maxSpeed: real, curvedSteering: bool, demoSelect: int, curvature: real,
                                parallelness: real, sqrt: real -> real): (s: real)
    requires IsSqrt(sqrt) && maxSpeed >= 0.0
    ensures 0.1 * maxSpeed <= s <= maxSpeed
    ensures !curvedSteering ==> s == maxSpeed
  {
    var r := MaxRelativeSpeed(curvedSteering, demoSelect, curvature, parallelness, sqrt);
    MaxRelativeSpeedBounds(curvedSteering, demoSelect, curvature, parallelness, sqrt);
    assert 0.1 * maxSpeed <= maxSpeed * r <= maxSpeed by {
      if maxSpeed > 0.0 {
        MulLe(0.1, r, maxSpeed);
        MulLe(r, 1.0, maxSpeed);
      }
    }
    maxSpeed * r
  }

  // ------------------------------------------------------------ turning radius

  /** AdjustSteeringForMinimumTurningRadius: past 1 / (1.1 * the minimum
      turning radius) of curvature, the steering keeps only its (capped)
      forward thrust and gains a full sideways force away from the center
      of curvature. */
  function AdjustSteeringForMinimumTurningRadius(steering: Vec3, curvature: real, forward: Vec3, side: Vec3,
                                                 maxForce: real, sqrt: real -> real): (r: Vec3)
    requires IsSqrt(sqrt)
    ensures Abs(curvature) <= 1.0 / (MinimumTurningRadius * 1.1) ==> r == steering
  {
    var maxCurvature := 1.0 / (MinimumTurningRadius * 1.1);
    if Abs(curvature) > maxCurvature then
      var sign := CurvatureSign(curvature);
      var thrust := ParallelComponent(steering, forward);
      var trimmed := TruncateLength(thrust, maxForce, sqrt);
      var widenOut := Scale(side, maxForce * sign);
      Add(trimmed, widenOut)
    else
      steering
  }

  lemma ScaledThrustIsForward(steering: Vec3, forward: Vec3, side: Vec3, k: real)
    requires Dot(forward, side) == 0.0
    ensures Dot(Scale(ParallelComponent(steering, forward), k), side) == 0.0
  {
    var a := Dot(steering, forward);
    calc {
      Dot(Scale(ParallelComponent(steering, forward), k), side);
      (forward.x * a * k) * side.x + (forward.y * a * k) * side.y + (forward.z * a * k) * side.z;
      (a * k) * Dot(forward, side);
    }
  }

  /** In an orthonormal frame the override's sideways part is exactly
      MaxForce, pointing away from the center of curvature: +Side when the
      curvature is negative, -Side when it is positive. */
  lemma OverrideWidensOut(steering: Vec3, curvature: real, forward: Vec3, side: Vec3, maxForce: real,
                          sqrt: real -> real)
    requires IsSqrt(sqrt)
    requires Dot(forward, side) == 0.0 && LengthSquared(side) == 1.0
    requires Abs(curvature) > 1.0 / (MinimumTurningRadius * 1.1)
    ensures var r := AdjustSteeringForMinimumTurningRadius(steering, curvature, forward, side, maxForce, sqrt);
      Dot(r, side) == (if curvature < 0.0 then maxForce else -maxForce)
  {
    var thrust := ParallelComponent(steering, forward);
    var trimmed := TruncateLength(thrust, maxForce, sqrt);
    var k: real :| trimmed == Scale(thrust, k) by {
      if LengthSquared(thrust) <= maxForce * maxForce {
        assert trimmed == Scale(thrust, 1.0);
      }
    }
    ScaledThrustIsForward(steering, forward, side, k);
    var sign := CurvatureSign(curvature);
    var m := maxForce * sign;
    var widenOut := Scale(side, m);
    assert AdjustSteeringForMinimumTurningRadius(steering, curvature, forward, side, maxForce, sqrt)
        == Add(trimmed, widenOut);
    DotAddLeft(trimmed, widenOut, side);
    calc {
      Dot(widenOut, side);
      (side.x * m) * side.x + (side.y * m) * side.y + (side.z * m) * side.z;
      m * LengthSquared(side);
    }
    assert m == (if curvature < 0.0 then maxForce else -maxForce);
  }

  // ------------------------------------------------------------ avoidance decision

  /** The nearest obstacle index found in each of the four scanned zones:
      the corridor's left and right halves and the left and right wings. */
  datatype AvoidScan = AvoidScan(nearestL: int, nearestR: int, nearestWL: int, nearestWR: int)

  /** The four answers of SteerToAvoidObstaclesOnMap: zero, -Forward,
      +Side, -Side. */
  datatype SteerChoice = NoSteering | Brake | TowardSide | AwayFromSide

  /** The steering vector a choice stands for. */
  function ChoiceVector(choice: SteerChoice, forward: Vec3, side: Vec3): Vec3
  {
    match choice
    case NoSteering => Zero
    case Brake => Neg(forward)
    case TowardSide => side
    case AwayFromSide => Neg(side)
  }

  predicate CorridorClear(scan: AvoidScan)
  {
    scan.nearestL == NoObstacle && scan.nearestR == NoObstacle
  }

  predicate LeftClear(scan: AvoidScan)
  {
    scan.nearestL == NoObstacle && scan.nearestWL == NoObstacle
  }

  predicate RightClear(scan: AvoidScan)
  {
    scan.nearestR == NoObstacle && scan.nearestWR == NoObstacle
  }

  predicate WingsClear(scan: AvoidScan)
  {
    scan.nearestWL == NoObstacle && scan.nearestWR == NoObstacle
  }

  /** Following the hint: toward +Side when it points that way. */
  function HintChoice(hintDotSide: real): SteerChoice
  {
    if hintDotSide > 0.0 then TowardSide else AwayFromSide
  }

  /** Whether the hint clause applies: the nearer corridor obstacle lies
      beyond 80% of the scan range. */
  predicate HintApplies(scan: AvoidScan, hintGiven: bool, maxSamples: int)
  {
    hintGiven && MinR(scan.nearestL as real, scan.nearestR as real) > (maxSamples as real) * 0.8
  }

  /** Whether the vehicle already turns more sharply than 1.2 times the
      minimum turning radius allows. */
  predicate TurningTooSharply(curvature: real)
  {
    Abs(curvature) > 1.0 / (MinimumTurningRadius * 1.2)
  }

  /** The decision part of SteerToAvoidObstaclesOnMap: a fixed-priority
      table over the four scan results (DecisionTable states it). */
  function DecideSteering(scan: AvoidScan, hintGiven: bool, hintDotSide: real, relativeSpeed: real,
                          maxSamples: int, curvature: real): SteerChoice
  {
    var freeWL := scan.nearestWL == NoObstacle;
    var freeWR := scan.nearestWR == NoObstacle;
    if CorridorClear(scan) then
      (if freeWL || freeWR || relativeSpeed < 0.7 then NoSteering else Brake)
    else if HintApplies(scan, hintGiven, maxSamples) then
      HintChoice(hintDotSide)
    else if TurningTooSharply(curvature) then
      (if CurvatureSign(curvature) == 1.0 then TowardSide else AwayFromSide)
    else if LeftClear(scan) then TowardSide
    else if RightClear(scan) then AwayFromSide
    else if WingsClear(scan) then
      var same := Abs((scan.nearestL - scan.nearestR) as real) < 5.0;
      if same && hintGiven then HintChoice(hintDotSide)
      else if scan.nearestL > scan.nearestR then TowardSide else AwayFromSide
    else
      var equallyClear := Abs((scan.nearestWL - scan.nearestWR) as real) < 2.0;
      if equallyClear && hintGiven then HintChoice(hintDotSide)
      else if scan.nearestWL > scan.nearestWR then TowardSide else AwayFromSide
  }

  /** The decision table, clause by clause. */
  lemma DecisionTable(scan: AvoidScan, hintGiven: bool, hintDotSide: real, relativeSpeed: real,
                      maxSamples: int, curvature: real, choice: SteerChoice)
    requires choice == DecideSteering(scan, hintGiven, hintDotSide, relativeSpeed, maxSamples, curvature)
    // zero or braking exactly when nothing is ahead in the corridor
    ensures (choice == NoSteering || choice == Brake) <==> CorridorClear(scan)
    ensures choice == Brake <==>
      CorridorClear(scan) && scan.nearestWL != NoObstacle && scan.nearestWR != NoObstacle && relativeSpeed >= 0.7
    // with an obstacle ahead, the clauses apply in order: hint, turning
    // limit, a free side (left first), clear wings, equally clear wings,
    // less cluttered wing
    ensures !CorridorClear(scan) && HintApplies(scan, hintGiven, maxSamples) ==>
      choice == HintChoice(hintDotSide)
    ensures !CorridorClear(scan) && !HintApplies(scan, hintGiven, maxSamples) && TurningTooSharply(curvature) ==>
      choice == (if curvature < 0.0 then TowardSide else AwayFromSide)
    ensures !CorridorClear(scan) && !HintApplies(scan, hintGiven, maxSamples) && !TurningTooSharply(curvature) ==>
      (LeftClear(scan) ==> choice == TowardSide) &&
      (!LeftClear(scan) && RightClear(scan) ==> choice == AwayFromSide)
    ensures (!CorridorClear(scan) && !HintApplies(scan, hintGiven, maxSamples) && !TurningTooSharply(curvature) &&
             !LeftClear(scan) && !RightClear(scan) && WingsClear(scan)) ==>
      if Abs((scan.nearestL - scan.nearestR) as real) < 5.0 && hintGiven then choice == HintChoice(hintDotSide)
      else choice == (if scan.nearestL > scan.nearestR then TowardSide else AwayFromSide)
    ensures (!CorridorClear(scan) && !HintApplies(scan, hintGiven, maxSamples) && !TurningTooSharply(curvature) &&
             !LeftClear(scan) && !RightClear(scan) && !WingsClear(scan)) ==>
      if Abs((scan.nearestWL - scan.nearestWR) as real) < 2.0 && hintGiven then choice == HintChoice(hintDotSide)
      else choice == (if scan.nearestWL > scan.nearestWR then TowardSide else AwayFromSide)
  {
  }

  /** Whether a clause that consulted the hint decided the answer (the
      driver counts these as hints taken). */
  predicate HintTaken(scan: AvoidScan, hintGiven: bool, maxSamples: int, curvature: real)
  {
    !CorridorClear(scan) &&
    (HintApplies(scan, hintGiven, maxSamples) ||
     (!TurningTooSharply(curvature) && !LeftClear(scan) && !RightClear(scan) && hintGiven &&
      (if WingsClear(scan) then Abs((scan.nearestL - scan.nearestR) as real) < 5.0
       else Abs((scan.nearestWL - scan.nearestWR) as real) < 2.0)))
  }

  /** A hint is only ever taken when one was given, and then the answer is
      the hint's side. */
  lemma HintTakenFollowsHint(scan: AvoidScan, hintGiven: bool, hintDotSide: real, relativeSpeed: real,
                             maxSamples: int, curvature: real)
    requires HintTaken(scan, hintGiven, maxSamples, curvature)
    ensures hintGiven
    ensures DecideSteering(scan, hintGiven, hintDotSide, relativeSpeed, maxSamples, curvature) ==
            HintChoice(hintDotSide)
  {
  }

  /** Swapping left and right in the scan, the hint and the curvature turns
      the other way, away from ties. */
  lemma DecisionIsMirrorSymmetric(scan: AvoidScan, hintGiven: bool, hintDotSide: real, relativeSpeed: real,
                                  maxSamples: int, curvature: real)
    requires !CorridorClear(scan) && hintDotSide != 0.0
    requires scan.nearestL != scan.nearestR && scan.nearestWL != scan.nearestWR
    ensures var mirrored := AvoidScan(scan.nearestR, scan.nearestL, scan.nearestWR, scan.nearestWL);
      DecideSteering(mirrored, hintGiven, -hintDotSide, relativeSpeed, maxSamples, -curvature) ==
      Mirror(DecideSteering(scan, hintGiven, hintDotSide, relativeSpeed, maxSamples, curvature))
  {
    var mirrored := AvoidScan(scan.nearestR, scan.nearestL, scan.nearestWR, scan.nearestWL);
    assert MinR(mirrored.nearestL as real, mirrored.nearestR as real) ==
           MinR(scan.nearestL as real, scan.nearestR as real);
    assert Abs((mirrored.nearestL - mirrored.nearestR) as real) == Abs((scan.nearestL - scan.nearestR) as real);
    assert Abs((mirrored.nearestWL - mirrored.nearestWR) as real) == Abs((scan.nearestWL - scan.nearestWR) as real);
  }

  /** The same answer seen from the other side. */
  function Mirror(choice: SteerChoice): SteerChoice
  {
    match choice
    case TowardSide => AwayFromSide
    case AwayFromSide => TowardSide
    case other => other
  }
}
