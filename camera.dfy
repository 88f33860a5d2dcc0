// The demo camera: a mode cycle over five aiming modes, the per-frame aim
// computed from the mode and the tracked vehicle, and the smoothing of
// camera moves.
//
// The tracked vehicle is seen through the few queries the camera makes of
// it; square roots are a parameter satisfying IsSqrt.
module Cameras {
  import opened Options
  import opened Vectors
  import opened Utilities

  // The CameraMode enumeration, by value.
  const StartMode := 0
  const Fixed := 1
  const StraightDown := 2
  const FixedDistanceOffset := 3
  const FixedLocalOffset := 4
  const OffsetPOV := 5
  const EndMode := 6

  /** The mode after cm in the enumeration. */
  function SuccessorMode(cm: int): int
  {
    cm + 1
  }

  /** The mode SelectNextMode moves to: the successor, or the first real
      mode once the successor reaches EndMode. */
  function ModeAfter(mode: int): (r: int)
    ensures mode >= StartMode ==> Fixed <= r <= OffsetPOV
    ensures Fixed <= mode < OffsetPOV ==> r == mode + 1
    ensures mode >= OffsetPOV ==> r == Fixed
  {
    var next := SuccessorMode(mode);
    if next >= EndMode then SuccessorMode(StartMode) else next
  }

  /** SelectNextMode runs Fixed, StraightDown, FixedDistanceOffset,
      FixedLocalOffset, OffsetPOV and back to Fixed: five steps return to
      the starting mode, visiting each real mode once. */
  lemma ModeCycle(mode: int)
    requires Fixed <= mode <= OffsetPOV
    ensures ModeAfter(ModeAfter(ModeAfter(ModeAfter(ModeAfter(mode))))) == mode
    ensures ModeAfter(Fixed) == StraightDown && ModeAfter(StraightDown) == FixedDistanceOffset
    ensures ModeAfter(FixedDistanceOffset) == FixedLocalOffset && ModeAfter(FixedLocalOffset) == OffsetPOV
    ensures ModeAfter(OffsetPOV) == Fixed
  {
  }

  /** The display name of a mode; anything but the five real modes is
      "unknown". */
  function ModeName(mode: int): (name: string)
    ensures name == "unknown" <==> !(Fixed <= mode <= OffsetPOV)
  {
    if mode == Fixed then "static"
    else if mode == FixedDistanceOffset then "fixed distance offset"
    else if mode == FixedLocalOffset then "fixed local offset"
    else if mode == OffsetPOV then "offset POV"
    else if mode == StraightDown then "straight down"
    else "unknown"
  }

  /** The five real modes have five different names. */
  lemma ModeNamesDistinct(m1: int, m2: int)
    requires Fixed <= m1 <= OffsetPOV && Fixed <= m2 <= OffsetPOV && m1 != m2
    ensures ModeName(m1) != ModeName(m2)
  {
  }

  /** What the camera asks of the vehicle it tracks. */
  datatype TrackedVehicle = TrackedVehicle(forward: Vec3, up: Vec3,
                                           predictFuturePosition: real -> Vec3,
                                           globalizePosition: Vec3 -> Vec3,
                                           globalizeDirection: Vec3 -> Vec3)

  /** A camera placement: position, look-at target and up direction. */
  datatype View = View(position: Vec3, target: Vec3, up: Vec3)

  /** The per-mode parameters: the fixed placement, the drag-behind
      distance and height, the look-down height, the local offset and the
      point-of-view offset. */
  datatype ModeParameters = ModeParameters(fixedPosition: Vec3, fixedTarget: Vec3, fixedUp: Vec3,
                                           fixedDistanceDistance: real,
                                           fixedDistanceVerticalOffset: real,
                                           lookDownDistance: real,
                                           fixedLocalOffset: Vec3,
                                           povOffset: Vec3)

  /** The parameters Reset installs. */
  const DefaultParameters := ModeParameters(Vec3(75.0, 75.0, 75.0), Zero, Up, 1.0, 0.0, 30.0,
                                            Vec3(5.0, 5.0, -5.0), Vec3(0.0, 1.0, -3.0))

  /** The offset from the target to the current position, with its height
      taken from the target while a vertical offset is set. */
  function DragOffset(view: View, p: ModeParameters): Vec3
  {
    var constrainUp := p.fixedDistanceVerticalOffset != 0.0;
    var adjustedPosition := Vec3(view.position.x, if constrainUp then view.target.y else view.position.y,
                                 view.position.z);
    Sub(adjustedPosition, view.target)
  }

  /** ConstantDistanceHelper: the "drag behind" position, at the fixed
      distance from the target along the current offset and at the fixed
      height above it; the current position when the offset is zero. */
  function ConstantDistanceHelper(view: View, p: ModeParameters, sqrt: real -> real): (r: Vec3)
    requires IsSqrt(sqrt)
    ensures LengthSquared(DragOffset(view, p)) == 0.0 ==> r == view.position
    ensures LengthSquared(DragOffset(view, p)) > 0.0 && p.fixedDistanceVerticalOffset != 0.0 ==>
      r.y == view.target.y + p.fixedDistanceVerticalOffset
  {
    var offset := DragOffset(view, p);
    var distance := Length(offset, sqrt);
    LengthIsRoot(offset, sqrt);
    if distance == 0.0 then
      view.position
    else
      var unitOffset := Div(offset, distance);
      var xxxDistance := sqrt(HorizontalDragSquared(p));
      var newOffset := Scale(unitOffset, xxxDistance);
      Add(Add(view.target, newOffset), Vec3(0.0, p.fixedDistanceVerticalOffset, 0.0))
  }

  /** The square of the horizontal drag distance: the fixed distance
      squared less the vertical offset squared. */
  function HorizontalDragSquared(p: ModeParameters): real
  {
    p.fixedDistanceDistance * p.fixedDistanceDistance - p.fixedDistanceVerticalOffset * p.fixedDistanceVerticalOffset
  }

  /** The unit vector along the drag offset. */
  function UnitDrag(view: View, p: ModeParameters, sqrt: real -> real): Vec3
    requires IsSqrt(sqrt) && LengthSquared(DragOffset(view, p)) > 0.0
  {
    var offset := DragOffset(view, p);
    LengthIsRoot(offset, sqrt);
    Div(offset, Length(offset, sqrt))
  }

  /** Whenever the offset is defined and the fixed distance is at least
      the vertical offset, the drag-behind position lies exactly the fixed
      distance from the target. */
  lemma ConstantDistance(view: View, p: ModeParameters, sqrt: real -> real)
    requires IsSqrt(sqrt)
    requires LengthSquared(DragOffset(view, p)) > 0.0
    requires HorizontalDragSquared(p) >= 0.0
    ensures LengthSquared(Sub(ConstantDistanceHelper(view, p, sqrt), view.target))
         == p.fixedDistanceDistance * p.fixedDistanceDistance
  {
    DragResult(view, p, sqrt);
    UnitDragProperties(view, p, sqrt);
    var h2 := HorizontalDragSquared(p);
    RootSquared(sqrt, h2);
    var v2 := p.fixedDistanceVerticalOffset * p.fixedDistanceVerticalOffset;
    DragGeometry(view.target, UnitDrag(view, p, sqrt), sqrt(h2), h2, p.fixedDistanceVerticalOffset, v2);
    var d2 := p.fixedDistanceDistance * p.fixedDistanceDistance;
    HorizontalDragParts(p, d2, v2);
  }

  /** With a non-zero offset the helper moves along the unit offset. */
  lemma DragResult(view: View, p: ModeParameters, sqrt: real -> real)
    requires IsSqrt(sqrt)
    requires LengthSquared(DragOffset(view, p)) > 0.0
    ensures ConstantDistanceHelper(view, p, sqrt)
         == Add(Add(view.target, Scale(UnitDrag(view, p, sqrt), sqrt(HorizontalDragSquared(p)))),
                Vec3(0.0, p.fixedDistanceVerticalOffset, 0.0))
  {
    LengthIsRoot(DragOffset(view, p), sqrt);
  }

  /** The unit offset has length one, and is horizontal while a vertical
      offset is set. */
  lemma UnitDragProperties(view: View, p: ModeParameters, sqrt: real -> real)
    requires IsSqrt(sqrt)
    requires LengthSquared(DragOffset(view, p)) > 0.0
    ensures LengthSquared(UnitDrag(view, p, sqrt)) == 1.0
    ensures p.fixedDistanceVerticalOffset != 0.0 ==> UnitDrag(view, p, sqrt).y == 0.0
  {
    var offset := DragOffset(view, p);
    LengthIsRoot(offset, sqrt);
    UnitAfterDivision(offset, Length(offset, sqrt));
  }

  /** The target plus a scaled horizontal-or-any unit vector plus a
      vertical offset lies at the combined distance from the target. */
  lemma DragGeometry(target: Vec3, u: Vec3, k: real, k2: real, height: real, height2: real)
    requires LengthSquared(u) == 1.0 && k2 == k * k && height2 == height * height
    requires height != 0.0 ==> u.y == 0.0
    ensures LengthSquared(Sub(Add(Add(target, Scale(u, k)), Vec3(0.0, height, 0.0)), target)) == k2 + height2
  {
    var newOffset := Scale(u, k);
    ScaledUnitLength(u, k, k2);
    var rel := Sub(Add(Add(target, newOffset), Vec3(0.0, height, 0.0)), target);
    assert rel == Add(newOffset, Vec3(0.0, height, 0.0));
    if height != 0.0 {
      VerticalAddLength(newOffset, height, height2);
    } else {
      assert rel == newOffset;
    }
  }

  /** HorizontalDragSquared is the difference of the two squares. */
  lemma HorizontalDragParts(p: ModeParameters, d2: real, v2: real)
    requires d2 == p.fixedDistanceDistance * p.fixedDistanceDistance
    requires v2 == p.fixedDistanceVerticalOffset * p.fixedDistanceVerticalOffset
    ensures HorizontalDragSquared(p) == d2 - v2
  {
  }

  /** A unit vector scaled by k has length squared k squared. */
  lemma ScaledUnitLength(u: Vec3, k: real, k2: real)
    requires LengthSquared(u) == 1.0 && k2 == k * k
    ensures LengthSquared(Scale(u, k)) == k2
  {
    ScaleLengthSquared(u, k);
  }

  /** sqrt(x) squared is x for every non-negative x. */
  lemma RootSquared(sqrt: real -> real, x: real)
    requires IsSqrt(sqrt) && x >= 0.0
    ensures sqrt(x) * sqrt(x) == x
  {
    if x > 0.0 {
      assert sqrt(x) > 0.0 && sqrt(x) * sqrt(x) == x;
    }
  }

  /** Adding a vertical offset to a horizontal vector adds its square to
      the length squared. */
  lemma VerticalAddLength(h: Vec3, height: real, height2: real)
    requires h.y == 0.0 && height2 == height * height
    ensures LengthSquared(Add(h, Vec3(0.0, height, 0.0))) == LengthSquared(h) + height2
  {
  }

  /** The placement the mode asks for (the switch of Camera.Update): the
      fixed placement in Fixed mode; in the vehicle modes one derived from
      the tracked vehicle, or the current placement when there is none; the
      current placement for any other mode value. */
  function Aim(mode: int, vehicle: Option<TrackedVehicle>, view: View, p: ModeParameters,
               predictionTime: real, antiLagTime: real, sqrt: real -> real): (r: View)
    requires IsSqrt(sqrt)
    ensures mode == Fixed ==> r == View(p.fixedPosition, p.fixedTarget, p.fixedUp)
    ensures mode != Fixed && vehicle.None? ==> r == view
    ensures !(Fixed <= mode <= OffsetPOV) ==> r == view
    ensures mode == FixedDistanceOffset && vehicle.Some? ==>
      && r.up == Up
      && r.target == vehicle.value.predictFuturePosition(predictionTime)
    ensures mode == StraightDown && vehicle.Some? ==>
      && r.up == vehicle.value.forward
      && r.target == vehicle.value.predictFuturePosition(predictionTime)
      && Sub(r.position, r.target) == Vec3(0.0, p.lookDownDistance, 0.0)
    ensures mode == FixedLocalOffset && vehicle.Some? ==>
      && r.up == vehicle.value.up
      && r.position == vehicle.value.globalizePosition(p.fixedLocalOffset)
    ensures mode == OffsetPOV && vehicle.Some? ==>
      && r.up == vehicle.value.up
      && Sub(r.target, r.position) == Scale(vehicle.value.forward, 10.0)
  {
    if mode == Fixed then View(p.fixedPosition, p.fixedTarget, p.fixedUp)
    else if vehicle.None? then view
    else
      var v := vehicle.value;
      if mode == FixedDistanceOffset then
        View(ConstantDistanceHelper(view, p, sqrt), v.predictFuturePosition(predictionTime), Up)
      else if mode == StraightDown then
        var newTarget := v.predictFuturePosition(predictionTime);
        View(Vec3(newTarget.x, newTarget.y + p.lookDownDistance, newTarget.z), newTarget, v.forward)
      else if mode == FixedLocalOffset then
        View(v.globalizePosition(p.fixedLocalOffset), v.predictFuturePosition(predictionTime), v.up)
      else if mode == OffsetPOV then
        var newPosition := Add(v.predictFuturePosition(antiLagTime), v.globalizeDirection(p.povOffset));
        View(newPosition, Add(newPosition, Scale(v.forward, 10.0)), v.up)
      else view
  }

  /** Up after a smoothed move: the blended up normalised, or the global up
      when the blend is zero. */
  function SmoothedUp(blended: Vec3, sqrt: real -> real): Vec3
    requires IsSqrt(sqrt)
  {
    if blended == Zero then Up else Normalize(blended, sqrt)
  }

  /** The up vector after a smoothed move is always a unit vector. */
  lemma SmoothedUpIsUnit(blended: Vec3, sqrt: real -> real)
    requires IsSqrt(sqrt)
    ensures LengthSquared(SmoothedUp(blended, sqrt)) == 1.0
  {
    if blended != Zero {
      NonZeroHasLength(blended);
    }
  }

  /** A smoothed move: each of position, target and up blended toward the
      new placement at the given rate, up then made a unit vector. */
  function SmoothedView(current: View, requested: View, smoothRate: real, sqrt: real -> real): View
    requires IsSqrt(sqrt)
  {
    View(BlendIntoAccumulatorVec(smoothRate, requested.position, current.position),
         BlendIntoAccumulatorVec(smoothRate, requested.target, current.target),
         SmoothedUp(BlendIntoAccumulatorVec(smoothRate, requested.up, current.up), sqrt))
  }

  /** The blend rate of a smoothed move. */
  function SmoothRate(elapsedTime: real, smoothMoveSpeed: real): real
  {
    elapsedTime * smoothMoveSpeed
  }

  class Camera {
    var view: View
    var vehicleToTrack: Option<TrackedVehicle>
    var aimLeadTime: real
    var smoothNextMove: bool
    var smoothMoveSpeed: real
    var mode: int
    var parameters: ModeParameters

    /** The defaults Reset establishes. */
    ghost predicate IsReset()
      reads this
    {
      && view == View(Zero, Zero, Up) && vehicleToTrack == None
      && aimLeadTime == 1.0 && !smoothNextMove && smoothMoveSpeed == 1.5
      && mode == Fixed && parameters == DefaultParameters
    }

    /** A new camera is a reset camera. */
    constructor ()
      ensures IsReset()
    {
      new;
      Reset();
    }

    /** Reset: the local space back at the origin with the global up, the
        target at the origin, no vehicle, an aim lead of one second, the
        first move abrupt, smoothing speed 1.5, the Fixed mode and every
        mode parameter at its default. */
    method Reset()
      modifies this
      ensures IsReset()
    {
      view := View(Zero, Zero, Up);
      vehicleToTrack := None;
      aimLeadTime := 1.0;
      smoothNextMove := false;
      smoothMoveSpeed := 1.5;
      mode := Fixed;
      parameters := DefaultParameters;
    }

    /** SelectNextMode: the next mode of the cycle. */
    method SelectNextMode()
      modifies this`mode
      ensures mode == ModeAfter(old(mode))
    {
      mode := SuccessorMode(mode);
      if mode >= EndMode {
        mode := SuccessorMode(StartMode);
      }
    }

    /** SmoothCameraMove: a smoothed move blends toward the new placement
        at rate SmoothRate(elapsedTime, smoothMoveSpeed) and keeps up a unit vector;
        an abrupt move takes the new placement exactly and makes the next
        move smooth. */
    method SmoothCameraMove(newPosition: Vec3, newTarget: Vec3, newUp: Vec3, elapsedTime: real, sqrt: real -> real)
      requires IsSqrt(sqrt)
      modifies this`view, this`smoothNextMove
      ensures old(smoothNextMove) ==>
        view == SmoothedView(old(view), View(newPosition, newTarget, newUp), SmoothRate(elapsedTime, old(smoothMoveSpeed)), sqrt)
      ensures !old(smoothNextMove) ==> view == View(newPosition, newTarget, newUp)
      ensures smoothNextMove
    {
      if smoothNextMove {
        var smoothRate := SmoothRate(elapsedTime, smoothMoveSpeed);
        view := SmoothedView(view, View(newPosition, newTarget, newUp), smoothRate, sqrt);
      } else {
        smoothNextMove := true;
        view := View(newPosition, newTarget, newUp);
      }
    }

    /** DoNotSmoothNextMove: the next move is abrupt. */
    method DoNotSmoothNextMove()
      modifies this`smoothNextMove
      ensures !smoothNextMove
    {
      smoothNextMove := false;
    }

    /** Update: aims according to the mode, leading the vehicle by
        AimLeadTime plus the smoothing lag (no lag while paused), and moves
        toward that aim. */
    method Update(currentTime: real, elapsedTime: real, simulationPaused: bool, sqrt: real -> real)
      requires IsSqrt(sqrt)
      requires smoothMoveSpeed != 0.0
      modifies this`view, this`smoothNextMove
      ensures var antiLagTime := if simulationPaused then 0.0 else 1.0 / smoothMoveSpeed;
        var aim := Aim(mode, vehicleToTrack, old(view), parameters, aimLeadTime + antiLagTime, antiLagTime, sqrt);
        && (old(smoothNextMove) ==> view == SmoothedView(old(view), aim, SmoothRate(elapsedTime, smoothMoveSpeed), sqrt))
        && (!old(smoothNextMove) ==> view == aim)
        && smoothNextMove
    {
      var antiLagTime := if simulationPaused then 0.0 else 1.0 / smoothMoveSpeed;
      var predictionTime := aimLeadTime + antiLagTime;
      var aim := Aim(mode, vehicleToTrack, view, parameters, predictionTime, antiLagTime, sqrt);
      SmoothCameraMove(aim.position, aim.target, aim.up, elapsedTime, sqrt);
    }
  }
}
