// The demo application's own bookkeeping: a stack of timing phases, the
// cycle through frame-rate presets, the cycle through the selected
// plug-in's vehicles, a plug-in reset queued for the next update, and
// key-press edge detection.
//
// Vehicles are compared by reference, as the demo does, so a vehicle is
// any object and the selected plug-in's vehicle list is a sequence of
// possibly-null objects. The plug-in's own Reset and Update are calls into
// code outside this model: the methods here report when they are made.
module Demos {

  /** The timing phases (the source's extra Count member only sizes arrays). */
  datatype Phase = Overhead | Update | Draw

  const PhaseStackSize := 5

  /** How a push or pop ends: normally, with the explicit overflow
      exception, or with the array access falling outside the stack. */
  datatype PhaseOutcome = Done | StackOverflow | IndexOutOfRange

  /** The clock settings a frame-rate preset chooses. */
  datatype ClockSettings = ClockSettings(fixedFrameRate: int, animationMode: bool, variableFrameRateMode: bool)

  /** The preset index after one press of the preset key: the incremented
      index when it names preset 1, 2 or 3, and preset 0 otherwise. */
  function NextPresetIndex(index: int): (r: int)
    ensures 0 <= r <= 3
    ensures r != 0 <==> 0 <= index <= 2
    ensures r != 0 ==> r == index + 1
  {
    var n := index + 1;
    if n == 3 || n == 2 || n == 1 then n else 0
  }

  /** The clock settings of each preset: 0 runs as fast as possible, 1 is a
      fixed 24 fps, 2 a fixed 60 fps and 3 a 60 fps animation. */
  function PresetSettings(index: int): (r: ClockSettings)
    ensures r.variableFrameRateMode <==> r.fixedFrameRate == 0
    ensures r.animationMode ==> r.fixedFrameRate == 60
    ensures r.variableFrameRateMode <==> !(1 <= index <= 3)
  {
    if index == 3 then ClockSettings(60, true, false)
    else if index == 2 then ClockSettings(60, false, false)
    else if index == 1 then ClockSettings(24, false, false)
    else ClockSettings(0, false, true)
  }

  /** Four presses bring every preset back, visiting the presets in the
      order 0, 1, 2, 3; the four presets' settings are pairwise distinct. */
  lemma PresetCycle(index: int)
    requires 0 <= index <= 3
    ensures NextPresetIndex(NextPresetIndex(NextPresetIndex(NextPresetIndex(index)))) == index
    ensures NextPresetIndex(0) == 1 && NextPresetIndex(1) == 2
    ensures NextPresetIndex(2) == 3 && NextPresetIndex(3) == 0
    ensures forall i, j | 0 <= i < j <= 3 :: PresetSettings(i) != PresetSettings(j)
  {
  }

  /** A key, as the keyboard reports it. */
  type Key = int

  /** A key counts as pressed only when it is down now and was up in the
      previous frame's keyboard state. */
  function KeyPressed(prev: set<Key>, current: set<Key>, key: Key): (r: bool)
  {
    key !in prev && key in current
  }

  /** The number of presses of key over a run of frames, each frame's state
      becoming the previous state of the next. */
  function PressCount(prev: set<Key>, frames: seq<set<Key>>, key: Key): (r: nat)
    ensures r <= |frames|
    decreases |frames|
  {
    if |frames| == 0 then 0
    else (if KeyPressed(prev, frames[0], key) then 1 else 0) + PressCount(frames[0], frames[1..], key)
  }

  /** Holding a key down over any number of frames is one press at most:
      exactly one when it was up before the first frame, none otherwise. */
  lemma {:induction false} HeldKeyPressesOnce(prev: set<Key>, frames: seq<set<Key>>, key: Key)
    requires |frames| > 0
    requires forall i | 0 <= i < |frames| :: key in frames[i]
    ensures PressCount(prev, frames, key) == (if key in prev then 0 else 1)
    decreases |frames|
  {
    if |frames| > 1 {
      HeldKeyPressesOnce(frames[0], frames[1..], key);
    }
  }

  /** The first index whose entry is v, or -1 when there is none. */
  method FindIndex(all: seq<object?>, v: object) returns (i: int)
    ensures -1 <= i < |all|
    ensures i == -1 <==> v !in all
    ensures 0 <= i ==> all[i] == v && forall k | 0 <= k < i :: all[k] != v
  {
    i := 0;
    while i < |all|
      invariant 0 <= i <= |all|
      invariant forall k | 0 <= k < i :: all[k] != v
    {
      if all[i] != null && all[i] == v {
        return;
      }
      i := i + 1;
    }
    i := -1;
  }

  class Demo {
    var phase: Phase
    const phaseStack: array<Phase>
    var phaseStackIndex: int
    var frameRatePresetIndex: int
    var clock: ClockSettings
    var selectedVehicle: object?
    var delayedResetPlugIn: bool
    var prevKeyState: set<Key>

    ghost predicate Valid()
      reads this
    {
      phaseStack.Length == PhaseStackSize
    }

    /** A fresh demo: Overhead phase over an empty stack, preset 0, nothing
        selected, no reset queued, no key down. */
    constructor (clock: ClockSettings)
      ensures Valid() && fresh(phaseStack)
      ensures phase == Overhead && phaseStackIndex == 0 && frameRatePresetIndex == 0
      ensures this.clock == clock && selectedVehicle == null
      ensures !delayedResetPlugIn && prevKeyState == {}
    {
      phase := Overhead;
      phaseStack := new Phase[PhaseStackSize](_ => Overhead);
      phaseStackIndex := 0;
      frameRatePresetIndex := 0;
      this.clock := clock;
      selectedVehicle := null;
      delayedResetPlugIn := false;
      prevKeyState := {};
    }

    /** PushPhase: saves the current phase in the next slot and enters
        newPhase; reaching the stack size then raises the overflow. A push
        onto a stack already full or negative fails at the store, after
        the index has been incremented. */
    method PushPhase(newPhase: Phase) returns (outcome: PhaseOutcome)
      requires Valid()
      modifies this, phaseStack
      ensures Valid()
      ensures phaseStackIndex == old(phaseStackIndex) + 1
      ensures 0 <= old(phaseStackIndex) < PhaseStackSize ==>
                phaseStack[..] == old(phaseStack[..])[old(phaseStackIndex) := old(phase)]
                && phase == newPhase
                && (outcome == StackOverflow <==> phaseStackIndex == PhaseStackSize)
                && (outcome == Done <==> phaseStackIndex < PhaseStackSize)
      ensures !(0 <= old(phaseStackIndex) < PhaseStackSize) ==>
                phaseStack[..] == old(phaseStack[..]) && phase == old(phase)
                && outcome == IndexOutOfRange
      ensures frameRatePresetIndex == old(frameRatePresetIndex) && clock == old(clock)
      ensures selectedVehicle == old(selectedVehicle)
      ensures delayedResetPlugIn == old(delayedResetPlugIn) && prevKeyState == old(prevKeyState)
    {
      var slot := phaseStackIndex;
      phaseStackIndex := phaseStackIndex + 1;
      if !(0 <= slot < PhaseStackSize) {
        return IndexOutOfRange;
      }
      phaseStack[slot] := phase;
      phase := newPhase;
      if phaseStackIndex >= PhaseStackSize {
        return StackOverflow;
      }
      return Done;
    }

    /** PopPhase: returns to the phase saved in the top slot; popping an
        empty stack fails at the load, after the index has been
        decremented. */
    method PopPhase() returns (outcome: PhaseOutcome)
      requires Valid()
      modifies this
      ensures Valid()
      ensures phaseStackIndex == old(phaseStackIndex) - 1
      ensures 0 <= phaseStackIndex < PhaseStackSize ==>
                phase == phaseStack[phaseStackIndex] && outcome == Done
      ensures !(0 <= phaseStackIndex < PhaseStackSize) ==>
                phase == old(phase) && outcome == IndexOutOfRange
      ensures frameRatePresetIndex == old(frameRatePresetIndex) && clock == old(clock)
      ensures selectedVehicle == old(selectedVehicle)
      ensures delayedResetPlugIn == old(delayedResetPlugIn) && prevKeyState == old(prevKeyState)
    {
      phaseStackIndex := phaseStackIndex - 1;
      if !(0 <= phaseStackIndex < PhaseStackSize) {
        return IndexOutOfRange;
      }
      phase := phaseStack[phaseStackIndex];
      return Done;
    }

    /** QueueDelayedResetPlugIn: asks for a plug-in reset at the next update. */
    method QueueDelayedResetPlugIn()
      modifies this
      ensures delayedResetPlugIn
      ensures phase == old(phase) && phaseStackIndex == old(phaseStackIndex)
      ensures frameRatePresetIndex == old(frameRatePresetIndex) && clock == old(clock)
      ensures selectedVehicle == old(selectedVehicle) && prevKeyState == old(prevKeyState)
    {
      delayedResetPlugIn := true;
    }

    /** DoDelayedResetPlugIn: serves a queued request, if any; reset tells
        whether the selected plug-in's Reset was called. */
    method DoDelayedResetPlugIn() returns (reset: bool)
      modifies this
      ensures reset == old(delayedResetPlugIn) && !delayedResetPlugIn
      ensures phase == old(phase) && phaseStackIndex == old(phaseStackIndex)
      ensures frameRatePresetIndex == old(frameRatePresetIndex) && clock == old(clock)
      ensures selectedVehicle == old(selectedVehicle) && prevKeyState == old(prevKeyState)
    {
      reset := false;
      if delayedResetPlugIn {
        reset := true;
        delayedResetPlugIn := false;
      }
    }

    /** SelectNextVehicle: with a vehicle selected, moves the selection to
        the vehicle after its first occurrence in all, wrapping from the
        last to the first, or to null when it is not in all. */
    method SelectNextVehicle(all: seq<object?>)
      modifies this
      ensures old(selectedVehicle) == null ==> selectedVehicle == null
      ensures old(selectedVehicle) != null && old(selectedVehicle) !in all ==> selectedVehicle == null
      ensures forall i | 0 <= i < |all| && all[i] == old(selectedVehicle) != null
                         && (forall k | 0 <= k < i :: all[k] != all[i]) ::
                selectedVehicle == all[if i == |all| - 1 then 0 else i + 1]
      ensures phase == old(phase) && phaseStackIndex == old(phaseStackIndex)
      ensures frameRatePresetIndex == old(frameRatePresetIndex) && clock == old(clock)
      ensures delayedResetPlugIn == old(delayedResetPlugIn) && prevKeyState == old(prevKeyState)
    {
      if selectedVehicle != null {
        var i := FindIndex(all, selectedVehicle);
        if 0 <= i < |all| {
          if i == |all| - 1 {
            selectedVehicle := all[0];
          } else {
            selectedVehicle := all[i + 1];
          }
        } else {
          selectedVehicle := null;
        }
      }
    }

    /** SelectNextPresetFrameRate: advances the preset and applies its
        clock settings. */
    method SelectNextPresetFrameRate()
      modifies this
      ensures frameRatePresetIndex == NextPresetIndex(old(frameRatePresetIndex))
      ensures clock == PresetSettings(frameRatePresetIndex)
      ensures phase == old(phase) && phaseStackIndex == old(phaseStackIndex)
      ensures selectedVehicle == old(selectedVehicle)
      ensures delayedResetPlugIn == old(delayedResetPlugIn) && prevKeyState == old(prevKeyState)
    {
      frameRatePresetIndex := frameRatePresetIndex + 1;
      if frameRatePresetIndex == 3 {
        clock := ClockSettings(60, true, false);
      } else if frameRatePresetIndex == 2 {
        clock := ClockSettings(60, false, false);
      } else if frameRatePresetIndex == 1 {
        clock := ClockSettings(24, false, false);
      } else {
        frameRatePresetIndex := 0;
        clock := ClockSettings(0, false, true);
      }
    }

    /** IsKeyDown: key went down since the previous frame's keyboard state. */
    function IsKeyDown(keyState: set<Key>, key: Key): (r: bool)
      reads this
      ensures r ==> key in keyState
      ensures key in prevKeyState ==> !r
    {
      KeyPressed(prevKeyState, keyState, key)
    }

    /** UpdateSelectedPlugIn: runs one update inside the Update phase,
        serving a queued reset and selecting the first vehicle when none
        is selected, then returns to the previous phase. reset tells
        whether the plug-in's Reset was called; the plug-in's Update runs
        between the two. Below the last free slot the phase and the
        stack index come back unchanged; a push into the last slot raises
        the overflow and leaves the demo in the Update phase. */
    method UpdateSelectedPlugIn(all: seq<object?>) returns (outcome: PhaseOutcome, reset: bool)
      requires Valid()
      modifies this, phaseStack
      ensures Valid()
      ensures 0 <= old(phaseStackIndex) < PhaseStackSize - 1 ==>
                outcome == Done && phase == old(phase) && phaseStackIndex == old(phaseStackIndex)
                && reset == old(delayedResetPlugIn) && !delayedResetPlugIn
                && selectedVehicle == (if old(selectedVehicle) == null && |all| > 0 then all[0]
                                       else old(selectedVehicle))
      ensures old(phaseStackIndex) == PhaseStackSize - 1 ==>
                outcome == StackOverflow && phase == Update && !reset
      ensures frameRatePresetIndex == old(frameRatePresetIndex) && clock == old(clock)
      ensures prevKeyState == old(prevKeyState)
    {
      reset := false;
      outcome := PushPhase(Update);
      if outcome != Done {
        return;
      }
      reset := DoDelayedResetPlugIn();
      if selectedVehicle == null && |all| > 0 {
        selectedVehicle := all[0];
      }
      outcome := PopPhase();
    }
  }
}
