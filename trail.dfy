// A vehicle's trail: a ring buffer of recent positions, sampled at a fixed
// interval, drawn as a dotted line that fades with age and marks each
// whole second.
//
// Drawing is modelled by the list of line segments Draw would hand to the
// drawer, in order.
module Trails {
  import opened Vectors

  /** A flag byte: bit 0 is the dotted-line phase, bit 1 a second tick. */
  function SampleFlag(dottedPhase: int, tick: bool): (f: bv8)
    requires dottedPhase == 0 || dottedPhase == 1
    ensures f <= 3
    ensures (f & 1 != 0) <==> dottedPhase == 1
    ensures (f & 2 != 0) <==> tick
  {
    (dottedPhase as bv8) | (if tick then 2 else 0)
  }

  /** One LineAlpha call: from, to, tick color or trail color, opacity. */
  datatype Line = Line(from: Vec3, to: Vec3, tick: bool, opacity: real)

  /** The ring slot visited at step j of Draw, starting at `start`: the
      slot j places on, wrapping past the end once. */
  function Slot(start: int, j: int, n: int): int
    requires 0 <= start < n && 0 <= j <= n
  {
    if start + j < n then start + j else start + j - n
  }

  /** Stepping to the next slot is Draw's `(index + 1) % n`. */
  lemma NextSlot(start: int, j: int, n: int)
    requires 0 <= start < n && 0 <= j < n
    ensures (Slot(start, j, n) + 1) % n == Slot(start, j + 1, n)
  {
    var x := Slot(start, j, n) + 1;
    if x == n {
      assert x % n == 0;
    } else {
      assert x % n == x;
    }
  }

  /** The step of Draw that visits slot k: the inverse of Slot. */
  function StepOf(start: int, k: int, n: int): (j: int)
    requires 0 <= start < n && 0 <= k < n
    ensures 0 <= j < n
  {
    if k >= start then k - start else k - start + n
  }

  /** Draw visits every ring slot exactly once: Slot maps the steps
      0..n-1 one to one onto the slots 0..n-1, StepOf undoing it. */
  lemma DrawVisitsEverySlotOnce(start: int, n: int)
    requires 0 <= start < n
    ensures forall j | 0 <= j < n :: 0 <= Slot(start, j, n) < n && StepOf(start, Slot(start, j, n), n) == j
    ensures forall k | 0 <= k < n :: Slot(start, StepOf(start, k, n), n) == k
    ensures Slot(start, 0, n) == start
  {
  }

  /** The opacity of the segment drawn at step j > 0 of n. */
  function Opacity(j: int, n: int): real
    requires n > 0
  {
    var minO := 0.05;
    var fraction := j as real / n as real;
    fraction * (1.0 - minO) + minO
  }

  /** Older segments fade: for 0 < j < n the opacity lies in (0.05, 1). */
  lemma OpacityBounds(j: int, n: int)
    requires 0 < j < n
    ensures 0.05 < Opacity(j, n) < 1.0
  {
    var fraction := j as real / n as real;
    assert 0.0 < fraction < 1.0;
  }

  /** The segment (if any) step j of Draw produces. */
  function StepLines(vertices: seq<Vec3>, flags: seq<bv8>, start: int, currentPosition: Vec3, j: int): seq<Line>
    requires |vertices| == |flags| > 0 && 0 <= start < |vertices| && 0 <= j < |vertices|
  {
    var n := |vertices|;
    var index := Slot(start, j, n);
    var next := (index + 1) % n;
    var tick := flags[index] & 2 != 0 || flags[next] & 2 != 0;
    if flags[index] & 1 == 0 then []
    else if j == 0 then [Line(currentPosition, vertices[index], tick, 1.0)]
    else [Line(vertices[index], vertices[next], tick, Opacity(j, n))]
  }

  /** The segments of steps 0..j-1, in order. */
  function LinesUpTo(vertices: seq<Vec3>, flags: seq<bv8>, start: int, currentPosition: Vec3, j: nat): seq<Line>
    requires |vertices| == |flags| > 0 && 0 <= start < |vertices| && j <= |vertices|
  {
    if j == 0 then []
    else LinesUpTo(vertices, flags, start, currentPosition, j - 1) + StepLines(vertices, flags, start, currentPosition, j - 1)
  }

  /** Every drawn segment has an opacity in [0.05, 1]; only the newest,
      from the vehicle's current position, is fully opaque. */
  lemma {:induction false} LinesOpacity(vertices: seq<Vec3>, flags: seq<bv8>, start: int, currentPosition: Vec3,
                                         j: nat)
    requires |vertices| == |flags| > 0 && 0 <= start < |vertices| && j <= |vertices|
    ensures forall k | 0 <= k < |LinesUpTo(vertices, flags, start, currentPosition, j)| ::
      var line := LinesUpTo(vertices, flags, start, currentPosition, j)[k];
      0.05 <= line.opacity <= 1.0 && (line.opacity == 1.0 ==> line.from == currentPosition)
  {
    if j > 0 {
      LinesOpacity(vertices, flags, start, currentPosition, j - 1);
      if j - 1 > 0 {
        OpacityBounds(j - 1, |vertices|);
      }
    }
  }

  /** The dotted-line phase bit of a flag byte. */
  predicate Dotted(f: bv8) {
    f & 1 != 0
  }

  /** The steps of 0..j-1 whose slot has its phase bit set. */
  function DrawnSteps(flags: seq<bv8>, start: int, j: nat): set<int>
    requires 0 <= start < |flags| && j <= |flags|
  {
    set k | 0 <= k < j && Dotted(flags[Slot(start, k, |flags|)])
  }

  /** Step j-1 joins the drawn steps exactly when its slot's phase bit is set. */
  lemma DrawnStepsGrow(flags: seq<bv8>, start: int, j: nat)
    requires 0 <= start < |flags| && 0 < j <= |flags|
    ensures |DrawnSteps(flags, start, j)|
         == |DrawnSteps(flags, start, j - 1)| + (if Dotted(flags[Slot(start, j - 1, |flags|)]) then 1 else 0)
  {
    var before := DrawnSteps(flags, start, j - 1);
    var after := DrawnSteps(flags, start, j);
    assert j - 1 !in before;
    if Dotted(flags[Slot(start, j - 1, |flags|)]) {
      assert after == before + {j - 1};
    } else {
      assert after == before;
    }
  }

  /** A segment is drawn for a step exactly when the slot's phase bit is
      set, so a trail of n slots yields at most n segments. */
  lemma {:induction false} LinesCount(vertices: seq<Vec3>, flags: seq<bv8>, start: int, currentPosition: Vec3,
                                       j: nat)
    requires |vertices| == |flags| > 0 && 0 <= start < |vertices| && j <= |vertices|
    ensures |LinesUpTo(vertices, flags, start, currentPosition, j)| == |DrawnSteps(flags, start, j)|
  {
    if j > 0 {
      LinesCount(vertices, flags, start, currentPosition, j - 1);
      DrawnStepsGrow(flags, start, j);
      var step := StepLines(vertices, flags, start, currentPosition, j - 1);
      assert LinesUpTo(vertices, flags, start, currentPosition, j)
          == LinesUpTo(vertices, flags, start, currentPosition, j - 1) + step;
      if (flags[Slot(start, j - 1, |flags|)] & 1) != 0 {
        assert |step| == 1;
      } else {
        assert step == [];
      }
    }
  }

  class Trail {
    var duration: real
    var sampleInterval: real
    var lastSampleTime: real
    var dottedPhase: int
    var currentPosition: Vec3
    var currentIndex: int
    var vertices: array<Vec3>
    var flags: array<bv8>

    /** The ring buffers have the same, positive length; the index is a
        slot; the phase is 0 or 1; every flag is one of 0..3. */
    ghost predicate Valid()
      reads this, flags
    {
      && vertices.Length == flags.Length > 0
      && vertices as object != flags as object
      && 0 <= currentIndex < vertices.Length
      && (dottedPhase == 0 || dottedPhase == 1)
      && forall k | 0 <= k < flags.Length :: flags[k] <= 3
    }

    /** A trail of `vertexCount` samples over `duration` seconds: one
        sample per duration/vertexCount, index 0, phase 1, empty buffers. */
    constructor (duration: real, vertexCount: int)
      requires vertexCount > 0
      ensures Valid() && fresh(vertices) && fresh(flags)
      ensures this.duration == duration && sampleInterval == duration / vertexCount as real
      ensures currentIndex == 0 && lastSampleTime == 0.0 && dottedPhase == 1
      ensures vertices.Length == vertexCount
      ensures forall k | 0 <= k < vertexCount :: vertices[k] == Zero && flags[k] == 0
    {
      this.duration := duration;
      currentIndex := 0;
      lastSampleTime := 0.0;
      sampleInterval := duration / vertexCount as real;
      dottedPhase := 1;
      vertices := new Vec3[vertexCount](_ => Zero);
      flags := new bv8[vertexCount](_ => 0);
      currentPosition := Zero;
    }

    /** Record: when more than a sample interval has passed since the last
        sample, the next slot takes the position and a flag with the new
        phase and whether a whole second has passed; the current position
        is updated on every call. */
    method Record(currentTime: real, position: Vec3)
      requires Valid()
      modifies this`currentIndex, this`dottedPhase, this`lastSampleTime, this`currentPosition, vertices, flags
      ensures Valid()
      ensures currentPosition == position
      ensures var sample := currentTime - old(lastSampleTime) > sampleInterval;
        && (sample ==>
              && currentIndex == (old(currentIndex) + 1) % vertices.Length
              && dottedPhase == (old(dottedPhase) + 1) % 2
              && vertices[..] == old(vertices[..])[currentIndex := position]
              && flags[..] == old(flags[..])[currentIndex :=
                   SampleFlag(dottedPhase, currentTime.Floor > old(lastSampleTime).Floor)]
              && lastSampleTime == currentTime)
        && (!sample ==>
              && currentIndex == old(currentIndex) && dottedPhase == old(dottedPhase)
              && vertices[..] == old(vertices[..]) && flags[..] == old(flags[..])
              && lastSampleTime == old(lastSampleTime))
    {
      var timeSinceLastTrailSample := currentTime - lastSampleTime;
      if timeSinceLastTrailSample > sampleInterval {
        currentIndex := (currentIndex + 1) % vertices.Length;
        vertices[currentIndex] := position;
        dottedPhase := (dottedPhase + 1) % 2;
        var tick := currentTime.Floor > lastSampleTime.Floor;
        flags[currentIndex] := SampleFlag(dottedPhase, tick);
        lastSampleTime := currentTime;
      }
      currentPosition := position;
    }

    /** Clear: index 0, last sample at time 0, phase 1, every vertex at
        the origin and every flag 0. */
    method Clear()
      requires Valid()
      modifies this`currentIndex, this`lastSampleTime, this`dottedPhase, vertices, flags
      ensures Valid()
      ensures currentIndex == 0 && lastSampleTime == 0.0 && dottedPhase == 1
      ensures forall k | 0 <= k < vertices.Length :: vertices[k] == Zero && flags[k] == 0
    {
      currentIndex := 0;
      lastSampleTime := 0.0;
      dottedPhase := 1;
      var i := 0;
      while i < vertices.Length
        invariant 0 <= i <= vertices.Length
        invariant currentIndex == 0 && lastSampleTime == 0.0 && dottedPhase == 1
        invariant vertices as object != flags as object
        invariant forall k | 0 <= k < i :: vertices[k] == Zero && flags[k] == 0
        invariant forall k | 0 <= k < flags.Length :: flags[k] <= 3
      {
        vertices[i] := Zero;
        flags[i] := 0;
        i := i + 1;
      }
    }

    /** Draw: walks the ring once from the newest sample, producing a
        segment for every slot whose phase bit is set. */
    method Draw() returns (lines: seq<Line>)
      requires Valid()
      ensures lines == LinesUpTo(vertices[..], flags[..], currentIndex, currentPosition, vertices.Length)
    {
      var n := vertices.Length;
      ghost var vs, fs := vertices[..], flags[..];
      var index := currentIndex;
      lines := [];
      var j := 0;
      while j < n
        invariant 0 <= j <= n
        invariant index == Slot(currentIndex, j, n)
        invariant lines == LinesUpTo(vs, fs, currentIndex, currentPosition, j)
      {
        ghost var step := StepLines(vs, fs, currentIndex, currentPosition, j);
        ghost var before := lines;
        var next := (index + 1) % n;
        var tick := flags[index] & 2 != 0 || flags[next] & 2 != 0;
        if flags[index] & 1 != 0 {
          if j == 0 {
            lines := lines + [Line(currentPosition, vertices[index], tick, 1.0)];
          } else {
            var minO := 0.05;
            var fraction := j as real / n as real;
            var opacity := fraction * (1.0 - minO) + minO;
            assert opacity == Opacity(j, n);
            lines := lines + [Line(vertices[index], vertices[next], tick, opacity)];
          }
        }
        assert lines == before + step;
        NextSlot(currentIndex, j, n);
        index := next;
        j := j + 1;
      }
    }
  }
}
