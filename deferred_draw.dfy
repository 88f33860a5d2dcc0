// Deferred drawing: fixed-capacity buffers of line and circle requests
// collected during a frame and replayed, in order, when the frame is
// drawn. The drawing calls themselves are modelled by the sequence of
// entries DrawAll hands to the drawer.
module DeferredDraws {
  import opened Vectors

  /** An RGBA color, one byte per channel. */
  datatype Color = Color(r: int, g: int, b: int, a: int)

  /** One buffered line: start point, end point, color. */
  datatype DeferredLine = DeferredLine(startPoint: Vec3, endPoint: Vec3, color: Color)

  /** One buffered circle or disk and all its drawing parameters. */
  datatype DeferredCircle = DeferredCircle(radius: real, axis: Vec3, center: Vec3, color: Color,
                                           segments: int, filled: bool, in3d: bool)

  const LineBufferSize := 3000
  const CircleBufferSize := 500

  /** The line buffer: `index` entries pending out of LineBufferSize slots. */
  class DeferredLines {
    var index: int
    const entries: array<DeferredLine>

    ghost predicate Valid()
      reads this
    {
      entries.Length == LineBufferSize && 0 <= index <= LineBufferSize
    }

    /** The lines waiting to be drawn, oldest first. */
    ghost function Pending(): seq<DeferredLine>
      requires Valid()
      reads this, entries
    {
      entries[..index]
    }

    /** The static initializer: every slot holds a blank line, none pending. */
    constructor ()
      ensures Valid() && index == 0 && Pending() == []
    {
      entries := new DeferredLine[LineBufferSize](_ => DeferredLine(Zero, Zero, Color(0, 0, 0, 0)));
      index := 0;
    }

    /** AddToBuffer: while there is room the line fills slot `index` and
        joins the pending lines; a full buffer drops it and is unchanged. */
    method AddToBuffer(s: Vec3, e: Vec3, c: Color)
      requires Valid()
      modifies this, entries
      ensures Valid()
      ensures old(index) < LineBufferSize ==>
        && index == old(index) + 1
        && entries[..] == old(entries[..])[old(index) := DeferredLine(s, e, c)]
        && Pending() == old(Pending()) + [DeferredLine(s, e, c)]
      ensures old(index) >= LineBufferSize ==> index == old(index) && entries[..] == old(entries[..])
    {
      if index < LineBufferSize {
        entries[index] := DeferredLine(s, e, c);
        index := index + 1;
      }
    }

    /** DrawAll: replays the pending lines in insertion order, reading no
        slot at or beyond `index`, then empties the buffer. */
    method DrawAll() returns (drawn: seq<DeferredLine>)
      requires Valid()
      modifies this
      ensures Valid()
      ensures drawn == old(Pending())
      ensures index == 0 && Pending() == []
    {
      drawn := [];
      for i := 0 to index
        invariant drawn == entries[..i]
      {
        drawn := drawn + [entries[i]];
      }
      index := 0;
    }
  }

  /** The circle buffer: `index` entries pending out of CircleBufferSize slots. */
  class DeferredCircles {
    var index: int
    const entries: array<DeferredCircle>

    ghost predicate Valid()
      reads this
    {
      entries.Length == CircleBufferSize && 0 <= index <= CircleBufferSize
    }

    /** The circles waiting to be drawn, oldest first. */
    ghost function Pending(): seq<DeferredCircle>
      requires Valid()
      reads this, entries
    {
      entries[..index]
    }

    /** The static initializer: every slot holds a blank circle, none pending. */
    constructor ()
      ensures Valid() && index == 0 && Pending() == []
    {
      entries := new DeferredCircle[CircleBufferSize](_ => DeferredCircle(0.0, Zero, Zero, Color(0, 0, 0, 0), 0, false, false));
      index := 0;
    }

    /** AddToBuffer: while there is room all seven parameters fill slot
        `index` and join the pending circles; a full buffer drops them. */
    method AddToBuffer(radius: real, axis: Vec3, center: Vec3, color: Color, segments: int, filled: bool, in3d: bool)
      requires Valid()
      modifies this, entries
      ensures Valid()
      ensures var circle := DeferredCircle(radius, axis, center, color, segments, filled, in3d);
        old(index) < CircleBufferSize ==>
          && index == old(index) + 1
          && entries[..] == old(entries[..])[old(index) := circle]
          && Pending() == old(Pending()) + [circle]
      ensures old(index) >= CircleBufferSize ==> index == old(index) && entries[..] == old(entries[..])
    {
      if index < CircleBufferSize {
        entries[index] := DeferredCircle(radius, axis, center, color, segments, filled, in3d);
        index := index + 1;
      }
    }

    /** DrawAll: replays the pending circles in insertion order, reading no
        slot at or beyond `index`, then empties the buffer. */
    method DrawAll() returns (drawn: seq<DeferredCircle>)
      requires Valid()
      modifies this
      ensures Valid()
      ensures drawn == old(Pending())
      ensures index == 0 && Pending() == []
    {
      drawn := [];
      for i := 0 to index
        invariant drawn == entries[..i]
      {
        drawn := drawn + [entries[i]];
      }
      index := 0;
    }
  }
}
