// The map-driving plug-in: it regenerates the terrain map (random rock
// clumps, a clear center, boundary fences or path fences), cycles the
// driving demos, reverses the path-following direction and restarts a
// vehicle that is stuck.
//
// The random draws (rock cells, new path radii) and the pathway's
// HowFarOutsidePath arrive as a `MapDraws` value; the camera, the text
// display and the drawing are not part of this model.
module MapDrivePlugIns {
  import opened Vectors
  import opened Utilities
  import opened TerrainMaps
  import opened Routes
  import opened MapDrivers

  // ================================================================ map generation

  /** The bounds p and q of the cleared center square of a map `cw` cells
      wide: (cw - cw/16)/2 and (cw + cw/16)/2 (the source's shifts). */
  function CenterLow(cw: int): int
    requires cw >= 0
  {
    (cw - cw / 16) / 2
  }

  function CenterHigh(cw: int): int
    requires cw >= 0
  {
    (cw + cw / 16) / 2
  }

  /** The center square lies inside the terrain. */
  lemma CenterInRange(cw: int)
    requires cw > 0
    ensures 0 <= CenterLow(cw) <= CenterHigh(cw) < cw
    ensures cw >= 3 ==> 1 <= CenterLow(cw) && CenterHigh(cw) < cw - 1
  {
  }

  predicate InCenter(cw: int, i: int, j: int)
    requires cw >= 0
  {
    CenterLow(cw) <= i <= CenterHigh(cw) && CenterLow(cw) <= j <= CenterHigh(cw)
  }

  /** The cells DrawBoundaryFencesOnMap blocks: the border, and the two
      diagonals between an eighth of the way in and the center square. */
  predicate BoundaryFence(cw: int, i: int, j: int)
    requires cw >= 0
  {
    var r := cw - 1;
    var a := cw / 8;
    var b := cw - a;
    var diagonal := i > a && i < b && (i < CenterLow(cw) || i > CenterHigh(cw));
    i == 0 || j == 0 || i == r || j == r || (diagonal && (i == j || i + j == r))
  }

  /** A cell after DrawPathFencesOnMap: blocked just outside the path's
      edge (outsideness strictly between 0 and the wall thickness 1),
      cleared farther out, and left alone on the path and exactly at 1. */
  function PathFenceValue(before: bool, outside: real): (after: bool)
  {
    if outside > 0.0 && outside < 1.0 then true
    else if outside > 1.0 then false
    else before
  }

  /** Path fences never touch a cell on the path, and the wall they draw
      is exactly the band 0 < outside < 1. */
  lemma PathFenceBand(before: bool, outside: real)
    ensures outside <= 0.0 || outside == 1.0 ==> PathFenceValue(before, outside) == before
    ensures PathFenceValue(before, outside) != before ==>
      (PathFenceValue(before, outside) <==> 0.0 < outside < 1.0)
  {
  }

  /** The point DrawPathFencesOnMap measures for cell (i, j): the cell's
      center, counted from the world origin (not the map's center). */
  function FencePoint(xSize: real, zSize: real, resolution: int, i: int, j: int): Vec3
    requires resolution > 0
  {
    var xs := xSize / resolution as real;
    var zs := zSize / resolution as real;
    Vec3((xSize - xs) / -2.0 + i as real * xs, 0.0, (zSize - zs) / -2.0 + j as real * zs)
  }

  /** The random draws and the pathway query one map regeneration uses:
      the rock cells DrawRandomClumpsOfRocksOnMap marks, the new radii of
      path segments 1..count-1, and HowFarOutsidePath. */
  datatype MapDraws = MapDraws(rocks: seq<(int, int)>, radii: seq<real>, outside: Vec3 -> real)

  predicate RocksInRange(rocks: seq<(int, int)>, cw: int)
  {
    forall k | 0 <= k < |rocks| :: 0 <= rocks[k].0 < cw && 0 <= rocks[k].1 < cw
  }

  /** Cell (i, j) of a regenerated map: rocks (when enabled) on a clear
      map, the center square cleared, then boundary fences in demos 0 and
      1, or path fences in demo 2 when enabled. */
  function RegeneratedCell(cw: int, xSize: real, zSize: real, demoSelect: int, useRandomRocks: bool,
                           usePathFences: bool, draws: MapDraws, i: int, j: int): bool
    requires cw > 0
  {
    var rock := useRandomRocks && (i, j) in draws.rocks;
    var centered := if InCenter(cw, i, j) then false else rock;
    var fenced := if demoSelect < 2 then centered || BoundaryFence(cw, i, j) else centered;
    if usePathFences && demoSelect == 2
    then PathFenceValue(fenced, draws.outside(FencePoint(xSize, zSize, cw, i, j)))
    else fenced
  }

  /** In demos 0 and 1 a regenerated map of at least 3 x 3 cells is walled
      in by its border and has a clear center square, whatever the rocks. */
  lemma RegeneratedMapWalledWithClearCenter(cw: int, xSize: real, zSize: real, demoSelect: int,
                                            useRandomRocks: bool, usePathFences: bool, draws: MapDraws,
                                            i: int, j: int)
    requires cw >= 3 && demoSelect < 2 && 0 <= i < cw && 0 <= j < cw
    ensures i == 0 || j == 0 || i == cw - 1 || j == cw - 1 ==>
      RegeneratedCell(cw, xSize, zSize, demoSelect, useRandomRocks, usePathFences, draws, i, j)
    ensures InCenter(cw, i, j) ==>
      !RegeneratedCell(cw, xSize, zSize, demoSelect, useRandomRocks, usePathFences, draws, i, j)
  {
    CenterInRange(cw);
  }

  /** In demo 2 with path fences, a regenerated cell off the path by less
      than a wall's thickness is blocked, and one farther out is clear. */
  lemma RegeneratedPathFence(cw: int, xSize: real, zSize: real, useRandomRocks: bool, draws: MapDraws,
                             i: int, j: int)
    requires cw > 0
    ensures var outside := draws.outside(FencePoint(xSize, zSize, cw, i, j));
      var cell := RegeneratedCell(cw, xSize, zSize, 2, useRandomRocks, true, draws, i, j);
      && (0.0 < outside < 1.0 ==> cell)
      && (outside > 1.0 ==> !cell)
      && (outside <= 0.0 ==> cell == (useRandomRocks && !InCenter(cw, i, j) && (i, j) in draws.rocks))
  {
  }

  /** The radius of segment i after the path widths are redrawn in demo 2:
      the entry segment keeps the previous exit segment's radius, the
      other segments from 1 on take the drawn radii. */
  function RedrawnRadius(oldRadii: seq<real>, drawn: seq<real>, direction: int, i: int): real
    requires |oldRadii| >= 2 && |drawn| >= |oldRadii| - 1 && 0 <= i < |oldRadii|
  {
    var count := |oldRadii|;
    var entry := if direction > 0 then 1 else count - 1;
    var exit := if direction > 0 then count - 1 else 1;
    if i == entry then oldRadii[exit]
    else if i == 0 then oldRadii[0]
    else drawn[i - 1]
  }

  /** Reversing the direction swaps entry and exit: driving a lap and
      coming back, the carried radius is the one the lap ended on. */
  lemma RedrawnEntryIsOldExit(oldRadii: seq<real>, drawn: seq<real>, direction: int)
    requires |oldRadii| >= 2 && |drawn| >= |oldRadii| - 1
    ensures direction > 0 ==> RedrawnRadius(oldRadii, drawn, direction, 1) == oldRadii[|oldRadii| - 1]
    ensures direction <= 0 ==>
      RedrawnRadius(oldRadii, drawn, direction, |oldRadii| - 1) == oldRadii[1]
    ensures RedrawnRadius(oldRadii, drawn, direction, 0) == oldRadii[0]
  {
  }

  // ================================================================ status text

  /** The decimal digits of a natural number. */
  function NatDigits(n: nat): (s: string)
    ensures |s| >= 1 && forall k | 0 <= k < |s| :: '0' <= s[k] <= '9'
  {
    var d := [(('0' as int) + n % 10) as char];
    if n < 10 then d else NatDigits(n / 10) + d
  }

  /** The value of a string of decimal digits. */
  function DigitsValue(s: string): nat
    requires forall k | 0 <= k < |s| :: '0' <= s[k] <= '9'
  {
    if |s| == 0 then 0 else 10 * DigitsValue(s[..|s| - 1]) + (s[|s| - 1] as int - '0' as int)
  }

  /** Reading back the digits gives the number. */
  lemma {:induction false} DigitsRoundTrip(n: nat)
    ensures DigitsValue(NatDigits(n)) == n
  {
    var s := NatDigits(n);
    assert s[..|s| - 1] == if n < 10 then [] else NatDigits(n / 10);
    if n >= 10 {
      DigitsRoundTrip(n / 10);
    }
  }

  /** How .NET prints an int: a minus sign before a negative number. */
  function IntText(n: int): string
  {
    if n < 0 then "-" + NatDigits(-n) else NatDigits(n)
  }

  /** qqqRange: the status line gets a new line with the label, then "--"
      for the "nothing in range" sentinel 9999 or the truncated range. */
  function QqqRange(text: string, range: real, status: string): (r: string)
    ensures |r| >= |status| + 1 + |text| && r[..|status| + 1 + |text|] == status + "\n" + text
    ensures range == 9999.0 ==> r[|status| + 1 + |text|..] == "--"
    ensures range != 9999.0 ==> r[|status| + 1 + |text|..] == IntText(Trunc(range))
  {
    status + "\n" + text + (if range == 9999.0 then "--" else IntText(Trunc(range)))
  }

  /** Reading back the number printed for a non-negative range gives its
      whole meters; the sentinel never prints digits. */
  lemma QqqRangeReadsBack(text: string, range: real, status: string)
    requires 0.0 <= range && range != 9999.0
    ensures var tail := QqqRange(text, range, status)[|status| + 1 + |text|..];
      && (forall k | 0 <= k < |tail| :: '0' <= tail[k] <= '9')
      && DigitsValue(tail) == Trunc(range)
  {
    TruncTowardZero(range);
    DigitsRoundTrip(Trunc(range));
  }

  // ================================================================ demo selection

  /** The demo after `demoSelect`: one more, wrapping past 2 to 0. */
  function NextDemo(demoSelect: int): (next: int)
    ensures demoSelect >= 2 ==> next == 0
    ensures demoSelect < 2 ==> next == demoSelect + 1
  {
    if demoSelect + 1 > 2 then 0 else demoSelect + 1
  }

  /** The demos cycle 0, 1, 2, 0: every demo comes back after three
      steps, and the cycle never leaves 0..2. */
  lemma NextDemoCycles(demoSelect: int)
    requires 0 <= demoSelect <= 2
    ensures 0 <= NextDemo(demoSelect) <= 2
    ensures NextDemo(NextDemo(NextDemo(demoSelect))) == demoSelect
    ensures NextDemo(demoSelect) != demoSelect
  {
  }

  /** ReversePathFollowDirection: a positive direction becomes -1, any
      other +1. */
  function ReversedDirection(direction: int): (r: int)
    ensures r == 1 || r == -1
    ensures r > 0 <==> direction <= 0
  {
    if direction > 0 then -1 else 1
  }

  /** Reversing twice restores a direction of +1 or -1. */
  lemma ReverseTwice(direction: int)
    requires direction == 1 || direction == -1
    ensures ReversedDirection(ReversedDirection(direction)) == direction
  {
  }

  // ================================================================ the plug-in

  class MapDrivePlugIn {
    var driver: MapDriver
    var terrain: TerrainMap
    var path: GCRoute
    var vehicles: seq<MapDriver>
    var usePathFences: bool
    var useRandomRocks: bool

    ghost predicate Valid()
      reads this, driver, terrain, path
    {
      driver.Valid() && terrain.Valid() && path.Valid() && path.pointCount >= 2
    }

    /** The plug-in as Open leaves it before its Reset: one driver, in the
        vehicle list, with path fences and random rocks on. */
    constructor (d: MapDriver, m: TerrainMap, p: GCRoute)
      requires d.Valid() && m.Valid() && p.Valid() && p.pointCount >= 2
      ensures Valid()
      ensures driver == d && terrain == m && path == p && vehicles == [d]
      ensures usePathFences && useRandomRocks
    {
      driver, terrain, path := d, m, p;
      vehicles := [d];
      usePathFences, useRandomRocks := true, true;
    }

    /** Close: the vehicle list is emptied. */
    method Close()
      modifies this`vehicles
      ensures vehicles == []
    {
      vehicles := [];
    }

    /** ClearCenterOfMap: the center square becomes clear, every other cell
        is left alone. */
    method ClearCenterOfMap()
      requires terrain.Valid()
      modifies terrain.cells
      ensures forall i, j | 0 <= i < terrain.resolution && 0 <= j < terrain.resolution ::
        terrain.GetMapBit(i, j) == (if InCenter(terrain.resolution, i, j) then false else old(terrain.GetMapBit(i, j)))
    {
      var cw := terrain.resolution;
      CenterInRange(cw);
      var o := cw / 16;
      var p := (cw - o) / 2;
      var q := (cw + o) / 2;
      var i := p;
      while i <= q
        invariant p <= i <= q + 1
        invariant forall i', j' | 0 <= i' < cw && 0 <= j' < cw ::
          terrain.GetMapBit(i', j') ==
            (if p <= i' < i && p <= j' <= q then false else old(terrain.GetMapBit(i', j')))
      {
        var j := p;
        while j <= q
          invariant p <= j <= q + 1
          invariant forall i', j' | 0 <= i' < cw && 0 <= j' < cw ::
            terrain.GetMapBit(i', j') ==
              (if (p <= i' < i && p <= j' <= q) || (i' == i && p <= j' < j) then false
               else old(terrain.GetMapBit(i', j')))
        {
          var _ := terrain.SetMapBit(i, j, false);
          j := j + 1;
        }
        i := i + 1;
      }
    }

    /** DrawBoundaryFencesOnMap: the border and the two diagonal fences
        become blocked; no cell is cleared. */
    method DrawBoundaryFencesOnMap()
      requires terrain.Valid()
      modifies terrain.cells
      ensures forall i, j | 0 <= i < terrain.resolution && 0 <= j < terrain.resolution ::
        terrain.GetMapBit(i, j) == (old(terrain.GetMapBit(i, j)) || BoundaryFence(terrain.resolution, i, j))
    {
      var cw := terrain.resolution;
      var ch := terrain.resolution;
      var r := cw - 1;
      var a := cw / 8;
      var b := cw - a;
      var o := cw / 16;
      var p := (cw - o) / 2;
      var q := (cw + o) / 2;
      var i := 0;
      while i < cw
        invariant 0 <= i <= cw
        invariant forall i', j' | 0 <= i' < cw && 0 <= j' < cw ::
          terrain.GetMapBit(i', j') == (old(terrain.GetMapBit(i', j')) || (i' < i && BoundaryFence(cw, i', j')))
      {
        var j := 0;
        while j < ch
          invariant 0 <= j <= ch
          invariant forall i', j' | 0 <= i' < cw && 0 <= j' < cw ::
            terrain.GetMapBit(i', j') ==
              (old(terrain.GetMapBit(i', j')) || ((i' < i || (i' == i && j' < j)) && BoundaryFence(cw, i', j')))
        {
          var c := i > a && i < b && (i < p || i > q);
          if i == 0 || j == 0 || i == r || j == r || (c && (i == j || i + j == r)) {
            var _ := terrain.SetMapBit(i, j, true);
          }
          j := j + 1;
        }
        i := i + 1;
      }
    }

    /** DrawPathFencesOnMap: walks the cell centers row by row, asking the
        path how far outside it each lies, and sets each cell to its
        PathFenceValue. */
    method DrawPathFencesOnMap(howFarOutside: Vec3 -> real)
      requires terrain.Valid()
      modifies terrain.cells
      ensures forall i, j | 0 <= i < terrain.resolution && 0 <= j < terrain.resolution ::
        terrain.GetMapBit(i, j) ==
          PathFenceValue(old(terrain.GetMapBit(i, j)),
                         howFarOutside(FencePoint(terrain.xSize, terrain.zSize, terrain.resolution, i, j)))
    {
      var res := terrain.resolution;
      var xs := terrain.xSize / res as real;
      var zs := terrain.zSize / res as real;
      var alongRow := Vec3(xs, 0.0, 0.0);
      var nextRow := Vec3(-terrain.xSize, 0.0, zs);
      var g := Vec3((terrain.xSize - xs) / -2.0, 0.0, (terrain.zSize - zs) / -2.0);
      var j := 0;
      while j < res
        invariant 0 <= j <= res
        invariant g == FencePoint(terrain.xSize, terrain.zSize, res, 0, j)
        invariant forall i', j' | 0 <= i' < res && 0 <= j' < res ::
          terrain.GetMapBit(i', j') ==
            if j' < j then PathFenceValue(old(terrain.GetMapBit(i', j')),
                                          howFarOutside(FencePoint(terrain.xSize, terrain.zSize, res, i', j')))
            else old(terrain.GetMapBit(i', j'))
      {
        var i := 0;
        while i < res
          invariant 0 <= i <= res
          invariant g == FencePoint(terrain.xSize, terrain.zSize, res, i, j)
          invariant forall i', j' | 0 <= i' < res && 0 <= j' < res ::
            terrain.GetMapBit(i', j') ==
              if j' < j || (j' == j && i' < i)
              then PathFenceValue(old(terrain.GetMapBit(i', j')),
                                  howFarOutside(FencePoint(terrain.xSize, terrain.zSize, res, i', j')))
              else old(terrain.GetMapBit(i', j'))
        {
          var outside := howFarOutside(g);
          var wallThickness := 1.0;
          if outside > 0.0 && outside < wallThickness {
            var _ := terrain.SetMapBit(i, j, true);
          }
          if outside > wallThickness {
            var _ := terrain.SetMapBit(i, j, false);
          }
          NextColumn(terrain.xSize, terrain.zSize, res, i, j);
          g := Add(g, alongRow);
          i := i + 1;
        }
        NextRow(terrain.xSize, terrain.zSize, res, j);
        g := Add(g, nextRow);
        j := j + 1;
      }
    }

    /** DrawRandomClumpsOfRocksOnMap, with the clumps drawn beforehand:
        when rocks are on, each drawn cell becomes blocked. */
    method DrawRandomClumpsOfRocksOnMap(rocks: seq<(int, int)>)
      requires terrain.Valid() && RocksInRange(rocks, terrain.resolution)
      modifies terrain.cells
      ensures forall i, j | 0 <= i < terrain.resolution && 0 <= j < terrain.resolution ::
        terrain.GetMapBit(i, j) == (old(terrain.GetMapBit(i, j)) || (useRandomRocks && (i, j) in rocks))
    {
      if useRandomRocks {
        var k := 0;
        while k < |rocks|
          invariant 0 <= k <= |rocks|
          invariant forall i, j | 0 <= i < terrain.resolution && 0 <= j < terrain.resolution ::
            terrain.GetMapBit(i, j) == (old(terrain.GetMapBit(i, j)) || (i, j) in rocks[..k])
        {
          var _ := terrain.SetMapBit(rocks[k].0, rocks[k].1, true);
          assert rocks[..k + 1] == rocks[..k] + [rocks[k]];
          k := k + 1;
        }
        assert rocks[..k] == rocks;
      }
    }

    /** The path-width part of RegenerateMap in demo 2: segments 1..count-1
        take the drawn radii, then the entry segment takes the radius the
        exit segment had. */
    method RedrawPathRadii(drawn: seq<real>)
      requires path.Valid() && path.pointCount >= 2 && |drawn| >= path.pointCount - 1
      modifies path.radii
      ensures forall i | 0 <= i < path.pointCount ::
        path.radii[i] == RedrawnRadius(old(path.radii[..]), drawn, driver.modes.pathFollowDirection, i)
    {
      var count := path.pointCount;
      var upstream := driver.modes.pathFollowDirection > 0;
      var entryIndex := if upstream then 1 else count - 1;
      var exitIndex := if upstream then count - 1 else 1;
      var lastExitRadius := path.radii[exitIndex];
      var i := 1;
      while i < count
        invariant 1 <= i <= count
        invariant path.radii[0] == old(path.radii[0])
        invariant forall k | 1 <= k < i :: path.radii[k] == drawn[k - 1]
        invariant forall k | i <= k < count :: path.radii[k] == old(path.radii[k])
      {
        path.radii[i] := drawn[i - 1];
        i := i + 1;
      }
      path.radii[entryIndex] := lastExitRadius;
    }

    /** RegenerateMap: clear the map, scatter rocks, clear the center, then
        fence the boundary (demos 0 and 1) or redraw the path widths and,
        when enabled, fence the path (demo 2). */
    method RegenerateMap(draws: MapDraws)
      requires Valid() && RocksInRange(draws.rocks, terrain.resolution)
      requires |draws.radii| >= path.pointCount - 1
      modifies terrain.cells, path.radii
      ensures forall i, j | 0 <= i < terrain.resolution && 0 <= j < terrain.resolution ::
        terrain.GetMapBit(i, j) == RegeneratedCell(terrain.resolution, terrain.xSize, terrain.zSize, driver.modes.demoSelect,
                                               useRandomRocks, usePathFences, draws, i, j)
      ensures driver.modes.demoSelect == 2 ==> forall i | 0 <= i < path.pointCount ::
        path.radii[i] == RedrawnRadius(old(path.radii[..]), draws.radii, driver.modes.pathFollowDirection, i)
      ensures driver.modes.demoSelect != 2 ==> path.radii[..] == old(path.radii[..])
    {
      terrain.Clear();
      DrawRandomClumpsOfRocksOnMap(draws.rocks);
      ClearCenterOfMap();
      if driver.modes.demoSelect < 2 {
        DrawBoundaryFencesOnMap();
      }
      if driver.modes.demoSelect == 2 {
        RedrawPathRadii(draws.radii);
      }
      if usePathFences && driver.modes.demoSelect == 2 {
        DrawPathFencesOnMap(draws.outside);
      }
    }

    /** Reset: a new map, then the driver's own Reset. */
    method Reset(draws: MapDraws, sqrt: real -> real)
      requires Valid() && RocksInRange(draws.rocks, terrain.resolution)
      requires |draws.radii| >= path.pointCount - 1
      modifies terrain.cells, path.radii, driver`vehicle, driver`modes, driver`state, driver`counts
      ensures Valid()
      ensures forall i, j | 0 <= i < terrain.resolution && 0 <= j < terrain.resolution ::
        terrain.GetMapBit(i, j) == RegeneratedCell(terrain.resolution, terrain.xSize, terrain.zSize, driver.modes.demoSelect,
                                               useRandomRocks, usePathFences, draws, i, j)
      ensures driver.modes == old(driver.modes).(baseLookAheadTime := 3.0)
      ensures !driver.state.stuck && driver.vehicle.speed == 0.0
      ensures driver.counts == old(driver.counts).(lapsStarted := old(driver.counts.lapsStarted) +
                                                                  (if driver.modes.demoSelect == 2 then 1 else 0))
    {
      RegenerateMap(draws);
      driver.Reset(sqrt);
    }

    /** ReversePathFollowDirection. */
    method ReversePathFollowDirection()
      modifies driver`modes
      ensures driver.modes == old(driver.modes).(pathFollowDirection :=
                                                   ReversedDirection(old(driver.modes.pathFollowDirection)))
    {
      var m := driver.modes;
      driver.modes := m.(pathFollowDirection := if m.pathFollowDirection > 0 then -1 else 1);
    }

    /** SelectNextDemo: the next demo (0, 1, 2, 0, ...), then a Reset; a
        demo number outside 0..2 that does not wrap is not reset. */
    method SelectNextDemo(draws: MapDraws, sqrt: real -> real)
      requires Valid() && RocksInRange(draws.rocks, terrain.resolution)
      requires |draws.radii| >= path.pointCount - 1
      modifies terrain.cells, path.radii, driver`vehicle, driver`modes, driver`state, driver`counts
      ensures Valid()
      ensures driver.modes.demoSelect == NextDemo(old(driver.modes.demoSelect))
      ensures 0 <= driver.modes.demoSelect <= 2 ==> !driver.state.stuck && driver.vehicle.speed == 0.0
    {
      var demo := driver.modes.demoSelect + 1;
      if demo > 2 {
        demo := 0;
      }
      driver.modes := driver.modes.(demoSelect := demo);
      if demo == 0 || demo == 1 || demo == 2 {
        Reset(draws, sqrt);
      }
    }

    /** The "stuck" check that closes Update: a stuck vehicle that has
        (almost) stopped counts one more stuck event and is reset. */
    method CheckStuck(draws: MapDraws, sqrt: real -> real) returns (reset: bool)
      requires Valid() && RocksInRange(draws.rocks, terrain.resolution)
      requires |draws.radii| >= path.pointCount - 1
      modifies terrain.cells, path.radii, driver`vehicle, driver`modes, driver`state, driver`counts
      ensures Valid()
      ensures reset <==> old(driver.state.stuck && RelativeSpeed(driver.vehicle.speed, driver.vehicle.maxSpeed) < 0.001)
      ensures driver.counts.stuckCount == old(driver.counts.stuckCount) + (if reset then 1 else 0)
      ensures reset ==> !driver.state.stuck && driver.vehicle.speed == 0.0
      ensures !reset ==> driver.state == old(driver.state) && driver.vehicle == old(driver.vehicle)
    {
      reset := driver.state.stuck && RelativeSpeed(driver.vehicle.speed, driver.vehicle.maxSpeed) < 0.001;
      if reset {
        driver.counts := driver.counts.(stuckCount := driver.counts.stuckCount + 1);
        Reset(draws, sqrt);
      }
    }

    /** Update: one tick of the driver; a new map when the vehicle left the
        world (`exited`, HandleExitFromMap's answer); then the stuck check.
        A vehicle is reset exactly when it ends the tick stuck and nearly
        stopped, and a reset leaves it free and at rest. */
    method Update(currentTime: real, elapsedTime: real, tick: Tick, exited: bool, exitDraws: MapDraws,
                  stuckDraws: MapDraws, sqrt: real -> real)
      returns (reset: bool)
      requires Valid() && IsSqrt(tick.sqrt) && elapsedTime >= 0.0
      requires RocksInRange(exitDraws.rocks, terrain.resolution) && |exitDraws.radii| >= path.pointCount - 1
      requires RocksInRange(stuckDraws.rocks, terrain.resolution) && |stuckDraws.radii| >= path.pointCount - 1
      modifies terrain.cells, path.radii, driver`vehicle, driver`modes, driver`state, driver`counts, driver`stats
      ensures Valid()
      ensures driver.counts.stuckCount == old(driver.counts.stuckCount) + (if reset then 1 else 0)
      ensures reset ==> !driver.state.stuck && driver.vehicle.speed == 0.0
      ensures !reset ==> !(driver.state.stuck && RelativeSpeed(driver.vehicle.speed, driver.vehicle.maxSpeed) < 0.001)
    {
      var _, _ := driver.Update(terrain, currentTime, elapsedTime, tick);
      if exited {
        RegenerateMap(exitDraws);
      }
      reset := CheckStuck(stuckDraws, sqrt);
    }
  }

  /** One step along a row of cell centers. */
  lemma NextColumn(xSize: real, zSize: real, res: int, i: int, j: int)
    requires res > 0
    ensures Add(FencePoint(xSize, zSize, res, i, j), Vec3(xSize / res as real, 0.0, 0.0)) ==
      FencePoint(xSize, zSize, res, i + 1, j)
  {
    var xs := xSize / res as real;
    assert (i + 1) as real * xs == i as real * xs + xs;
  }

  /** From just past the end of a row back to the start of the next. */
  lemma NextRow(xSize: real, zSize: real, res: int, j: int)
    requires res > 0
    ensures Add(FencePoint(xSize, zSize, res, res, j), Vec3(-xSize, 0.0, zSize / res as real)) ==
      FencePoint(xSize, zSize, res, 0, j + 1)
  {
    var xs := xSize / res as real;
    var zs := zSize / res as real;
    assert res as real * xs == xSize;
    assert (j + 1) as real * zs == j as real * zs + zs;
  }
}
