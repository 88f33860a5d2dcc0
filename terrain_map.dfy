// The map-driving demo's occupancy grid: a square grid of boolean cells laid
// over a rectangle of the XZ plane, with world-space lookup and scans.
module TerrainMaps {
  import opened Vectors
  import opened Utilities
  import opened Options

  /** Row-major address of cell (i, j): i + j * resolution. */
  function MapAddress(i: int, j: int, resolution: int): int
  {
    i + j * resolution
  }

  lemma {:induction false} MulMonotone(a: int, b: int, r: int)
    requires a <= b && r >= 0
    ensures a * r <= b * r
    decreases b - a
  {
    if a < b {
      MulMonotone(a + 1, b, r);
      assert (a + 1) * r == a * r + r;
    }
  }

  /** Every cell of the grid has an address inside the r*r array. */
  lemma MapAddressInRange(i: int, j: int, r: int)
    requires 0 <= i < r && 0 <= j < r
    ensures 0 <= MapAddress(i, j, r) < r * r
  {
    MulMonotone(0, j, r);
    MulMonotone(j + 1, r, r);
    assert (j + 1) * r == j * r + r;
  }

  /** Distinct cells have distinct addresses. */
  lemma MapAddressInjective(i1: int, j1: int, i2: int, j2: int, r: int)
    requires 0 <= i1 < r && 0 <= j1 < r && 0 <= i2 < r && 0 <= j2 < r
    requires MapAddress(i1, j1, r) == MapAddress(i2, j2, r)
    ensures i1 == i2 && j1 == j2
  {
    if j1 < j2 {
      assert (j1 + 1) * r == j1 * r + r;
      MulMonotone(j1 + 1, j2, r);
    } else if j2 < j1 {
      assert (j2 + 1) * r == j2 * r + r;
      MulMonotone(j2 + 1, j1, r);
    }
  }

  // ------------------------------------------------------------ world -> cell

  /** The column (or row) index GetMapValue computes for a coordinate v of a
      map whose half extent on that axis is `half`, as written:
      (int) RemapInterval(v, -half, +half, 0, resolution). */
  function CellIndexAsWritten(v: real, half: real, resolution: int): int
    requires half > 0.0
  {
    Trunc(RemapInterval(v, -half, half, 0.0, resolution as real))
  }

  /** Remapping [-half, half] onto [0, resolution]: the bounds, the end
      points, and the scale back to the extent. */
  lemma RemapToCells(v: real, half: real, resolution: int)
    requires half > 0.0 && resolution > 0 && -half <= v <= half
    ensures var x := RemapInterval(v, -half, half, 0.0, resolution as real);
      && 0.0 <= x <= resolution as real
      && (v == half ==> x == resolution as real)
      && (v == -half ==> x == 0.0)
      && (v < half ==> x < resolution as real)
      && x * ((half + half) / resolution as real) == v + half
  {
    var r := resolution as real;
    var w := half + half;
    var t := (v - -half) / (half - -half);
    FractionBounds(v - -half, half - -half);
    var x := RemapInterval(v, -half, half, 0.0, r);
    assert x == t * r;
    assert x <= r by {
      MulLe(t, 1.0, r);
    }
    assert x >= 0.0 by {
      MulLe(0.0, t, r);
    }
    assert v < half ==> x < r by {
      if v < half {
        MulLt(t, 1.0, r);
      }
    }
    assert x * (w / r) == v + half by {
      assert t * w == v + half;
      assert x * (w / r) == t * w;
    }
  }

  /** For in-extent coordinates the index as written lies in [0, resolution],
      and it is resolution exactly on the + edge: one past the last cell. */
  lemma CellIndexAsWrittenRange(v: real, half: real, resolution: int)
    requires half > 0.0 && resolution > 0 && -half <= v <= half
    ensures 0 <= CellIndexAsWritten(v, half, resolution) <= resolution
    ensures v == half ==> CellIndexAsWritten(v, half, resolution) == resolution
    ensures v == -half ==> CellIndexAsWritten(v, half, resolution) == 0
    ensures v < half ==> CellIndexAsWritten(v, half, resolution) < resolution
  {
    RemapToCells(v, half, resolution);
  }

  /** Below the + edge, the index as written is the cell whose slab
      [-half + i * w, -half + (i + 1) * w), w = 2 * half / resolution,
      holds v. */
  lemma CellIndexContains(v: real, half: real, resolution: int)
    requires half > 0.0 && resolution > 0 && -half <= v < half
    ensures var i := CellIndexAsWritten(v, half, resolution);
      (i as real) * ((half + half) / resolution as real) <= v + half <
      ((i + 1) as real) * ((half + half) / resolution as real)
  {
    RemapToCells(v, half, resolution);
    var i := CellIndexAsWritten(v, half, resolution);
    var x := RemapInterval(v, -half, half, 0.0, resolution as real);
    var c := (half + half) / resolution as real;
    assert (i as real) <= x < (i as real) + 1.0;
    assert (i as real) * c <= v + half by {
      MulLe(i as real, x, c);
    }
    assert v + half < ((i + 1) as real) * c by {
      var j := (i + 1) as real;
      assert x < j;
      MulLt(x, j, c);
      assert x * c < j * c;
      assert x * c == v + half;
    }
  }

  /** The index with the + edge folded into the last cell. */
  function CellIndex(v: real, half: real, resolution: int): (i: int)
    requires half > 0.0 && resolution > 0 && -half <= v <= half
    ensures 0 <= i < resolution
    ensures v < half ==> i == CellIndexAsWritten(v, half, resolution)
    ensures v == half ==> i == resolution - 1
  {
    CellIndexAsWrittenRange(v, half, resolution);
    var i := CellIndexAsWritten(v, half, resolution);
    if i >= resolution then resolution - 1 else i
  }

  /** A coordinate of the XZ offset that is outside [-half, +half]. */
  predicate Outside(x: real, z: real, hxs: real, hzs: real)
  {
    x > hxs || x < -hxs || z > hzs || z < -hzs
  }

  /** The k-th sample of a scan that starts at `start` and steps by `spacing`. */
  function SampleAt(start: real, spacing: real, k: int): real
  {
    start + (k as real) * spacing
  }

  /** The point reached after k steps of `step` from `origin`. */
  function RayPoint(origin: Vec3, step: Vec3, k: nat): Vec3
  {
    if k == 0 then origin else Add(RayPoint(origin, step, k - 1), step)
  }

  class TerrainMap {
    const center: Vec3
    const xSize: real
    const zSize: real
    const resolution: int
    var outsideValue: bool
    const cells: array<bool>

    ghost predicate Valid()
      reads this
    {
      resolution > 0 && xSize > 0.0 && zSize > 0.0 && cells.Length == resolution * resolution
    }

    /** Every cell false. */
    ghost predicate AllClear()
      reads this, cells
      requires Valid()
    {
      forall i, j | 0 <= i < resolution && 0 <= j < resolution :: !GetMapBit(i, j)
    }

    constructor (c: Vec3, x: real, z: real, r: int)
      requires x > 0.0 && z > 0.0 && r > 0
      ensures Valid() && fresh(cells)
      ensures center == c && xSize == x && zSize == z && resolution == r
      ensures !outsideValue
      ensures AllClear()
    {
      center := c;
      xSize := x;
      zSize := z;
      resolution := r;
      outsideValue := false;
      var m := new bool[r * r];
      var k := 0;
      while k < r * r
        invariant 0 <= k <= r * r
        invariant forall k' | 0 <= k' < k :: !m[k']
      {
        m[k] := false;
        k := k + 1;
      }
      cells := m;
      new;
      forall i, j | 0 <= i < resolution && 0 <= j < resolution
        ensures !GetMapBit(i, j)
      {
        MapAddressInRange(i, j, resolution);
      }
    }

    /** GetMapBit: the cell (i, j), stored at address i + j * resolution. */
    function GetMapBit(i: int, j: int): bool
      reads this, cells
      requires Valid() && 0 <= i < resolution && 0 <= j < resolution
    {
      MapAddressInRange(i, j, resolution);
      cells[MapAddress(i, j, resolution)]
    }

    /** SetMapBit: writes cell (i, j), leaves every other cell alone and
        returns the value written. */
    method SetMapBit(i: int, j: int, value: bool) returns (written: bool)
      requires Valid() && 0 <= i < resolution && 0 <= j < resolution
      modifies cells
      ensures written == value
      ensures GetMapBit(i, j) == value
      ensures forall i', j' | 0 <= i' < resolution && 0 <= j' < resolution && (i' != i || j' != j) ::
        GetMapBit(i', j') == old(GetMapBit(i', j'))
    {
      MapAddressInRange(i, j, resolution);
      cells[MapAddress(i, j, resolution)] := value;
      written := value;
      forall i', j' | 0 <= i' < resolution && 0 <= j' < resolution && (i' != i || j' != j)
        ensures GetMapBit(i', j') == old(GetMapBit(i', j'))
      {
        MapAddressInRange(i', j', resolution);
        if MapAddress(i', j', resolution) == MapAddress(i, j, resolution) {
          MapAddressInjective(i', j', i, j, resolution);
        }
      }
    }

    /** Clear: every cell becomes false. */
    method Clear()
      requires Valid()
      modifies cells
      ensures AllClear()
    {
      var i := 0;
      while i < resolution
        invariant 0 <= i <= resolution
        invariant forall i', j' | 0 <= i' < i && 0 <= j' < resolution :: !GetMapBit(i', j')
      {
        var j := 0;
        while j < resolution
          invariant 0 <= j <= resolution
          invariant forall i', j' | 0 <= i' < i && 0 <= j' < resolution :: !GetMapBit(i', j')
          invariant forall j' | 0 <= j' < j :: !GetMapBit(i, j')
        {
          var _ := SetMapBit(i, j, false);
          j := j + 1;
        }
        i := i + 1;
      }
    }

    /** GetMapValue as written: None stands for the IndexOutOfRangeException
        the array access throws. */
    function GetMapValueAsWritten(point: Vec3): Option<bool>
      reads this, cells
      requires Valid()
    {
      var local := SetYToZero(Sub(point, center));
      var hxs, hzs := xSize / 2.0, zSize / 2.0;
      if Outside(local.x, local.z, hxs, hzs) then Some(outsideValue)
      else
        var address := MapAddress(CellIndexAsWritten(local.x, hxs, resolution),
                                  CellIndexAsWritten(local.z, hzs, resolution), resolution);
        if 0 <= address < cells.Length then Some(cells[address]) else None
    }

    /** GetMapValue: outsideValue off the map, otherwise the cell under the
        point, the + edges belonging to the last column and row. */
    function GetMapValue(point: Vec3): bool
      reads this, cells
      requires Valid()
    {
      var local := SetYToZero(Sub(point, center));
      var hxs, hzs := xSize / 2.0, zSize / 2.0;
      if Outside(local.x, local.z, hxs, hzs) then outsideValue
      else
        var i := CellIndex(local.x, hxs, resolution);
        var j := CellIndex(local.z, hzs, resolution);
        GetMapBit(i, j)
    }

    /** Off the map GetMapValue answers outsideValue; the height of the point
        plays no part; and away from the + edges it agrees with the code as
        written. */
    lemma GetMapValueProperties(point: Vec3, y: real)
      requires Valid()
      ensures Outside(point.x - center.x, point.z - center.z, xSize / 2.0, zSize / 2.0) ==>
        GetMapValue(point) == outsideValue
      ensures GetMapValue(Vec3(point.x, y, point.z)) == GetMapValue(point)
      ensures point.x - center.x < xSize / 2.0 && point.z - center.z < zSize / 2.0 ==>
        GetMapValueAsWritten(point) == Some(GetMapValue(point))
    {
      var local := SetYToZero(Sub(point, center));
      var hxs, hzs := xSize / 2.0, zSize / 2.0;
      if !Outside(local.x, local.z, hxs, hzs) && local.x < hxs && local.z < hzs {
        MapAddressInRange(CellIndex(local.x, hxs, resolution), CellIndex(local.z, hzs, resolution), resolution);
      }
    }

    /** As written, the point on the +x edge at the -z corner reads the
        first cell of the second row instead of the last cell of the first. */
    lemma AsWrittenPlusXEdgeReadsNextRow()
      requires Valid() && resolution >= 2
      ensures GetMapValueAsWritten(Add(center, Vec3(xSize / 2.0, 0.0, -(zSize / 2.0)))) == Some(GetMapBit(0, 1))
      ensures GetMapValue(Add(center, Vec3(xSize / 2.0, 0.0, -(zSize / 2.0)))) == GetMapBit(resolution - 1, 0)
    {
      var hxs, hzs := xSize / 2.0, zSize / 2.0;
      var p := Add(center, Vec3(hxs, 0.0, -hzs));
      assert SetYToZero(Sub(p, center)) == Vec3(hxs, 0.0, -hzs);
      assert !Outside(hxs, -hzs, hxs, hzs);
      CellIndexAsWrittenRange(hxs, hxs, resolution);
      CellIndexAsWrittenRange(-hzs, hzs, resolution);
      assert CellIndex(hxs, hxs, resolution) == resolution - 1;
      assert CellIndex(-hzs, hzs, resolution) == 0;
      MapAddressInRange(0, 1, resolution);
      assert MapAddress(resolution, 0, resolution) == MapAddress(0, 1, resolution);
    }

    /** As written, the (+x, +z) corner of the map addresses one past the
        end of the array: the lookup throws. */
    lemma AsWrittenFarCornerOutOfRange()
      requires Valid()
      ensures GetMapValueAsWritten(Add(center, Vec3(xSize / 2.0, 0.0, zSize / 2.0))) == None
    {
      var hxs, hzs := xSize / 2.0, zSize / 2.0;
      CellIndexAsWrittenRange(hxs, hxs, resolution);
      CellIndexAsWrittenRange(hzs, hzs, resolution);
      assert MapAddress(resolution, resolution - 1, resolution) == resolution * resolution;
    }

    /** IsPassable is the negation of GetMapValue. */
    function IsPassable(point: Vec3): bool
      reads this, cells
      requires Valid()
    {
      !GetMapValue(point)
    }

    /** MinSpacing: the smaller cell side. */
    function MinSpacing(): (s: real)
      reads this
      requires Valid()
      ensures s > 0.0
      ensures s <= xSize / resolution as real && s <= zSize / resolution as real
    {
      MinR(xSize, zSize) / resolution as real
    }

    /** The step of ScanLocalXZRectangle: half the smaller cell side. */
    function ScanSpacing(): (s: real)
      reads this
      requires Valid()
      ensures 0.0 < s < MinSpacing()
    {
      MinSpacing() / 2.0
    }

    /** ScanXZray: the index of the first of samples 1..sampleCount that is
        blocked, or 0 when none is. */
    method ScanXZray(origin: Vec3, sampleSpacing: Vec3, sampleCount: int) returns (hit: int)
      requires Valid()
      ensures 0 <= hit && hit <= (if sampleCount < 0 then 0 else sampleCount)
      ensures hit == 0 ==>
        forall k: nat | 1 <= k <= sampleCount :: !GetMapValue(RayPoint(origin, sampleSpacing, k))
      ensures (forall k: nat | 1 <= k <= sampleCount :: !GetMapValue(RayPoint(origin, sampleSpacing, k))) ==> hit == 0
      ensures hit > 0 ==> GetMapValue(RayPoint(origin, sampleSpacing, hit))
      ensures forall k: nat | 1 <= k < hit :: !GetMapValue(RayPoint(origin, sampleSpacing, k))
    {
      var samplePoint := origin;
      var i := 1;
      while i <= sampleCount
        invariant 1 <= i && (sampleCount >= 0 ==> i <= sampleCount + 1)
        invariant samplePoint == RayPoint(origin, sampleSpacing, i - 1)
        invariant forall k: nat | 1 <= k < i :: !GetMapValue(RayPoint(origin, sampleSpacing, k))
      {
        samplePoint := Add(samplePoint, sampleSpacing);
        if GetMapValue(samplePoint) {
          assert GetMapValue(RayPoint(origin, sampleSpacing, i));
          return i;
        }
        i := i + 1;
      }
      return 0;
    }

    /** Whether the sample (kx, kz) of a local rectangle scan is blocked. */
    ghost predicate RectangleSampleBlocked(globalize: Vec3 -> Vec3, xMin: real, zMin: real, spacing: real,
                                           kx: int, kz: int)
      reads this, cells
      requires Valid()
    {
      GetMapValue(globalize(Vec3(SampleAt(xMin, spacing, kx), 0.0, SampleAt(zMin, spacing, kz))))
    }

    /** Whether some sample of the local rectangle [xMin, xMax) x [zMin, zMax),
        taken every half MinSpacing, is blocked. */
    ghost predicate RectangleBlocked(globalize: Vec3 -> Vec3, xMin: real, xMax: real, zMin: real, zMax: real)
      reads this, cells
      requires Valid()
    {
      exists kx: nat, kz: nat ::
        SampleAt(xMin, ScanSpacing(), kx) < xMax && SampleAt(zMin, ScanSpacing(), kz) < zMax &&
        RectangleSampleBlocked(globalize, xMin, zMin, ScanSpacing(), kx, kz)
    }

    /** ScanLocalXZRectangle: whether any sample of the local rectangle
        [xMin, xMax) x [zMin, zMax), taken every half MinSpacing, is blocked.
        `globalize` is the vehicle's local-to-global transform. */
    method ScanLocalXZRectangle(globalize: Vec3 -> Vec3, xMin: real, xMax: real, zMin: real, zMax: real)
      returns (blocked: bool)
      requires Valid()
      ensures blocked <==> RectangleBlocked(globalize, xMin, xMax, zMin, zMax)
    {
      var spacing := ScanSpacing();
      var xBound := ((xMax - xMin) / spacing).Floor + 1;
      var zBound := ((zMax - zMin) / spacing).Floor + 1;
      var x := xMin;
      var kx: nat := 0;
      while x < xMax
        invariant x == SampleAt(xMin, spacing, kx)
        invariant forall kx': nat, kz': nat | kx' < kx && SampleAt(zMin, spacing, kz') < zMax ::
          !RectangleSampleBlocked(globalize, xMin, zMin, spacing, kx', kz')
        decreases xBound - kx
      {
        StepBound(kx, spacing, xMin, xMax);
        var z := zMin;
        var kz: nat := 0;
        while z < zMax
          invariant z == SampleAt(zMin, spacing, kz)
          invariant forall kz': nat | kz' < kz :: !RectangleSampleBlocked(globalize, xMin, zMin, spacing, kx, kz')
          decreases zBound - kz
        {
          StepBound(kz, spacing, zMin, zMax);
          var sample := Vec3(x, 0.0, z);
          if GetMapValue(globalize(sample)) {
            assert RectangleSampleBlocked(globalize, xMin, zMin, spacing, kx, kz);
            return true;
          }
          z := z + spacing;
          kz := kz + 1;
        }
        forall kz': nat | SampleAt(zMin, spacing, kz') < zMax
          ensures !RectangleSampleBlocked(globalize, xMin, zMin, spacing, kx, kz')
        {
          if kz' >= kz {
            SampleMonotone(zMin, spacing, kz, kz');
          }
        }
        x := x + spacing;
        kx := kx + 1;
      }
      forall kx': nat, kz': nat | SampleAt(xMin, spacing, kx') < xMax && SampleAt(zMin, spacing, kz') < zMax
        ensures !RectangleSampleBlocked(globalize, xMin, zMin, spacing, kx', kz')
      {
        if kx' >= kx {
          SampleMonotone(xMin, spacing, kx, kx');
        }
      }
      return false;
    }
  }

  /** While the k-th sample is below the end, k is below the loop's bound. */
  lemma StepBound(k: nat, spacing: real, start: real, end: real)
    requires spacing > 0.0 && SampleAt(start, spacing, k) < end
    ensures k < ((end - start) / spacing).Floor + 1
    ensures SampleAt(start, spacing, k) + spacing == SampleAt(start, spacing, k + 1)
  {
    assert (k as real) * spacing < end - start;
    assert (k as real) < (end - start) / spacing;
  }

  /** Later samples lie further along. */
  lemma SampleMonotone(start: real, spacing: real, k: int, k': int)
    requires spacing > 0.0 && k <= k'
    ensures SampleAt(start, spacing, k) <= SampleAt(start, spacing, k')
  {
    assert (k' as real) * spacing - (k as real) * spacing == ((k' - k) as real) * spacing;
  }

  /** An empty rectangle (xMin >= xMax) has no samples, so nothing to hit. */
  lemma EmptyRectangleHasNoSamples(xMin: real, xMax: real, spacing: real, kx: nat)
    requires spacing > 0.0 && xMin >= xMax
    ensures SampleAt(xMin, spacing, kx) >= xMax
  {
    SampleMonotone(xMin, spacing, 0, kx);
  }
}
