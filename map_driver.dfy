// The map-driving vehicle: the arc scan across the obstacle map, the
// obstacle-avoidance scan of corridor and wings with its decision, the
// per-tick update with its stuck detection, and the reliability statistics.
//
// The vehicle's kinematics (SimpleVehicle) and the steering library are not
// part of this model: what one tick learns from them arrives as a `Tick`
// value, and the results of the per-lane and wing map scans arrive as
// `Sensors`: inputs the model does not tie to ScanXZray or ScanObstacleMap,
// nor to the lane offsets and the truncation of a scan distance into a
// sample count that produce them.
module MapDrivers {
  import opened Options
  import opened Vectors
  import opened Utilities
  import opened TerrainMaps
  import opened MapDriverRules

  /** The side of the square world, in meters. */
  const WorldSize: real := 200.0

  // ================================================================ arc scan

  /** The inputs of one ScanObstacleMap call: start point, center of
      curvature, number of segments, radius change at the end of a spiral
      ramp, sine and cosine of the per-segment angle, and the start radius
      (|start - center| on a ramp, 0 on a circular arc). */
  datatype Arc = Arc(start: Vec3, center: Vec3, segments: int, endRadiusChange: real,
                     stepSin: real, stepCos: real, startRadius: real)

  /** A ramp needs a positive start radius to divide by. */
  predicate ArcValid(arc: Arc)
  {
    arc.endRadiusChange != 0.0 ==> arc.startRadius > 0.0
  }

  /** The number of segments the scan's for-loop runs. */
  function Steps(segments: int): nat
  {
    if segments < 0 then 0 else segments
  }

  /** The spoke from the center after k rotations by the segment angle. */
  function Spoke(arc: Arc, k: nat): Vec3
  {
    if k == 0 then Sub(arc.start, arc.center)
    else RotateAboutGlobalY(Spoke(arc, k - 1), arc.stepSin, arc.stepCos)
  }

  /** The radius factor of sample i: 1 on a circular arc; on a spiral ramp it
      goes linearly from 1 toward max(0, startRadius + endRadiusChange) /
      startRadius, reached at the last sample. */
  function RadiusAdjust(arc: Arc, i: nat): real
    requires ArcValid(arc) && arc.segments > 0
  {
    if arc.endRadiusChange == 0.0 then 1.0
    else Interpolate((i + 1) as real / arc.segments as real, 1.0,
                     MaxR(0.0, arc.startRadius + arc.endRadiusChange) / arc.startRadius)
  }

  /** Sample i of the scan: the center plus the (i+1)-times rotated spoke,
      stretched by the radius factor. */
  function ArcPoint(arc: Arc, i: nat): Vec3
    requires ArcValid(arc) && arc.segments > 0
  {
    Add(arc.center, Scale(Spoke(arc, i + 1), RadiusAdjust(arc, i)))
  }

  /** The point before sample i: the start for the first sample. */
  function PreviousArcPoint(arc: Arc, i: nat): Vec3
    requires ArcValid(arc) && arc.segments > 0
  {
    if i == 0 then arc.start else ArcPoint(arc, i - 1)
  }

  /** The distance reported for a first hit at sample i: the length of the
      chord that reached it times the number of samples taken. */
  function HitDistance(arc: Arc, i: nat, sqrt: real -> real): real
    requires ArcValid(arc) && arc.segments > 0
  {
    Length(Sub(ArcPoint(arc, i), PreviousArcPoint(arc, i)), sqrt) * 2.0 * 0.5 * (i + 1) as real
  }

  /** The first of samples 0..n-1 that is not passable, if any. */
  function FirstBlocked(terrain: TerrainMap, arc: Arc, n: nat): Option<nat>
    reads terrain, terrain.cells
    requires terrain.Valid() && ArcValid(arc) && (n == 0 || n <= arc.segments)
  {
    if n == 0 then None
    else
      var earlier := FirstBlocked(terrain, arc, n - 1);
      if earlier.Some? then earlier
      else if !terrain.IsPassable(ArcPoint(arc, n - 1)) then Some(n - 1)
      else None
  }

  /** FirstBlocked finds exactly the first impassable sample. */
  lemma {:induction false} FirstBlockedIsFirst(terrain: TerrainMap, arc: Arc, n: nat)
    requires terrain.Valid() && ArcValid(arc) && (n == 0 || n <= arc.segments)
    ensures FirstBlocked(terrain, arc, n).None? <==> forall k: nat | k < n :: terrain.IsPassable(ArcPoint(arc, k))
    ensures FirstBlocked(terrain, arc, n).Some? ==>
      var h := FirstBlocked(terrain, arc, n).value;
      && h < n
      && !terrain.IsPassable(ArcPoint(arc, h))
      && forall k: nat | k < h :: terrain.IsPassable(ArcPoint(arc, k))
  {
    if n > 0 {
      FirstBlockedIsFirst(terrain, arc, n - 1);
    }
  }

  /** One segment of ScanObstacleMap: rotates the spoke (filling the cached
      sine and cosine on the first call), places sample i, and measures the
      distance a hit there would report. */
  method ArcSample(arc: Arc, i: nat, spoke: Vec3, sin: real, cos: real, oldPoint: Vec3, sqrt: real -> real)
    returns (spoke': Vec3, sin': real, cos': real, newPoint: Vec3, distance: real)
    requires ArcValid(arc) && i < arc.segments
    requires spoke == Spoke(arc, i) && oldPoint == PreviousArcPoint(arc, i)
    requires (sin == 0.0 && cos == 0.0) || (sin == arc.stepSin && cos == arc.stepCos)
    ensures spoke' == Spoke(arc, i + 1) && sin' == arc.stepSin && cos' == arc.stepCos
    ensures newPoint == ArcPoint(arc, i)
    ensures distance == HitDistance(arc, i, sqrt)
  {
    var rotated := RotateAboutGlobalYCached(spoke, arc.stepSin, arc.stepCos, sin, cos);
    spoke', sin', cos' := rotated.0, rotated.1, rotated.2;
    var adjust := RadiusAdjust(arc, i);
    newPoint := Add(arc.center, Scale(spoke', adjust));
    var offset := Sub(newPoint, oldPoint);
    var d2 := Length(offset, sqrt) * 2.0;
    distance := d2 * 0.5 * (i + 1) as real;
  }

  /** ScanObstacleMap (a MapDriver method that reads only the map): walks
      `segments` chords along an arc (or a spiral ramp) around `center` and
      reports the distance to, and position of, the first sample that is
      not passable; zero and the zero vector when every sample is. The hit
      is never overwritten by later samples. */
  method ScanObstacleMap(terrain: TerrainMap, start: Vec3, center: Vec3, segments: int, endRadiusChange: real,
                         stepSin: real, stepCos: real, sqrt: real -> real)
    returns (obstacleDistance: real, obstaclePosition: Vec3)
    requires terrain.Valid() && IsSqrt(sqrt)
    requires endRadiusChange != 0.0 ==> LengthSquared(Sub(start, center)) > 0.0
    ensures var arc := Arc(start, center, segments, endRadiusChange, stepSin, stepCos,
                           if endRadiusChange == 0.0 then 0.0 else Length(Sub(start, center), sqrt));
      && ArcValid(arc)
      && match FirstBlocked(terrain, arc, Steps(segments))
         case None => obstacleDistance == 0.0 && obstaclePosition == Zero
         case Some(h) => obstacleDistance == HitDistance(arc, h, sqrt) && obstaclePosition == ArcPoint(arc, h)
  {
    var spoke := Sub(start, center);
    obstacleDistance := 0.0;
    obstaclePosition := Zero;
    var startRadius := if endRadiusChange == 0.0 then 0.0 else Length(spoke, sqrt);
    if endRadiusChange != 0.0 {
      LengthIsRoot(spoke, sqrt);
    }
    var arc := Arc(start, center, segments, endRadiusChange, stepSin, stepCos, startRadius);
    var sin, cos := 0.0, 0.0;
    var oldPoint := start;
    var obstacleFound := false;
    ghost var hit: Option<nat> := None;
    var i := 0;
    while i < segments
      invariant 0 <= i <= Steps(segments)
      invariant spoke == Spoke(arc, i)
      invariant (sin == 0.0 && cos == 0.0) || (sin == stepSin && cos == stepCos)
      invariant i < segments ==> oldPoint == PreviousArcPoint(arc, i)
      invariant hit == FirstBlocked(terrain, arc, i)
      invariant obstacleFound == hit.Some?
      invariant hit.None? ==> obstacleDistance == 0.0 && obstaclePosition == Zero
      invariant hit.Some? ==> obstacleDistance == HitDistance(arc, hit.value, sqrt) &&
                              obstaclePosition == ArcPoint(arc, hit.value)
    {
      var newPoint, distance;
      spoke, sin, cos, newPoint, distance := ArcSample(arc, i, spoke, sin, cos, oldPoint, sqrt);
      if !obstacleFound {
        if !terrain.IsPassable(newPoint) {
          obstacleFound := true;
          obstacleDistance := distance;
          obstaclePosition := newPoint;
          hit := Some(i);
        }
      }
      oldPoint := newPoint;
      i := i + 1;
    }
  }

  // ================================================================ avoidance scan

  /** The map scans of one SteerToAvoidObstaclesOnMap call, in sample
      indices (0 for no hit): lane k of the corridor on the left and right
      side, the obstacle position each lane scan reports, and wing scan
      (i, j) for i in 1..4 and j = +1 (left) or -1 (right). */
  datatype Sensors = Sensors(laneL: int -> int, laneR: int -> int,
                             obstacleL: int -> Vec3, obstacleR: int -> Vec3,
                             wing: (int, int) -> int)

  /** The scans of lanes 0..n-1. */
  function LaneScans(scan: int -> int, n: nat): (s: seq<int>)
    ensures |s| == n
    ensures forall k | 0 <= k < n :: s[k] == scan(k)
  {
    if n == 0 then [] else LaneScans(scan, n - 1) + [scan(n - 1)]
  }

  /** The scans of wing side j at steps 1..n. */
  function WingScans(wing: (int, int) -> int, j: int, n: nat): (s: seq<int>)
    ensures |s| == n
    ensures forall k | 0 <= k < n :: s[k] == wing(k + 1, j)
  {
    if n == 0 then [] else WingScans(wing, j, n - 1) + [wing(n, j)]
  }

  /** The running "nearest obstacle" of a zone: starting at NoObstacle, a
      scan replaces it when positive and smaller. */
  function NearestPositive(scans: seq<int>): int
  {
    if |scans| == 0 then NoObstacle
    else
      var nearest := NearestPositive(scans[..|scans| - 1]);
      var scan := scans[|scans| - 1];
      if scan > 0 && scan < nearest then scan else nearest
  }

  lemma NearestPositiveAppend(scans: seq<int>, scan: int)
    ensures NearestPositive(scans + [scan]) ==
      (if scan > 0 && scan < NearestPositive(scans) then scan else NearestPositive(scans))
  {
    assert (scans + [scan])[..|scans|] == scans;
  }

  /** The nearest index is NoObstacle or one of the positive scans; it is
      no larger than any positive scan; and it stays NoObstacle exactly
      when no scan is a hit below the sentinel. */
  lemma {:induction false} NearestPositiveIsMinimum(scans: seq<int>)
    ensures 0 < NearestPositive(scans) <= NoObstacle
    ensures NearestPositive(scans) == NoObstacle || NearestPositive(scans) in scans
    ensures forall k | 0 <= k < |scans| && scans[k] > 0 :: NearestPositive(scans) <= scans[k]
    ensures NearestPositive(scans) == NoObstacle <==>
      forall k | 0 <= k < |scans| :: scans[k] <= 0 || scans[k] >= NoObstacle
  {
    if |scans| > 0 {
      var prefix := scans[..|scans| - 1];
      NearestPositiveIsMinimum(prefix);
      assert scans == prefix + [scans[|scans| - 1]];
      forall k | 0 <= k < |scans| - 1
        ensures scans[k] == prefix[k]
      {
      }
    }
  }

  /** The number of samples start + k*spacing, k = k0, k0+1, ..., below
      maxSide, plus k0. */
  function LanesFrom(start: real, spacing: real, maxSide: real, k: nat): nat
    requires spacing > 0.0
    decreases ((maxSide - start) / spacing).Floor + 1 - k
  {
    if SampleAt(start, spacing, k) < maxSide then
      StepBound(k, spacing, start, maxSide);
      LanesFrom(start, spacing, maxSide, k + 1)
    else k
  }

  /** The number of corridor lanes: lane k lies at side offset
      spacing/2 + k*spacing, and the lanes run out to the vehicle radius. */
  function LaneCount(spacing: real, maxSide: real): nat
    requires spacing > 0.0
  {
    LanesFrom(spacing / 2.0, spacing, maxSide, 0)
  }

  /** LanesFrom stops at the first sample that reaches maxSide. */
  lemma {:induction false} LanesFromBounds(start: real, spacing: real, maxSide: real, k: nat)
    requires spacing > 0.0
    ensures k <= LanesFrom(start, spacing, maxSide, k)
    ensures SampleAt(start, spacing, LanesFrom(start, spacing, maxSide, k)) >= maxSide
    ensures forall j: nat | k <= j < LanesFrom(start, spacing, maxSide, k) :: SampleAt(start, spacing, j) < maxSide
    decreases ((maxSide - start) / spacing).Floor + 1 - k
  {
    if SampleAt(start, spacing, k) < maxSide {
      StepBound(k, spacing, start, maxSide);
      LanesFromBounds(start, spacing, maxSide, k + 1);
    }
  }

  /** The state the corridor loop carries: the nearest left and right
      indices, the position of the nearest obstacle, and whether the
      vehicle is still only "just scraping". */
  datatype Corridor = Corridor(nearestL: int, nearestR: int, nearestObstacle: Vec3, scraping: bool)

  /** The corridor loop after lanes 0..n-1 of `lanes`. */
  function ScanCorridor(sensors: Sensors, lanes: nat, n: nat, curved: bool): Corridor
  {
    if n == 0 then Corridor(NoObstacle, NoObstacle, Zero, true)
    else
      var c := ScanCorridor(sensors, lanes, n - 1, curved);
      var k := n - 1;
      var L, R := sensors.laneL(k), sensors.laneR(k);
      var (nearestL, nearestR, obstacle) := NearerHits(c, L, R, sensors.obstacleL(k), sensors.obstacleR(k));
      var outermost := k + 1 >= lanes;
      Corridor(nearestL, nearestR, obstacle, c.scraping && !(curved && !outermost && (L > 0 || R > 0)))
  }

  /** One lane's hits folded into the nearest indices: a positive index
      below a side's nearest replaces it, and the obstacle position follows
      the hit that is nearest overall. */
  function NearerHits(c: Corridor, L: int, R: int, obstacleL: Vec3, obstacleR: Vec3): (int, int, Vec3)
  {
    var takeL := L > 0 && L < c.nearestL;
    var nearestL := if takeL then L else c.nearestL;
    var obstacle := if takeL && L < c.nearestR then obstacleL else c.nearestObstacle;
    var takeR := R > 0 && R < c.nearestR;
    var nearestR := if takeR then R else c.nearestR;
    (nearestL, nearestR, if takeR && R < nearestL then obstacleR else obstacle)
  }

  /** The hit bookkeeping of one corridor lane. */
  method ScanLaneHits(c: Corridor, L: int, R: int, obstacleL: Vec3, obstacleR: Vec3)
    returns (nearestL: int, nearestR: int, nearestO: Vec3)
    ensures (nearestL, nearestR, nearestO) == NearerHits(c, L, R, obstacleL, obstacleR)
  {
    nearestL, nearestR, nearestO := c.nearestL, c.nearestR, c.nearestObstacle;
    if L > 0 && L < nearestL {
      nearestL := L;
      if L < nearestR {
        nearestO := obstacleL;
      }
    }
    if R > 0 && R < nearestR {
      nearestR := R;
      if R < nearestL {
        nearestO := obstacleR;
      }
    }
  }

  /** The corridor's nearest indices are the NearestPositive of its lane
      scans; the obstacle position stays zero while both sides are clear;
      and with curved steering the vehicle is "just scraping" exactly when
      no lane but the outermost saw anything. */
  lemma {:induction false} CorridorIsNearest(sensors: Sensors, lanes: nat, n: nat, curved: bool)
    ensures ScanCorridor(sensors, lanes, n, curved).nearestL == NearestPositive(LaneScans(sensors.laneL, n))
    ensures ScanCorridor(sensors, lanes, n, curved).nearestR == NearestPositive(LaneScans(sensors.laneR, n))
    ensures var c := ScanCorridor(sensors, lanes, n, curved);
      c.nearestL == NoObstacle && c.nearestR == NoObstacle ==> c.nearestObstacle == Zero
    ensures ScanCorridor(sensors, lanes, n, curved).scraping <==>
      !curved || forall k | 0 <= k < n && k + 1 < lanes :: sensors.laneL(k) <= 0 && sensors.laneR(k) <= 0
  {
    if n > 0 {
      CorridorIsNearest(sensors, lanes, n - 1, curved);
      NearestPositiveAppend(LaneScans(sensors.laneL, n - 1), sensors.laneL(n - 1));
      NearestPositiveAppend(LaneScans(sensors.laneR, n - 1), sensors.laneR(n - 1));
      NearestPositiveIsMinimum(LaneScans(sensors.laneL, n - 1));
      NearestPositiveIsMinimum(LaneScans(sensors.laneR, n - 1));
    }
  }

  /** The four nearest indices the scan hands to the decision. */
  function AvoidScanOf(sensors: Sensors, lanes: nat, curved: bool): AvoidScan
  {
    var c := ScanCorridor(sensors, lanes, lanes, curved);
    AvoidScan(c.nearestL, c.nearestR,
              NearestPositive(WingScans(sensors.wing, 1, 4)), NearestPositive(WingScans(sensors.wing, -1, 4)))
  }

  /** The corridor loop of SteerToAvoidObstaclesOnMap: lanes at side
      offsets spacing/2, 3*spacing/2, ... below maxSide, each scanned on the
      left and the right, keeping the nearest hit of each side, the
      position of the nearest hit overall, and whether only the outermost
      lane saw anything (with curved steering). */
  method ScanCorridorLanes(spacing: real, maxSide: real, sensors: Sensors, curved: bool) returns (c: Corridor)
    requires spacing > 0.0
    ensures c == ScanCorridor(sensors, LaneCount(spacing, maxSide), LaneCount(spacing, maxSide), curved)
  {
    var s := spacing / 2.0;
    var nearestL, nearestR := NoObstacle, NoObstacle;
    var nearestO := Zero;
    var justScraping := true;
    ghost var lanes := LaneCount(spacing, maxSide);
    LanesFromBounds(spacing / 2.0, spacing, maxSide, 0);
    var k: nat := 0;
    while s < maxSide
      invariant k <= lanes
      invariant s == SampleAt(spacing / 2.0, spacing, k)
      invariant ScanCorridor(sensors, lanes, k, curved) == Corridor(nearestL, nearestR, nearestO, justScraping)
      decreases lanes - k
    {
      StepBound(k, spacing, spacing / 2.0, maxSide);
      s := s + spacing;
      var L := sensors.laneL(k);
      var R := sensors.laneR(k);
      nearestL, nearestR, nearestO := ScanLaneHits(Corridor(nearestL, nearestR, nearestO, justScraping), L, R,
                                                   sensors.obstacleL(k), sensors.obstacleR(k));
      if curved {
        var outermost := s >= maxSide;
        var eitherSide := L > 0 || R > 0;
        if !outermost && eitherSide {
          justScraping := false;
        }
      }
      k := k + 1;
    }
    c := Corridor(nearestL, nearestR, nearestO, justScraping);
  }

  /** The wing loop of SteerToAvoidObstaclesOnMap: four rays on each side
      (j = +1 left, j = -1 right), keeping the nearest hit of each side. */
  method ScanWings(sensors: Sensors) returns (nearestWL: int, nearestWR: int)
    ensures nearestWL == NearestPositive(WingScans(sensors.wing, 1, 4))
    ensures nearestWR == NearestPositive(WingScans(sensors.wing, -1, 4))
  {
    nearestWL, nearestWR := NoObstacle, NoObstacle;
    var i := 1;
    while i <= 4
      invariant 1 <= i <= 5
      invariant nearestWL == NearestPositive(WingScans(sensors.wing, 1, i - 1))
      invariant nearestWR == NearestPositive(WingScans(sensors.wing, -1, i - 1))
    {
      var j := -1;
      while j < 2
        invariant j == -1 || j == 1 || j == 3
        invariant nearestWR == NearestPositive(WingScans(sensors.wing, -1, if j == -1 then i - 1 else i))
        invariant nearestWL == NearestPositive(WingScans(sensors.wing, 1, if j == 3 then i else i - 1))
      {
        var scan := sensors.wing(i, j);
        if j == 1 {
          NearestPositiveAppend(WingScans(sensors.wing, 1, i - 1), scan);
          if scan > 0 && scan < nearestWL {
            nearestWL := scan;
          }
        } else {
          NearestPositiveAppend(WingScans(sensors.wing, -1, i - 1), scan);
          if scan > 0 && scan < nearestWR {
            nearestWR := scan;
          }
        }
        j := j + 2;
      }
      i := i + 1;
    }
  }

  /** The decision chain of SteerToAvoidObstaclesOnMap, clause by clause
      with early returns: the choice and whether a clause that consulted the
      hint decided it. */
  method DecideAvoidance(scan: AvoidScan, hintGiven: bool, hintDotSide: real, relativeSpeed: real,
                         maxSamples: int, curvature: real)
    returns (choice: SteerChoice, hintTaken: bool)
    ensures choice == DecideSteering(scan, hintGiven, hintDotSide, relativeSpeed, maxSamples, curvature)
    ensures hintTaken == HintTaken(scan, hintGiven, maxSamples, curvature)
  {
    var obstacleFreeC := scan.nearestL == NoObstacle && scan.nearestR == NoObstacle;
    var obstacleFreeL := scan.nearestL == NoObstacle && scan.nearestWL == NoObstacle;
    var obstacleFreeR := scan.nearestR == NoObstacle && scan.nearestWR == NoObstacle;
    var obstacleFreeWL := scan.nearestWL == NoObstacle;
    var obstacleFreeWR := scan.nearestWR == NoObstacle;
    var obstacleFreeW := obstacleFreeWL && obstacleFreeWR;
    var hintChoice := if hintDotSide > 0.0 then TowardSide else AwayFromSide;
    hintTaken := false;
    if obstacleFreeC {
      if obstacleFreeWL || obstacleFreeWR || relativeSpeed < 0.7 {
        return NoSteering, false;
      } else {
        return Brake, false;
      }
    }
    if hintGiven && MinR(scan.nearestL as real, scan.nearestR as real) > maxSamples as real * 0.8 {
      return hintChoice, true;
    }
    if Abs(curvature) > 1.0 / (MinimumTurningRadius * 1.2) {
      return if CurvatureSign(curvature) == 1.0 then TowardSide else AwayFromSide, false;
    }
    if obstacleFreeL {
      return TowardSide, false;
    }
    if obstacleFreeR {
      return AwayFromSide, false;
    }
    if obstacleFreeW {
      var same := Abs((scan.nearestL - scan.nearestR) as real) < 5.0;
      if same && hintGiven {
        return hintChoice, true;
      } else {
        return if scan.nearestL > scan.nearestR then TowardSide else AwayFromSide, false;
      }
    }
    var equallyClear := Abs((scan.nearestWL - scan.nearestWR) as real) < 2.0;
    if equallyClear && hintGiven {
      return hintChoice, true;
    }
    return if scan.nearestWL > scan.nearestWR then TowardSide else AwayFromSide, false;
  }

  /** What one avoidance scan decides and records: the choice, the nearest
      corridor obstacle (zero when the corridor is clear), the "just
      scraping" flag, and whether the hint decided the choice. */
  datatype AvoidanceResult =
    AvoidanceResult(choice: SteerChoice, nearestObstacle: Vec3, scraping: bool, hintTaken: bool)

  /** How many whole map samples fit in the distance covered in
      `minTimeToCollision` at `speed`: the forward reach of the scan. */
  function ForwardSamples(minTimeToCollision: real, speed: real, spacing: real): int
    requires spacing > 0.0
  {
    Trunc(minTimeToCollision * speed / spacing)
  }

  /** The avoidance scan of SteerToAvoidObstaclesOnMap over its inputs. */
  function Avoidance(sensors: Sensors, spacing: real, maxSide: real, maxSamples: int, hint: Vec3, side: Vec3,
                     relativeSpeed: real, curvature: real, curved: bool): AvoidanceResult
    requires spacing > 0.0
  {
    var lanes := LaneCount(spacing, maxSide);
    var corridor := ScanCorridor(sensors, lanes, lanes, curved);
    var scan := AvoidScanOf(sensors, lanes, curved);
    AvoidanceResult(
      DecideSteering(scan, hint != Zero, Dot(hint, side), relativeSpeed, maxSamples, curvature),
      if CorridorClear(scan) then Zero else corridor.nearestObstacle,
      corridor.scraping && !(curved && scan.nearestWL != NoObstacle && scan.nearestWR != NoObstacle),
      HintTaken(scan, hint != Zero, maxSamples, curvature))
  }

  /** The scanning and deciding body of SteerToAvoidObstaclesOnMap: the
      corridor lanes, then the wings, then the decision chain. */
  method AvoidObstacles(sensors: Sensors, spacing: real, maxSide: real, maxSamples: int, hint: Vec3, side: Vec3,
                        relativeSpeed: real, curvature: real, curved: bool)
    returns (a: AvoidanceResult)
    requires spacing > 0.0
    ensures a == Avoidance(sensors, spacing, maxSide, maxSamples, hint, side, relativeSpeed, curvature, curved)
  {
    var corridor := ScanCorridorLanes(spacing, maxSide, sensors, curved);
    var nearestWL, nearestWR := ScanWings(sensors);
    var scan := AvoidScan(corridor.nearestL, corridor.nearestR, nearestWL, nearestWR);
    var scraping := corridor.scraping && !(curved && nearestWL != NoObstacle && nearestWR != NoObstacle);
    var choice, hintTaken :=
      DecideAvoidance(scan, hint != Zero, Dot(hint, side), relativeSpeed, maxSamples, curvature);
    var nearestObstacle := if CorridorClear(scan) then Zero else corridor.nearestObstacle;
    a := AvoidanceResult(choice, nearestObstacle, scraping, hintTaken);
  }

  // ================================================================ update

  /** What one Update tick learns from code outside this model. */
  datatype Tick = Tick(
    offPath: bool,                      // the body is not inside the path
    imminentCollision: bool,            // DetectImminentCollision
    hint: Vec3,                         // HintForObstacleAvoidance
    sensors: Sensors,                   // the avoidance scans
    forward: Vec3, side: Vec3,          // the vehicle's local frame
    curvature: real,                    // the vehicle's path curvature
    parallelness: real,                 // path heading . Forward
    targetSpeedSteering: real -> Vec3,  // SteerForTargetSpeed
    wander: Vec3,                       // SteerForWander (demo 1)
    pathSteering: Vec3,                 // SteerToFollowPath (demo 2)
    headingSteering: Vec3,              // SteerTowardHeading of the path heading (demo 2)
    nearWaypoint: bool,                 // the route's NearWaypoint
    curvedSpace: Vec3 -> Vec3,          // ConvertLinearToCurvedSpaceGlobal
    speedAfter: real,                   // Speed once the force is applied
    collision: bool,                    // the body rectangle touches an obstacle after the move
    insidePathAfter: bool,              // the body is inside the path after the move
    circles: bool,                      // WeAreGoingInCircles
    sqrt: real -> real)

  /** The absolute steering of a tick that is not stuck: an avoidance turn
      weighted by speed plus the target-speed term, or else the cruise
      steering with the demo's wander or path-following term. */
  function AbsoluteSteering(tick: Tick, avoid: Vec3, justScraping: bool, curvedSteering: bool, demoSelect: int,
                            relativeSpeed: real, maxSpeed: real, maxForce: real): Vec3
    requires IsSqrt(tick.sqrt) && maxSpeed >= 0.0
  {
    var cruiseSpeed := MaxSpeedForCurvature(maxSpeed, curvedSteering, demoSelect, tick.curvature,
                                            tick.parallelness, tick.sqrt);
    if avoid != Zero then
      var targetSpeed := if curvedSteering && justScraping then cruiseSpeed else 0.0;
      Add(Scale(avoid, 3.0 + 3.0 * relativeSpeed), tick.targetSpeedSteering(targetSpeed))
    else
      var cruise := tick.targetSpeedSteering(cruiseSpeed);
      var wandering := if demoSelect == 1 then
        Add(cruise, Scale(TruncateLength(SetYToZero(tick.wander), maxForce, tick.sqrt), 6.0))
      else cruise;
      if demoSelect != 2 then wandering
      else if tick.pathSteering != Zero then
        (if Dot(tick.pathSteering, tick.forward) < 0.0 then tick.pathSteering else Add(tick.pathSteering, wandering))
      else Add(wandering, Scale(tick.headingSteering, if tick.nearWaypoint then 0.5 else 0.1))
  }

  /** Where a lap of demo 2 starts: 60% of the world size along x in the
      path-following direction, 40% back along z. */
  function LapStart(direction: int): (p: Vec3)
    ensures p == Vec3(120.0 * direction as real, 0.0, -80.0)
  {
    var s := WorldSize;
    var d := direction as real;
    Vec3(s * d * 0.6, 0.0, s * -0.4)
  }

  // The driver's fields, grouped by what changes them together.

  /** The vehicle's motion and size: SimpleVehicle's speed, top speed, top
      force, radius and position, and the driver's body half-extents. */
  datatype Vehicle = Vehicle(speed: real, maxSpeed: real, maxForce: real, radius: real, position: Vec3,
                             halfWidth: real, halfLength: real)

  /** How the driver steers: the demo (1 wander, 2 follow the path), curved
      and incremental steering, the path-following direction (+1 or -1)
      and the master look-ahead time. */
  datatype Modes = Modes(demoSelect: int, curvedSteering: bool, incrementalSteering: bool,
                         pathFollowDirection: int, baseLookAheadTime: real)

  /** What one tick leaves for the next: stuck or not, the incremental
      steering, whether the tick was paused, and the avoidance scan's
      "just scraping" flag and nearest corridor obstacle. */
  datatype SteeringState = SteeringState(stuck: bool, currentSteering: Vec3, dtZero: bool, justScraping: bool,
                                         lastNearestObstacle: Vec3)

  /** The event counters. */
  datatype Counters = Counters(stuckCount: int, stuckCycleCount: int, stuckOffPathCount: int, lapsStarted: int,
                               lapsFinished: int, hintGivenCount: int, hintTakenCount: int)

  /** The reliability statistics: collisions, mean time between them,
      distance and time driven, and time on and off the path. */
  datatype Statistics = Statistics(collisionDetected: bool, collisionLastTime: bool, timeOfLastCollision: real,
                                   sumOfCollisionFreeTimes: real, countOfCollisionFreeTimes: int,
                                   totalDistance: real, totalTime: real,
                                   pathFollowTime: real, pathFollowOffTime: real)

  /** The statistics stay consistent: every collision-free stretch counted
      lasted over a second, and off-path time is part of path time. */
  predicate StatsConsistent(s: Statistics)
  {
    && 0 <= s.countOfCollisionFreeTimes
    && s.sumOfCollisionFreeTimes >= s.countOfCollisionFreeTimes as real
    && 0.0 <= s.pathFollowOffTime <= s.pathFollowTime
    && 0.0 <= s.totalTime
  }

  /** CollectReliabilityStatistics over values: a collision that follows
      more than a second without one closes a collision-free stretch;
      distance, time and (in demo 2) path time accumulate. */
  function CollectedStatistics(s: Statistics, currentTime: real, elapsedTime: real, collision: bool,
                               insidePath: bool, speed: real, demoSelect: int): Statistics
  {
    var sinceLast := currentTime - s.timeOfLastCollision;
    var newCollision := collision && !s.collisionLastTime && sinceLast > 1.0;
    Statistics(collision, collision,
               if newCollision then currentTime else s.timeOfLastCollision,
               s.sumOfCollisionFreeTimes + (if newCollision then sinceLast else 0.0),
               s.countOfCollisionFreeTimes + (if newCollision then 1 else 0),
               s.totalDistance + speed * elapsedTime,
               s.totalTime + elapsedTime,
               s.pathFollowTime + (if demoSelect == 2 then elapsedTime else 0.0),
               s.pathFollowOffTime + (if demoSelect == 2 && !insidePath then elapsedTime else 0.0))
  }

  /** Collecting keeps the statistics consistent, counts a stretch exactly
      when a new collision ends one of over a second, and never shrinks a
      total. */
  lemma CollectedStatisticsConsistent(s: Statistics, currentTime: real, elapsedTime: real, collision: bool,
                                      insidePath: bool, speed: real, demoSelect: int)
    requires StatsConsistent(s) && elapsedTime >= 0.0
    ensures var t := CollectedStatistics(s, currentTime, elapsedTime, collision, insidePath, speed, demoSelect);
      && StatsConsistent(t)
      && (t.countOfCollisionFreeTimes == s.countOfCollisionFreeTimes + 1 <==>
          collision && !s.collisionLastTime && currentTime - s.timeOfLastCollision > 1.0)
      && t.countOfCollisionFreeTimes >= s.countOfCollisionFreeTimes
      && t.sumOfCollisionFreeTimes >= s.sumOfCollisionFreeTimes
      && t.totalTime >= s.totalTime && t.pathFollowTime >= s.pathFollowTime
  {
  }

  /** The speed as a fraction of the top speed. */
  function RelativeSpeed(speed: real, maxSpeed: real): real
    requires maxSpeed > 0.0
  {
    speed / maxSpeed
  }

  /** The look-ahead time for obstacle avoidance: the base time scaled by
      0.4..0.7 with speed (0.66 without curved steering), and at least the
      time to cover 3 meters. */
  function LookAheadTimeOA(m: Modes, v: Vehicle): real
    requires v.maxSpeed > 0.0
  {
    var minTime := m.baseLookAheadTime *
      (if m.curvedSteering then Interpolate(RelativeSpeed(v.speed, v.maxSpeed), 0.4, 0.7) else 0.66);
    CombinedLookAheadTime(v.speed, minTime, 3.0)
  }

  /** The squared half-diagonal of the vehicle's body. */
  function HalfDiagonalSquared(v: Vehicle): real
  {
    v.halfWidth * v.halfWidth + v.halfLength * v.halfLength
  }

  /** The radius the vehicle pretends to have at its current speed: the
      body's half-diagonal, plus a safety margin growing to 1.5 m at top
      speed under curved steering. */
  function SpeedAdjustedRadius(v: Vehicle, curvedSteering: bool, sqrt: real -> real): real
    requires v.maxSpeed > 0.0
  {
    sqrt(HalfDiagonalSquared(v)) +
    (if curvedSteering then Interpolate(RelativeSpeed(v.speed, v.maxSpeed), 0.0, 1.5) else 0.0)
  }

  /** A stopped vehicle, or one without curved steering, gets the body's
      half-diagonal; up to top speed the margin stays within 0..1.5 m. */
  lemma SpeedAdjustedRadiusBounds(v: Vehicle, curvedSteering: bool, sqrt: real -> real)
    requires v.maxSpeed > 0.0
    ensures var minRadius := sqrt(HalfDiagonalSquared(v));
      var r := SpeedAdjustedRadius(v, curvedSteering, sqrt);
      && (v.speed == 0.0 || !curvedSteering ==> r == minRadius)
      && (0.0 <= v.speed <= v.maxSpeed ==> minRadius <= r <= minRadius + 1.5)
  {
    if v.speed == 0.0 {
      assert RelativeSpeed(v.speed, v.maxSpeed) == 0.0;
    }
    if 0.0 <= v.speed <= v.maxSpeed {
      FractionBounds(v.speed, v.maxSpeed);
      InterpolateBetween(RelativeSpeed(v.speed, v.maxSpeed), 0.0, 1.5);
    }
  }

  /** The avoidance scan of a tick, looking ahead LookAheadTimeOA. */
  function TickAvoidance(tick: Tick, spacing: real, v: Vehicle, m: Modes): AvoidanceResult
    requires spacing > 0.0 && v.maxSpeed > 0.0
  {
    Avoidance(tick.sensors, spacing, v.radius, ForwardSamples(LookAheadTimeOA(m, v), v.speed, spacing),
              tick.hint, tick.side, RelativeSpeed(v.speed, v.maxSpeed), tick.curvature, m.curvedSteering)
  }

  /** The hint counters after a scan: a hint given, and a hint taken, each
      counts on a running (non-paused) tick. */
  function CountHints(c: Counters, hintGiven: bool, hintTaken: bool, dtZero: bool): Counters
  {
    c.(hintGivenCount := c.hintGivenCount + (if hintGiven && !dtZero then 1 else 0),
       hintTakenCount := c.hintTakenCount + (if hintTaken && !dtZero then 1 else 0))
  }

  /** What determining the steering of one tick produces. */
  datatype TickOutcome = TickOutcome(state: SteeringState, counts: Counters, applied: Vec3, absolute: Vec3)

  /** The steering part of Update over values: a vehicle that is stuck, off
      the path or about to collide becomes stuck with zero steering (an
      off-path event counts in demo 2); otherwise the combined steering is
      blended into the incremental steering when that mode is on and then
      limited to the minimum turning radius. */
  function SteerTick(spacing: real, v: Vehicle, m: Modes, s: SteeringState, c: Counters, elapsedTime: real,
                     tick: Tick): TickOutcome
    requires spacing > 0.0 && v.maxSpeed > 0.0 && IsSqrt(tick.sqrt)
  {
    if s.stuck || tick.offPath || tick.imminentCollision then
      var offPathEvent := tick.offPath && !s.stuck && m.demoSelect == 2;
      TickOutcome(s.(stuck := true, currentSteering := Zero),
                  c.(stuckOffPathCount := c.stuckOffPathCount + (if offPathEvent then 1 else 0)),
                  Zero, Zero)
    else
      var a := TickAvoidance(tick, spacing, v, m);
      var absolute := AbsoluteSteering(tick, ChoiceVector(a.choice, tick.forward, tick.side), a.scraping,
                                       m.curvedSteering, m.demoSelect, RelativeSpeed(v.speed, v.maxSpeed),
                                       v.maxSpeed, v.maxForce);
      var current := if m.incrementalSteering
                     then BlendIntoAccumulatorVec(elapsedTime * 8.0, tick.curvedSpace(absolute), s.currentSteering)
                     else s.currentSteering;
      var applied := AdjustSteeringForMinimumTurningRadius(if m.incrementalSteering then current else absolute,
                                                           tick.curvature, tick.forward, tick.side,
                                                           v.maxForce, tick.sqrt);
      TickOutcome(s.(currentSteering := current, justScraping := a.scraping,
                     lastNearestObstacle := a.nearestObstacle),
                  CountHints(c, tick.hint != Zero, a.hintTaken, s.dtZero), applied, absolute)
  }

  /** A stuck vehicle stays stuck and brakes with zero steering; a free one
      stays free, steers within the minimum turning radius, and leaves
      the off-path count alone. Only the hint counters and the off-path
      count can change, and none decreases. */
  lemma SteerTickOutcome(spacing: real, v: Vehicle, m: Modes, s: SteeringState, c: Counters, elapsedTime: real,
                         tick: Tick)
    requires spacing > 0.0 && v.maxSpeed > 0.0 && IsSqrt(tick.sqrt)
    ensures var o := SteerTick(spacing, v, m, s, c, elapsedTime, tick);
      var wasStuck := s.stuck || tick.offPath || tick.imminentCollision;
      && o.state.stuck == wasStuck
      && (wasStuck ==> o.applied == Zero && o.state.currentSteering == Zero &&
                       o.counts.hintGivenCount == c.hintGivenCount)
      && (!wasStuck ==> o.counts.stuckOffPathCount == c.stuckOffPathCount)
      && (!wasStuck && Abs(tick.curvature) <= 1.0 / (MinimumTurningRadius * 1.1) ==>
            o.applied == (if m.incrementalSteering then o.state.currentSteering else o.absolute))
      && o.counts.hintGivenCount >= c.hintGivenCount && o.counts.hintTakenCount >= c.hintTakenCount
      && o.counts.stuckOffPathCount >= c.stuckOffPathCount
      && o.counts.(hintGivenCount := c.hintGivenCount, hintTakenCount := c.hintTakenCount,
                   stuckOffPathCount := c.stuckOffPathCount) == c
  {
  }

  /** A SharpSteer2 map driver: a vehicle that drives over a terrain map,
      avoiding obstacles, and in demo 2 follows a path. */
  class MapDriver {
    var vehicle: Vehicle
    var modes: Modes
    var state: SteeringState
    var counts: Counters
    var stats: Statistics

    ghost predicate Valid()
      reads this`vehicle, this`stats
    {
      vehicle.maxSpeed > 0.0 && StatsConsistent(stats)
    }

    /** A new driver: every counter and statistic at zero, curved and
        incremental steering on, following the path forward. As in the
        source, Reset runs while the modes still hold their defaults, so
        in demo 2 the first lap starts at LapStart(0). */
    constructor (demo: int, clockTime: real, sqrt: real -> real)
      ensures Valid()
      ensures modes == Modes(demo, true, true, 1, 3.0)
      ensures vehicle == Vehicle(0.0, 20.0, 8.0, sqrt(3.25), if demo == 2 then LapStart(0) else Zero, 1.0, 1.5)
      ensures state == SteeringState(false, Zero, false, false, Zero)
      ensures counts == Counters(0, 0, 0, 0, 0, 0, 0)
      ensures stats == Statistics(false, false, clockTime, 0.0, 0, 0.0, 0.0, 0.0, 0.0)
    {
      vehicle := Vehicle(0.0, 0.0, 0.0, 0.0, Zero, 0.0, 0.0);
      modes := Modes(demo, false, false, 0, 0.0);
      state := SteeringState(false, Zero, false, false, Zero);
      counts := Counters(0, 0, 0, 0, 0, 0, 0);
      stats := Statistics(false, false, clockTime, 0.0, 0, 0.0, 0.0, 0.0, 0.0);
      new;
      Reset(sqrt);
      // the statistics and counters Reset leaves alone are already zero;
      // the lap Reset may have started is not counted
      counts := counts.(lapsStarted := 0);
      modes := modes.(pathFollowDirection := 1, curvedSteering := true, incrementalSteering := true);
    }

    /** Reset: the vehicle's own reset first puts it at the origin; then
        stopped, 20 m/s top speed, 40% of it as top force, a 2 x 3 meter
        body whose half-diagonal is the radius, not stuck, no steering
        history; in demo 2 a new lap starts at LapStart. */
    method Reset(sqrt: real -> real)
      requires StatsConsistent(stats)
      modifies this`vehicle, this`modes, this`state, this`counts
      ensures Valid()
      ensures vehicle == old(vehicle).(speed := 0.0, maxSpeed := 20.0, maxForce := 8.0, radius := sqrt(3.25),
                                       halfWidth := 1.0, halfLength := 1.5,
                                       position := if old(modes.demoSelect) == 2
                                                   then LapStart(old(modes.pathFollowDirection))
                                                   else Zero)
      ensures modes == old(modes).(baseLookAheadTime := 3.0)
      ensures state == SteeringState(false, Zero, false, false, Zero)
      ensures counts == old(counts).(lapsStarted := old(counts.lapsStarted) +
                                                   (if modes.demoSelect == 2 then 1 else 0))
    {
      var v := vehicle.(position := Zero);
      v := v.(speed := 0.0, maxSpeed := 20.0);
      v := v.(maxForce := v.maxSpeed * 0.4);
      v := v.(halfWidth := 1.0, halfLength := 1.5);
      assert HalfDiagonalSquared(v) == 3.25;
      assert RelativeSpeed(v.speed, v.maxSpeed) == 0.0;
      vehicle := v;
      AdjustVehicleRadiusForSpeed(sqrt);
      state := state.(stuck := false, lastNearestObstacle := Zero);
      modes := modes.(baseLookAheadTime := 3.0);
      if modes.demoSelect == 2 {
        counts := counts.(lapsStarted := counts.lapsStarted + 1);
        vehicle := vehicle.(position := LapStart(modes.pathFollowDirection));
      }
      state := state.(currentSteering := Zero, dtZero := false, justScraping := false);
    }

    /** AdjustVehicleRadiusForSpeed: sets the radius to the speed-adjusted
        one (SpeedAdjustedRadiusBounds says what that is). */
    method AdjustVehicleRadiusForSpeed(sqrt: real -> real)
      requires vehicle.maxSpeed > 0.0
      modifies this`vehicle
      ensures vehicle == old(vehicle.(radius := SpeedAdjustedRadius(vehicle, modes.curvedSteering, sqrt)))
    {
      var v := vehicle;
      var minRadius := sqrt(HalfDiagonalSquared(v));
      var safetyMargin := if modes.curvedSteering then Interpolate(RelativeSpeed(v.speed, v.maxSpeed), 0.0, 1.5)
                          else 0.0;
      vehicle := v.(radius := minRadius + safetyMargin);
    }

    /** SteerToAvoidObstaclesOnMap: scans the corridor lanes (half a map
        cell apart, out to the vehicle radius) and the eight wing rays,
        keeps the nearest hit of each zone, and answers zero, -Forward,
        +Side or -Side by the decision table. It also records the nearest
        corridor obstacle, the "just scraping" flag and the hint counters. */
    method SteerToAvoidObstaclesOnMap(terrain: TerrainMap, minTimeToCollision: real, hint: Vec3,
                                      forward: Vec3, side: Vec3, curvature: real, sensors: Sensors)
      returns (steering: Vec3)
      requires terrain.Valid() && vehicle.maxSpeed > 0.0
      modifies this`state, this`counts
      ensures var a := old(Avoidance(sensors, terrain.ScanSpacing(), vehicle.radius,
                                     ForwardSamples(minTimeToCollision, vehicle.speed, terrain.ScanSpacing()),
                                     hint, side, RelativeSpeed(vehicle.speed, vehicle.maxSpeed), curvature,
                                     modes.curvedSteering));
        && steering == ChoiceVector(a.choice, forward, side)
        && state == old(state.(lastNearestObstacle := a.nearestObstacle, justScraping := a.scraping))
        && counts == old(CountHints(counts, hint != Zero, a.hintTaken, state.dtZero))
    {
      var spacing := terrain.ScanSpacing();
      var maxSide := vehicle.radius;
      var maxSamples := ForwardSamples(minTimeToCollision, vehicle.speed, spacing);
      var relativeSpeed := RelativeSpeed(vehicle.speed, vehicle.maxSpeed);
      var hintGiven := hint != Zero;
      var a := AvoidObstacles(sensors, spacing, maxSide, maxSamples, hint, side, relativeSpeed, curvature,
                              modes.curvedSteering);
      counts := counts.(hintGivenCount := counts.hintGivenCount + (if hintGiven && !state.dtZero then 1 else 0));
      state := state.(justScraping := a.scraping, lastNearestObstacle := a.nearestObstacle);
      if a.hintTaken {
        HintWasTaken();
      }
      steering := ChoiceVector(a.choice, forward, side);
    }

    /** AnnotationHintWasTaken's bookkeeping: a hint taken on a running
        (non-paused) tick is counted. */
    method HintWasTaken()
      modifies this`counts
      ensures counts == old(counts.(hintTakenCount := counts.hintTakenCount + (if state.dtZero then 0 else 1)))
    {
      if !state.dtZero {
        counts := counts.(hintTakenCount := counts.hintTakenCount + 1);
      }
    }

    /** ConvertAbsoluteToIncrementalSteering: blends the curved-space form of
        the absolute steering into currentSteering at rate 8 per second and
        returns the blend. */
    method ConvertAbsoluteToIncrementalSteering(absolute: Vec3, elapsedTime: real, curvedSpace: Vec3 -> Vec3)
      returns (steering: Vec3)
      modifies this`state
      ensures state == old(state.(currentSteering := BlendIntoAccumulatorVec(elapsedTime * 8.0, curvedSpace(absolute),
                                                                             state.currentSteering)))
      ensures steering == state.currentSteering
    {
      var curved := curvedSpace(absolute);
      state := state.(currentSteering := BlendIntoAccumulatorVec(elapsedTime * 8.0, curved, state.currentSteering));
      steering := state.currentSteering;
    }

    /** CollectReliabilityStatistics: records whether the body rectangle
        touches an obstacle (`collision`, the map's ScanLocalXZRectangle of
        [-halfWidth, halfWidth] x [-halfLength, halfLength]), counts a
        collision-free stretch when a new collision follows more than a
        second without one, and accumulates distance, time and (in demo 2)
        time on and off the path. */
    method CollectReliabilityStatistics(currentTime: real, elapsedTime: real, collision: bool, insidePath: bool)
      requires StatsConsistent(stats) && elapsedTime >= 0.0
      modifies this`stats
      ensures stats == old(CollectedStatistics(stats, currentTime, elapsedTime, collision, insidePath,
                                               vehicle.speed, modes.demoSelect))
      ensures StatsConsistent(stats)
    {
      var s := stats.(collisionDetected := collision);
      var timeSinceLastCollision := currentTime - s.timeOfLastCollision;
      if s.collisionDetected && !s.collisionLastTime && timeSinceLastCollision > 1.0 {
        s := s.(sumOfCollisionFreeTimes := s.sumOfCollisionFreeTimes + timeSinceLastCollision,
                countOfCollisionFreeTimes := s.countOfCollisionFreeTimes + 1,
                timeOfLastCollision := currentTime);
      }
      s := s.(collisionLastTime := s.collisionDetected);
      s := s.(totalDistance := s.totalDistance + vehicle.speed * elapsedTime, totalTime := s.totalTime + elapsedTime);
      if modes.demoSelect == 2 {
        s := s.(pathFollowTime := s.pathFollowTime + elapsedTime);
        if !insidePath {
          s := s.(pathFollowOffTime := s.pathFollowOffTime + elapsedTime);
        }
      }
      CollectedStatisticsConsistent(stats, currentTime, elapsedTime, collision, insidePath,
                                    vehicle.speed, modes.demoSelect);
      stats := s;
    }

    /** The "determine combined steering" branch of Update for a vehicle
        that is not stuck: the avoidance scan, then either an avoidance turn
        weighted by speed with the target-speed term, or the cruise steering
        with the demo's wander or path-following term. */
    method CombinedSteering(terrain: TerrainMap, tick: Tick) returns (steering: Vec3)
      requires terrain.Valid() && Valid() && IsSqrt(tick.sqrt)
      modifies this`state, this`counts
      ensures var a := old(TickAvoidance(tick, terrain.ScanSpacing(), vehicle, modes));
        && steering == old(AbsoluteSteering(tick, ChoiceVector(a.choice, tick.forward, tick.side), a.scraping,
                                            modes.curvedSteering, modes.demoSelect,
                                            RelativeSpeed(vehicle.speed, vehicle.maxSpeed),
                                            vehicle.maxSpeed, vehicle.maxForce))
        && state == old(state.(lastNearestObstacle := a.nearestObstacle, justScraping := a.scraping))
        && counts == old(CountHints(counts, tick.hint != Zero, a.hintTaken, state.dtZero))
    {
      var v, m := vehicle, modes;
      var relativeSpeed := RelativeSpeed(v.speed, v.maxSpeed);
      var avoid := SteerToAvoidObstaclesOnMap(terrain, LookAheadTimeOA(m, v), tick.hint, tick.forward, tick.side,
                                              tick.curvature, tick.sensors);
      steering := AbsoluteSteering(tick, avoid, state.justScraping, m.curvedSteering, m.demoSelect, relativeSpeed,
                                   v.maxSpeed, v.maxForce);
    }

    /** The steering part of Update, after the radius is adjusted: brake
        when stuck, off the path or about to collide, else the combined
        steering, made incremental and limited to the minimum turning
        radius. `absolute` is the combined steering before conversion. */
    method DetermineSteering(terrain: TerrainMap, elapsedTime: real, tick: Tick)
      returns (steering: Vec3, ghost absolute: Vec3)
      requires terrain.Valid() && Valid() && IsSqrt(tick.sqrt)
      modifies this`state, this`counts
      ensures var o := old(SteerTick(terrain.ScanSpacing(), vehicle, modes, state, counts, elapsedTime, tick));
        && state == o.state && counts == o.counts && steering == o.applied && absolute == o.absolute
    {
      steering := Zero;
      absolute := Zero;
      var offPath := tick.offPath;
      if state.stuck || offPath || tick.imminentCollision {
        if offPath && !state.stuck && modes.demoSelect == 2 {
          counts := counts.(stuckOffPathCount := counts.stuckOffPathCount + 1);
        }
        state := state.(stuck := true, currentSteering := Zero);
      } else {
        steering := CombinedSteering(terrain, tick);
        absolute := steering;
        if modes.incrementalSteering {
          steering := ConvertAbsoluteToIncrementalSteering(steering, elapsedTime, tick.curvedSpace);
        }
        steering := AdjustSteeringForMinimumTurningRadius(steering, tick.curvature, tick.forward, tick.side,
                                                          vehicle.maxForce, tick.sqrt);
      }
    }

    /** Update: one simulation tick. It notes a paused tick, resizes the
        vehicle for its speed, determines and applies the steering (the
        vehicle's new speed comes from the tick), records the statistics,
        and in demo 2 a vehicle going in circles becomes stuck, counting a
        new cycle. Nothing here un-sticks a vehicle: only Reset does. */
    method Update(terrain: TerrainMap, currentTime: real, elapsedTime: real, tick: Tick)
      returns (applied: Vec3, ghost absolute: Vec3)
      requires terrain.Valid() && Valid() && IsSqrt(tick.sqrt) && elapsedTime >= 0.0
      modifies this`vehicle, this`state, this`counts, this`stats
      ensures Valid()
      ensures var v := old(vehicle.(radius := SpeedAdjustedRadius(vehicle, modes.curvedSteering, tick.sqrt)));
        var o := old(SteerTick(terrain.ScanSpacing(), v, modes, state.(dtZero := elapsedTime == 0.0), counts,
                               elapsedTime, tick));
        var circles := modes.demoSelect == 2 && tick.circles;
        && applied == o.applied && absolute == o.absolute
        && vehicle == v.(speed := tick.speedAfter)
        && state == o.state.(stuck := o.state.stuck || circles)
        && counts == o.counts.(stuckCycleCount := o.counts.stuckCycleCount +
                                                  (if circles && !o.state.stuck then 1 else 0))
        && stats == old(CollectedStatistics(stats, currentTime, elapsedTime, tick.collision, tick.insidePathAfter,
                                            tick.speedAfter, modes.demoSelect))
    {
      state := state.(dtZero := elapsedTime == 0.0);
      AdjustVehicleRadiusForSpeed(tick.sqrt);
      applied, absolute := DetermineSteering(terrain, elapsedTime, tick);
      FinishTick(currentTime, elapsedTime, tick);
    }

    /** The end of Update, once the steering is applied: the new speed,
        the statistics, and in demo 2 the going-in-circles check. */
    method FinishTick(currentTime: real, elapsedTime: real, tick: Tick)
      requires StatsConsistent(stats) && elapsedTime >= 0.0
      modifies this`vehicle, this`state, this`counts, this`stats
      ensures vehicle == old(vehicle.(speed := tick.speedAfter))
      ensures stats == old(CollectedStatistics(stats, currentTime, elapsedTime, tick.collision, tick.insidePathAfter,
                                               tick.speedAfter, modes.demoSelect))
      ensures StatsConsistent(stats)
      ensures var circles := modes.demoSelect == 2 && tick.circles;
        && state == old(state.(stuck := state.stuck || circles))
        && counts == old(counts.(stuckCycleCount := counts.stuckCycleCount +
                                                    (if circles && !state.stuck then 1 else 0)))
    {
      vehicle := vehicle.(speed := tick.speedAfter);
      CollectReliabilityStatistics(currentTime, elapsedTime, tick.collision, tick.insidePathAfter);
      if modes.demoSelect == 2 {
        var circles := tick.circles;
        if circles && !state.stuck {
          counts := counts.(stuckCycleCount := counts.stuckCycleCount + 1);
        }
        if circles {
          state := state.(stuck := true);
        }
      }
    }
  }
}
