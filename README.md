# SharpSteer2 demo core in Dafny

A Dafny model of the demo application that comes with SharpSteer2, the C#
port of the OpenSteer steering library. It covers:

- the map-driving demo: the terrain occupancy map, the path the vehicle
  follows, the vehicle's obstacle scans and avoidance decisions, and its
  plug-in, which redraws the map and resets the run;
- the capture-the-flag demo: the home base, its obstacle field, the
  seeker's state machine and the enemies' steering;
- the flocking (boids) and pedestrian demos: their plug-ins' vehicle lists,
  proximity-database cycling and selection bookkeeping;
- the demo framework: the plug-in registry and its ordering, the trail,
  the deferred line and circle buffers, the camera modes, the demo's phase
  stack, delayed reset, vehicle selection and frame-rate presets;
- the vector helpers (Vec3) and the axis-aligned box of the soccer demo.

Mutable objects are Dafny classes whose methods state their whole new
state. Pure helpers are functions whose contracts and lemmas state what the
code promises. C#'s `float` is modelled as `real`, and square roots as a
parameter `sqrt` constrained by `IsSqrt`. Random draws, the steering
library's behaviours and drawing calls arrive as parameters or are left
out. C#'s truncating `%` and `(int)` casts are written out explicitly.

## Model

| member | source | states |
|---|---|---|
| Vectors.SubUndoesAdd | SharpSteer2.WinLib/Vec3.cs:44-60 | vector subtraction undoes addition (both ways), addition commutes, and binary minus is adding the negation |
| Vectors.DivUndoesScale | SharpSteer2.WinLib/Vec3.cs:56-76 | dividing by a non-zero scalar undoes scaling by it; negation is its own inverse and equals scaling by -1 |
| Vectors.EqualsIsValueEquality | SharpSteer2.WinLib/Vec3.cs:122-129 | `==` and `!=` on vectors are exactly component-wise value equality and its negation |
| Vectors.LengthSquared | SharpSteer2.WinLib/Vec3.cs:91-94 | the squared length (the vector's dot product with itself) is never negative |
| Vectors.NonZeroHasLength | SharpSteer2.WinLib/Vec3.cs:91-94 | a non-zero vector has a strictly positive squared length |
| Vectors.DotSymmetric | SharpSteer2.WinLib/Vec3.cs:79-82 | the dot product is symmetric |
| Vectors.DotAddLeft | SharpSteer2.WinLib/Vec3.cs:79-82 | the dot product distributes over addition |
| Vectors.LengthIsRoot | SharpSteer2.WinLib/Vec3.cs:85-88 | the length is non-negative, zero exactly for a zero squared length, and squares to the squared length |
| Vectors.CrossOrthogonal | SharpSteer2.WinLib/Vec3.cs:107-110 | the cross product is perpendicular to both of its operands |
| Vectors.ComponentsSum | SharpSteer2.WinLib/Vec3.cs:140-151 | the parallel and perpendicular components of a vector add back up to the vector |
| Vectors.PerpendicularIsOrthogonal | SharpSteer2.WinLib/Vec3.cs:148-151 | for a unit basis, the perpendicular component has no part along the basis |
| Vectors.TruncateLength | SharpSteer2.WinLib/Vec3.cs:157-165 | a vector no longer than the limit is returned unchanged; a longer one is scaled by a factor (positive for a positive limit) to exactly the limit's length |
| Vectors.ScaleLengthSquared | SharpSteer2.WinLib/Vec3.cs:62-70 | scaling by k multiplies the squared length by k squared |
| Vectors.Normalize | SharpSteer2.WinLib/Vec3.cs:97-102 | a zero vector is returned unchanged; any other vector comes back with unit length |
| Vectors.SetYToZeroProjects | SharpSteer2.WinLib/Vec3.cs:169-172 | flattening is idempotent, leaves nothing along Up, and adding back the Up component restores the vector |
| Vectors.RotationProperties | SharpSteer2.WinLib/Vec3.cs:175-180 | for a proper sine/cosine pair, rotation about Y keeps the height and the squared length, and rotating by the opposite angle undoes it |
| Vectors.RotateAboutGlobalYCached | SharpSteer2.WinLib/Vec3.cs:183-192 | with an empty (0, 0) cache the angle's sine and cosine are stored, otherwise the cached pair is kept; the result is the rotation by the pair returned |
| Vectors.AsWrittenIsPerpendicular | SharpSteer2.WinLib/Vec3.cs:347-380 | as written, the result is still perpendicular to the direction |
| Vectors.AsWrittenLosesNegativeX | SharpSteer2.WinLib/Vec3.cs:363-374 | as written, the direction (-1, 0, 0) picks the X axis itself and so yields the zero vector |
| Vectors.FindPerpendicularIn3d | SharpSteer2.WinLib/Vec3.cs:347-380 | corrected: the result is perpendicular to the direction, and non-zero for every non-zero direction |
| Vectors.LeastParallelAxis | SharpSteer2.WinLib/Vec3.cs:363-374 | the axis with the smallest absolute projection is never parallel to a non-zero direction |
| Utilities.Trunc | SharpSteer2.WinDemo/SharpSteer2.WinDemo/PlugIns/MapDrive/TerrainMap.cs:77-78 | C#'s `(int)` cast of a float: the floor for non-negative values, 0 below 1 |
| Utilities.TruncTowardZero | SharpSteer2.WinDemo/SharpSteer2.WinDemo/PlugIns/MapDrive/TerrainMap.cs:77-78 | the cast truncates toward zero: within one below a non-negative value and within one above a negative one |
| Utilities.Remainder | SharpSteer2.WinDemo/SharpSteer2.WinDemo/PlugIns/Boids/BoidsPlugIn.cs:144 | C#'s `%` for a positive divisor: the usual remainder for non-negative operands, and a non-positive remainder above -divisor for negative ones |
| Utilities.InterpolateBetween | SharpSteer2.WinDemo/SharpSteer2.WinDemo/PlugIns/MapDrive/MapDriver.cs:758 | interpolation gives its end points at 0 and 1 and stays between them for alpha in [0, 1] |
| Utilities.ClipBounds | SharpSteer2.WinDemo/SharpSteer2.WinDemo/PlugIns/MapDrive/MapDriver.cs:1556 | clipping lands inside the interval and leaves values already inside unchanged |
| TerrainMaps.MapAddressInRange | SharpSteer2.WinDemo/SharpSteer2.WinDemo/PlugIns/MapDrive/TerrainMap.cs:176 | a cell index pair inside the grid addresses a slot of the resolution-squared cell array |
| TerrainMaps.MapAddressInjective | SharpSteer2.WinDemo/SharpSteer2.WinDemo/PlugIns/MapDrive/TerrainMap.cs:176 | distinct cells of the grid have distinct addresses |
| TerrainMaps.RemapToCells | SharpSteer2.WinDemo/SharpSteer2.WinDemo/PlugIns/MapDrive/TerrainMap.cs:76-78 | remapping a coordinate inside the map onto [0, resolution] hits 0 at the low edge, resolution exactly at the high edge and below it elsewhere, scaling by the cell size |
| TerrainMaps.CellIndexAsWrittenRange | SharpSteer2.WinDemo/SharpSteer2.WinDemo/PlugIns/MapDrive/TerrainMap.cs:76-78 | as written, the truncated cell index lies in [0, resolution] and equals resolution exactly on the high edge |
| TerrainMaps.CellIndexContains | SharpSteer2.WinDemo/SharpSteer2.WinDemo/PlugIns/MapDrive/TerrainMap.cs:76-78 | below the high edge, the truncated index names the cell whose span contains the coordinate |
| TerrainMaps.CellIndex | SharpSteer2.WinDemo/SharpSteer2.WinDemo/PlugIns/MapDrive/TerrainMap.cs:76-79 | corrected: the index is always a valid cell, agrees with the source below the high edge and is the last cell on it |
| TerrainMaps.TerrainMap.constructor | SharpSteer2.WinDemo/SharpSteer2.WinDemo/PlugIns/MapDrive/TerrainMap.cs:21-34 | the map takes the given centre, sizes and resolution, has outside value false and every cell clear |
| TerrainMaps.TerrainMap.SetMapBit | SharpSteer2.WinDemo/SharpSteer2.WinDemo/PlugIns/MapDrive/TerrainMap.cs:50-53 | the cell reads back the written value, which is also returned, and every other cell is unchanged |
| TerrainMaps.TerrainMap.Clear | SharpSteer2.WinDemo/SharpSteer2.WinDemo/PlugIns/MapDrive/TerrainMap.cs:37-42 | every cell is clear afterwards |
| TerrainMaps.TerrainMap.GetMapValueProperties | SharpSteer2.WinDemo/SharpSteer2.WinDemo/PlugIns/MapDrive/TerrainMap.cs:56-81 | a point outside the map's rectangle reads the outside value, height is ignored, and away from the high edges the corrected read agrees with the source's |
| TerrainMaps.TerrainMap.AsWrittenPlusXEdgeReadsNextRow | SharpSteer2.WinDemo/SharpSteer2.WinDemo/PlugIns/MapDrive/TerrainMap.cs:76-79 | as written, a point on the +X edge of the first row reads cell (0, 1) of the next row instead of the edge cell |
| TerrainMaps.TerrainMap.AsWrittenFarCornerOutOfRange | SharpSteer2.WinDemo/SharpSteer2.WinDemo/PlugIns/MapDrive/TerrainMap.cs:76-79 | as written, the (+X, +Z) corner addresses past the end of the cell array |
| TerrainMaps.TerrainMap.MinSpacing | SharpSteer2.WinDemo/SharpSteer2.WinDemo/PlugIns/MapDrive/TerrainMap.cs:126-129 | the spacing is positive and no larger than a cell along either axis |
| TerrainMaps.TerrainMap.ScanSpacing | SharpSteer2.WinDemo/SharpSteer2.WinDemo/PlugIns/MapDrive/TerrainMap.cs:134 | the rectangle scan samples strictly more finely than a cell |
| TerrainMaps.TerrainMap.ScanXZray | SharpSteer2.WinDemo/SharpSteer2.WinDemo/PlugIns/MapDrive/TerrainMap.cs:151-162 | the result is the index of the first blocked sample along the ray, or 0 exactly when all samples are clear |
| TerrainMaps.TerrainMap.ScanLocalXZRectangle | SharpSteer2.WinDemo/SharpSteer2.WinDemo/PlugIns/MapDrive/TerrainMap.cs:132-146 | the rectangle is reported blocked exactly when some sample of its half-cell lattice, taken to global space, lies on a blocked cell |
| Routes.GCRoute.constructor | SharpSteer2.WinDemo/SharpSteer2.WinDemo/PlugIns/MapDrive/GCRoute.cs:29-44 | the route keeps the count, radii and per-segment data, copies the points, and a cyclic route closes on its first point |
| Routes.GCRoute.NearestIsFirstMinimum | SharpSteer2.WinDemo/SharpSteer2.WinDemo/PlugIns/MapDrive/GCRoute.cs:95-113 | the running search returns the first segment of least distance, or 0 with the float maximum when no segment beats it |
| Routes.GCRoute.IndexOfNearestSegment | SharpSteer2.WinDemo/SharpSteer2.WinDemo/PlugIns/MapDrive/GCRoute.cs:95-113 | the loop returns the first nearest segment, and leaves the last segment's cached length and normal behind |
| Routes.GCRoute.ProjectionIsFirstMinimum | SharpSteer2.WinDemo/SharpSteer2.WinDemo/PlugIns/MapDrive/GCRoute.cs:53-83 | the projection comes from the first segment of least outside-distance, or is the empty projection when none beats the float maximum |
| Routes.GCRoute.MapPointToPath | SharpSteer2.WinDemo/SharpSteer2.WinDemo/PlugIns/MapDrive/GCRoute.cs:53-83 | the loop's on-path point, tangent and outside distance are the first-minimum projection |
| Routes.GCRoute.DotSegmentUnitTangentsSymmetric | SharpSteer2.WinDemo/SharpSteer2.WinDemo/PlugIns/MapDrive/GCRoute.cs:117-120 | the alignment of two segments does not depend on their order |
| Routes.GCRoute.InsidePathSegment | SharpSteer2.WinDemo/SharpSteer2.WinDemo/PlugIns/MapDrive/GCRoute.cs:159-176 | a point is inside a segment exactly when the index names a segment and the point is nearer to it than its radius |
| Routes.GCRoute.IsInsidePathSegment | SharpSteer2.WinDemo/SharpSteer2.WinDemo/PlugIns/MapDrive/GCRoute.cs:159-176 | the method answers InsidePathSegment and caches the examined segment's length and normal |
| Routes.GCRoute.TangentAt | SharpSteer2.WinDemo/SharpSteer2.WinDemo/PlugIns/MapDrive/GCRoute.cs:123-126 | the tangent is the direction of a segment nearest the point |
| Routes.GCRoute.TangentSegmentInRange | SharpSteer2.WinDemo/SharpSteer2.WinDemo/PlugIns/MapDrive/GCRoute.cs:132-139 | the chosen segment is the nearest one, or its neighbour in the direction of travel when the point is inside that neighbour |
| Routes.GCRoute.TangentAtInDirection | SharpSteer2.WinDemo/SharpSteer2.WinDemo/PlugIns/MapDrive/GCRoute.cs:132-139 | the tangent is that segment's direction signed by the direction of travel |
| Routes.GCRoute.NearWaypoint | SharpSteer2.WinDemo/SharpSteer2.WinDemo/PlugIns/MapDrive/GCRoute.cs:143-154 | a point is near a waypoint exactly when it lies closer to some waypoint after the first than the larger radius of the two segments meeting there |
| MapDriverRules.ArcLengthLimitProperties | SharpSteer2.WinDemo/SharpSteer2.WinDemo/PlugIns/MapDrive/MapDriver.cs:922-928 | for a non-negative limit the result keeps the length's sign and has magnitude min(\|length\|, limit) |
| MapDriverRules.NonZeroCurvature | SharpSteer2.WinDemo/SharpSteer2.WinDemo/PlugIns/MapDrive/MapDriver.cs:1536-1542 | the curvature used for radii is never zero: below the minimum magnitude it becomes the minimum, otherwise it is unchanged |
| MapDriverRules.CurvatureSign | SharpSteer2.WinDemo/SharpSteer2.WinDemo/PlugIns/MapDrive/MapDriver.cs:398-409 | the arc's side sign is +1 or -1, and +1 exactly when the curvature is at or below minus the minimum magnitude |
| MapDriverRules.CombinedLookAheadTime | SharpSteer2.WinDemo/SharpSteer2.WinDemo/PlugIns/MapDrive/MapDriver.cs:1410-1414 | zero when stopped; otherwise the larger of the minimum time and the time to cover the minimum distance |
| MapDriverRules.LookAheadCoversMinimumDistance | SharpSteer2.WinDemo/SharpSteer2.WinDemo/PlugIns/MapDrive/MapDriver.cs:1410-1414 | when moving, the look-ahead time covers at least the minimum distance and is at least the minimum time |
| MapDriverRules.MaxRelativeSpeedBounds | SharpSteer2.WinDemo/SharpSteer2.WinDemo/PlugIns/MapDrive/MapDriver.cs:1547-1583 | the speed cap relative to top speed lies in [0.1, 1], is 1 without curved steering, and is 1 for a straight heading outside the path-following demo |
| MapDriverRules.MaxSpeedForCurvature | SharpSteer2.WinDemo/SharpSteer2.WinDemo/PlugIns/MapDrive/MapDriver.cs:1547-1583 | the speed cap lies between 10% of top speed and top speed, and is top speed without curved steering |
| MapDriverRules.AdjustSteeringForMinimumTurningRadius | SharpSteer2.WinDemo/SharpSteer2.WinDemo/PlugIns/MapDrive/MapDriver.cs:1497-1525 | steering within the minimum turning radius (with 10% slack) passes unchanged |
| MapDriverRules.ScaledThrustIsForward | SharpSteer2.WinDemo/SharpSteer2.WinDemo/PlugIns/MapDrive/MapDriver.cs:1497-1525 | the thrust kept by the override lies along the heading, with nothing sideways |
| MapDriverRules.OverrideWidensOut | SharpSteer2.WinDemo/SharpSteer2.WinDemo/PlugIns/MapDrive/MapDriver.cs:1497-1525 | when turning too sharply, the sideways part of the result is exactly the full force, pointing out of the turn |
| MapDriverRules.DecisionTable | SharpSteer2.WinDemo/SharpSteer2.WinDemo/PlugIns/MapDrive/MapDriver.cs:558-667 | the avoidance choice as a table: no steering or braking exactly when the corridor is clear (braking when both wings are blocked at 70% speed or more); otherwise the applicable hint, then the turning-radius override, then the clear side, then the farther side or the hint when the two are close |
| MapDriverRules.HintTakenFollowsHint | SharpSteer2.WinDemo/SharpSteer2.WinDemo/PlugIns/MapDrive/MapDriver.cs:595-603 | whenever the hint counts as taken, a hint was given and the choice is the hint's side |
| MapDriverRules.DecisionIsMirrorSymmetric | SharpSteer2.WinDemo/SharpSteer2.WinDemo/PlugIns/MapDrive/MapDriver.cs:558-667 | mirroring the scans, the hint and the curvature left to right mirrors the choice |
| MapDrivers.FirstBlockedIsFirst | SharpSteer2.WinDemo/SharpSteer2.WinDemo/PlugIns/MapDrive/MapDriver.cs:749-793 | the search finds the first impassable arc sample, and finds none exactly when every sample is passable |
| MapDrivers.ArcSample | SharpSteer2.WinDemo/SharpSteer2.WinDemo/PlugIns/MapDrive/MapDriver.cs:749-793 | one loop turn rotates the spoke by the cached step, fills an empty sine/cosine cache, and yields the arc point and the distance to it |
| MapDrivers.ScanObstacleMap | SharpSteer2.WinDemo/SharpSteer2.WinDemo/PlugIns/MapDrive/MapDriver.cs:732-796 | the distance along the arc to, and the position of, the first impassable sample; 0 and the zero vector when there is none |
| MapDrivers.NearestPositiveAppend | SharpSteer2.WinDemo/SharpSteer2.WinDemo/PlugIns/MapDrive/MapDriver.cs:461-474 | one loop turn keeps the running minimum of positive hit indices |
| MapDrivers.NearestPositiveIsMinimum | SharpSteer2.WinDemo/SharpSteer2.WinDemo/PlugIns/MapDrive/MapDriver.cs:461-474 | the running minimum is the least positive hit, or the no-obstacle sentinel exactly when no scan hits |
| MapDrivers.LanesFromBounds | SharpSteer2.WinDemo/SharpSteer2.WinDemo/PlugIns/MapDrive/MapDriver.cs:429-432 | the lane offsets step by the spacing from the start and stop at the first one reaching the vehicle's half width |
| MapDrivers.ScanLaneHits | SharpSteer2.WinDemo/SharpSteer2.WinDemo/PlugIns/MapDrive/MapDriver.cs:461-474 | the lane step updates the nearest left and right hits and the nearest obstacle as NearerHits says |
| MapDrivers.CorridorIsNearest | SharpSteer2.WinDemo/SharpSteer2.WinDemo/PlugIns/MapDrive/MapDriver.cs:429-489 | the corridor's nearest left and right hits are the least positive lane scans, the obstacle is zero when neither side hits, and it counts as scraping exactly when no lane but the outermost is blocked (always without curved steering) |
| MapDrivers.ScanCorridorLanes | SharpSteer2.WinDemo/SharpSteer2.WinDemo/PlugIns/MapDrive/MapDriver.cs:429-489 | the lane loop computes the corridor scan over all lanes |
| MapDrivers.ScanWings | SharpSteer2.WinDemo/SharpSteer2.WinDemo/PlugIns/MapDrive/MapDriver.cs:493-548 | the nearest left and right wing hits are the least positive of the four wing scans on each side |
| MapDrivers.DecideAvoidance | SharpSteer2.WinDemo/SharpSteer2.WinDemo/PlugIns/MapDrive/MapDriver.cs:558-667 | the decision code answers the decision table, and reports the hint as taken exactly when the hint clause applied |
| MapDrivers.AvoidObstacles | SharpSteer2.WinDemo/SharpSteer2.WinDemo/PlugIns/MapDrive/MapDriver.cs:369-668 | the whole avoidance step is the scans followed by the decision |
| MapDrivers.LapStart | SharpSteer2.WinDemo/SharpSteer2.WinDemo/PlugIns/MapDrive/MapDriver.cs:105-112 | a lap starts at (120 times the path direction, 0, -80) |
| MapDrivers.CollectedStatisticsConsistent | SharpSteer2.WinDemo/SharpSteer2.WinDemo/PlugIns/MapDrive/MapDriver.cs:262-292 | collecting keeps the statistics consistent, counts a collision-free interval exactly on a new collision more than one second after the last, and never decreases a sum or count |
| MapDrivers.SpeedAdjustedRadiusBounds | SharpSteer2.WinDemo/SharpSteer2.WinDemo/PlugIns/MapDrive/MapDriver.cs:255-260 | the radius is the half diagonal when stopped or without curved steering, and at most 1.5 larger at any legal speed |
| MapDrivers.SteerTickOutcome | SharpSteer2.WinDemo/SharpSteer2.WinDemo/PlugIns/MapDrive/MapDriver.cs:146-234 | when stuck (or off the path, or about to collide) no force is applied and the steering memory is cleared; otherwise the applied force is the incremental or absolute steering; counters only grow and nothing else changes |
| MapDrivers.MapDriver.constructor | SharpSteer2.WinDemo/SharpSteer2.WinDemo/PlugIns/MapDrive/MapDriver.cs:24-62 | the initial modes, vehicle, steering state, zero counters and statistics starting at the clock's time |
| MapDrivers.MapDriver.Reset | SharpSteer2.WinDemo/SharpSteer2.WinDemo/PlugIns/MapDrive/MapDriver.cs:65-129 | the vehicle's speed and size limits are restored, the vehicle's own reset puts it at the origin, and on the path demo it moves on to the lap start and counts a lap; the look-ahead is 3 and the steering state cleared |
| MapDrivers.MapDriver.AdjustVehicleRadiusForSpeed | SharpSteer2.WinDemo/SharpSteer2.WinDemo/PlugIns/MapDrive/MapDriver.cs:255-260 | only the vehicle's radius changes, to the speed-adjusted radius |
| MapDrivers.MapDriver.SteerToAvoidObstaclesOnMap | SharpSteer2.WinDemo/SharpSteer2.WinDemo/PlugIns/MapDrive/MapDriver.cs:369-668 | the steering is the decided choice's vector, the nearest obstacle and scraping flag are recorded, and the hint counters advance |
| MapDrivers.MapDriver.HintWasTaken | SharpSteer2.WinDemo/SharpSteer2.WinDemo/PlugIns/MapDrive/MapDriver.cs:703-717 | the taken-hint count grows by one unless the frame's time step was zero |
| MapDrivers.MapDriver.ConvertAbsoluteToIncrementalSteering | SharpSteer2.WinDemo/SharpSteer2.WinDemo/PlugIns/MapDrive/MapDriver.cs:1433-1446 | the steering memory blends toward the curved-space steering at rate 8 per second, and is returned |
| MapDrivers.MapDriver.CollectReliabilityStatistics | SharpSteer2.WinDemo/SharpSteer2.WinDemo/PlugIns/MapDrive/MapDriver.cs:262-292 | the statistics advance as CollectedStatistics says, and stay consistent |
| MapDrivers.MapDriver.CombinedSteering | SharpSteer2.WinDemo/SharpSteer2.WinDemo/PlugIns/MapDrive/MapDriver.cs:164-224 | the steering combines the avoidance choice with path following or wandering, records the scan and counts hints |
| MapDrivers.MapDriver.DetermineSteering | SharpSteer2.WinDemo/SharpSteer2.WinDemo/PlugIns/MapDrive/MapDriver.cs:146-234 | the stuck test, the avoidance, the turning-radius override and the incremental conversion together give the tick's outcome |
| MapDrivers.MapDriver.Update | SharpSteer2.WinDemo/SharpSteer2.WinDemo/PlugIns/MapDrive/MapDriver.cs:133-253 | one frame: the radius is adjusted, the steering determined, the speed taken from the library, going in circles on the path demo marks the vehicle stuck, and the statistics collected |
| MapDrivers.MapDriver.FinishTick | SharpSteer2.WinDemo/SharpSteer2.WinDemo/PlugIns/MapDrive/MapDriver.cs:236-248 | the end of a frame: the new speed, the statistics, and the stuck flag and count when the vehicle circles on the path demo |
| MapDrivePlugIns.CenterInRange | SharpSteer2.WinDemo/SharpSteer2.WinDemo/PlugIns/MapDrive/MapDrivePlugIn.cs:419-427 | the cleared centre square's bounds lie inside the map, and strictly inside the border for a map of at least 3 cells |
| MapDrivePlugIns.PathFenceBand | SharpSteer2.WinDemo/SharpSteer2.WinDemo/PlugIns/MapDrive/MapDrivePlugIn.cs:429-454 | a cell changes only when its centre is less than one wall thickness outside the path (it becomes blocked) or more than one outside (it becomes clear); on the path or exactly at the wall's edge it keeps its value |
| MapDrivePlugIns.RegeneratedMapWalledWithClearCenter | SharpSteer2.WinDemo/SharpSteer2.WinDemo/PlugIns/MapDrive/MapDrivePlugIn.cs:337-366 | outside the path demo, every border cell of the regenerated map is blocked and every centre cell is clear |
| MapDrivePlugIns.RegeneratedPathFence | SharpSteer2.WinDemo/SharpSteer2.WinDemo/PlugIns/MapDrive/MapDrivePlugIn.cs:337-366 | on the path demo with fences, cells within one wall thickness outside the path are blocked, farther cells are clear, and cells on the path carry only the rocks outside the centre |
| MapDrivePlugIns.RedrawnEntryIsOldExit | SharpSteer2.WinDemo/SharpSteer2.WinDemo/PlugIns/MapDrive/MapDrivePlugIn.cs:347-360 | after the path radii are redrawn, the new entry segment has the old exit segment's radius, for either direction, and radius 0 is untouched |
| MapDrivePlugIns.NatDigits | SharpSteer2.WinDemo/SharpSteer2.WinDemo/PlugIns/MapDrive/MapDrivePlugIn.cs:215 | the decimal text of a number is non-empty and all digits |
| MapDrivePlugIns.DigitsRoundTrip | SharpSteer2.WinDemo/SharpSteer2.WinDemo/PlugIns/MapDrive/MapDrivePlugIn.cs:215 | reading the decimal text back gives the number |
| MapDrivePlugIns.QqqRange | SharpSteer2.WinDemo/SharpSteer2.WinDemo/PlugIns/MapDrive/MapDrivePlugIn.cs:209-216 | the status line gains a newline and the label, then "--" for the sentinel range 9999 and the truncated range otherwise |
| MapDrivePlugIns.QqqRangeReadsBack | SharpSteer2.WinDemo/SharpSteer2.WinDemo/PlugIns/MapDrive/MapDrivePlugIn.cs:209-216 | for a non-negative range other than the sentinel, the appended tail is all digits and reads back as the truncated range |
| MapDrivePlugIns.NextDemo | SharpSteer2.WinDemo/SharpSteer2.WinDemo/PlugIns/MapDrive/MapDrivePlugIn.cs:309-312 | the demo number steps by one and wraps to 0 past 2 |
| MapDrivePlugIns.NextDemoCycles | SharpSteer2.WinDemo/SharpSteer2.WinDemo/PlugIns/MapDrive/MapDrivePlugIn.cs:305-329 | the three demos cycle: each step changes the demo and three steps return to it |
| MapDrivePlugIns.ReversedDirection | SharpSteer2.WinDemo/SharpSteer2.WinDemo/PlugIns/MapDrive/MapDrivePlugIn.cs:281-284 | the reversed direction is +1 or -1, and positive exactly when the old one was not |
| MapDrivePlugIns.ReverseTwice | SharpSteer2.WinDemo/SharpSteer2.WinDemo/PlugIns/MapDrive/MapDrivePlugIn.cs:281-284 | reversing twice restores a direction of +1 or -1 |
| MapDrivePlugIns.NextColumn | SharpSteer2.WinDemo/SharpSteer2.WinDemo/PlugIns/MapDrive/MapDrivePlugIn.cs:431-450 | stepping along a row moves from one cell centre to the next |
| MapDrivePlugIns.NextRow | SharpSteer2.WinDemo/SharpSteer2.WinDemo/PlugIns/MapDrive/MapDrivePlugIn.cs:431-452 | the end-of-row step moves from just past a row's end to the first centre of the next row |
| MapDrivePlugIns.MapDrivePlugIn.constructor | SharpSteer2.WinDemo/SharpSteer2.WinDemo/PlugIns/MapDrive/MapDrivePlugIn.cs:32-43 | the plug-in as Open leaves it before its reset: one driver in the vehicle list, with path fences and random rocks on |
| MapDrivePlugIns.MapDrivePlugIn.Close | SharpSteer2.WinDemo/SharpSteer2.WinDemo/PlugIns/MapDrive/MapDrivePlugIn.cs:218-221 | the vehicle list is emptied |
| MapDrivePlugIns.MapDrivePlugIn.ClearCenterOfMap | SharpSteer2.WinDemo/SharpSteer2.WinDemo/PlugIns/MapDrive/MapDrivePlugIn.cs:419-427 | the centre square becomes clear and every other cell keeps its value |
| MapDrivePlugIns.MapDrivePlugIn.DrawBoundaryFencesOnMap | SharpSteer2.WinDemo/SharpSteer2.WinDemo/PlugIns/MapDrive/MapDrivePlugIn.cs:393-417 | the border and the two broken diagonal fences become blocked and no cell is cleared |
| MapDrivePlugIns.MapDrivePlugIn.DrawPathFencesOnMap | SharpSteer2.WinDemo/SharpSteer2.WinDemo/PlugIns/MapDrive/MapDrivePlugIn.cs:429-454 | every cell takes the path-fence value for how far its centre lies outside the path |
| MapDrivePlugIns.MapDrivePlugIn.DrawRandomClumpsOfRocksOnMap | SharpSteer2.WinDemo/SharpSteer2.WinDemo/PlugIns/MapDrive/MapDrivePlugIn.cs:368-390 | with rocks on, exactly the drawn rock cells become blocked in addition; with rocks off the map is unchanged |
| MapDrivePlugIns.MapDrivePlugIn.RedrawPathRadii | SharpSteer2.WinDemo/SharpSteer2.WinDemo/PlugIns/MapDrive/MapDrivePlugIn.cs:347-360 | each path radius becomes its redrawn value, the entry keeping the old exit's radius |
| MapDrivePlugIns.MapDrivePlugIn.RegenerateMap | SharpSteer2.WinDemo/SharpSteer2.WinDemo/PlugIns/MapDrive/MapDrivePlugIn.cs:337-366 | every cell ends as the clear-rocks-centre-fences sequence defines, and the radii are redrawn on the path demo and untouched otherwise |
| MapDrivePlugIns.MapDrivePlugIn.Reset | SharpSteer2.WinDemo/SharpSteer2.WinDemo/PlugIns/MapDrive/MapDrivePlugIn.cs:223-235 | the map is regenerated and the driver reset: at rest, not stuck, look-ahead 3, a lap counted on the path demo |
| MapDrivePlugIns.MapDrivePlugIn.ReversePathFollowDirection | SharpSteer2.WinDemo/SharpSteer2.WinDemo/PlugIns/MapDrive/MapDrivePlugIn.cs:281-284 | only the path direction changes, to its reverse |
| MapDrivePlugIns.MapDrivePlugIn.SelectNextDemo | SharpSteer2.WinDemo/SharpSteer2.WinDemo/PlugIns/MapDrive/MapDrivePlugIn.cs:305-329 | the next demo is selected, and for demos 0 to 2 the plug-in is reset |
| MapDrivePlugIns.MapDrivePlugIn.CheckStuck | SharpSteer2.WinDemo/SharpSteer2.WinDemo/PlugIns/MapDrive/MapDrivePlugIn.cs:71-76 | a stuck vehicle below 0.1% of top speed counts one more stuck event and is reset; otherwise nothing changes |
| MapDrivePlugIns.MapDrivePlugIn.Update | SharpSteer2.WinDemo/SharpSteer2.WinDemo/PlugIns/MapDrive/MapDrivePlugIn.cs:63-77 | after the driver's frame and any map regeneration on exit, the stuck count grows exactly on a reset, which leaves the vehicle free and at rest; without one, the vehicle is not both stuck and stopped |
| Trails.SampleFlag | SharpSteer2.WinLib/Trail.cs:85-87 | a sample's flag byte has bit 0 set exactly in the dotted phase and bit 1 exactly on a whole-second tick, and nothing else |
| Trails.NextSlot | SharpSteer2.WinLib/Trail.cs:99-125 | each draw step advances one slot around the ring buffer |
| Trails.StepOf | SharpSteer2.WinLib/Trail.cs:96-127 | every slot is reached at some draw step |
| Trails.DrawVisitsEverySlotOnce | SharpSteer2.WinLib/Trail.cs:96-127 | the draw loop starts at the newest sample and visits every slot of the ring exactly once |
| Trails.OpacityBounds | SharpSteer2.WinLib/Trail.cs:119-121 | every segment after the first is drawn with opacity strictly between 0.05 and 1 |
| Trails.LinesOpacity | SharpSteer2.WinLib/Trail.cs:109-123 | every drawn line has opacity in [0.05, 1], and only the segment from the current position is fully opaque |
| Trails.DrawnStepsGrow | SharpSteer2.WinLib/Trail.cs:109 | a draw step adds a line exactly when its slot's dotted bit is set |
| Trails.LinesCount | SharpSteer2.WinLib/Trail.cs:96-127 | the trail draws one line per slot whose dotted bit is set |
| Trails.Trail.constructor | SharpSteer2.WinLib/Trail.cs:37-53 | a trail of the given duration and size samples at duration / size, starts at slot 0 in dotted phase 1 with zero vertices and flags |
| Trails.Trail.Record | SharpSteer2.WinLib/Trail.cs:78-91 | once more than the sample interval has passed, the next slot takes the position and its flag and the phase flips; otherwise only the current position changes |
| Trails.Trail.Clear | SharpSteer2.WinLib/Trail.cs:132-143 | the trail is emptied: slot 0, time 0, dotted phase 1, zero vertices and flags |
| Trails.Trail.Draw | SharpSteer2.WinLib/Trail.cs:96-127 | the lines drawn are those LinesUpTo lists for the whole ring |
| DeferredDraws.DeferredLines.constructor | SharpSteer2.WinDemo/SharpSteer2.WinDemo/DeferredDraw.cs:20-27 | the line buffer starts empty |
| DeferredDraws.DeferredLines.AddToBuffer | SharpSteer2.WinDemo/SharpSteer2.WinDemo/DeferredDraw.cs:29-42 | below capacity the line is appended to the pending lines; at capacity it is dropped and nothing changes |
| DeferredDraws.DeferredLines.DrawAll | SharpSteer2.WinDemo/SharpSteer2.WinDemo/DeferredDraw.cs:44-55 | every pending line is drawn, in order, and the buffer is emptied |
| DeferredDraws.DeferredCircles.constructor | SharpSteer2.WinDemo/SharpSteer2.WinDemo/DeferredDraw.cs:68-75 | the circle buffer starts empty |
| DeferredDraws.DeferredCircles.AddToBuffer | SharpSteer2.WinDemo/SharpSteer2.WinDemo/DeferredDraw.cs:77-94 | below capacity the circle is appended to the pending circles; at capacity it is dropped and nothing changes |
| DeferredDraws.DeferredCircles.DrawAll | SharpSteer2.WinDemo/SharpSteer2.WinDemo/DeferredDraw.cs:96-107 | every pending circle is drawn, in order, and the buffer is emptied |
| Cameras.ModeAfter | SharpSteer2.WinLib/Camera.cs:426-436 | the next mode steps by one and wraps from the last mode (offset POV) to the first (fixed); from any mode at or after the start marker the result is a real mode |
| Cameras.ModeCycle | SharpSteer2.WinLib/Camera.cs:426-436 | the five modes cycle fixed, straight down, fixed distance offset, fixed local offset, offset POV, and five steps return to the start |
| Cameras.ModeName | SharpSteer2.WinLib/Camera.cs:403-423 | a mode's name is "unknown" exactly when the mode is not one of the five |
| Cameras.ModeNamesDistinct | SharpSteer2.WinLib/Camera.cs:403-423 | different modes have different names |
| Cameras.ConstantDistanceHelper | SharpSteer2.WinLib/Camera.cs:222-253 | with no horizontal offset to the target the camera stays put; with a vertical constraint the camera sits exactly that far above the target |
| Cameras.ConstantDistance | SharpSteer2.WinLib/Camera.cs:222-253 | whenever the offset is well defined and the vertical offset does not exceed the distance, the camera ends exactly the fixed distance from the target |
| Cameras.DragResult | SharpSteer2.WinLib/Camera.cs:243-251 | the new position is the target plus the unit offset scaled to the horizontal distance, plus the vertical offset |
| Cameras.UnitDragProperties | SharpSteer2.WinLib/Camera.cs:243-244 | the offset direction has unit length, and is horizontal when the vertical constraint is on |
| Cameras.Aim | SharpSteer2.WinLib/Camera.cs:145-214 | the requested view per mode: the fixed view, straight down above the predicted position, fixed distance behind it with world up, at the vehicle's local offset, or looking 10 ahead from the vehicle; the current view with no vehicle or an unknown mode |
| Cameras.SmoothedUpIsUnit | SharpSteer2.WinLib/Camera.cs:273-276 | after smoothing, the up vector is a unit vector (world up when the blend cancels out) |
| Cameras.Camera.constructor | SharpSteer2.WinLib/Camera.cs:94-97 | a new camera is in its reset state |
| Cameras.Camera.Reset | SharpSteer2.WinLib/Camera.cs:100-142 | the camera returns to its reset state |
| Cameras.Camera.SelectNextMode | SharpSteer2.WinLib/Camera.cs:426-430 | the mode becomes the next mode |
| Cameras.Camera.SmoothCameraMove | SharpSteer2.WinLib/Camera.cs:256-286 | when smoothing is on the view blends toward the requested view; otherwise it jumps there; either way smoothing is on afterwards |
| Cameras.Camera.DoNotSmoothNextMove | SharpSteer2.WinLib/Camera.cs:288-291 | the next move will not be smoothed |
| Cameras.Camera.Update | SharpSteer2.WinLib/Camera.cs:145-214 | the view moves (smoothed or not) to the aim for the current mode, leading by the aim time plus an anti-lag time that is zero while paused |
| Demos.NextPresetIndex | SharpSteer2.WinDemo/SharpSteer2.WinDemo/Demo.cs:457-480 | the preset index steps 0, 1, 2, 3 and wraps to 0 from 3 or from anything out of range |
| Demos.PresetSettings | SharpSteer2.WinDemo/SharpSteer2.WinDemo/Demo.cs:459-484 | a preset runs at a variable frame rate exactly when its fixed rate is 0, which is exactly for index 0 (or out of range); animation mode runs at 60 |
| Demos.PresetCycle | SharpSteer2.WinDemo/SharpSteer2.WinDemo/Demo.cs:453-486 | four presses return to the same preset, the order is 0, 1, 2, 3, 0, and the four presets' clock settings all differ |
| Demos.PressCount | SharpSteer2.WinDemo/SharpSteer2.WinDemo/Demo.cs:547-550 | a key counts as pressed at most once per frame |
| Demos.HeldKeyPressesOnce | SharpSteer2.WinDemo/SharpSteer2.WinDemo/Demo.cs:547-600 | a key held down over several frames counts as pressed once, and not at all if it was already down before them |
| Demos.FindIndex | SharpSteer2.WinDemo/SharpSteer2.WinDemo/Demo.cs:346 | the search returns the first index holding the vehicle, or -1 exactly when the vehicle is not in the list |
| Demos.Demo.constructor | SharpSteer2.WinDemo/SharpSteer2.WinDemo/Demo.cs:779-782 | a new demo is in the overhead phase with an empty phase stack, preset 0, no selected vehicle, no pending reset and no keys down |
| Demos.Demo.PushPhase | SharpSteer2.WinDemo/SharpSteer2.WinDemo/Demo.cs:406-422 | the current phase is saved on the stack and the new phase takes over, reporting an overflow when the stack becomes full; an index outside the stack raises instead and changes nothing else |
| Demos.Demo.PopPhase | SharpSteer2.WinDemo/SharpSteer2.WinDemo/Demo.cs:424-431 | the stack index drops by one and the phase saved there is restored; an index outside the stack raises instead |
| Demos.Demo.QueueDelayedResetPlugIn | SharpSteer2.WinDemo/SharpSteer2.WinDemo/Demo.cs:391-395 | a reset becomes pending and nothing else changes |
| Demos.Demo.DoDelayedResetPlugIn | SharpSteer2.WinDemo/SharpSteer2.WinDemo/Demo.cs:397-404 | the plug-in is reset exactly when one was pending, and afterwards none is |
| Demos.Demo.SelectNextVehicle | SharpSteer2.WinDemo/SharpSteer2.WinDemo/Demo.cs:338-366 | with a selection, the next vehicle after the first occurrence of the selected one becomes selected, wrapping to the first; a selection not in the list becomes null; no selection stays none |
| Demos.Demo.SelectNextPresetFrameRate | SharpSteer2.WinDemo/SharpSteer2.WinDemo/Demo.cs:453-486 | the preset index advances and the clock takes that preset's settings |
| Demos.Demo.IsKeyDown | SharpSteer2.WinDemo/SharpSteer2.WinDemo/Demo.cs:547-550 | a key counts as pressed only when it is down now and was not down in the previous frame |
| Demos.Demo.UpdateSelectedPlugIn | SharpSteer2.WinDemo/SharpSteer2.WinDemo/Demo.cs:368-389 | the update runs in the update phase and restores the old phase, services a pending reset, and selects the first vehicle when none is selected; an overflowing phase stack aborts the update |
| AABBoxes.InsideIsClosedInterval | SharpSteer2.WinDemo/SharpSteer2.WinDemo/PlugIns/Soccer/AABBox.cs:26-33 | a point is inside along X (or Z) exactly when its coordinate lies in the closed interval from the box's minimum to its maximum, so the corners themselves are inside |
| AABBoxes.InsideDependsOnOneAxis | SharpSteer2.WinDemo/SharpSteer2.WinDemo/PlugIns/Soccer/AABBox.cs:26-33 | each test looks only at its own coordinate |
| AABBoxes.InvertedBoxIsEmpty | SharpSteer2.WinDemo/SharpSteer2.WinDemo/PlugIns/Soccer/AABBox.cs:26-33 | a box whose minimum exceeds its maximum contains no point along that axis |
| Obstacles.TestOneObstacleOverlap | SharpSteer2.WinDemo/SharpSteer2.WinDemo/PlugIns/Ctf/CtfBase.cs:182-188 | the running minimum becomes the smaller of itself and this obstacle's clearance (centre distance minus both radii); Boid.cs repeats this code at lines 252-259 |
| Obstacles.MinClearanceIsMinimum | SharpSteer2.WinDemo/SharpSteer2.WinDemo/PlugIns/Ctf/CtfBase.cs:170-180 | the fold of TestOneObstacleOverlap over the registry is at most the start and every obstacle's clearance, and equals one of them |
| Obstacles.MinClearanceAtLeast | SharpSteer2.WinDemo/SharpSteer2.WinDemo/PlugIns/Ctf/CtfBase.cs:170-180 | when the start and every clearance reach a bound, so does the minimum |
| Obstacles.ObstacleRegistry.constructor | SharpSteer2.WinDemo/SharpSteer2.WinDemo/PlugIns/Ctf/CtfBase.cs:190-192 | the registry starts uninitialised (count -1) and empty |
| Obstacles.ObstacleRegistry.RemoveOneObstacle | SharpSteer2.WinDemo/SharpSteer2.WinDemo/PlugIns/Ctf/CtfBase.cs:161-168 | with obstacles present, the count drops by one and the last obstacle is removed; otherwise nothing changes; Boid.cs repeats this code at lines 231-238 |
| Obstacles.ObstacleRegistry.MinDistanceToObstacle | SharpSteer2.WinDemo/SharpSteer2.WinDemo/PlugIns/Ctf/CtfBase.cs:170-180 | the result is the least clearance from the point to any obstacle, the float maximum when there are none; Boid.cs repeats this code at lines 240-250 |
| CtfBases.BaseReset | SharpSteer2.WinDemo/SharpSteer2.WinDemo/PlugIns/Ctf/CtfBase.cs:31-45 | a reset vehicle has speed, top speed and force 3, is not avoiding, keeps its radius, and moves to the accepted start when one was found |
| CtfBases.AcceptedIsClear | SharpSteer2.WinDemo/SharpSteer2.WinDemo/PlugIns/Ctf/CtfBase.cs:139-153 | a candidate obstacle is accepted exactly when it clears every existing obstacle by the required clearance (twice the seeker's diameter) and does not overlap the home base |
| CtfBases.WellSpacedAppendAndTruncate | SharpSteer2.WinDemo/SharpSteer2.WinDemo/PlugIns/Ctf/CtfBase.cs:153-157 | appending an accepted candidate keeps the field well spaced, and so does removing obstacles from the end |
| CtfBases.CandidateClearance | SharpSteer2.WinDemo/SharpSteer2.WinDemo/PlugIns/Ctf/CtfBase.cs:144-151 | the do-loop's minimum clearance reaches the requirement exactly when the candidate is acceptable |
| CtfBases.FirstAcceptedDraw | SharpSteer2.WinDemo/SharpSteer2.WinDemo/PlugIns/Ctf/CtfBase.cs:140-153 | the retry loop takes the first acceptable draw, or reports that no draw was acceptable |
| CtfBases.AddOneObstacle | SharpSteer2.WinDemo/SharpSteer2.WinDemo/PlugIns/Ctf/CtfBase.cs:130-159 | below capacity, the first acceptable draw is appended and counted; otherwise nothing changes; a well-spaced field stays well spaced |
| CtfBases.InitializeObstacles | SharpSteer2.WinDemo/SharpSteer2.WinDemo/PlugIns/Ctf/CtfBase.cs:119-128 | only on first use does it add up to 40 obstacles, leaving a well-spaced field; otherwise the registry is unchanged |
| CtfBases.RandomizeStartingPosition | SharpSteer2.WinDemo/SharpSteer2.WinDemo/PlugIns/Ctf/CtfBase.cs:83-103 | an accepted start is one of the candidates and lies at least five radii clear of every obstacle; none is accepted only when every candidate is too close |
| CtfSeekers.ArriveAtBase | SharpSteer2.WinDemo/SharpSteer2.WinDemo/PlugIns/Ctf/CtfSeeker.cs:196-200 | only a running seeker changes state, and only to having reached the goal |
| CtfSeekers.TagSeeker | SharpSteer2.WinDemo/SharpSteer2.WinDemo/PlugIns/Ctf/CtfEnemy.cs:67-72 | only a running seeker changes state, and only to being tagged |
| CtfSeekers.StopIsFinal | SharpSteer2.WinDemo/SharpSteer2.WinDemo/PlugIns/Ctf/CtfSeeker.cs:193-217 | once the seeker has reached the goal or been tagged, no further arrival or tag changes its state; a seeker still running was running all along |
| CtfSeekers.LookAheadTime | SharpSteer2.WinDemo/SharpSteer2.WinDemo/PlugIns/Ctf/CtfSeeker.cs:329-345 | the avoidance look-ahead is the long time exactly when the path is clear, the seeker heads toward the goal and the goal is not near, and the short time otherwise |
| CtfSeekers.EnemyWayBehindNeverBlocks | SharpSteer2.WinDemo/SharpSteer2.WinDemo/PlugIns/Ctf/CtfSeeker.cs:100-113 | an enemy whose front lies more than twice the behind threshold behind the seeker never blocks the path |
| CtfSeekers.CtfSeeker.Reset | SharpSteer2.WinDemo/SharpSteer2.WinDemo/PlugIns/Ctf/CtfSeeker.cs:29-36 | the seeker runs again, not evading, with the base vehicle's reset state: speed, top speed and force 3, at an accepted start clear of the obstacles |
| CtfSeekers.CtfSeeker.UpdateState | SharpSteer2.WinDemo/SharpSteer2.WinDemo/PlugIns/Ctf/CtfSeeker.cs:193-217 | the seeker reaches the goal when within its radius plus the base's; while running it records the time, otherwise a reset is queued once 4 seconds have passed since it stopped |
| CtfSeekers.CtfSeeker.AdjustObstacleAvoidanceLookAhead | SharpSteer2.WinDemo/SharpSteer2.WinDemo/PlugIns/Ctf/CtfSeeker.cs:329-345 | the seeker evades exactly when the path is blocked, and the look-ahead time is LookAheadTime's |
| CtfSeekers.CtfSeeker.IsPathToGoalClear | SharpSteer2.WinDemo/SharpSteer2.WinDemo/PlugIns/Ctf/CtfSeeker.cs:62-132 | the path is clear exactly when no enemy blocks it; every enemy is checked |
| CtfSeekers.CtfSeeker.SteeringForSeeker | SharpSteer2.WinDemo/SharpSteer2.WinDemo/PlugIns/Ctf/CtfSeeker.cs:134-191 | the seeker evades exactly when some enemy blocks the path; obstacle avoidance, when it asks for anything, wins; otherwise it evades or seeks the goal |
| CtfSeekers.CtfSeeker.Update | SharpSteer2.WinDemo/SharpSteer2.WinDemo/PlugIns/Ctf/CtfSeeker.cs:39-59 | a seeker that stopped brakes and steers nowhere; a running one records the time and steers as SteeringForSeeker decides |
| CtfEnemies.MaxPredictionTime | SharpSteer2.WinDemo/SharpSteer2.WinDemo/PlugIns/Ctf/CtfEnemy.cs:37-40 | the pursuit horizon is 0 when the seeker is already within reach of the base, non-negative for a moving seeker, and undefined only when a seeker outside reach stands still |
| CtfEnemies.EnemySteerAsWritten | SharpSteer2.WinDemo/SharpSteer2.WinDemo/PlugIns/Ctf/CtfEnemy.cs:44-60 | as written, the avoiding flag is set exactly when there is nothing to avoid, while the steering is still avoidance when there is something to avoid and pursuit otherwise |
| CtfEnemies.AsWrittenAvoidingFlagIsInverted | SharpSteer2.WinDemo/SharpSteer2.WinDemo/PlugIns/Ctf/CtfEnemy.cs:49 | the as-written and corrected steering agree, but for a running seeker the avoiding flag is always inverted, for example with avoidance along X |
| CtfEnemies.EnemySteer | SharpSteer2.WinDemo/SharpSteer2.WinDemo/PlugIns/Ctf/CtfEnemy.cs:44-60 | corrected: while the seeker runs, the enemy is avoiding exactly when avoidance asks for something, then steering by avoidance and otherwise by pursuit; once the seeker stops, it brakes |
| CtfEnemies.CtfEnemy.Reset | SharpSteer2.WinDemo/SharpSteer2.WinDemo/PlugIns/Ctf/CtfEnemy.cs:27-31 | the enemy takes the base vehicle's reset state at an accepted start |
| CtfEnemies.CtfEnemy.Update | SharpSteer2.WinDemo/SharpSteer2.WinDemo/PlugIns/Ctf/CtfEnemy.cs:34-80 | the enemy steers as EnemySteer decides with the pursuit horizon, records the corrected avoiding flag, moves, and tags a running seeker that it now touches |
| ProximityDatabases.NextCycle | SharpSteer2.WinDemo/SharpSteer2.WinDemo/PlugIns/Boids/BoidsPlugIn.cs:143-144 | the next database index, computed with C#'s remainder, lands on 0 or 1 from any index at or above -1, stepping 0 to 1 and wrapping 1 to 0 |
| ProximityDatabases.CycleAlternates | SharpSteer2.WinDemo/SharpSteer2.WinDemo/PlugIns/Boids/BoidsPlugIn.cs:137-168 | from Open's -1 the cycle starts at the lattice (0), each step changes the kind, and two steps return to it |
| Selections.SelectionAfterRemoving | SharpSteer2.WinDemo/SharpSteer2.WinDemo/PlugIns/Boids/BoidsPlugIn.cs:204-220 | after removing the vehicles past position n one at a time, the selection is unchanged exactly when it is none or was not among them, and is null otherwise |
| Selections.RemovingOneMore | SharpSteer2.WinDemo/SharpSteer2.WinDemo/PlugIns/Boids/BoidsPlugIn.cs:113-120 | removing one more vehicle from the end clears the selection exactly when that vehicle was the current selection |
| Boids.NeighbourSearchRadius | SharpSteer2.WinDemo/SharpSteer2.WinDemo/PlugIns/Boids/Boid.cs:110 | the neighbour search radius is the largest of the three component radii |
| Boids.SteerToFlock | SharpSteer2.WinDemo/SharpSteer2.WinDemo/PlugIns/Boids/Boid.cs:96-144 | obstacle avoidance, whenever it asks for anything, replaces flocking; otherwise the steering is the weighted sum of separation, alignment and cohesion |
| Boids.FlockingWeights | SharpSteer2.WinDemo/SharpSteer2.WinDemo/PlugIns/Boids/Boid.cs:98-135 | while avoiding, the flockmates have no say; otherwise equal component pulls add up to 28 (12 + 8 + 8) times the pull |
| Boids.ResetHeading | SharpSteer2.WinDemo/SharpSteer2.WinDemo/PlugIns/Boids/Boid.cs:65-69 | the reset heading lies on the ground plane in the quadrant of non-negative X and Z, with the drawn direction's X and Z magnitudes |
| Boids.StartPositionNearSpawn | SharpSteer2.WinDemo/SharpSteer2.WinDemo/PlugIns/Boids/Boid.cs:72 | a start drawn from the unit sphere lies within 20 of the point 10 along X |
| Boids.ResetMotion | SharpSteer2.WinDemo/SharpSteer2.WinDemo/PlugIns/Boids/Boid.cs:49-77 | reset gives steering force 27, top speed 9 and a starting speed of 30% of it, the folded heading and the drawn start position |
| Boids.BoidWorld.constructor | SharpSteer2.WinDemo/SharpSteer2.WinDemo/PlugIns/Boids/Boid.cs:261-263 | the boids start with the steer-back boundary and an uninitialised, empty obstacle registry |
| Boids.BoidWorld.NextBoundaryCondition | SharpSteer2.WinDemo/SharpSteer2.WinDemo/PlugIns/Boids/Boid.cs:196-200 | the boundary strategy switches between steering back (0) and wrapping around (1) |
| Boids.BoidWorld.AddOneObstacle | SharpSteer2.WinDemo/SharpSteer2.WinDemo/PlugIns/Boids/Boid.cs:214-229 | below capacity the drawn obstacle is appended and counted; at capacity nothing changes |
| Boids.BoidWorld.InitializeObstacles | SharpSteer2.WinDemo/SharpSteer2.WinDemo/PlugIns/Boids/Boid.cs:203-212 | on first use the registry is filled with the 100 drawn obstacles in order; afterwards it is left alone |
| Boids.Boid.constructor | SharpSteer2.WinDemo/SharpSteer2.WinDemo/PlugIns/Boids/Boid.cs:37-46 | a new boid joins the given database and takes its reset state |
| Boids.Boid.Reset | SharpSteer2.WinDemo/SharpSteer2.WinDemo/PlugIns/Boids/Boid.cs:49-77 | the boid's motion becomes the reset state for the draws; its database is kept |
| Boids.Boid.NewPD | SharpSteer2.WinDemo/SharpSteer2.WinDemo/PlugIns/Boids/Boid.cs:182-193 | the boid moves to the given database |
| Boids.Boid.HandleBoundary | SharpSteer2.WinDemo/SharpSteer2.WinDemo/PlugIns/Boids/Boid.cs:149-173 | inside the world sphere nothing happens; outside it, strategy 0 returns the part of the seek-to-centre force across the heading, and strategy 1 moves the boid to its wrapped-around position with no force |
| Boids.Boid.Update | SharpSteer2.WinDemo/SharpSteer2.WinDemo/PlugIns/Boids/Boid.cs:86-93 | the applied steering is the flocking steering plus the boundary's: inside the world sphere flocking alone with the boid unmoved; outside it, strategy 0 adds the part of the seek toward the centre across the heading, strategy 1 adds nothing and moves the boid to the wrapped-around position |
| BoidsPlugIns.DatabaseFor | SharpSteer2.WinDemo/SharpSteer2.WinDemo/PlugIns/Boids/BoidsPlugIn.cs:137-168 | index 0 gives a bin lattice centred on the origin, 10 bins a side, spanning the world diameter plus 10%; index 1 gives brute force; no other index gives a database |
| BoidsPlugIns.BoidsPlugIn.constructor | SharpSteer2.WinDemo/SharpSteer2.WinDemo/PlugIns/Boids/BoidsPlugIn.cs:25-29 | a new plug-in has no flock and no database |
| BoidsPlugIns.BoidsPlugIn.AddBoidToFlock | SharpSteer2.WinDemo/SharpSteer2.WinDemo/PlugIns/Boids/BoidsPlugIn.cs:196-202 | a fresh boid in the current database with its reset state is appended and counted, the rest of the flock is kept, and it becomes the selection when it is the only boid |
| BoidsPlugIns.BoidsPlugIn.RemoveBoidFromFlock | SharpSteer2.WinDemo/SharpSteer2.WinDemo/PlugIns/Boids/BoidsPlugIn.cs:204-220 | with boids present, the last one is removed and the selection cleared if it was that boid; with none, nothing changes |
| BoidsPlugIns.BoidsPlugIn.Close | SharpSteer2.WinDemo/SharpSteer2.WinDemo/PlugIns/Boids/BoidsPlugIn.cs:113-120 | every boid is removed and the database dropped; the selection is cleared exactly when it was one of the boids |
| BoidsPlugIns.BoidsPlugIn.RemoveStep | SharpSteer2.WinDemo/SharpSteer2.WinDemo/PlugIns/Boids/BoidsPlugIn.cs:113-120 | one turn of Close's loop keeps the flock a prefix of the original and the selection as SelectionAfterRemoving says |
| BoidsPlugIns.BoidsPlugIn.NextPD | SharpSteer2.WinDemo/SharpSteer2.WinDemo/PlugIns/Boids/BoidsPlugIn.cs:137-168 | the database index advances, every boid moves to the new kind's database, and no boid's motion changes |
| BoidsPlugIns.BoidsPlugIn.Reset | SharpSteer2.WinDemo/SharpSteer2.WinDemo/PlugIns/Boids/BoidsPlugIn.cs:122-132 | every boid takes the reset state for its own draws |
| BoidsPlugIns.BoidsPlugIn.BuildFlock | SharpSteer2.WinDemo/SharpSteer2.WinDemo/PlugIns/Boids/BoidsPlugIn.cs:47-48 | the open loop adds one fresh boid per draw, the first becoming the selection |
| BoidsPlugIns.BoidsPlugIn.Open | SharpSteer2.WinDemo/SharpSteer2.WinDemo/PlugIns/Boids/BoidsPlugIn.cs:39-61 | the flock holds 200 fresh reset boids, the first selected, in the lattice database, and the obstacle registry is filled on first use |
| PedestrianPlugIns.ResetMotion | SharpSteer2.WinDemo/SharpSteer2.WinDemo/PlugIns/Pedestrian/Pedestrian.cs:106-142 | reset stops the pedestrian with top speed 2, force 8 and radius 0.5 at the drawn start and heading, travelling upstream (-1) exactly when the coin exceeds one half and downstream (+1) otherwise |
| PedestrianPlugIns.Pedestrian.constructor | SharpSteer2.WinDemo/SharpSteer2.WinDemo/PlugIns/Pedestrian/Pedestrian.cs:95-103 | a new pedestrian joins the given database and takes its reset state |
| PedestrianPlugIns.Pedestrian.Reset | SharpSteer2.WinDemo/SharpSteer2.WinDemo/PlugIns/Pedestrian/Pedestrian.cs:106-142 | the pedestrian's motion becomes the reset state for the draws; its database is kept |
| PedestrianPlugIns.Pedestrian.NewPD | SharpSteer2.WinDemo/SharpSteer2.WinDemo/PlugIns/Pedestrian/Pedestrian.cs:251-262 | the pedestrian moves to the given database |
| PedestrianPlugIns.DatabaseFor | SharpSteer2.WinDemo/SharpSteer2.WinDemo/PlugIns/Pedestrian/PedestrianPlugIn.cs:252-269 | index 0 gives a bin lattice centred on the origin, 80 a side, with 20 bins along X and Z and one along Y; index 1 gives brute force; no other index gives a database |
| PedestrianPlugIns.LatticeIsFlat | SharpSteer2.WinDemo/SharpSteer2.WinDemo/PlugIns/Pedestrian/PedestrianPlugIn.cs:256-261 | the lattice's bins span its whole height and are 4 by 4 across |
| PedestrianPlugIns.PedestrianPlugIn.constructor | SharpSteer2.WinDemo/SharpSteer2.WinDemo/PlugIns/Pedestrian/PedestrianPlugIn.cs:25-29 | a new plug-in has no crowd and no database |
| PedestrianPlugIns.PedestrianPlugIn.AddPedestrianToCrowd | SharpSteer2.WinDemo/SharpSteer2.WinDemo/PlugIns/Pedestrian/PedestrianPlugIn.cs:216-222 | a fresh pedestrian in the current database with its reset state is appended and counted, the rest of the crowd is kept, and it becomes the selection when it is the only one |
| PedestrianPlugIns.PedestrianPlugIn.RemovePedestrianFromCrowd | SharpSteer2.WinDemo/SharpSteer2.WinDemo/PlugIns/Pedestrian/PedestrianPlugIn.cs:224-240 | with pedestrians present, the last one is removed and the selection cleared if it was that pedestrian; with none, nothing changes |
| PedestrianPlugIns.PedestrianPlugIn.Close | SharpSteer2.WinDemo/SharpSteer2.WinDemo/PlugIns/Pedestrian/PedestrianPlugIn.cs:169-173 | every pedestrian is removed and the selection is cleared exactly when it was one of them |
| PedestrianPlugIns.PedestrianPlugIn.RemoveStep | SharpSteer2.WinDemo/SharpSteer2.WinDemo/PlugIns/Pedestrian/PedestrianPlugIn.cs:169-173 | one turn of Close's loop keeps the crowd a prefix of the original and the selection as SelectionAfterRemoving says |
| PedestrianPlugIns.PedestrianPlugIn.Reset | SharpSteer2.WinDemo/SharpSteer2.WinDemo/PlugIns/Pedestrian/PedestrianPlugIn.cs:175-185 | every pedestrian takes the reset state for its own draws |
| PedestrianPlugIns.PedestrianPlugIn.NextPD | SharpSteer2.WinDemo/SharpSteer2.WinDemo/PlugIns/Pedestrian/PedestrianPlugIn.cs:245-276 | the database index advances, every pedestrian moves to the new kind's database, and no pedestrian's motion changes |
| PedestrianPlugIns.PedestrianPlugIn.BuildCrowd | SharpSteer2.WinDemo/SharpSteer2.WinDemo/PlugIns/Pedestrian/PedestrianPlugIn.cs:42-43 | the open loop adds one fresh pedestrian per draw, the first becoming the selection |
| PedestrianPlugIns.PedestrianPlugIn.Open | SharpSteer2.WinDemo/SharpSteer2.WinDemo/PlugIns/Pedestrian/PedestrianPlugIn.cs:35-57 | the crowd holds 100 fresh pedestrians, each with the reset state for its draw and all in the lattice database, with the cycle index at 0 |
| PlugIns.PlugIn.constructor | SharpSteer2.WinLib/PlugIn.cs:33-37 | a new plug-in keeps its name, sort key and initial-selection request and is appended to the registry's entries, the free slots unchanged |
| PlugIns.PlugIn.AddToRegistry | SharpSteer2.WinLib/PlugIn.cs:147-151 | the plug-in fills the first free slot: the entries grow by exactly this plug-in and nothing else in the table changes |
| PlugIns.PlugIn.Next | SharpSteer2.WinLib/PlugIn.cs:59-70 | for the first slot holding this plug-in, the result is the entry after it, wrapping to the first entry from the last; a plug-in not registered gets null |
| PlugIns.Registry.constructor | SharpSteer2.WinLib/PlugIn.cs:155-157 | a new registry of 1000 slots has no entries |
| PlugIns.Registry.FindByNameAsWritten | SharpSteer2.WinLib/PlugIn.cs:81-94 | the lookup as written, whose test at line 89 needs the stored name to be empty, returns null for every name |
| PlugIns.Registry.FindByName | SharpSteer2.WinLib/PlugIn.cs:81-94 | null exactly when the name is empty or no entry bears it; otherwise the first entry bearing it |
| PlugIns.Registry.ApplyToAll | SharpSteer2.WinLib/PlugIn.cs:97-103 | the callback is applied to every entry in registry order, one result per entry |
| PlugIns.Registry.FindDefault | SharpSteer2.WinLib/PlugIn.cs:131-144 | null exactly when the registry is empty; otherwise the first entry requesting initial selection, or the first entry when none requests it |
| PlugIns.Registry.SortBySelectionOrder | SharpSteer2.WinLib/PlugIn.cs:106-128 | the entries end up a permutation of the originals in non-decreasing sort-key order, and the free slots are untouched |
| PlugIns.Registry.SinkSmallest | SharpSteer2.WinLib/PlugIn.cs:115-126 | one outer pass leaves the smallest key of the unsorted tail at its head, keeps the sorted prefix and permutes the table |
| PlugIns.Registry.Swap | SharpSteer2.WinLib/PlugIn.cs:122-124 | the two slots are exchanged and nothing else changes |

## Left out

- Drawing and annotation (Draw.cs, the `Draw`/`Redraw`/`Annotate*` methods and every annotation call) are no-ops in the source's logic and are not modelled; `Trail.Draw` and the deferred buffers' `DrawAll` are modelled by the sequence of lines they hand over.
- The XNA game loop, input polling, the real-time clock and the demo's phase timers (`UpdatePhaseTimers`, Clock.cs) are not part of this model; key states and times arrive as parameters.
- Random draws (start positions and headings, obstacle centres and radii, rocks, path radii, the pedestrian's direction coin) arrive as parameters chosen by the caller.
- Floating point is modelled as `real`: rounding, overflow and `float.MaxValue` arithmetic are not captured; `sqrt`, `sin` and `cos` arrive as parameters (`sqrt` constrained by `IsSqrt`).
- Library code that is not part of this model arrives as parameters or values: SimpleVehicle's `ApplySteeringForce`/`ApplyBrakingForce`/`Curvature`, the SteerLibrary behaviours, PolylinePathway's `PointToSegmentDistance`/`HowFarOutsidePath`, `LocalSpace` and `GlobalizePosition`, and the proximity databases (a datatype naming the kind and its lattice).
- The demos that only delegate to the library (soccer apart from AABBox, low-speed turn, one-turning, multiple pursuit) are not part of this model; Pedestrian.cs is modelled only as the state its `Reset` sets and its `NewPD`.
- Camera's `MouseAdjust*` methods and the `LocalSpace` state under the camera are not modelled; `Camera.Reset` resets that local space to the origin with the global up.
- The plug-ins' `HandleFunctionKeys` switches (F1-F5) and the camera calls in `Open`/`Reset` are not modelled; the operations the keys call are.
- The default `PlugIn.Reset` (Close, then Open) is not modelled on its own: Close and Open are abstract there, and every modelled plug-in overrides `Reset`.
- PlugIns.PlugIn.AddToRegistry: requires a free slot; the source's 1001st registration throws an index exception, which is not modelled (the same holds for `PlugIns.PlugIn.constructor`).
- PlugIns.Registry.SortBySelectionOrder: the ensures states a sorted permutation; which of several entries with equal keys comes first is not stated.
- TerrainMaps.TerrainMap.SetMapBit: requires an in-range cell, as every caller passes one; an out-of-range address would throw in the source.
- TerrainMaps.TerrainMap.constructor: requires positive sizes and resolution; the source divides by them.
- Routes.GCRoute.constructor: requires the input arrays to hold the points and radii it copies; shorter arrays would throw in the source.
- MapDrivers.MapDriver.SteerToAvoidObstaclesOnMap: requires a positive top speed, since the relative speed divides by it (the same holds for the driver's other members that use the relative speed).
- Cameras.Camera.Update: requires a non-zero smoothing speed (Reset sets 1.5); the source divides by it for the anti-lag time.
- Trails.Trail.constructor: requires a positive vertex count; the source divides by it.
- MapDrivePlugIns.MapDrivePlugIn.constructor: requires a path of at least two points, as the source's path always has.
- TerrainMaps.TerrainMap.ScanLocalXZRectangle: reads the map through the corrected cell lookup of the Findings table, so a sample lying exactly on the map's +x or +z edge reads the last column or row, where the source reads the next row or, at the far corner, throws.
- TerrainMaps.TerrainMap.ScanXZray: reads the map through the corrected cell lookup, with the same difference from the source on samples exactly on the +x or +z edge.
- TerrainMaps.TerrainMap.IsPassable: negates the corrected `GetMapValue`, not the as-written lookup; the two differ only on the +x and +z edges.
- MapDrivers.ScanObstacleMap: tests the corrected `IsPassable`, so it differs from the source only on an arc sample exactly on the map's +x or +z edge (the same holds for `MapDrivers.FirstBlockedIsFirst`).
- CtfEnemies.CtfEnemy.Update: records the corrected avoiding flag (`avoidance != Zero`), where the source stores the inverted one (see Findings); the steering chosen is the same, and nothing in the source reads the enemy's flag.
- CtfBases.InitializeObstacles: a batch with no acceptable candidate is skipped, so 40 is an upper bound on the obstacles added; the source retries forever.
- CtfBases.RandomizeStartingPosition: returns None where the source would recurse without end for lack of a clear position.
- CtfEnemies.MaxPredictionTime: returns None where the source divides by a zero seeker speed.
- Boids.BoidWorld.AddOneObstacle: requires a count of at least zero; its only caller sets the count to zero first.
- BoidsPlugIns.BoidsPlugIn.Open: requires an empty flock, since Open only runs on a closed plug-in and the source sets the population to zero without clearing the list (the same holds for `PedestrianPlugIns.PedestrianPlugIn.Open`).
- BoidsPlugIns.BoidsPlugIn.AddBoidToFlock: requires a database, which the source dereferences (the same holds for `PedestrianPlugIns.PedestrianPlugIn.AddPedestrianToCrowd`).
- The boid's own `base.Reset`, its basis regeneration (the forward vector is the drawn heading), spherical wrap-around, proximity tokens and steering behaviours arrive as values.
- The map driver's own vehicle reset (SimpleVehicle's `Reset`, not part of this model) is modelled only as putting the vehicle at the origin; the fields it sets that the driver's `Reset` then overwrites are not modelled, nor are the heading and the mass.
- MapDriver's sensing and per-tick inputs (the library steering, curvature and path queries, `HandleExitFromMap`) arrive as a `Tick` value.

## Findings

| source | as written | input that shows it | evidently intended | confidence | as-written member | corrected member |
|---|---|---|---|---|---|---|
| SharpSteer2.WinLib/Vec3.cs:347-380 | `FindPerpendicularIn3d` compares the signed projections of the direction on the axes, so a direction with a large negative component picks that axis | direction (-1, 0, 0): the x axis is chosen and the perpendicular component is zero | compare the absolute projections, picking the axis least parallel to the direction | not executed | Vectors.AsWrittenLosesNegativeX | Vectors.LeastParallelAxis |
| SharpSteer2.WinDemo/SharpSteer2.WinDemo/PlugIns/MapDrive/TerrainMap.cs:76-79 | a point exactly on the +x or +z edge maps to the cell index equal to the resolution | the point center + (xSize/2, 0, -zSize/2) reads cell (0, 1); the corner center + (xSize/2, 0, zSize/2) addresses one past the end of the map | the + edges belong to the last column and row | not executed | TerrainMaps.TerrainMap.AsWrittenPlusXEdgeReadsNextRow | TerrainMaps.TerrainMap.GetMapValueProperties |
| SharpSteer2.WinDemo/SharpSteer2.WinDemo/PlugIns/Ctf/CtfEnemy.cs:49 | `Avoiding` is set to whether the avoidance vector is zero | a running seeker and an avoidance vector (1, 0, 0): the enemy steers to avoid yet reports it is not avoiding | `Avoiding` is true exactly when the avoidance vector is non-zero, as for the seeker | not executed | CtfEnemies.AsWrittenAvoidingFlagIsInverted | CtfEnemies.EnemySteer |
| SharpSteer2.WinLib/PlugIn.cs:89 | `FindByName` matches only a stored name that is empty and equal to the non-empty argument | a registry holding a plug-in named "Boids", searched for "Boids", returns null | match a non-empty stored name equal to the argument | not executed | PlugIns.Registry.FindByNameAsWritten | PlugIns.Registry.FindByName |
