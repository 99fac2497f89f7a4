# HorseCity spline roads and game-state machines, in Dafny

This project models the part of the HorseCity Unity game that holds its own logic:

- the spline road system:
  - the arc-length sampled Catmull-Rom `SplinePath`;
  - the Bézier `RoadSpline` and the strip mesh `RoadMeshGenerator` builds along it;
  - the `SplineTraveler` that rides a path;
  - the `LaneSwitcher` and the older `SplinePathManager`;
- the traffic `CarController`;
- the small per-entity state machines that each frame drives:
  - `LivesCounter`, `GameManager`, `AppleCounter`;
  - the rank logic of `ResultsUI`;
  - the speed ramp, jump guard and death sequence of `HorseAnimationController`.

Conventions the whole model follows:

- `float` is `real`, and `Vector3` is a triple of reals (`geometry.dfy`).
- The Euclidean norm and `normalized` need a square root. They are parameters: a `Geometry` value whose norm is never negative.
- `Time.time` and `Time.deltaTime` are the parameters `now` and `dt`.
- C# events are append-only logs of the notifications made, in order.
- Static members live in a separate statics object (`GameStatics`, `LivesStatics`, `AppleStatics`).
- Components found with `GetComponent` are constructor arguments.

Each source file keeps its own form:

- **Pure code** becomes functions and lemmas: the curve evaluators, the rank classification, the lookups by distance.
- **Code that changes objects** becomes classes whose methods modify their fields: traveler, lane switcher, path manager, car, horse, counters, game manager.
- **Loops** become methods with loop invariants, proved against a specification function:
  - sampling a path, built as `CumulativeTable` over `SplinePoints`;
  - the 101-probe search, picking the `FirstStrictMin` of `ProbeGaps`;
  - nearest-path snapping;
  - the path-list search and filter;
  - the mesh builder, a fold of `AddSample` over `MeshSamples`.
- The road mesh's five running locals (three lists, the running length, the previous position) are one `Buffers` value.
- The guards `CanSwitchLanes`, `CanSwitchToLeftLane` and `CanSwitchToRightLane` of both lane controllers are boolean functions, each with its own contract, that the method contracts use. `Approximately` is a predicate.

## Model

Helper functions and arithmetic or sequence lemmas that only serve other proofs (for example `Horses.ApproachN`, `Horses.Travel`, `Horses.TravelIsProduct`, `Horses.RealMulSucc`, `Horses.Abs`, `SplinePaths.MulSucc`, `SplinePaths.PositionInBracket`, `SplinePaths.PositionLookup`, `SplinePaths.DirectionLookup`, `RoadMeshes.WindowTrace`) have no row.

| member | source | states |
|---|---|---|
| Geometry.Clamp | Assets/scripts/Road/SplineTraveler.cs:274 | `Mathf.Clamp` lands in [lo, hi] whenever lo ≤ hi, and leaves a value already inside unchanged |
| Geometry.Clamp01 | Assets/scripts/Road/SplinePathManager.cs:90 | the result is in [0, 1], and a value already in [0, 1] is unchanged |
| Geometry.Lerp | Assets/scripts/Road/SplinePath.cs:129 | `Vector3.Lerp` clamps its parameter: t ≤ 0 gives the start point, t ≥ 1 the end point |
| Geometry.Distance | Assets/scripts/Road/SplinePath.cs:93 | `Vector3.Distance` is never negative |
| SplinePaths.CatmullRomWeights | Assets/scripts/Road/SplinePath.cs:103-108 | the four Catmull-Rom weights sum to 1 for every t; at t = 0 only c1 is non-zero (it is 1), at t = 1 only c2 |
| SplinePaths.EvaluateCatmullRom | Assets/scripts/Road/SplinePath.cs:101-110 | the curve passes through p1 at t = 0 and through p2 at t = 1 |
| SplinePaths.CatmullRomTranslation | Assets/scripts/Road/SplinePath.cs:101-110 | moving all four points by v moves the evaluated point by v, so a translating `TransformPoint` commutes with evaluation |
| SplinePaths.SegmentWindow | Assets/scripts/Road/SplinePath.cs:58-83 | the three branches (first, last, middle segment) all pick (cp[i−1], cp[i], cp[i+1], cp[i+2]) with out-of-range neighbours clamped into the list; a two-point path takes the first branch with p3 = cp[1] |
| SplinePaths.WindowSamples | Assets/scripts/Road/SplinePath.cs:88-91 | one window contributes `segmentsPerCurve` points (none when that is ≤ 0), and the last of them is the window's p2 |
| SplinePaths.WindowPoint | Assets/scripts/Road/SplinePath.cs:90-91 | the sample at j = segmentsPerCurve is exactly the window's p2 |
| SplinePaths.AppendWindowSamples | Assets/scripts/Road/SplinePath.cs:85-97 | the inner loop leaves the table equal to the cumulative table of all points so far plus the window's samples; the running total equals the table's last distance |
| SplinePaths.AppendPoint | Assets/scripts/Road/SplinePath.cs:93-96 | one pass of the inner loop keeps the table the cumulative table of the points so far, with the new point and total last |
| SplinePaths.SplinePoints | Assets/scripts/Road/SplinePath.cs:51-52 | the sampled points start with the first control point |
| SplinePaths.SplinePointsLength | Assets/scripts/Road/SplinePath.cs:55-97 | after m windows there are 1 + m·segmentsPerCurve points |
| SplinePaths.SplinePointsPrefix | Assets/scripts/Road/SplinePath.cs:55-98 | later windows only append: the points of the first k windows are a prefix of those of the first m ≥ k |
| SplinePaths.SplinePointsLast | Assets/scripts/Road/SplinePath.cs:88-96 | after m windows the last point is control point m |
| SplinePaths.CumulativeTable | Assets/scripts/Road/SplinePath.cs:52-53 | the table has one entry per point, entry k holds point k, and the first distance is 0 |
| SplinePaths.CumulativeStep | Assets/scripts/Road/SplinePath.cs:93-95 | each distance is the previous distance plus the distance between the two consecutive points |
| SplinePaths.CumulativeAppend | Assets/scripts/Road/SplinePath.cs:93-95 | appending a point appends one entry at the previous total plus the new step and keeps every earlier entry |
| SplinePaths.TableStep | Assets/scripts/Road/SplinePath.cs:93-95 | the table of one more point is the old table plus (point, last distance + step) |
| SplinePaths.CumulativeNonDecreasing | Assets/scripts/Road/SplinePath.cs:93-95 | cumulative distances never decrease |
| SplinePaths.GeneratedTableWellFormed | Assets/scripts/Road/SplinePath.cs:37-98 | with n ≥ 2 control points the table has 1 + (n−1)·segmentsPerCurve entries, starts at 0, never decreases and ends at `totalLength` |
| SplinePaths.GeneratedLengthNonNegative | Assets/scripts/Road/SplinePath.cs:48 | a generated total length is never negative, given a non-negative previous length |
| SplinePaths.SplinePointsPassThrough | Assets/scripts/Road/SplinePath.cs:60-91 | sampled point k·segmentsPerCurve is control point k |
| SplinePaths.GeneratedPassesThroughControlPoints | Assets/scripts/Road/SplinePath.cs:60-97 | table entry k·segmentsPerCurve holds control point k |
| SplinePaths.PointOfTable | Assets/scripts/Road/SplinePath.cs:94 | entry i of the table holds sampled point i |
| SplinePaths.FindSegment | Assets/scripts/Road/SplinePath.cs:119-131 | the scan returns the first i with distance ≤ dist[i+1], and finds none exactly when every later distance is smaller |
| SplinePaths.PositionAt | Assets/scripts/Road/SplinePath.cs:112-134 | an empty table gives the owner's position, and a one-sample table always gives that sample |
| SplinePaths.DirectionAt | Assets/scripts/Road/SplinePath.cs:136-161 | below two samples the owner's forward axis; otherwise always the normalised difference of some consecutive pair of samples, the last pair when the scan finds none |
| SplinePaths.PositionAtClamps | Assets/scripts/Road/SplinePath.cs:116 | a distance outside [0, totalLength] gives the same position as the clamped distance |
| SplinePaths.PositionAtZero | Assets/scripts/Road/SplinePath.cs:114-130 | on a well-formed table, distance 0 gives the first sampled point |
| SplinePaths.LookupFindsBracket | Assets/scripts/Road/SplinePath.cs:119-133 | on a well-formed table with two or more samples every clamped distance is bracketed, so the fallback after the loop is never reached |
| SplinePaths.LookupsShareBracket | Assets/scripts/Road/SplinePath.cs:112-161 | the direction is the normalised difference of the same pair whose lerp gives the position, and the lerp parameter lies in [0, 1] |
| SplinePaths.PositionAtSampleDistance | Assets/scripts/Road/SplinePath.cs:112-133 | when distances strictly increase, looking up a sample's own distance returns that sample |
| SplinePaths.SplinePath.constructor | Assets/scripts/Road/SplinePath.cs:7-29 | field defaults (lane width 3.5, no links), then `Awake` builds the table from the control points |
| SplinePaths.SplinePath.GenerateSplinePoints | Assets/scripts/Road/SplinePath.cs:37-99 | the table becomes the cumulative table of the sampled windows (empty with fewer than two points), and the total becomes its last distance; the old total survives when the table is empty |
| SplinePaths.SplinePath.GetPositionAtDistance | Assets/scripts/Road/SplinePath.cs:112-134 | the owner's position for an empty table; on a well-formed table, the first sample for any distance ≤ 0, and with two or more samples the scan always finds a bracketing pair and the result lies on that pair's segment, at a parameter in [0, 1] |
| SplinePaths.SplinePath.GetDirectionAtDistance | Assets/scripts/Road/SplinePath.cs:136-161 | the forward axis below two samples; on a well-formed table of two or more samples, the normalised difference of the same bracketing pair that `GetPositionAtDistance` uses |
| SplinePaths.SplinePath.GetTotalLength | Assets/scripts/Road/SplinePath.cs:163-166 | returns the stored total length |
| SplinePaths.SplinePath.GetNextPath | Assets/scripts/Road/SplinePath.cs:168-171 | returns the stored next link unchanged |
| SplinePaths.SplinePath.GetPreviousPath | Assets/scripts/Road/SplinePath.cs:173-176 | returns the stored previous link unchanged |
| SplinePaths.SplinePath.GetLeftLane | Assets/scripts/Road/SplinePath.cs:178-181 | returns the stored left-lane link unchanged |
| SplinePaths.SplinePath.GetRightLane | Assets/scripts/Road/SplinePath.cs:183-186 | returns the stored right-lane link unchanged |
| Travelers.BoundaryReached | Assets/scripts/Road/SplineTraveler.cs:76-97 | the end event fires iff moving forward and the stepped distance ≥ length; the start event fires iff moving backward and it is ≤ 0 |
| Travelers.TickDistance | Assets/scripts/Road/SplineTraveler.cs:74-99 | after a tick the distance lies in [0, length] on a path of non-negative length |
| Travelers.ClampOnlyAtBoundary | Assets/scripts/Road/SplineTraveler.cs:81-99 | from inside the path, with a non-negative step, the final clamp changes the distance only on a tick that fires a boundary event |
| Travelers.EndEventIffAtEnd | Assets/scripts/Road/SplineTraveler.cs:81-99 | going forward, the end event fires exactly when the tick leaves the traveler at the path's length |
| Travelers.StartEventIffAtStart | Assets/scripts/Road/SplineTraveler.cs:92-99 | going backward on a path of positive length, the start event fires exactly when the tick leaves the traveler at 0 |
| Travelers.Oriented | Assets/scripts/Road/SplineTraveler.cs:321-326 | the path direction is kept going forward and negated going backward |
| Travelers.ProbeDistanceInRange | Assets/scripts/Road/SplineTraveler.cs:234-238 | the 101 probe distances i·L/100 lie in [0, L]; the first is 0 and the last is L |
| Travelers.FirstStrictMin | Assets/scripts/Road/SplineTraveler.cs:242-246 | the "replace when strictly smaller" scan from a bound finds the earliest minimum below the bound: no earlier element is ≤ it and no element is smaller; it finds nothing iff no element is below the bound |
| Travelers.ProbeGaps | Assets/scripts/Road/SplineTraveler.cs:235-240 | one gap per probe, 101 in all |
| Travelers.ClosestDistanceInRange | Assets/scripts/Road/SplineTraveler.cs:217-255 | the search returns 0 for a path of length ≤ 0 and a distance in [0, L] otherwise |
| Travelers.ClosestDistanceIsNearestProbe | Assets/scripts/Road/SplineTraveler.cs:235-247 | the chosen distance's point is at least as near to the position as every probe's point |
| Travelers.SnapChoice | Assets/scripts/Road/SplineTraveler.cs:163-180 | a chosen candidate index lies within the candidate list |
| Travelers.RebuiltTwice | Assets/scripts/Road/SplineTraveler.cs:146-156 | checking and rebuilding a path that occurs twice among the candidates changes nothing the second time |
| Travelers.SplineTraveler.constructor | Assets/scripts/Road/SplineTraveler.cs:5-17 | serialized defaults: no path, speed 10, forward, distance 0, not moving, nothing announced |
| Travelers.SplineTraveler.SetIsTravelingForward | Assets/scripts/Road/SplineTraveler.cs:282-285 | stores the direction flag |
| Travelers.SplineTraveler.SetTravelSpeed | Assets/scripts/Road/SplineTraveler.cs:34-38 | stores the speed |
| Travelers.SplineTraveler.SetDistance | Assets/scripts/Road/SplineTraveler.cs:270-280 | clamps into [0, length] with a path and stores the raw value without one |
| Travelers.SplineTraveler.SetSplinePath | Assets/scripts/Road/SplineTraveler.cs:257-268 | the path is assigned first, so the distance is clamped to the new path; the pose becomes that path's point and oriented direction, and with a null path the pose is untouched |
| Travelers.SplineTraveler.StartMoving | Assets/scripts/Road/SplineTraveler.cs:287-302 | without a path nothing changes and nothing is announced; with one the traveler moves and `OnStartedMoving` fires once |
| Travelers.SplineTraveler.StopMoving | Assets/scripts/Road/SplineTraveler.cs:304-313 | always stops and always announces `OnStoppedMoving`, even when already stopped |
| Travelers.SplineTraveler.Advance | Assets/scripts/Road/SplineTraveler.cs:74-97 | the distance moves by ±speed·dt and the boundary event, if any, is announced |
| Travelers.SplineTraveler.FinishMove | Assets/scripts/Road/SplineTraveler.cs:84-99 | after a boundary event the traveler stops and announces it; the distance is then clamped to the length of the path it is on by then |
| Travelers.SplineTraveler.MoveAlongSpline | Assets/scripts/Road/SplineTraveler.cs:72-100 | one tick leaves the clamped stepped distance and stops on a boundary; the log gains the boundary event followed by the stop event |
| Travelers.SplineTraveler.Update | Assets/scripts/Road/SplineTraveler.cs:64-70 | a stopped traveler or one without a path is unchanged; otherwise exactly one tick happens |
| Travelers.SplineTraveler.GetCurrentPosition | Assets/scripts/Road/SplineTraveler.cs:315-319 | the transform position without a path, else the path's point at the current distance |
| Travelers.SplineTraveler.GetCurrentDirection | Assets/scripts/Road/SplineTraveler.cs:321-326 | the transform forward without a path, else the path direction, negated when travelling backward |
| Travelers.SplineTraveler.FindClosestDistanceOnSpline | Assets/scripts/Road/SplineTraveler.cs:217-255 | returns 0 for a path of length ≤ 0, else the distance of the first of the 101 probes whose point is strictly nearest |
| Travelers.SplineTraveler.RegenerateEmptyPaths | Assets/scripts/Road/SplineTraveler.cs:146-156 | every candidate of length ≤ 0 is rebuilt, even one listed twice; every other candidate is untouched |
| Travelers.SplineTraveler.RegenerateNext | Assets/scripts/Road/SplineTraveler.cs:146-156 | one step of that loop extends the set of checked candidates by the next one |
| Travelers.SplineTraveler.RegenerateIfEmpty | Assets/scripts/Road/SplineTraveler.cs:148-151 | a path of length ≤ 0 is rebuilt, any other is left alone |
| Travelers.SplineTraveler.ChooseNearestPath | Assets/scripts/Road/SplineTraveler.cs:158-180 | picks the earliest candidate whose probed point is strictly nearest, with its probed distance, or null and 0 when none is nearer than `float.MaxValue` |
| Travelers.SplineTraveler.ConsiderPath | Assets/scripts/Road/SplineTraveler.cs:165-179 | one candidate replaces the best so far exactly when it is strictly nearer |
| Travelers.SplineTraveler.MeasurePath | Assets/scripts/Road/SplineTraveler.cs:165-167 | a candidate's probed distance and the gap from the position to its point |
| Travelers.SplineTraveler.FindAndSnapToNearestPath | Assets/scripts/Road/SplineTraveler.cs:129-194 | no candidates: nothing changes; otherwise empty paths are rebuilt and the traveler is put on the chosen path at its probed distance (clamped), or left alone when none was chosen |
| Travelers.SplineTraveler.SnapToNearest | Assets/scripts/Road/SplineTraveler.cs:182-184 | the chosen path, if any, becomes the traveler's, through `SetSplinePath` |
| Travelers.SplineTraveler.ForceSnapToNearestPath | Assets/scripts/Road/SplineTraveler.cs:196-215 | snaps as above after forgetting the current path; the old path comes back only when no path was chosen |
| Travelers.SnapDistanceUnclamped | Assets/scripts/Road/SplineTraveler.cs:184 | on a path of non-negative length the snap's clamp keeps the probed distance |
| Lanes.LaneSwitcher.constructor | Assets/scripts/Road/LaneSwitcher.cs:6-16 | serialized defaults: duration 0.5, cooldown 0.3, no switch in progress, timer 0, no target |
| Lanes.LaneSwitcher.StartLaneSwitch | Assets/scripts/Road/LaneSwitcher.cs:89-108 | starts exactly when `CanSwitchLanes` holds; then it records the start position, targets the lane, resets the timer, restarts the cooldown at `now` and announces once; otherwise nothing changes. The target lane's control points are not checked |
| Lanes.LaneSwitcher.TrySwitchToLeftLane | Assets/scripts/Road/LaneSwitcher.cs:40-51 | succeeds exactly when the guard holds and the current path has a left lane, switching to that lane; a failure changes nothing |
| Lanes.LaneSwitcher.TrySwitchToRightLane | Assets/scripts/Road/LaneSwitcher.cs:53-64 | succeeds exactly when the guard holds and the current path has a right lane, switching to that lane; a failure changes nothing |
| Lanes.LaneSwitcher.UpdateSwitchAnimation | Assets/scripts/Road/LaneSwitcher.cs:127-146 | the position is the lerp from the start position to the target lane's point at the traveler's current distance; no target, no change |
| Lanes.LaneSwitcher.CompleteLaneSwitch | Assets/scripts/Road/LaneSwitcher.cs:148-166 | puts the traveler on the target lane at its current distance clamped to that lane, without re-projecting its position, and sets its position and facing to that lane's point and oriented direction there; clears the switch and announces the new path; with no target it changes nothing |
| Lanes.LaneSwitcher.UpdateLaneSwitch | Assets/scripts/Road/LaneSwitcher.cs:110-125 | the timer grows by dt; below progress 1 the position blends, the facing is kept and the switch continues; at progress ≥ 1 the switch completes with the path, distance, position and facing `CompleteLaneSwitch` gives |
| Lanes.LaneSwitcher.Update | Assets/scripts/Road/LaneSwitcher.cs:32-38 | steps only a switch in progress, without looking at whether the traveler moves, with the traveler's new state as `UpdateLaneSwitch` gives it, and ends it exactly when progress reaches 1; with no switch in progress nothing changes |
| Lanes.LaneSwitcher.GetCurrentLane | Assets/scripts/Road/LaneSwitcher.cs:170-173 | the traveler's path, or null without a traveler |
| Lanes.LaneSwitcher.GetLeftLane | Assets/scripts/Road/LaneSwitcher.cs:175-179 | non-null exactly when there is a current lane with a left neighbour, which is then returned |
| Lanes.LaneSwitcher.GetRightLane | Assets/scripts/Road/LaneSwitcher.cs:181-185 | non-null exactly when there is a current lane with a right neighbour, which is then returned |
| Lanes.LaneSwitcher.CanSwitchLanes | Assets/scripts/Road/LaneSwitcher.cs:66-73 | true exactly when there is a traveler, it is moving, no switch is in progress and the cooldown since the last switch's start has elapsed |
| Lanes.LaneSwitcher.CanSwitchToLeftLane | Assets/scripts/Road/LaneSwitcher.cs:75-80 | true exactly when `CanSwitchLanes` holds and the traveler's path has a left neighbour; so never during the cooldown |
| Lanes.LaneSwitcher.CanSwitchToRightLane | Assets/scripts/Road/LaneSwitcher.cs:82-87 | true exactly when `CanSwitchLanes` holds and the traveler's path has a right neighbour; so never during the cooldown |
| Lanes.CompletionIffTimerReachesDuration | Assets/scripts/Road/LaneSwitcher.cs:112-115 | progress ≥ 1 holds exactly when the timer has reached the duration |
| Lanes.SwitchAllowedAfterCompletion | Assets/scripts/Road/LaneSwitcher.cs:66-73 | the cooldown runs from a switch's start, so with cooldown ≤ duration a moving traveler may switch again as soon as the last switch has finished |
| PathManagers.EaseInOut | Assets/scripts/Road/SplinePathManager.cs:13 | the default ease curve maps 0 to 0 and 1 to 1 and stays within [0, 1] |
| PathManagers.EaseInOutBounds | Assets/scripts/Road/SplinePathManager.cs:13 | 3t² − 2t³ lies in [0, 1] for t in [0, 1] |
| PathManagers.SwitchProgress | Assets/scripts/Road/SplinePathManager.cs:89-90 | the switch progress is always in [0, 1] |
| PathManagers.SwitchProgressCompleteIff | Assets/scripts/Road/SplinePathManager.cs:89-95 | the switch counts as complete exactly when a whole duration has elapsed since it started |
| PathManagers.SwitchTargetDistance | Assets/scripts/Road/SplinePathManager.cs:75-79 | the target distance is the smaller of distance + speed·duration and the new lane's length |
| PathManagers.SwitchTargetAhead | Assets/scripts/Road/SplinePathManager.cs:75-79 | with non-negative speed and duration, the target is never behind the current distance, unless the new lane is shorter than that distance |
| PathManagers.ForwardStep | Assets/scripts/Road/SplinePathManager.cs:136-156 | a hop happens iff there is a next path and the end is reached, and carries the overflow; without a hop the distance either just advances or, at the end of a road with no next path, is set to the length |
| PathManagers.CarriedDistanceCanExceedNextPath | Assets/scripts/Road/SplinePathManager.cs:141-150 | at most one hop per step: a step of 25 from 0 on a path of 10 lands at 15 on the next path, whatever its length |
| PathManagers.PathsReaching | Assets/scripts/Road/SplinePathManager.cs:186-199 | on a list without empty entries, the filter keeps exactly the listed paths whose length reaches the distance |
| PathManagers.PathsReachingSnoc | Assets/scripts/Road/SplinePathManager.cs:190-196 | filtering a list grown by one path filters the old list and then that path |
| PathManagers.PathsReachingMonotone | Assets/scripts/Road/SplinePathManager.cs:186-199 | a path kept for a distance is also kept for every shorter distance |
| PathManagers.SplinePathManager.constructor | Assets/scripts/Road/SplinePathManager.cs:6-24 | serialized defaults: lane 0, duration 0.5, speed 15, distance 0, no switch |
| PathManagers.SplinePathManager.Start | Assets/scripts/Road/SplinePathManager.cs:26-32 | the current path becomes the first listed path only when none is set and the list is non-empty |
| PathManagers.SplinePathManager.SetCurrentPath | Assets/scripts/Road/SplinePathManager.cs:34-38 | makes the path current and copies its lane index; a null path is still stored, and reading its lane index then throws, leaving the index unchanged |
| PathManagers.SplinePathManager.StartLaneSwitch | Assets/scripts/Road/SplinePathManager.cs:64-82 | a null lane changes nothing; otherwise it records the start time, distance and position, and the new lane's point at the target distance |
| PathManagers.SplinePathManager.CanSwitchToLeftLane | Assets/scripts/Road/SplinePathManager.cs:40-43 | true exactly when there is a current path with a left neighbour and no switch is in progress |
| PathManagers.SplinePathManager.CanSwitchToRightLane | Assets/scripts/Road/SplinePathManager.cs:45-48 | true exactly when there is a current path with a right neighbour and no switch is in progress |
| PathManagers.SplinePathManager.TrySwitchToLeftLane | Assets/scripts/Road/SplinePathManager.cs:50-55 | switches to the left lane exactly when there is a current path with a left lane and no switch in progress |
| PathManagers.SplinePathManager.TrySwitchToRightLane | Assets/scripts/Road/SplinePathManager.cs:57-62 | switches to the right lane exactly when there is a current path with a right lane and no switch in progress |
| PathManagers.SplinePathManager.GetCurrentPosition | Assets/scripts/Road/SplinePathManager.cs:84-106 | the eased blend while switching, else the point at the current distance; the call that sees progress ≥ 1 makes the target current, copies its lane index and ends the switch |
| PathManagers.SplinePathManager.MoveForward | Assets/scripts/Road/SplinePathManager.cs:132-157 | no path: nothing changes; otherwise one `ForwardStep`, moving to the next path and its lane index on a hop |
| PathManagers.SplinePathManager.GetPathByLaneIndex | Assets/scripts/Road/SplinePathManager.cs:174-184 | the first listed path with the lane index; null without an exception exactly when every entry is non-null and none has the index; an exception (`thrown`, null result) exactly when an empty entry comes before any match |
| PathManagers.SplinePathManager.GetPathsAtDistance | Assets/scripts/Road/SplinePathManager.cs:186-199 | throws exactly when the list has an empty entry; otherwise exactly the listed paths whose length reaches the distance, in list order |
| Vehicles.DifficultySpeed | Assets/scripts/Vehicles/CarController.cs:131-141 | Easy gives speed 9 and Hard gives 14 |
| Vehicles.EndEventAlwaysNearEnd | Assets/scripts/Vehicles/CarController.cs:88-96 | the end event fires only at distance ≥ length, so on a path of non-negative length the 90% destroy test always passes |
| Vehicles.CarController.constructor | Assets/scripts/Vehicles/CarController.cs:6-12 | stores the serialized flags; not yet subscribed and not destroyed |
| Vehicles.CarController.Awake | Assets/scripts/Vehicles/CarController.cs:14-32 | with a traveler, sets its direction to forward = !isOncomingTraffic and subscribes the handlers; without one, nothing |
| Vehicles.CarController.Start | Assets/scripts/Vehicles/CarController.cs:34-44 | with a traveler, force-snaps it to the chosen candidate (or keeps its path) and sets the difficulty speed |
| Vehicles.CarController.HandleGameStateChanged | Assets/scripts/Vehicles/CarController.cs:51-78 | `Playing` starts the traveler, when it has a path; every other state stops it |
| Vehicles.CarController.TransitionToPath | Assets/scripts/Vehicles/CarController.cs:111-114 | the traveler is put on the new path at the clamped distance |
| Vehicles.CarController.OnReachedPathEnd | Assets/scripts/Vehicles/CarController.cs:80-98 | follows the next path from distance 0 when allowed and present; otherwise the car is destroyed iff it is at least 90% along |
| Vehicles.CarController.OnReachedPathStart | Assets/scripts/Vehicles/CarController.cs:101-109 | follows the previous path from its far end when allowed and present; otherwise nothing changes |
| Vehicles.CarController.SetOncomingTraffic | Assets/scripts/Vehicles/CarController.cs:116-123 | stores the flag and re-syncs the traveler's direction to its negation |
| Vehicles.CarController.ApplyDifficultySettings | Assets/scripts/Vehicles/CarController.cs:131-141 | the traveler speed becomes 9 on Easy and 14 on Hard |
| Vehicles.CarController.Tick | Assets/scripts/Road/SplineTraveler.cs:72-100 | a traveler tick with the car's handlers between the event and the stop. A car that follows a path is left stopped on it, at 0 going forward or at its length going backward, with the new path's point and oriented direction there as its pose. A car that reaches the far end with no next path to follow is destroyed. Without a boundary, at a dead end, or when stopped, the pose is unchanged; without a boundary it takes a plain clamped step. |
| Games.Announced | Assets/scripts/GameManager.cs:140-148 | a state change is announced once, with the new state, exactly when it differs from the current state |
| Games.BreakOutRequest | Assets/scripts/GameManager.cs:131-138 | BreakOut moves `WaitingToStart` to `Playing` and leaves every other state alone |
| Games.BreakOutOnce | Assets/scripts/GameManager.cs:131-148 | a second BreakOut changes and announces nothing; the first announces `Playing` exactly when the game was waiting |
| Games.GameStatics.constructor | Assets/scripts/GameManager.cs:89-97 | no instance, no announcements, difficulty Easy |
| Games.GameStatics.SetDifficulty | Assets/scripts/GameManager.cs:153-157 | overwrites the static difficulty |
| Games.GameManager.constructor | Assets/scripts/GameManager.cs:93-94 | any initial state; not destroyed, no input actions yet |
| Games.GameManager.Awake | Assets/scripts/GameManager.cs:99-114 | the first instance becomes `Instance` and creates its input actions; a later one is destroyed before creating them and leaves `Instance` alone |
| Games.GameManager.SetGameState | Assets/scripts/GameManager.cs:140-148 | the state becomes the new one and the announcement log gains `Announced(old, new)` |
| Games.GameManager.GetGameState | Assets/scripts/GameManager.cs:150 | returns the last state set |
| Games.GameManager.OnBreakOutPerformed | Assets/scripts/GameManager.cs:131-138 | the state becomes `BreakOutRequest(old)`, announced only on a change |
| Horses.ApproximatelyReflexive | Assets/scripts/Player/HorseAnimationController.cs:174 | `Mathf.Approximately` holds between a value and itself |
| Horses.Approach | Assets/scripts/Player/HorseAnimationController.cs:167-170 | one step moves toward the target without passing it, by exactly the step unless it lands on the target |
| Horses.SpeedStep | Assets/scripts/Player/HorseAnimationController.cs:165-170 | the new speed lies between the old speed and the target; a zero duration lands on the target |
| Horses.ApproachNDistance | Assets/scripts/Player/HorseAnimationController.cs:163-170 | after n equal updates the speed is n·step closer to the target or on it, and has stayed between its start and the target |
| Horses.ApproachNTravel | Assets/scripts/Player/HorseAnimationController.cs:163-170 | the same, with the distance covered as the sum of the steps |
| Horses.ApproachDistance | Assets/scripts/Player/HorseAnimationController.cs:167-170 | one step shortens the distance to the target by the step, down to 0 |
| Horses.HorseAnimationController.constructor | Assets/scripts/Player/HorseAnimationController.cs:13-21 | serialized defaults: duration 0, speeds 0, not transitioning, not jumping |
| Horses.HorseAnimationController.Start | Assets/scripts/Player/HorseAnimationController.cs:55-73 | subscribes the handlers (game over only when a lives counter exists) and takes the animator speed as both current and target speed |
| Horses.HorseAnimationController.StartSpeedTransition | Assets/scripts/Player/HorseAnimationController.cs:153-161 | sets the target and the duration and starts a transition, leaving the current speed alone |
| Horses.HorseAnimationController.OnStartedMoving | Assets/scripts/Player/HorseAnimationController.cs:112-129 | ramps to speed 1 with duration 0 |
| Horses.HorseAnimationController.OnStoppedMoving | Assets/scripts/Player/HorseAnimationController.cs:142-146 | ramps to speed 0 over one second |
| Horses.HorseAnimationController.UpdateSpeedTransition | Assets/scripts/Player/HorseAnimationController.cs:163-180 | the speed takes one step toward the target and is handed to the animator; the transition ends once the speed is approximately the target, and always when it equals it |
| Horses.HorseAnimationController.Update | Assets/scripts/Player/HorseAnimationController.cs:148-151 | steps the ramp only while a transition runs; otherwise nothing changes |
| Horses.HorseAnimationController.OnJumpPerformed | Assets/scripts/Player/HorseAnimationController.cs:182-193 | starts a jump (its trigger fires) only when none is running, but plays the jump sound on every request |
| Horses.HorseAnimationController.FinishJump | Assets/scripts/Player/HorseAnimationController.cs:222 | the jump is over, so a new one may start |
| Horses.HorseAnimationController.PlayDeathAnimation | Assets/scripts/Player/HorseAnimationController.cs:91-110 | stops and disables the traveler, disables input, then triggers death, in that order; the stop event starts the ramp down when the controller listens |
| Horses.DeathActions | Assets/scripts/Player/HorseAnimationController.cs:91-110 | death is triggered last and once; the traveler is stopped before it is disabled and before anything else happens; input is disabled just before death |
| Lives.Deducted | Assets/scripts/LivesCounter.cs:28 | one life fewer, never below 0 |
| Lives.DeductionEvents | Assets/scripts/LivesCounter.cs:28-35 | every deduction announces the new count first; game over follows exactly when the count is left at 0 |
| Lives.LivesAfterDeductions | Assets/scripts/LivesCounter.cs:26-36 | k deductions from a non-negative count leave max(0, lives − k) |
| Lives.GameOverRepeats | Assets/scripts/LivesCounter.cs:31-35 | game over is announced on every deduction from the `lives`-th on: max(0, k − lives + 1) times in k deductions |
| Lives.EventsAfterLength | Assets/scripts/LivesCounter.cs:29 | every deduction announces the count, even at 0: k deductions make k count announcements plus the game overs |
| Lives.DeductionGameOvers | Assets/scripts/LivesCounter.cs:31-35 | one deduction announces game over once if it leaves 0 lives, else not at all |
| Lives.LivesStatics.constructor | Assets/scripts/LivesCounter.cs:5 | no instance yet |
| Lives.LivesCounter.constructor | Assets/scripts/LivesCounter.cs:8-9 | the serialized start value; the count is 0 before `Awake` |
| Lives.LivesCounter.Awake | Assets/scripts/LivesCounter.cs:14-24 | a later instance is destroyed and leaves `Instance` and its count alone; otherwise this one becomes `Instance` at `startLives` |
| Lives.LivesCounter.DeductLife | Assets/scripts/LivesCounter.cs:26-36 | the count becomes `Deducted(old)` and is never negative; the log gains `DeductionEvents(old)` |
| Lives.LivesCounter.GetLives | Assets/scripts/LivesCounter.cs:38-41 | returns the current count |
| Results.RankFor | Assets/scripts/UI/ResultsUI.cs:60-68 | Gold iff ≥ 20 apples, Silver iff 12–19, Bronze iff 8–11, Placed iff below 8 |
| Results.RankMonotone | Assets/scripts/UI/ResultsUI.cs:60-68 | more apples never give a lower rank |
| Results.RankName | Assets/scripts/UI/ResultsUI.cs:70-71 | the rank text is a non-empty bare rank name, a different one for each rank ("Gold" exactly for Gold, and so on) |
| Results.NatToString | Assets/scripts/UI/ResultsUI.cs:73 | the digits of a count are non-empty decimal digits without a leading zero |
| Results.ParseNatToString | Assets/scripts/UI/ResultsUI.cs:73 | reading the digits back gives the number |
| Results.IntToString | Assets/scripts/UI/ResultsUI.cs:73 | an int's text starts with '-' exactly when it is negative, followed by digits |
| Results.ParseIntToString | Assets/scripts/UI/ResultsUI.cs:73 | an int's text reads back as that int |
| Results.Awake | Assets/scripts/UI/ResultsUI.cs:43-48 | an assigned panel is hidden; nothing else changes |
| Results.SetText | Assets/scripts/UI/ResultsUI.cs:70-73 | an assigned text gets the new text; an unassigned one stays unassigned |
| Results.ShowResults | Assets/scripts/UI/ResultsUI.cs:50-76 | without a panel, one error and nothing else; otherwise the panel is shown, the rank text names `RankFor(n)`, and the apples text is exactly "Apples Collected: " followed by the decimal text of n, which reads back as n |
| Apples.CountsUpTo | Assets/scripts/AppleCounter.cs:13-18 | n increments from 0 announce 1, 2, …, n: the counts rise by exactly one each time, so they never decrease, and the last equals n |
| Apples.AppleStatics.constructor | Assets/scripts/AppleCounter.cs:7 | the static count starts at 0 with nothing announced |
| Apples.AppleStatics.AddApple | Assets/scripts/AppleCounter.cs:13-18 | the count grows by exactly one and the new count is announced after the increment |
| Apples.AppleCounter.constructor | Assets/scripts/AppleCounter.cs:10-11 | not subscribed until enabled |
| Apples.AppleCounter.OnEnable | Assets/scripts/AppleCounter.cs:10 | subscribes to apple-collected events |
| Apples.AppleCounter.OnDisable | Assets/scripts/AppleCounter.cs:11 | unsubscribes |
| Apples.AppleCounter.OnAppleCollected | Assets/scripts/AppleCounter.cs:10-18 | while subscribed an event adds one apple and announces it; while disabled the count and announcements are unchanged |
| RoadSplines.BernsteinWeights | Assets/scripts/RoadSpline.cs:39-45 | the Bernstein weights sum to 1; at t = 0 only the first is non-zero (it is 1), at t = 1 only the last |
| RoadSplines.BernsteinWeightsNonNegative | Assets/scripts/RoadSpline.cs:39-45 | every weight is non-negative on [0, 1] |
| RoadSplines.EvaluateBezier | Assets/scripts/RoadSpline.cs:37-46 | the curve starts at p0 (t = 0) and ends at p3 (t = 1) |
| RoadSplines.BezierInControlBox | Assets/scripts/RoadSpline.cs:45 | for t in [0, 1] each coordinate of the point lies within the range of the control points' coordinates |
| RoadSplines.WindowStarts | Assets/scripts/RoadSpline.cs:14-18 | no windows below four points; window k starts at 3k and fits four points; no further window fits |
| RoadSplines.WindowCount | Assets/scripts/RoadSpline.cs:18 | window m exists exactly when 3m ≤ n − 4 |
| RoadSplines.BezierWindow | Assets/scripts/RoadSpline.cs:20-23 | a window's p0 and p3 are control points i and i + 3 |
| RoadSplines.ConsecutiveWindowsJoin | Assets/scripts/RoadSpline.cs:18-23 | window k's p3 is window k+1's p0, so the curve is continuous across windows |
| RoadSplines.GizmoPoints | Assets/scripts/RoadSpline.cs:25-33 | the polyline of a window has segmentsPerCurve + 1 points, from p0 to p3 |
| RoadSplines.GizmoPoint | Assets/scripts/RoadSpline.cs:29-30 | the last gizmo point is p3 |
| RoadSplines.GizmoPolylineSpansWindow | Assets/scripts/RoadSpline.cs:25-33 | each window's polyline runs from control point 3k to control point 3k + 3 |
| RoadMeshes.SampleParameterRange | Assets/scripts/RoadMeshGenerator.cs:31 | the first sample is at t = 0, the last at t = 1, all in between within [0, 1] |
| RoadMeshes.SamplePosition | Assets/scripts/RoadMeshGenerator.cs:31-38 | a window's first sample is its p0 and its last is its p3 |
| RoadMeshes.WindowSample | Assets/scripts/RoadMeshGenerator.cs:29-47 | a sample joins the previous one iff i > 0, and looks ahead iff i < subdivisions |
| RoadMeshes.WindowMeshSamples | Assets/scripts/RoadMeshGenerator.cs:29 | a window has subdivisions + 1 samples |
| RoadMeshes.MeshSamplesLength | Assets/scripts/RoadMeshGenerator.cs:27-31 | m windows make m·(subdivisions + 1) samples |
| RoadMeshes.BuildBuffers | Assets/scripts/RoadMeshGenerator.cs:20-71 | two vertices and two uvs per sample, so the lists always have equal length; the previous position is the last sample's |
| RoadMeshes.AppendSample | Assets/scripts/RoadMeshGenerator.cs:31-70 | one pass of the inner loop body is one `AddSample` of that sample |
| RoadMeshes.AppendWindowMesh | Assets/scripts/RoadMeshGenerator.cs:29-71 | the inner loop ends where the window's trace of `AddSample`s ends |
| RoadMeshes.AppendWindowAt | Assets/scripts/RoadMeshGenerator.cs:27-72 | one pass of the outer loop extends the buffers of m windows to those of m + 1 |
| RoadMeshes.GenerateMesh | Assets/scripts/RoadMeshGenerator.cs:15-72 | nothing below four control points; otherwise the lists built over every window's samples in order |
| RoadMeshes.QuadIndices | Assets/scripts/RoadMeshGenerator.cs:57-67 | the triangle list comes in whole quads of six indices |
| RoadMeshes.TrianglesAreQuads | Assets/scripts/RoadMeshGenerator.cs:57-67 | with baseIndex = verts.Count − 4 each joined sample's six indices join its own two vertices to the previous sample's |
| RoadMeshes.QuadIndicesInBounds | Assets/scripts/RoadMeshGenerator.cs:57-67 | when the first sample joins nothing, every index names an existing vertex |
| RoadMeshes.TrianglesInBounds | Assets/scripts/RoadMeshGenerator.cs:57-67 | every triangle index of a generated mesh lies in [0, verts.Count) |
| RoadMeshes.FirstSampleStartsWindow | Assets/scripts/RoadMeshGenerator.cs:57 | the first generated sample joins nothing |
| RoadMeshes.SampleOfWindow | Assets/scripts/RoadMeshGenerator.cs:27-31 | sample i of window w sits right after the w·(subdivisions + 1) samples of earlier windows |
| RoadMeshes.SampleJoinsWithinWindow | Assets/scripts/RoadMeshGenerator.cs:57-67 | a sample is joined iff it is not its window's first: no quad joins one window's last sample to the next window's first |
| RoadMeshes.VertexPairsCentred | Assets/scripts/RoadMeshGenerator.cs:49-52 | each sample's two vertices are symmetric about its curve point |
| RoadMeshes.UvsFollowRunningLength | Assets/scripts/RoadMeshGenerator.cs:54-55 | uvs come in pairs (0, v), (1, v); v starts at 0, never decreases and never exceeds the final running length, which is non-negative |
| RoadMeshes.SecondVFromOrigin | Assets/scripts/RoadMeshGenerator.cs:24-25 | the previous position starts at the origin, so the second sample's v is the first point's distance from the origin |
| RoadMeshes.UvPrefixStable | Assets/scripts/RoadMeshGenerator.cs:54-55 | later samples never rewrite the uvs of earlier ones |
| RoadMeshes.AddSampleLength | Assets/scripts/RoadMeshGenerator.cs:69 | the running length never shrinks |
| RoadMeshes.AddSampleUvs | Assets/scripts/RoadMeshGenerator.cs:54-55 | one sample appends (0, v) and (1, v) with v the running length before it |
| RoadMeshes.MeshSizes | Assets/scripts/RoadMeshGenerator.cs:27-55 | a generated mesh has 2·windows·(subdivisions + 1) vertices and as many uvs |

## Left out

- Floating point is not modelled: `float` is `real`, with no rounding, overflow to infinity or NaN. The model replaces each NaN case with a defined value:
  - A zero-length segment makes `GetPositionAtDistance` divide 0 by 0. The model returns the segment's start point.
  - `RoadMeshGenerator` with `subdivisions == 0` computes t = 0/0. The model samples at t = 0.
  - A zero ramp duration makes the horse's speed step infinite, or NaN when dt is also 0. The model lands on the target, which is where `Mathf.Min`/`Mathf.Max` take the infinite step.
- `Vector3.magnitude`, `Vector3.Distance` and `normalized` are supplied by the caller. The model only relies on a norm never being negative.
- `transform.TransformPoint` is the identity: control points are used as world coordinates. `CatmullRomTranslation` shows that evaluation commutes with a translation.
- Rotations are not modelled: `Quaternion.LookRotation`, `Slerp`, and the rotation halves of `SetSplinePath` and `UpdateSwitchAnimation`. The traveler's facing is kept as a direction vector.
- `SplineTraveler.UpdatePositionAndRotation` is not modelled. It smooths the rendered transform toward the path point by travelSpeed·dt each frame. The model's distance and position on the path are what it smooths toward.
- `SplinePathManager.GetCurrentDirection` is not modelled. It is a `Slerp` of two directions.
- The switch curve of `SplinePathManager` is its default `AnimationCurve.EaseInOut(0, 0, 1, 1)`, taken as 3t² − 2t³. A curve edited in the inspector is not modelled.
- Engine discovery and lifecycle become explicit inputs:
  - `FindObjectsOfType`: the candidate paths are a parameter.
  - `GetComponent`: the components are constructor arguments.
  - `Time.time` and `Time.deltaTime` are parameters.
  - Unity's calls of `Awake`/`Start`/`Update` are the methods called by the user of the model.
- `SplineTraveler.Awake` is not a separate member. With `snapToNearestPath` set it only calls `FindAndSnapToNearestPath`.
- `SplinePath.OnValidate` is not a separate member. In the editor it only calls `GenerateSplinePoints`.
- Event subscription is not modelled as delegate lists:
  - Notifications are logs, and a flag records whether a handler is subscribed.
  - `CarController.Tick` runs the car's boundary handlers inside a traveler tick.
  - `HorseAnimationController.PlayDeathAnimation` runs the horse's stop handler.
  - Unsubscription in `OnDestroy` is left out.
- `Destroy(gameObject)` is a `destroyed` flag. The engine defers destruction to the end of the frame, so the rest of the frame still runs.
- `Debug.Log`, `Debug.LogWarning` and the `showDebugInfo` logging are left out. The one `Debug.LogError` of `ResultsUI.ShowResults` is counted, because it is that method's only effect without a panel.
- `LogCurrentAnimation` and its `InvokeRepeating` are left out.
- Audio is left out: the trailer and galloping sounds and `StartGallopingSound`. The jump sound remains as the `canPlayJumpSound` flag, because the jump guard does not cover it.
- `HorseAnimationController.JumpBoost` is modelled only at its ends: the jump trigger when it starts, and `FinishJump` when it ends. The cosine height arc, a coroutine moving the transform, is left out.
- The Animator is the `actions` log of the calls made to it. Its state machine is not modelled.
- `Mathf.Approximately` uses the float tolerance max(10⁻⁶·max(|a|, |b|), 8·`Mathf.Epsilon`) over reals.
- Mesh upload is left out: `SetVertices`, `SetUVs`, `SetTriangles`, `RecalculateNormals` and the `MeshFilter` assignment. `GenerateMesh` returns the three lists.
- Gizmo drawing is modelled only as the points each gizmo polyline joins: `RoadSpline.OnDrawGizmos`, and the `SplinePath` gizmos.
- `GameManager.OnEnable`/`OnDisable` are left out. They enable the input actions and subscribe `OnBreakOutPerformed`. The input system is not part of this model, so BreakOut is a direct call.
- `PlayerInputHandler`, `EventManager` and the `HorseCity.Core` namespace that declares `GameState` are not part of this model. `GameState` is declared with its three states. No initial state is assumed: the manager's constructor takes it.
- The 32-bit `int` of the apple count, the life count and the rank input is unbounded. Apples never reach 2³¹ in a run.
- Only one `AppleCounter` is modelled. Several enabled instances would each increment the shared static count.
- `Travelers.SplineTraveler.FindAndSnapToNearestPath` does not state the order of its debug output, which is left out.
- PathManagers.SplinePathManager.TrySwitchToLeftLane: the ensures states the switch flag, target, start time and start distance. It does not state the two recorded positions or, on failure, the unchanged start distance and positions. `StartLaneSwitch` states those.
- PathManagers.SplinePathManager.TrySwitchToRightLane: weaker in the same way as the left-lane version.
- Vehicles.CarController.Start: the ensures states the chosen path and the speed. It does not state the snapped distance and pose, which `ForceSnapToNearestPath` states.
- Vehicles.CarController.Tick: the distance after a path hop is stated as a double clamp; it is simplified to 0 or the length only for a next or previous path of non-negative length.
- Lanes.LaneSwitcher.Valid requires a positive `switchDuration`. The field is serialized and may be 0, and `UpdateLaneSwitch` divides by it without a guard, giving an infinite or NaN progress. Real arithmetic cannot express that, so no method that requires `Valid()` covers a zero duration.
- PathManagers.SplinePathManager.Valid requires a positive `laneSwitchDuration` for the same reason: `GetCurrentPosition` divides by it without a guard. A zero duration is not covered.
- Horses.HorseAnimationController.Start requires a traveler and an input handler. `HorseAnimationController.Start` subscribes to both without a null check and would throw without them.
