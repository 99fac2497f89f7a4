/**
 * `SplinePathManager`: the older lane controller that keeps its own distance along a
 * current path, switches lanes on a timed ease-in-out blend and hops to the next path
 * when it runs off the end of the current one.
 *
 * `Time.time` and `Time.deltaTime` are the parameters `now` and `deltaTime`;
 * `transform.position` is the field `position`. The switch curve is the default
 * `AnimationCurve.EaseInOut(0, 0, 1, 1)`.
 */
module PathManagers {
  import opened Geometry
  import opened SplinePaths

  /** `AnimationCurve.EaseInOut(0, 0, 1, 1)`: the cubic Hermite ease with flat ends, 3t² − 2t³. */
  function EaseInOut(t: real): (r: real)
    requires 0.0 <= t <= 1.0
    ensures t == 0.0 ==> r == 0.0
    ensures t == 1.0 ==> r == 1.0
    ensures 0.0 <= r <= 1.0
  {
    EaseInOutBounds(t);
    t * t * (3.0 - 2.0 * t)
  }

  lemma EaseInOutBounds(t: real)
    requires 0.0 <= t <= 1.0
    ensures 0.0 <= t * t * (3.0 - 2.0 * t) <= 1.0
  {
    assert t * t >= 0.0;
    assert 3.0 - 2.0 * t >= 1.0;
    assert t * t * (3.0 - 2.0 * t) >= t * t * 1.0;
    var u := 1.0 - t;
    assert 1.0 - t * t * (3.0 - 2.0 * t) == u * u * (1.0 + 2.0 * t);
    assert u * u >= 0.0;
    assert u * u * (1.0 + 2.0 * t) >= u * u * 1.0;
  }

  /** The switch progress: elapsed time over the duration, clamped into [0, 1]. */
  function SwitchProgress(now: real, startTime: real, duration: real): (r: real)
    requires duration > 0.0
    ensures 0.0 <= r <= 1.0
  {
    Clamp01((now - startTime) / duration)
  }

  /** A switch reports completion exactly when a whole duration has elapsed since it started. */
  lemma SwitchProgressCompleteIff(now: real, startTime: real, duration: real)
    requires duration > 0.0
    ensures SwitchProgress(now, startTime, duration) >= 1.0 <==> now - startTime >= duration
  {
    var q := (now - startTime) / duration;
    assert q * duration == now - startTime;
    if q >= 1.0 {
      assert q * duration >= 1.0 * duration;
    }
  }

  /**
   * The distance on the new lane that `StartLaneSwitch` aims for: where the current speed
   * would carry the horse during one switch, but never past the new lane's end.
   */
  function SwitchTargetDistance(distance: real, forwardSpeed: real, duration: real, newLength: real): (r: real)
    ensures r <= newLength
    ensures r <= distance + forwardSpeed * duration
    ensures r == newLength || r == distance + forwardSpeed * duration
  {
    Min(distance + forwardSpeed * duration, newLength)
  }

  /** Moving forward at a non-negative speed, the target never lies behind the start unless the new lane is shorter. */
  lemma SwitchTargetAhead(distance: real, forwardSpeed: real, duration: real, newLength: real)
    requires forwardSpeed >= 0.0 && duration >= 0.0 && distance <= newLength
    ensures distance <= SwitchTargetDistance(distance, forwardSpeed, duration, newLength)
  {
    ProductNonNegative(forwardSpeed, duration);
  }

  lemma ProductNonNegative(a: real, b: real)
    requires a >= 0.0 && b >= 0.0
    ensures a * b >= 0.0
  {
  }

  /**
   * One `MoveForward` step on a path of length `length`: the new distance and whether the
   * manager hopped to the next path. At most one hop happens per step.
   */
  function ForwardStep(distance: real, step: real, length: real, hasNext: bool): (r: (real, bool))
    ensures r.1 <==> hasNext && distance + step >= length
    ensures distance + step < length ==> r.0 == distance + step
    ensures r.1 ==> r.0 + length == distance + step && r.0 >= 0.0
    ensures !hasNext ==> r.0 <= length
    ensures !hasNext && distance + step >= length ==> r == (length, false)
  {
    var moved := distance + step;
    if moved >= length then
      if hasNext then (moved - length, true) else (length, false)
    else
      (moved, false)
  }

  /**
   * The carried overflow is not checked against the next path: one large step can land
   * beyond the end of the next path, which a later step then hops off again.
   */
  lemma CarriedDistanceCanExceedNextPath()
    ensures ForwardStep(0.0, 25.0, 10.0, true) == (15.0, true)
    ensures ForwardStep(0.0, 25.0, 10.0, true).0 > 10.0
  {
  }

  /**
   * `GetPathsAtDistance` as a filter: the paths of `paths`, in their order, whose length
   * reaches `distance`.
   */
  function PathsReaching(paths: seq<SplinePath?>, distance: real): (r: seq<SplinePath>)
    requires null !in paths
    reads paths
    ensures |r| <= |paths|
    ensures forall k :: 0 <= k < |r| ==> r[k] in paths && distance <= r[k].totalLength
    ensures forall k :: 0 <= k < |paths| && distance <= paths[k].totalLength ==> paths[k] in r
  {
    if paths == [] then []
    else
      var last := paths[|paths| - 1];
      PathsReaching(paths[..|paths| - 1], distance) + (if distance <= last.totalLength then [last] else [])
  }

  /** Filtering a list grown by one path filters the old list and then that path. */
  lemma PathsReachingSnoc(paths: seq<SplinePath?>, p: SplinePath, distance: real)
    requires null !in paths
    ensures PathsReaching(paths + [p], distance)
            == PathsReaching(paths, distance) + (if distance <= p.totalLength then [p] else [])
  {
    assert (paths + [p])[..|paths + [p]| - 1] == paths;
  }

  /** Every path that reaches a distance also reaches every shorter one. */
  lemma PathsReachingMonotone(paths: seq<SplinePath?>, d1: real, d2: real)
    requires null !in paths
    requires d1 <= d2
    ensures forall k :: 0 <= k < |PathsReaching(paths, d2)| ==>
              PathsReaching(paths, d2)[k] in PathsReaching(paths, d1)
  {
  }

  class SplinePathManager {
    /** The serialized `allPaths` list; Unity lets an entry of it be empty (null). */
    var allPaths: seq<SplinePath?>
    var currentPath: SplinePath?
    var currentLaneIndex: int
    var laneSwitchDuration: real
    var forwardSpeed: real
    var currentDistance: real
    var isSwitchingLanes: bool
    var targetPath: SplinePath?
    var laneSwitchStartTime: real
    var laneSwitchStartDistance: real
    var laneSwitchStartPosition: Vec3
    var laneSwitchTargetPosition: Vec3
    /** `transform.position`, returned when there is no current path. */
    var position: Vec3

    /** A switch in progress always has a target path, and the switch duration is positive. */
    ghost predicate Valid()
      reads this
    {
      laneSwitchDuration > 0.0 && (isSwitchingLanes ==> targetPath != null)
    }

    /** The serialized fields; the defaults are duration 0.5, speed 15, distance 0, lane 0. */
    constructor (allPaths: seq<SplinePath?>, currentPath: SplinePath?, position: Vec3)
      ensures Valid()
      ensures this.allPaths == allPaths && this.currentPath == currentPath && this.position == position
      ensures currentLaneIndex == 0 && laneSwitchDuration == 0.5 && forwardSpeed == 15.0
      ensures currentDistance == 0.0 && !isSwitchingLanes && targetPath == null
    {
      this.allPaths := allPaths;
      this.currentPath := currentPath;
      this.position := position;
      currentLaneIndex := 0;
      laneSwitchDuration := 0.5;
      forwardSpeed := 15.0;
      currentDistance := 0.0;
      isSwitchingLanes := false;
      targetPath := null;
      laneSwitchStartTime := 0.0;
      laneSwitchStartDistance := 0.0;
      laneSwitchStartPosition := Zero;
      laneSwitchTargetPosition := Zero;
    }

    /** `Start`: defaults the current path to the first listed path, only when none is set. */
    method Start()
      modifies this`currentPath
      ensures old(currentPath) == null && |allPaths| > 0 ==> currentPath == allPaths[0]
      ensures !(old(currentPath) == null && |allPaths| > 0) ==> currentPath == old(currentPath)
    {
      if |allPaths| > 0 && currentPath == null {
        currentPath := allPaths[0];
      }
    }

    /**
     * `SetCurrentPath`: makes `path` current and copies its lane index. The path is stored
     * before its lane index is read, so a null path is stored and then the read throws
     * (`thrown`), leaving the lane index as it was.
     */
    method SetCurrentPath(path: SplinePath?) returns (thrown: bool)
      modifies this`currentPath, this`currentLaneIndex
      ensures currentPath == path && thrown == (path == null)
      ensures path != null ==> currentLaneIndex == path.laneIndex
      ensures path == null ==> currentLaneIndex == old(currentLaneIndex)
    {
      currentPath := path;
      if path == null {
        return true;
      }
      currentLaneIndex := path.laneIndex;
      return false;
    }

    /** `CanSwitchToLeftLane`: a current path with a left neighbour and no switch in progress. */
    function CanSwitchToLeftLane(): (r: bool)
      reads this, currentPath
      ensures r <==> currentPath != null && currentPath.GetLeftLane() != null && !isSwitchingLanes
      ensures isSwitchingLanes ==> !r
    {
      currentPath != null && currentPath.leftLane != null && !isSwitchingLanes
    }

    /** `CanSwitchToRightLane`: a current path with a right neighbour and no switch in progress. */
    function CanSwitchToRightLane(): (r: bool)
      reads this, currentPath
      ensures r <==> currentPath != null && currentPath.GetRightLane() != null && !isSwitchingLanes
      ensures isSwitchingLanes ==> !r
    {
      currentPath != null && currentPath.rightLane != null && !isSwitchingLanes
    }

    /**
     * `StartLaneSwitch`: with a new path, records the start time, distance and position
     * and the position on the new path at the target distance. The callers only call it
     * with a current path.
     */
    method StartLaneSwitch(newPath: SplinePath?, now: real)
      requires Valid() && (newPath != null ==> currentPath != null)
      modifies this`isSwitchingLanes, this`targetPath, this`laneSwitchStartTime, this`laneSwitchStartDistance,
               this`laneSwitchStartPosition, this`laneSwitchTargetPosition
      ensures Valid()
      ensures newPath == null ==>
                && isSwitchingLanes == old(isSwitchingLanes) && targetPath == old(targetPath)
                && laneSwitchStartTime == old(laneSwitchStartTime)
                && laneSwitchStartDistance == old(laneSwitchStartDistance)
                && laneSwitchStartPosition == old(laneSwitchStartPosition)
                && laneSwitchTargetPosition == old(laneSwitchTargetPosition)
      ensures newPath != null ==>
                && isSwitchingLanes && targetPath == newPath && laneSwitchStartTime == now
                && laneSwitchStartDistance == currentDistance
                && laneSwitchStartPosition == currentPath.GetPositionAtDistance(currentDistance)
                && laneSwitchTargetPosition
                   == newPath.GetPositionAtDistance(
                        SwitchTargetDistance(currentDistance, forwardSpeed, laneSwitchDuration, newPath.totalLength))
    {
      if newPath == null {
        return;
      }
      isSwitchingLanes := true;
      targetPath := newPath;
      laneSwitchStartTime := now;
      laneSwitchStartDistance := currentDistance;
      laneSwitchStartPosition := currentPath.GetPositionAtDistance(currentDistance);
      var distanceTraveledDuringSwitch := forwardSpeed * laneSwitchDuration;
      var targetDistance := currentDistance + distanceTraveledDuringSwitch;
      targetDistance := Min(targetDistance, newPath.GetTotalLength());
      assert targetDistance == SwitchTargetDistance(currentDistance, forwardSpeed, laneSwitchDuration, newPath.totalLength);
      laneSwitchTargetPosition := newPath.GetPositionAtDistance(targetDistance);
    }

    /** `TrySwitchToLeftLane`: starts a switch to the left neighbour when the guard allows one. */
    method TrySwitchToLeftLane(now: real)
      requires Valid()
      modifies this`isSwitchingLanes, this`targetPath, this`laneSwitchStartTime, this`laneSwitchStartDistance,
               this`laneSwitchStartPosition, this`laneSwitchTargetPosition
      ensures Valid()
      ensures !old(CanSwitchToLeftLane()) ==>
                isSwitchingLanes == old(isSwitchingLanes) && targetPath == old(targetPath)
                && laneSwitchStartTime == old(laneSwitchStartTime)
      ensures old(CanSwitchToLeftLane()) ==>
                && isSwitchingLanes && targetPath == currentPath.leftLane && laneSwitchStartTime == now
                && laneSwitchStartDistance == currentDistance
    {
      if !CanSwitchToLeftLane() {
        return;
      }
      StartLaneSwitch(currentPath.GetLeftLane(), now);
    }

    /** `TrySwitchToRightLane`: starts a switch to the right neighbour when the guard allows one. */
    method TrySwitchToRightLane(now: real)
      requires Valid()
      modifies this`isSwitchingLanes, this`targetPath, this`laneSwitchStartTime, this`laneSwitchStartDistance,
               this`laneSwitchStartPosition, this`laneSwitchTargetPosition
      ensures Valid()
      ensures !old(CanSwitchToRightLane()) ==>
                isSwitchingLanes == old(isSwitchingLanes) && targetPath == old(targetPath)
                && laneSwitchStartTime == old(laneSwitchStartTime)
      ensures old(CanSwitchToRightLane()) ==>
                && isSwitchingLanes && targetPath == currentPath.rightLane && laneSwitchStartTime == now
                && laneSwitchStartDistance == currentDistance
    {
      if !CanSwitchToRightLane() {
        return;
      }
      StartLaneSwitch(currentPath.GetRightLane(), now);
    }

    /**
     * `GetCurrentPosition`: the blended switch position while switching, else the point at
     * the current distance. The call that sees the progress reach 1 completes the switch:
     * the target becomes current, its lane index is copied and the switch is cleared.
     */
    method GetCurrentPosition(now: real) returns (r: Vec3)
      requires Valid()
      modifies this`currentPath, this`currentLaneIndex, this`isSwitchingLanes, this`targetPath
      ensures Valid()
      ensures old(currentPath) == null ==>
                && r == position && currentPath == null && currentLaneIndex == old(currentLaneIndex)
                && isSwitchingLanes == old(isSwitchingLanes) && targetPath == old(targetPath)
      ensures old(currentPath) != null && !old(isSwitchingLanes) ==>
                && r == old(currentPath).GetPositionAtDistance(currentDistance)
                && currentPath == old(currentPath) && currentLaneIndex == old(currentLaneIndex)
                && !isSwitchingLanes && targetPath == old(targetPath)
      ensures old(currentPath) != null && old(isSwitchingLanes) ==>
                var progress := SwitchProgress(now, laneSwitchStartTime, laneSwitchDuration);
                && r == Lerp(laneSwitchStartPosition, laneSwitchTargetPosition, EaseInOut(progress))
                && (progress >= 1.0 ==>
                      && currentPath == old(targetPath) && currentLaneIndex == old(targetPath).laneIndex
                      && !isSwitchingLanes && targetPath == null)
                && (progress < 1.0 ==>
                      && currentPath == old(currentPath) && currentLaneIndex == old(currentLaneIndex)
                      && isSwitchingLanes && targetPath == old(targetPath))
    {
      if currentPath == null {
        return position;
      }
      if isSwitchingLanes {
        var switchProgress := (now - laneSwitchStartTime) / laneSwitchDuration;
        switchProgress := Clamp01(switchProgress);
        var curveValue := EaseInOut(switchProgress);
        var interpolatedPosition := Lerp(laneSwitchStartPosition, laneSwitchTargetPosition, curveValue);
        if switchProgress >= 1.0 {
          currentPath := targetPath;
          currentLaneIndex := currentPath.laneIndex;
          isSwitchingLanes := false;
          targetPath := null;
        }
        return interpolatedPosition;
      }
      r := currentPath.GetPositionAtDistance(currentDistance);
    }

    /**
     * `MoveForward`: adds `forwardSpeed · deltaTime`; at or past the end it either hops to
     * the next path carrying the overflow, or stops at the end of the road.
     */
    method MoveForward(deltaTime: real)
      modifies this`currentDistance, this`currentPath, this`currentLaneIndex
      ensures old(currentPath) == null ==>
                currentDistance == old(currentDistance) && currentPath == null
                && currentLaneIndex == old(currentLaneIndex)
      ensures old(currentPath) != null ==>
                var path := old(currentPath);
                var step := ForwardStep(old(currentDistance), forwardSpeed * deltaTime, path.totalLength,
                                        path.nextPath != null);
                && currentDistance == step.0
                && (step.1 ==> currentPath == path.nextPath && currentLaneIndex == path.nextPath.laneIndex)
                && (!step.1 ==> currentPath == path && currentLaneIndex == old(currentLaneIndex))
    {
      if currentPath == null {
        return;
      }
      var distanceToMove := forwardSpeed * deltaTime;
      currentDistance := currentDistance + distanceToMove;
      if currentDistance >= currentPath.GetTotalLength() {
        var nextPath := currentPath.GetNextPath();
        if nextPath != null {
          currentDistance := currentDistance - currentPath.GetTotalLength();
          currentPath := nextPath;
          currentLaneIndex := currentPath.laneIndex;
        } else {
          currentDistance := currentPath.GetTotalLength();
        }
      }
    }

    /**
     * `GetPathByLaneIndex`: the first listed path with the lane index, or null when none
     * has it. A null entry met before a match throws (`thrown`), as reading its
     * `laneIndex` does in C#.
     */
    method GetPathByLaneIndex(laneIndex: int) returns (r: SplinePath?, thrown: bool)
      ensures !thrown && r == null <==> forall p :: p in allPaths ==> p != null && p.laneIndex != laneIndex
      ensures r != null ==>
                && !thrown && r.laneIndex == laneIndex
                && exists i :: 0 <= i < |allPaths| && allPaths[i] == r
                            && forall j :: 0 <= j < i ==> allPaths[j] != null && allPaths[j].laneIndex != laneIndex
      ensures thrown ==>
                && r == null
                && exists i :: 0 <= i < |allPaths| && allPaths[i] == null
                            && forall j :: 0 <= j < i ==> allPaths[j] != null && allPaths[j].laneIndex != laneIndex
    {
      var i := 0;
      while i < |allPaths|
        invariant 0 <= i <= |allPaths|
        invariant forall j :: 0 <= j < i ==> allPaths[j] != null && allPaths[j].laneIndex != laneIndex
      {
        var path := allPaths[i];
        if path == null {
          assert path in allPaths;
          return null, true;
        }
        if path.laneIndex == laneIndex {
          return path, false;
        }
        i := i + 1;
      }
      return null, false;
    }

    /**
     * `GetPathsAtDistance`: in list order, exactly the paths at least `distance` long.
     * Any null entry throws (`thrown`), as calling `GetTotalLength` on it does in C#;
     * the list built so far is then lost, and the model returns it empty.
     */
    method GetPathsAtDistance(distance: real) returns (r: seq<SplinePath>, thrown: bool)
      ensures thrown <==> null in allPaths
      ensures thrown ==> r == []
      ensures !thrown ==> r == PathsReaching(allPaths, distance)
    {
      r := [];
      var i := 0;
      while i < |allPaths|
        invariant 0 <= i <= |allPaths|
        invariant null !in allPaths[..i]
        invariant r == PathsReaching(allPaths[..i], distance)
      {
        var path := allPaths[i];
        if path == null {
          return [], true;
        }
        PathsReachingSnoc(allPaths[..i], path, distance);
        assert allPaths[..i] + [path] == allPaths[..i + 1];
        if distance <= path.GetTotalLength() {
          r := r + [path];
        }
        i := i + 1;
      }
      assert allPaths[..i] == allPaths;
      thrown := false;
    }
  }
}
