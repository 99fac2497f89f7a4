/**
 * `LaneSwitcher`: moves a traveler to a neighbouring lane over `switchDuration`
 * seconds, at most once per `switchCooldown` seconds measured from the start of the
 * previous switch.
 *
 * `Time.time` and `Time.deltaTime` are the parameters `now` and `dt`. The switcher and
 * its traveler share one transform, the traveler's `position`. The events
 * `OnLaneSwitchStarted` and `OnLaneSwitchCompleted` are the log `events`.
 */
module Lanes {
  import opened Geometry
  import opened SplinePaths
  import opened Travelers

  datatype LaneEvent = SwitchStarted(newLane: SplinePath) | SwitchCompleted(currentLane: SplinePath?)

  class LaneSwitcher {
    const traveler: SplineTraveler?
    var switchDuration: real
    var switchCooldown: real
    var lastSwitchTime: real
    var isSwitchingLanes: bool
    var switchTimer: real
    var targetLane: SplinePath?
    var switchStartPosition: Vec3
    var events: seq<LaneEvent>

    /** A switch in progress always has a traveler and a target lane, and the duration is positive. */
    ghost predicate Valid()
      reads this
    {
      switchDuration > 0.0 && (isSwitchingLanes ==> traveler != null && targetLane != null)
    }

    /** The traveler component, when there is one, as a frame. */
    function TravelerFrame(): set<SplineTraveler> {
      if traveler == null then {} else {traveler}
    }

    /** The serialized defaults: duration 0.5, cooldown 0.3; `lastSwitchTime` starts at 0. */
    constructor (traveler: SplineTraveler?)
      ensures Valid()
      ensures this.traveler == traveler && switchDuration == 0.5 && switchCooldown == 0.3
      ensures lastSwitchTime == 0.0 && !isSwitchingLanes && switchTimer == 0.0
      ensures targetLane == null && events == []
    {
      this.traveler := traveler;
      switchDuration := 0.5;
      switchCooldown := 0.3;
      lastSwitchTime := 0.0;
      isSwitchingLanes := false;
      switchTimer := 0.0;
      targetLane := null;
      switchStartPosition := Zero;
      events := [];
    }

    /**
     * `CanSwitchLanes`: a traveler that is moving, no switch in progress, and at least
     * `switchCooldown` seconds since the last switch started.
     */
    function CanSwitchLanes(now: real): (r: bool)
      reads this, traveler
      ensures r <==> traveler != null && traveler.isMoving && !isSwitchingLanes && now >= lastSwitchTime + switchCooldown
    {
      && traveler != null
      && !isSwitchingLanes
      && !(now - lastSwitchTime < switchCooldown)
      && traveler.isMoving
    }

    /** `CanSwitchToLeftLane`: the general guard, on a path that has a left neighbour. */
    function CanSwitchToLeftLane(now: real): (r: bool)
      reads this, traveler, if traveler != null then {traveler.splinePath} else {}
      ensures r <==> CanSwitchLanes(now) && traveler.splinePath != null && traveler.splinePath.GetLeftLane() != null
      ensures r ==> now >= lastSwitchTime + switchCooldown
    {
      CanSwitchLanes(now) && traveler.splinePath != null && traveler.splinePath.leftLane != null
    }

    /** `CanSwitchToRightLane`: the general guard, on a path that has a right neighbour. */
    function CanSwitchToRightLane(now: real): (r: bool)
      reads this, traveler, if traveler != null then {traveler.splinePath} else {}
      ensures r <==> CanSwitchLanes(now) && traveler.splinePath != null && traveler.splinePath.GetRightLane() != null
      ensures r ==> now >= lastSwitchTime + switchCooldown
    {
      CanSwitchLanes(now) && traveler.splinePath != null && traveler.splinePath.rightLane != null
    }

    /**
     * `StartLaneSwitch`: when the guard holds, records the start pose, targets the new
     * lane, restarts the timer and the cooldown, and announces the switch once.
     */
    method StartLaneSwitch(newLane: SplinePath, now: real) returns (started: bool)
      requires Valid()
      modifies this`switchStartPosition, this`targetLane, this`isSwitchingLanes, this`switchTimer,
               this`lastSwitchTime, this`events
      ensures Valid()
      ensures started == old(CanSwitchLanes(now))
      ensures !started ==>
                && targetLane == old(targetLane) && isSwitchingLanes == old(isSwitchingLanes)
                && switchTimer == old(switchTimer) && lastSwitchTime == old(lastSwitchTime)
                && switchStartPosition == old(switchStartPosition) && events == old(events)
      ensures started ==>
                && switchStartPosition == traveler.position && targetLane == newLane
                && isSwitchingLanes && switchTimer == 0.0 && lastSwitchTime == now
                && events == old(events) + [SwitchStarted(newLane)]
    {
      if !CanSwitchLanes(now) {
        return false;
      }
      switchStartPosition := traveler.position;
      targetLane := newLane;
      isSwitchingLanes := true;
      switchTimer := 0.0;
      lastSwitchTime := now;
      events := events + [SwitchStarted(newLane)];
      return true;
    }

    /** `TrySwitchToLeftLane`: starts a switch to the left neighbour when the guard allows one. */
    method TrySwitchToLeftLane(now: real) returns (started: bool)
      requires Valid()
      modifies this`switchStartPosition, this`targetLane, this`isSwitchingLanes, this`switchTimer,
               this`lastSwitchTime, this`events
      ensures Valid()
      ensures started == old(CanSwitchToLeftLane(now))
      ensures !started ==>
                && targetLane == old(targetLane) && isSwitchingLanes == old(isSwitchingLanes)
                && switchTimer == old(switchTimer) && lastSwitchTime == old(lastSwitchTime)
                && switchStartPosition == old(switchStartPosition) && events == old(events)
      ensures started ==>
                && targetLane == traveler.splinePath.leftLane && isSwitchingLanes && switchTimer == 0.0
                && lastSwitchTime == now && switchStartPosition == traveler.position
                && events == old(events) + [SwitchStarted(traveler.splinePath.leftLane)]
    {
      if !CanSwitchLanes(now) {
        return false;
      }
      var currentPath := traveler.splinePath;
      if currentPath == null {
        return false;
      }
      var leftLane := currentPath.GetLeftLane();
      if leftLane == null {
        return false;
      }
      started := StartLaneSwitch(leftLane, now);
    }

    /** `TrySwitchToRightLane`: starts a switch to the right neighbour when the guard allows one. */
    method TrySwitchToRightLane(now: real) returns (started: bool)
      requires Valid()
      modifies this`switchStartPosition, this`targetLane, this`isSwitchingLanes, this`switchTimer,
               this`lastSwitchTime, this`events
      ensures Valid()
      ensures started == old(CanSwitchToRightLane(now))
      ensures !started ==>
                && targetLane == old(targetLane) && isSwitchingLanes == old(isSwitchingLanes)
                && switchTimer == old(switchTimer) && lastSwitchTime == old(lastSwitchTime)
                && switchStartPosition == old(switchStartPosition) && events == old(events)
      ensures started ==>
                && targetLane == traveler.splinePath.rightLane && isSwitchingLanes && switchTimer == 0.0
                && lastSwitchTime == now && switchStartPosition == traveler.position
                && events == old(events) + [SwitchStarted(traveler.splinePath.rightLane)]
    {
      if !CanSwitchLanes(now) {
        return false;
      }
      var currentPath := traveler.splinePath;
      if currentPath == null {
        return false;
      }
      var rightLane := currentPath.GetRightLane();
      if rightLane == null {
        return false;
      }
      started := StartLaneSwitch(rightLane, now);
    }

    /**
     * The position part of `UpdateSwitchAnimation`: the straight-line blend from the
     * start position to the target lane's point at the traveler's current distance.
     */
    method UpdateSwitchAnimation(progress: real)
      requires traveler != null
      modifies traveler`position
      ensures targetLane == null ==> traveler.position == old(traveler.position)
      ensures targetLane != null ==>
                traveler.position == Lerp(switchStartPosition,
                                          targetLane.GetPositionAtDistance(traveler.currentDistance), progress)
    {
      if targetLane == null {
        return;
      }
      var currentDistance := traveler.currentDistance;
      var targetPosition := targetLane.GetPositionAtDistance(currentDistance);
      traveler.position := Lerp(switchStartPosition, targetPosition, progress);
    }

    /**
     * `CompleteLaneSwitch`: puts the traveler on the target lane at its current distance
     * (clamped to that lane), ends the switch and announces the traveler's new path.
     * Without a target it returns at once and the switch stays in progress.
     */
    method CompleteLaneSwitch(g: Geometry)
      requires Valid() && traveler != null
      modifies this`isSwitchingLanes, this`targetLane, this`events
      modifies traveler`splinePath, traveler`currentDistance, traveler`position, traveler`facing
      ensures Valid()
      ensures old(targetLane) == null ==>
                && isSwitchingLanes == old(isSwitchingLanes) && targetLane == null && events == old(events)
                && traveler.splinePath == old(traveler.splinePath)
                && traveler.currentDistance == old(traveler.currentDistance)
                && traveler.position == old(traveler.position) && traveler.facing == old(traveler.facing)
      ensures old(targetLane) != null ==>
                && traveler.splinePath == old(targetLane)
                && traveler.currentDistance == Clamp(old(traveler.currentDistance), 0.0, old(targetLane).totalLength)
                && traveler.position == old(targetLane).GetPositionAtDistance(traveler.currentDistance)
                && traveler.facing == Oriented(old(targetLane).GetDirectionAtDistance(g, traveler.currentDistance),
                                               traveler.movingForward)
                && !isSwitchingLanes && targetLane == null
                && events == old(events) + [SwitchCompleted(old(targetLane))]
    {
      if targetLane == null {
        return;
      }
      var currentDistance := traveler.currentDistance;
      traveler.SetSplinePath(g, targetLane, currentDistance);
      isSwitchingLanes := false;
      targetLane := null;
      events := events + [SwitchCompleted(traveler.splinePath)];
    }

    /**
     * `UpdateLaneSwitch`: advances the timer by `dt`; the switch completes on the first
     * update where `switchTimer / switchDuration >= 1`, and otherwise the position blends.
     */
    method UpdateLaneSwitch(g: Geometry, dt: real)
      requires Valid() && isSwitchingLanes
      modifies this`switchTimer, this`isSwitchingLanes, this`targetLane, this`events
      modifies traveler`splinePath, traveler`currentDistance, traveler`position, traveler`facing
      ensures Valid()
      ensures switchTimer == old(switchTimer) + dt
      ensures switchTimer / switchDuration < 1.0 ==>
                && isSwitchingLanes && targetLane == old(targetLane) && events == old(events)
                && traveler.splinePath == old(traveler.splinePath)
                && traveler.currentDistance == old(traveler.currentDistance)
                && traveler.position == Lerp(switchStartPosition,
                                             targetLane.GetPositionAtDistance(traveler.currentDistance),
                                             switchTimer / switchDuration)
                && traveler.facing == old(traveler.facing)
      ensures switchTimer / switchDuration >= 1.0 ==>
                && !isSwitchingLanes && targetLane == null
                && traveler.splinePath == old(targetLane)
                && traveler.currentDistance == Clamp(old(traveler.currentDistance), 0.0, old(targetLane).totalLength)
                && traveler.position == old(targetLane).GetPositionAtDistance(traveler.currentDistance)
                && traveler.facing == Oriented(old(targetLane).GetDirectionAtDistance(g, traveler.currentDistance),
                                               traveler.movingForward)
                && events == old(events) + [SwitchCompleted(old(targetLane))]
    {
      switchTimer := switchTimer + dt;
      var progress := switchTimer / switchDuration;
      if progress >= 1.0 {
        CompleteLaneSwitch(g);
      } else {
        UpdateSwitchAnimation(progress);
      }
    }

    /**
     * `Update`: steps a switch in progress and does nothing otherwise. It does not look
     * at whether the traveler is moving, so a started switch runs to completion.
     */
    method Update(g: Geometry, dt: real)
      requires Valid()
      modifies this`switchTimer, this`isSwitchingLanes, this`targetLane, this`events
      modifies TravelerFrame()`splinePath, TravelerFrame()`currentDistance, TravelerFrame()`position,
               TravelerFrame()`facing
      ensures Valid()
      ensures !old(isSwitchingLanes) ==>
                && switchTimer == old(switchTimer) && !isSwitchingLanes && events == old(events)
                && targetLane == old(targetLane)
                && (traveler != null ==>
                      && traveler.splinePath == old(traveler.splinePath)
                      && traveler.currentDistance == old(traveler.currentDistance)
                      && traveler.position == old(traveler.position) && traveler.facing == old(traveler.facing))
      ensures old(isSwitchingLanes) ==> switchTimer == old(switchTimer) + dt
      ensures old(isSwitchingLanes) && switchTimer / switchDuration < 1.0 ==>
                && isSwitchingLanes && targetLane == old(targetLane) && events == old(events)
                && traveler.splinePath == old(traveler.splinePath)
                && traveler.currentDistance == old(traveler.currentDistance)
                && traveler.position == Lerp(switchStartPosition,
                                             targetLane.GetPositionAtDistance(traveler.currentDistance),
                                             switchTimer / switchDuration)
                && traveler.facing == old(traveler.facing)
      ensures old(isSwitchingLanes) && switchTimer / switchDuration >= 1.0 ==>
                && !isSwitchingLanes && targetLane == null
                && traveler.splinePath == old(targetLane)
                && traveler.currentDistance == Clamp(old(traveler.currentDistance), 0.0, old(targetLane).totalLength)
                && traveler.position == old(targetLane).GetPositionAtDistance(traveler.currentDistance)
                && traveler.facing == Oriented(old(targetLane).GetDirectionAtDistance(g, traveler.currentDistance),
                                               traveler.movingForward)
                && events == old(events) + [SwitchCompleted(old(targetLane))]
    {
      if isSwitchingLanes {
        UpdateLaneSwitch(g, dt);
      }
    }

    /** `GetCurrentLane`: the traveler's path, or null without a traveler. */
    function GetCurrentLane(): (r: SplinePath?)
      reads this, TravelerFrame()
      ensures traveler == null ==> r == null
      ensures traveler != null ==> r == traveler.splinePath
    {
      if traveler == null then null else traveler.splinePath
    }

    /** `GetLeftLane`: the current lane's left neighbour, or null when either is missing. */
    function GetLeftLane(): (r: SplinePath?)
      reads this, TravelerFrame(), if traveler != null then {traveler.splinePath} else {}
      ensures r != null <==> GetCurrentLane() != null && GetCurrentLane().leftLane != null
      ensures r != null ==> r == GetCurrentLane().leftLane
    {
      var currentPath := GetCurrentLane();
      if currentPath == null then null else currentPath.leftLane
    }

    /** `GetRightLane`: the current lane's right neighbour, or null when either is missing. */
    function GetRightLane(): (r: SplinePath?)
      reads this, TravelerFrame(), if traveler != null then {traveler.splinePath} else {}
      ensures r != null <==> GetCurrentLane() != null && GetCurrentLane().rightLane != null
      ensures r != null ==> r == GetCurrentLane().rightLane
    {
      var currentPath := GetCurrentLane();
      if currentPath == null then null else currentPath.rightLane
    }
  }

  /**
   * The completion test `switchTimer / switchDuration >= 1` holds exactly when the timer
   * has reached the duration, so a started switch ends on the first update that brings
   * the accumulated `dt` up to `switchDuration`.
   */
  lemma CompletionIffTimerReachesDuration(timer: real, duration: real)
    requires duration > 0.0
    ensures timer / duration >= 1.0 <==> timer >= duration
  {
    assert timer / duration * duration == timer;
    if timer / duration >= 1.0 {
      assert timer / duration * duration >= 1.0 * duration;
    }
  }

  /**
   * Because the cooldown is measured from the start of a switch, once a whole switch
   * duration has passed since that start and the cooldown is no longer than the
   * duration (0.3 <= 0.5 by default), the next switch is allowed as soon as the
   * traveler is moving and the previous switch has completed.
   */
  lemma SwitchAllowedAfterCompletion(ls: LaneSwitcher, now: real)
    requires ls.traveler != null && ls.traveler.isMoving && !ls.isSwitchingLanes
    requires ls.switchCooldown <= ls.switchDuration && now >= ls.lastSwitchTime + ls.switchDuration
    ensures ls.CanSwitchLanes(now)
  {
  }
}
