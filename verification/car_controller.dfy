/**
 * `CarController`: a traffic car that rides a `SplineTraveler`, starts and stops with
 * the game state, and decides what happens when the traveler reaches either end of
 * its path.
 *
 * `Destroy(gameObject)` is deferred by the engine to the end of the frame, so it is the
 * flag `destroyed` here and the rest of the frame still runs.
 */
module Vehicles {
  import opened Geometry
  import opened Options
  import opened SplinePaths
  import opened Travelers
  import opened Games

  /** The traveler speed each difficulty sets. */
  function DifficultySpeed(d: Difficulty): (r: real)
    ensures d == Easy ==> r == 9.0
    ensures d == Hard ==> r == 14.0
  {
    match d
    case Easy => 9.0
    case Hard => 14.0
  }

  /** The destroy test of `OnReachedPathEnd`: at least 90% of the way along the path. */
  function NearPathEnd(distance: real, totalLength: real): bool {
    distance >= totalLength * 0.9
  }

  /**
   * The end event fires only once the distance has reached the length, so on a path of
   * non-negative length the 90% test always passes there.
   */
  lemma EndEventAlwaysNearEnd(distance: real, totalLength: real)
    requires totalLength >= 0.0 && distance >= totalLength
    ensures NearPathEnd(distance, totalLength)
  {
  }

  class CarController {
    const traveler: SplineTraveler?
    var isOncomingTraffic: bool
    var followNextPath: bool
    /** Whether `Awake` subscribed the handlers (it does so only with a traveler). */
    var subscribed: bool
    var destroyed: bool

    /** The traveler component, when there is one, as a frame. */
    function TravelerFrame(): set<SplineTraveler> {
      if traveler == null then {} else {traveler}
    }

    /** The serialized fields; the defaults are `isOncomingTraffic = false`, `followNextPath = true`. */
    constructor (traveler: SplineTraveler?, isOncomingTraffic: bool, followNextPath: bool)
      ensures this.traveler == traveler && this.isOncomingTraffic == isOncomingTraffic
      ensures this.followNextPath == followNextPath && !subscribed && !destroyed
    {
      this.traveler := traveler;
      this.isOncomingTraffic := isOncomingTraffic;
      this.followNextPath := followNextPath;
      subscribed := false;
      destroyed := false;
    }

    /** `Awake`: with a traveler, sets its direction to `!isOncomingTraffic` and subscribes. */
    method Awake()
      modifies this`subscribed, TravelerFrame()`movingForward
      ensures traveler == null ==> subscribed == old(subscribed)
      ensures traveler != null ==> subscribed && traveler.movingForward == !isOncomingTraffic
    {
      if traveler == null {
        return;
      }
      traveler.SetIsTravelingForward(!isOncomingTraffic);
      subscribed := true;
    }

    /** `Start`: snaps the traveler to the nearest candidate path and applies the difficulty speed. */
    method Start(g: Geometry, allPaths: seq<SplinePath>, difficulty: Difficulty)
      modifies TravelerFrame()`splinePath, TravelerFrame()`currentDistance, TravelerFrame()`position, TravelerFrame()`facing,
               TravelerFrame()`travelSpeed
      modifies allPaths`samples, allPaths`totalLength
      ensures traveler != null ==> traveler.travelSpeed == DifficultySpeed(difficulty)
      ensures traveler != null ==>
                forall p :: p in allPaths ==> Regenerated(g, p, old(p.samples), old(p.totalLength))
      ensures traveler != null && SnapChoice(g, allPaths, old(traveler.position)).Some? ==>
                traveler.splinePath == allPaths[SnapChoice(g, allPaths, old(traveler.position)).value]
      ensures traveler != null && SnapChoice(g, allPaths, old(traveler.position)).None? ==>
                traveler.splinePath == old(traveler.splinePath)
    {
      if traveler != null {
        traveler.ForceSnapToNearestPath(g, allPaths);
        ApplyDifficultySettings(difficulty);
      }
    }

    /** `Playing` starts the traveler; every other state stops it. */
    method HandleGameStateChanged(state: GameState)
      modifies TravelerFrame()`isMoving, TravelerFrame()`events
      ensures traveler != null && state == Playing && traveler.splinePath != null ==>
                traveler.isMoving && traveler.events == old(traveler.events) + [StartedMoving]
      ensures traveler != null && state == Playing && traveler.splinePath == null ==>
                traveler.isMoving == old(traveler.isMoving) && traveler.events == old(traveler.events)
      ensures traveler != null && state != Playing ==>
                !traveler.isMoving && traveler.events == old(traveler.events) + [StoppedMoving]
    {
      if state == Playing {
        if traveler != null {
          traveler.StartMoving();
        }
      } else {
        if traveler != null {
          traveler.StopMoving();
        }
      }
    }

    method TransitionToPath(g: Geometry, newPath: SplinePath, distance: real)
      requires traveler != null
      modifies traveler`splinePath, traveler`currentDistance, traveler`position, traveler`facing
      ensures traveler.splinePath == newPath
      ensures traveler.currentDistance == Clamp(distance, 0.0, newPath.totalLength)
      ensures traveler.position == newPath.GetPositionAtDistance(traveler.currentDistance)
      ensures traveler.facing == Oriented(newPath.GetDirectionAtDistance(g, traveler.currentDistance),
                                          traveler.movingForward)
    {
      traveler.SetSplinePath(g, newPath, distance);
    }

    /**
     * `OnReachedPathEnd`: follow the next path from distance 0 if allowed and present;
     * otherwise destroy the car when it is at least 90% of the way along.
     */
    method OnReachedPathEnd(g: Geometry)
      requires traveler != null && traveler.splinePath != null
      modifies traveler`splinePath, traveler`currentDistance, traveler`position, traveler`facing,
               this`destroyed
      ensures var path := old(traveler.splinePath);
              if followNextPath && path.nextPath != null then
                && traveler.splinePath == path.nextPath
                && traveler.currentDistance == Clamp(0.0, 0.0, path.nextPath.totalLength)
                && traveler.position == path.nextPath.GetPositionAtDistance(traveler.currentDistance)
                && traveler.facing == Oriented(path.nextPath.GetDirectionAtDistance(g, traveler.currentDistance),
                                               traveler.movingForward)
                && destroyed == old(destroyed)
              else
                && traveler.splinePath == path
                && traveler.currentDistance == old(traveler.currentDistance)
                && traveler.position == old(traveler.position) && traveler.facing == old(traveler.facing)
                && destroyed == (old(destroyed) || NearPathEnd(traveler.currentDistance, path.totalLength))
    {
      var path := traveler.splinePath;
      if followNextPath && path != null && path.GetNextPath() != null {
        TransitionToPath(g, path.GetNextPath(), 0.0);
      } else {
        var totalLength := traveler.splinePath.GetTotalLength();
        var currentDistance := traveler.currentDistance;
        if currentDistance >= totalLength * 0.9 {
          destroyed := true;
        }
      }
    }

    /** `OnReachedPathStart`: follow the previous path from its far end if allowed and present. */
    method OnReachedPathStart(g: Geometry)
      requires traveler != null
      modifies traveler`splinePath, traveler`currentDistance, traveler`position, traveler`facing
      ensures var path := old(traveler.splinePath);
              if followNextPath && path != null && path.previousPath != null then
                && traveler.splinePath == path.previousPath
                && traveler.currentDistance == Clamp(path.previousPath.totalLength, 0.0, path.previousPath.totalLength)
                && traveler.position == path.previousPath.GetPositionAtDistance(traveler.currentDistance)
                && traveler.facing == Oriented(path.previousPath.GetDirectionAtDistance(g, traveler.currentDistance),
                                               traveler.movingForward)
              else
                && traveler.splinePath == path && traveler.currentDistance == old(traveler.currentDistance)
                && traveler.position == old(traveler.position) && traveler.facing == old(traveler.facing)
    {
      var path := traveler.splinePath;
      if followNextPath && path != null && path.GetPreviousPath() != null {
        var previousPath := path.GetPreviousPath();
        TransitionToPath(g, previousPath, previousPath.GetTotalLength());
      }
    }

    /** `SetOncomingTraffic`: stores the flag and re-syncs the traveler's direction. */
    method SetOncomingTraffic(oncoming: bool)
      modifies this`isOncomingTraffic, TravelerFrame()`movingForward
      ensures isOncomingTraffic == oncoming
      ensures traveler != null ==> traveler.movingForward == !oncoming
    {
      isOncomingTraffic := oncoming;
      if traveler != null {
        traveler.SetIsTravelingForward(!isOncomingTraffic);
      }
    }

    method ApplyDifficultySettings(difficulty: Difficulty)
      requires traveler != null
      modifies traveler`travelSpeed
      ensures traveler.travelSpeed == DifficultySpeed(difficulty)
    {
      if difficulty == Easy {
        traveler.SetTravelSpeed(9.0);
      } else if difficulty == Hard {
        traveler.SetTravelSpeed(14.0);
      }
    }

    /**
     * One frame of the car's traveler with this car's handlers subscribed: the traveler
     * steps, the boundary handler runs, and then the traveler stops and clamps to the
     * length of the path it is on by then.
     */
    method Tick(g: Geometry, dt: real)
      requires traveler != null && subscribed
      modifies traveler`splinePath, traveler`currentDistance, traveler`position, traveler`facing,
               traveler`isMoving, traveler`events, this`destroyed
      ensures !old(traveler.isMoving) || old(traveler.splinePath) == null ==>
                && traveler.splinePath == old(traveler.splinePath) && traveler.isMoving == old(traveler.isMoving)
                && traveler.currentDistance == old(traveler.currentDistance)
                && traveler.position == old(traveler.position) && traveler.facing == old(traveler.facing)
                && traveler.events == old(traveler.events) && destroyed == old(destroyed)
      ensures old(traveler.isMoving) && old(traveler.splinePath) != null ==>
                var path := old(traveler.splinePath);
                var raw := StepDistance(old(traveler.currentDistance), traveler.travelSpeed, dt, traveler.movingForward);
                var b := BoundaryReached(raw, traveler.movingForward, path.totalLength);
                && traveler.isMoving == b.None?
                && traveler.events == old(traveler.events) + TickEvents(b)
                && (b.None? ==> traveler.splinePath == path && traveler.currentDistance == Clamp(raw, 0.0, path.totalLength)
                                && traveler.position == old(traveler.position) && traveler.facing == old(traveler.facing)
                                && destroyed == old(destroyed))
                && (b == Some(AtEnd) && followNextPath && path.nextPath != null ==>
                      && traveler.splinePath == path.nextPath && destroyed == old(destroyed)
                      && var hop := Clamp(0.0, 0.0, path.nextPath.totalLength);
                      && traveler.currentDistance == Clamp(hop, 0.0, path.nextPath.totalLength)
                      && traveler.position == path.nextPath.GetPositionAtDistance(hop)
                      && traveler.facing == Oriented(path.nextPath.GetDirectionAtDistance(g, hop), traveler.movingForward)
                      && (path.nextPath.totalLength >= 0.0 ==> traveler.currentDistance == 0.0))
                && (b == Some(AtEnd) && !(followNextPath && path.nextPath != null) ==>
                      && traveler.splinePath == path
                      && traveler.currentDistance == Clamp(raw, 0.0, path.totalLength)
                      && traveler.position == old(traveler.position) && traveler.facing == old(traveler.facing)
                      && destroyed == (old(destroyed) || NearPathEnd(raw, path.totalLength))
                      && (path.totalLength >= 0.0 ==> destroyed))
                && (b == Some(AtStart) && followNextPath && path.previousPath != null ==>
                      && traveler.splinePath == path.previousPath && destroyed == old(destroyed)
                      && var hop := Clamp(path.previousPath.totalLength, 0.0, path.previousPath.totalLength);
                      && traveler.currentDistance == Clamp(hop, 0.0, path.previousPath.totalLength)
                      && traveler.position == path.previousPath.GetPositionAtDistance(hop)
                      && traveler.facing == Oriented(path.previousPath.GetDirectionAtDistance(g, hop),
                                                     traveler.movingForward)
                      && (path.previousPath.totalLength >= 0.0 ==>
                            traveler.currentDistance == path.previousPath.totalLength))
                && (b == Some(AtStart) && !(followNextPath && path.previousPath != null) ==>
                      && traveler.splinePath == path && destroyed == old(destroyed)
                      && traveler.currentDistance == Clamp(raw, 0.0, path.totalLength)
                      && traveler.position == old(traveler.position) && traveler.facing == old(traveler.facing))
    {
      if !traveler.isMoving || traveler.splinePath == null {
        return;
      }
      var b := traveler.Advance(dt);
      if b == Some(AtEnd) {
        OnReachedPathEnd(g);
      } else if b == Some(AtStart) {
        OnReachedPathStart(g);
      }
      traveler.FinishMove(b);
    }
  }
}
