/**
 * `SplineTraveler`: an object that rides a `SplinePath` at a scalar distance.
 *
 * The C# events `OnReachedPathEnd`, `OnReachedPathStart`, `OnStartedMoving` and
 * `OnStoppedMoving` are recorded in the append-only log `events`. A subscriber that
 * reacts to a boundary event runs between the two halves of `MoveAlongSpline`
 * (`Advance`, which fires the event, and `FinishMove`, which stops and clamps); the
 * vehicle model composes them that way.
 */
module Travelers {
  import opened Geometry
  import opened Options
  import opened SplinePaths

  datatype TravelerEvent = ReachedPathEnd | ReachedPathStart | StartedMoving | StoppedMoving

  datatype Boundary = AtEnd | AtStart

  function BoundaryEvent(b: Boundary): TravelerEvent {
    match b
    case AtEnd => ReachedPathEnd
    case AtStart => ReachedPathStart
  }

  // ---------------------------------------------------------------------------
  // One tick of MoveAlongSpline, as values
  // ---------------------------------------------------------------------------

  /** The distance after adding (forward) or subtracting (backward) `speed * dt`, before clamping. */
  function StepDistance(distance: real, speed: real, dt: real, forward: bool): real {
    if forward then distance + speed * dt else distance - speed * dt
  }

  /** The boundary the unclamped distance has reached: the end going forward, the start going backward. */
  function BoundaryReached(raw: real, forward: bool, length: real): (r: Option<Boundary>)
    ensures r == Some(AtEnd) <==> forward && raw >= length
    ensures r == Some(AtStart) <==> !forward && raw <= 0.0
  {
    if forward then (if raw >= length then Some(AtEnd) else None)
    else (if raw <= 0.0 then Some(AtStart) else None)
  }

  /** What a tick without subscribers leaves in the log: the boundary event, then the stop. */
  function TickEvents(b: Option<Boundary>): seq<TravelerEvent> {
    match b
    case None => []
    case Some(e) => [BoundaryEvent(e), StoppedMoving]
  }

  /** The distance a tick leaves: the stepped distance clamped to [0, length]. */
  function TickDistance(distance: real, speed: real, dt: real, forward: bool, length: real): (r: real)
    ensures length >= 0.0 ==> 0.0 <= r <= length
  {
    Clamp(StepDistance(distance, speed, dt, forward), 0.0, length)
  }

  /**
   * On a path of non-negative length, starting inside it and stepping a non-negative
   * amount, the clamp changes the stepped distance only when a boundary event fires.
   */
  lemma ClampOnlyAtBoundary(distance: real, speed: real, dt: real, forward: bool, length: real)
    requires 0.0 <= distance <= length && speed * dt >= 0.0
    requires BoundaryReached(StepDistance(distance, speed, dt, forward), forward, length).None?
    ensures TickDistance(distance, speed, dt, forward, length) == StepDistance(distance, speed, dt, forward)
  {
    var raw := StepDistance(distance, speed, dt, forward);
    assert 0.0 <= raw <= length;
  }

  /**
   * Going forward from inside the path with a non-negative step, the end event fires
   * exactly when the tick leaves the traveler at the path's end.
   */
  lemma EndEventIffAtEnd(distance: real, speed: real, dt: real, length: real)
    requires 0.0 <= distance <= length && speed * dt >= 0.0
    ensures BoundaryReached(StepDistance(distance, speed, dt, true), true, length) == Some(AtEnd)
            <==> TickDistance(distance, speed, dt, true, length) == length
  {
    var raw := StepDistance(distance, speed, dt, true);
    assert raw >= 0.0;
  }

  /**
   * Going backward from inside the path with a non-negative step, the start event
   * fires exactly when the tick leaves the traveler at distance 0.
   */
  lemma StartEventIffAtStart(distance: real, speed: real, dt: real, length: real)
    requires 0.0 < length && 0.0 <= distance <= length && speed * dt >= 0.0
    ensures BoundaryReached(StepDistance(distance, speed, dt, false), false, length) == Some(AtStart)
            <==> TickDistance(distance, speed, dt, false, length) == 0.0
  {
    var raw := StepDistance(distance, speed, dt, false);
    assert raw <= length;
  }

  /** The direction the traveler faces along a path direction: reversed when travelling backward. */
  function Oriented(direction: Vec3, forward: bool): (r: Vec3)
    ensures forward ==> r == direction
    ensures !forward ==> Add(r, direction) == Zero
  {
    if forward then direction else Neg(direction)
  }

  // ---------------------------------------------------------------------------
  // The 101-probe nearest-distance search
  // ---------------------------------------------------------------------------

  /** `FindClosestDistanceOnSpline` probes `samples + 1` distances with `samples = 100`. */
  const ProbeSamples: int := 100

  /** Probe `i`: `t = i / 100`, distance `t * length`. */
  function ProbeDistance(length: real, i: int): real {
    (i as real / ProbeSamples as real) * length
  }

  lemma ProbeDistanceInRange(length: real, i: int)
    requires length >= 0.0 && 0 <= i <= ProbeSamples
    ensures 0.0 <= ProbeDistance(length, i) <= length
    ensures i == 0 ==> ProbeDistance(length, i) == 0.0
    ensures i == ProbeSamples ==> ProbeDistance(length, i) == length
  {
    var t := i as real / ProbeSamples as real;
    assert 0.0 <= t <= 1.0;
    ProductNonNegative(t, length);
    ProductNonNegative(1.0 - t, length);
  }

  lemma ProductNonNegative(a: real, b: real)
    requires 0.0 <= a && 0.0 <= b
    ensures 0.0 <= a * b
  {}

  /**
   * The index of the first strictly smallest of `xs[..n]` below `bound`, as
   * `SplineTraveler`'s "keep the candidate if it is `<` the best so far, starting from `bound`"
   * scans find it; `None` when no element is below `bound`.
   */
  function FirstStrictMin(xs: seq<real>, bound: real, n: nat): (r: Option<nat>)
    requires n <= |xs|
    ensures r.Some? ==> r.value < n && xs[r.value] < bound
    ensures r.Some? ==> forall j :: 0 <= j < n ==> xs[r.value] <= xs[j]
    ensures r.Some? ==> forall j :: 0 <= j < r.value ==> xs[r.value] < xs[j]
    ensures r.None? ==> forall j :: 0 <= j < n ==> bound <= xs[j]
  {
    if n == 0 then None
    else
      var prev := FirstStrictMin(xs, bound, n - 1);
      var best := if prev.None? then bound else xs[prev.value];
      if xs[n - 1] < best then Some(n - 1) else prev
  }

  /** The distance from `position` to each of the 101 probes of a table. */
  function ProbeGaps(g: Geometry, s: seq<Sample>, total: real, origin: Vec3, position: Vec3): (r: seq<real>)
    ensures |r| == ProbeSamples + 1
  {
    seq(ProbeSamples + 1, i requires 0 <= i <= ProbeSamples => ProbeGap(g, s, total, origin, position, i))
  }

  /** How far `position` is from probe `i`'s point. */
  function ProbeGap(g: Geometry, s: seq<Sample>, total: real, origin: Vec3, position: Vec3, i: int): real {
    Distance(g, position, PositionAt(s, total, origin, ProbeDistance(total, i)))
  }

  /**
   * What `FindClosestDistanceOnSpline` returns: 0 for a path of length <= 0, otherwise
   * the distance of the first probe whose point is strictly nearest to `position`
   * (0 if none is nearer than `float.MaxValue`).
   */
  function ClosestDistanceOnSpline(g: Geometry, s: seq<Sample>, total: real, origin: Vec3, position: Vec3): real {
    if total <= 0.0 then 0.0
    else
      var gaps := ProbeGaps(g, s, total, origin, position);
      match FirstStrictMin(gaps, FloatMax, |gaps|)
      case None => 0.0
      case Some(i) => ProbeDistance(total, i)
  }

  /** The distance found is 0 on a path of length <= 0 and lies on the path otherwise. */
  lemma ClosestDistanceInRange(g: Geometry, s: seq<Sample>, total: real, origin: Vec3, position: Vec3)
    ensures total <= 0.0 ==> ClosestDistanceOnSpline(g, s, total, origin, position) == 0.0
    ensures total > 0.0 ==> 0.0 <= ClosestDistanceOnSpline(g, s, total, origin, position) <= total
  {
    if total > 0.0 {
      var gaps := ProbeGaps(g, s, total, origin, position);
      var k := FirstStrictMin(gaps, FloatMax, |gaps|);
      if k.Some? {
        ProbeDistanceInRange(total, k.value);
      }
    }
  }

  /** The chosen distance is at least as near to `position` as every probe. */
  lemma ClosestDistanceIsNearestProbe(g: Geometry, s: seq<Sample>, total: real, origin: Vec3,
                                      position: Vec3, i: int)
    requires total > 0.0 && 0 <= i <= ProbeSamples
    requires Distance(g, position, PositionAt(s, total, origin, ProbeDistance(total, i))) < FloatMax
    ensures Distance(g, position, PositionAt(s, total, origin, ClosestDistanceOnSpline(g, s, total, origin, position)))
            <= Distance(g, position, PositionAt(s, total, origin, ProbeDistance(total, i)))
  {
    var gaps := ProbeGaps(g, s, total, origin, position);
    var k := FirstStrictMin(gaps, FloatMax, |gaps|);
    assert gaps[i] < FloatMax;
    assert k.Some?;
    assert gaps[k.value] <= gaps[i];
  }

  // ---------------------------------------------------------------------------
  // Nearest-path snapping, as values
  // ---------------------------------------------------------------------------

  /** How far `position` is from the point the probe search picks on `p`. */
  function SnapGap(g: Geometry, p: SplinePath, position: Vec3): real
    reads p
  {
    var d := ClosestDistanceOnSpline(g, p.samples, p.totalLength, p.origin, position);
    Distance(g, position, PositionAt(p.samples, p.totalLength, p.origin, d))
  }

  function SnapDistance(g: Geometry, p: SplinePath, position: Vec3): real
    reads p
  {
    ClosestDistanceOnSpline(g, p.samples, p.totalLength, p.origin, position)
  }

  function SnapGaps(g: Geometry, paths: seq<SplinePath>, position: Vec3): (r: seq<real>)
    reads paths
    ensures |r| == |paths|
  {
    if |paths| == 0 then []
    else SnapGaps(g, paths[..|paths| - 1], position) + [SnapGap(g, paths[|paths| - 1], position)]
  }

  lemma {:induction false} SnapGapsAt(g: Geometry, paths: seq<SplinePath>, position: Vec3, i: nat)
    requires i < |paths|
    ensures SnapGaps(g, paths, position)[i] == SnapGap(g, paths[i], position)
  {
    if i < |paths| - 1 {
      SnapGapsAt(g, paths[..|paths| - 1], position, i);
    }
  }

  function SnapDistances(g: Geometry, paths: seq<SplinePath>, position: Vec3): (r: seq<real>)
    reads paths
    ensures |r| == |paths|
  {
    if |paths| == 0 then []
    else SnapDistances(g, paths[..|paths| - 1], position) + [SnapDistance(g, paths[|paths| - 1], position)]
  }

  lemma {:induction false} SnapDistancesAt(g: Geometry, paths: seq<SplinePath>, position: Vec3, i: nat)
    requires i < |paths|
    ensures SnapDistances(g, paths, position)[i] == SnapDistance(g, paths[i], position)
  {
    if i < |paths| - 1 {
      SnapDistancesAt(g, paths[..|paths| - 1], position, i);
    }
  }

  /** The path snapping picks: the earliest candidate strictly nearest to `position`. */
  function SnapChoice(g: Geometry, paths: seq<SplinePath>, position: Vec3): (r: Option<nat>)
    reads paths
    ensures r.Some? ==> r.value < |paths|
  {
    FirstStrictMin(SnapGaps(g, paths, position), FloatMax, |paths|)
  }

  /**
   * The state of the candidate loop after the first `i` candidates, given each
   * candidate's gap and probed distance: the earliest of them strictly nearest (and
   * nearer than `float.MaxValue`), its gap and its probed distance, or nothing yet.
   */
  ghost predicate NearestSoFar(allPaths: seq<SplinePath>, gaps: seq<real>, distances: seq<real>, i: nat,
                               closestPath: SplinePath?, closestDistance: real, closestSplineDistance: real)
  {
    && i <= |gaps| == |distances| == |allPaths|
    && (FirstStrictMin(gaps, FloatMax, i).None? ==>
          closestPath == null && closestSplineDistance == 0.0 && closestDistance == FloatMax)
    && (FirstStrictMin(gaps, FloatMax, i).Some? ==>
          var k := FirstStrictMin(gaps, FloatMax, i).value;
          && closestPath == allPaths[k] && closestDistance == gaps[k]
          && closestSplineDistance == distances[k])
  }

  /** `FindAndSnapToNearestPath` regenerates exactly the candidates of length <= 0. */
  ghost predicate Regenerated(g: Geometry, p: SplinePath, oldSamples: seq<Sample>, oldLength: real)
    reads p
  {
    RebuiltFrom(GeneratedSamples(g, p.controlPoints, p.segmentsPerCurve), oldSamples, oldLength, p.samples, p.totalLength)
  }

  /**
   * A path's table and length after the check-and-rebuild step, from the ones before it
   * and the table `rebuilt` that `GenerateSplinePoints` builds: a length <= 0 brings in
   * the rebuilt table and its last distance (the old length when it is empty).
   */
  ghost predicate RebuiltFrom(rebuilt: seq<Sample>, oldSamples: seq<Sample>, oldLength: real,
                              samples: seq<Sample>, length: real)
  {
    if oldLength <= 0.0 then
      samples == rebuilt && length == (if |rebuilt| == 0 then oldLength else rebuilt[|rebuilt| - 1].distance)
    else
      samples == oldSamples && length == oldLength
  }

  /**
   * Checking and rebuilding a path a second time (it occurs twice among the candidates)
   * changes nothing more: a rebuilt table is rebuilt to itself.
   */
  lemma RebuiltTwice(rebuilt: seq<Sample>, s0: seq<Sample>, l0: real, s1: seq<Sample>, l1: real,
                     s2: seq<Sample>, l2: real)
    requires RebuiltFrom(rebuilt, s0, l0, s1, l1)
    requires RebuiltFrom(rebuilt, s1, l1, s2, l2)
    ensures RebuiltFrom(rebuilt, s0, l0, s2, l2)
  {
  }

  /** The candidates among the first `i`. */
  ghost function FirstPaths(allPaths: seq<SplinePath>, i: nat): (r: set<SplinePath>)
    requires i <= |allPaths|
    ensures forall p :: p in r ==> p in allPaths
  {
    set j | 0 <= j < i :: allPaths[j]
  }

  lemma FirstPathsSnoc(allPaths: seq<SplinePath>, i: nat)
    requires i < |allPaths|
    ensures FirstPaths(allPaths, i + 1) == FirstPaths(allPaths, i) + {allPaths[i]}
  {
  }

  lemma FirstPathsAll(allPaths: seq<SplinePath>)
    ensures forall p :: p in allPaths ==> p in FirstPaths(allPaths, |allPaths|)
  {
    forall p | p in allPaths
      ensures p in FirstPaths(allPaths, |allPaths|)
    {
      var j :| 0 <= j < |allPaths| && allPaths[j] == p;
    }
  }

  /**
   * The candidates in `done` are checked and, from the lengths and tables in
   * `oldSamples`/`oldLength`, rebuilt to the tables in `rebuilt`; the other candidates
   * are untouched.
   */
  ghost predicate RegeneratedSoFar(allPaths: seq<SplinePath>, done: set<SplinePath>, rebuilt: map<SplinePath, seq<Sample>>,
                                   oldSamples: map<SplinePath, seq<Sample>>, oldLength: map<SplinePath, real>)
    reads set p | p in allPaths
  {
    && (forall p :: p in allPaths ==> p in rebuilt && p in oldSamples && p in oldLength)
    && (forall p :: p in done ==> p in allPaths)
    && (forall p :: p in done ==> RebuiltFrom(rebuilt[p], oldSamples[p], oldLength[p], p.samples, p.totalLength))
    && (forall p :: p in allPaths && p !in done ==> p.samples == oldSamples[p] && p.totalLength == oldLength[p])
  }

  // ---------------------------------------------------------------------------
  // The traveler object
  // ---------------------------------------------------------------------------

  class SplineTraveler {
    var splinePath: SplinePath?
    var travelSpeed: real
    var movingForward: bool
    var currentDistance: real
    var isMoving: bool
    /** `MonoBehaviour.enabled`; the engine does not call `Update` on a disabled component. */
    var enabled: bool
    /** `transform.position` and `transform.forward`. */
    var position: Vec3
    var facing: Vec3
    var events: seq<TravelerEvent>

    /** The serialized defaults: speed 10, forward, distance 0, not moving, no path. */
    constructor (position: Vec3, facing: Vec3)
      ensures splinePath == null && travelSpeed == 10.0 && movingForward
      ensures currentDistance == 0.0 && !isMoving && enabled
      ensures this.position == position && this.facing == facing && events == []
    {
      splinePath := null;
      travelSpeed := 10.0;
      movingForward := true;
      currentDistance := 0.0;
      isMoving := false;
      enabled := true;
      this.position := position;
      this.facing := facing;
      events := [];
    }

    method SetIsTravelingForward(forward: bool)
      modifies this`movingForward
      ensures movingForward == forward
    {
      movingForward := forward;
    }

    method SetTravelSpeed(speed: real)
      modifies this`travelSpeed
      ensures travelSpeed == speed
    {
      travelSpeed := speed;
    }

    /** Clamps into [0, length] when a path is set; stores the raw value otherwise. */
    method SetDistance(distance: real)
      modifies this`currentDistance
      ensures splinePath != null ==> currentDistance == Clamp(distance, 0.0, splinePath.totalLength)
      ensures splinePath == null ==> currentDistance == distance
      ensures splinePath != null && splinePath.totalLength >= 0.0 ==>
                0.0 <= currentDistance <= splinePath.totalLength
    {
      if splinePath != null {
        currentDistance := Clamp(distance, 0.0, splinePath.GetTotalLength());
      } else {
        currentDistance := distance;
      }
    }

    /**
     * Assigns the path first, so the distance is clamped to the new path's length, then
     * places the traveler on it facing along (or, backward, against) the path.
     */
    method SetSplinePath(g: Geometry, path: SplinePath?, distance: real)
      modifies this`splinePath, this`currentDistance, this`position, this`facing
      ensures splinePath == path
      ensures path != null ==> currentDistance == Clamp(distance, 0.0, path.totalLength)
      ensures path == null ==> currentDistance == distance
      ensures path != null ==> position == path.GetPositionAtDistance(currentDistance)
      ensures path != null ==> facing == Oriented(path.GetDirectionAtDistance(g, currentDistance), movingForward)
      ensures path == null ==> position == old(position) && facing == old(facing)
    {
      splinePath := path;
      SetDistance(distance);
      if path != null {
        position := path.GetPositionAtDistance(currentDistance);
        var direction := path.GetDirectionAtDistance(g, currentDistance);
        facing := Oriented(direction, movingForward);
      }
    }

    /** Without a path nothing happens; otherwise the traveler moves and says so once. */
    method StartMoving()
      modifies this`isMoving, this`events
      ensures splinePath == null ==> isMoving == old(isMoving) && events == old(events)
      ensures splinePath != null ==> isMoving && events == old(events) + [StartedMoving]
    {
      if splinePath == null {
        return;
      }
      isMoving := true;
      events := events + [StartedMoving];
    }

    /** Always stops and always notifies, even when already stopped. */
    method StopMoving()
      modifies this`isMoving, this`events
      ensures !isMoving && events == old(events) + [StoppedMoving]
    {
      isMoving := false;
      events := events + [StoppedMoving];
    }

    /**
     * The first half of `MoveAlongSpline`: steps the distance and fires the boundary
     * event, if any. Subscribers run after this returns.
     */
    method Advance(dt: real) returns (b: Option<Boundary>)
      requires splinePath != null
      modifies this`currentDistance, this`events
      ensures currentDistance == StepDistance(old(currentDistance), travelSpeed, dt, movingForward)
      ensures b == BoundaryReached(currentDistance, movingForward, splinePath.totalLength)
      ensures events == old(events) + (if b.Some? then [BoundaryEvent(b.value)] else [])
    {
      var distanceToMove := travelSpeed * dt;
      if movingForward {
        currentDistance := currentDistance + distanceToMove;
        if currentDistance >= splinePath.GetTotalLength() {
          b := Some(AtEnd);
          events := events + [ReachedPathEnd];
        } else {
          b := None;
        }
      } else {
        currentDistance := currentDistance - distanceToMove;
        if currentDistance <= 0.0 {
          b := Some(AtStart);
          events := events + [ReachedPathStart];
        } else {
          b := None;
        }
      }
    }

    /**
     * The second half of `MoveAlongSpline`: after a boundary event, stop; then clamp
     * to the length of whatever path the traveler is on now.
     */
    method FinishMove(b: Option<Boundary>)
      requires splinePath != null
      modifies this`isMoving, this`events, this`currentDistance
      ensures isMoving == (old(isMoving) && b.None?)
      ensures events == old(events) + (if b.Some? then [StoppedMoving] else [])
      ensures currentDistance == Clamp(old(currentDistance), 0.0, splinePath.totalLength)
    {
      if b.Some? {
        StopMoving();
      }
      currentDistance := Clamp(currentDistance, 0.0, splinePath.GetTotalLength());
    }

    /** `MoveAlongSpline` with no subscriber changing the traveler in between. */
    method MoveAlongSpline(dt: real)
      requires splinePath != null
      modifies this`currentDistance, this`events, this`isMoving
      ensures var b := BoundaryReached(StepDistance(old(currentDistance), travelSpeed, dt, movingForward),
                                       movingForward, splinePath.totalLength);
              && currentDistance == TickDistance(old(currentDistance), travelSpeed, dt, movingForward,
                                                 splinePath.totalLength)
              && isMoving == (old(isMoving) && b.None?)
              && events == old(events) + TickEvents(b)
    {
      var b := Advance(dt);
      FinishMove(b);
    }

    /** `Update`: nothing happens unless the traveler is moving on a path. */
    method Update(dt: real)
      modifies this`currentDistance, this`events, this`isMoving
      ensures !old(isMoving) || splinePath == null ==>
                currentDistance == old(currentDistance) && events == old(events) && isMoving == old(isMoving)
      ensures old(isMoving) && splinePath != null ==>
                var b := BoundaryReached(StepDistance(old(currentDistance), travelSpeed, dt, movingForward),
                                         movingForward, splinePath.totalLength);
                && currentDistance == TickDistance(old(currentDistance), travelSpeed, dt, movingForward,
                                                   splinePath.totalLength)
                && isMoving == b.None?
                && events == old(events) + TickEvents(b)
    {
      if !isMoving || splinePath == null {
        return;
      }
      MoveAlongSpline(dt);
    }

    /** The transform's position without a path, else the path position at the current distance. */
    function GetCurrentPosition(): (r: Vec3)
      reads this, splinePath
      ensures splinePath == null ==> r == position
      ensures splinePath != null ==> r == PositionAt(splinePath.samples, splinePath.totalLength,
                                                     splinePath.origin, currentDistance)
    {
      if splinePath == null then position else splinePath.GetPositionAtDistance(currentDistance)
    }

    /** The path direction at the current distance, negated when travelling backward. */
    function GetCurrentDirection(g: Geometry): (r: Vec3)
      reads this, splinePath
      ensures splinePath == null ==> r == facing
      ensures splinePath != null && movingForward ==>
                r == DirectionAt(g, splinePath.samples, splinePath.totalLength, splinePath.forward, currentDistance)
      ensures splinePath != null && !movingForward ==>
                Add(r, DirectionAt(g, splinePath.samples, splinePath.totalLength, splinePath.forward,
                                   currentDistance)) == Zero
    {
      if splinePath == null then facing
      else Oriented(splinePath.GetDirectionAtDistance(g, currentDistance), movingForward)
    }

    /**
     * `FindClosestDistanceOnSpline`: probes `t * length` for `t = i / 100`, i = 0..100,
     * keeping the first probe strictly nearer than the best so far.
     */
    method FindClosestDistanceOnSpline(g: Geometry, path: SplinePath, worldPosition: Vec3) returns (r: real)
      ensures r == ClosestDistanceOnSpline(g, path.samples, path.totalLength, path.origin, worldPosition)
    {
      var closestDistance := 0.0;
      var closestDistanceToPoint := FloatMax;
      var length := path.GetTotalLength();
      if length <= 0.0 {
        return 0.0;
      }
      ghost var gaps := ProbeGaps(g, path.samples, length, path.origin, worldPosition);
      var samples := ProbeSamples;
      var i := 0;
      while i <= samples
        invariant 0 <= i <= samples + 1
        invariant FirstStrictMin(gaps, FloatMax, i).None? ==>
                    closestDistance == 0.0 && closestDistanceToPoint == FloatMax
        invariant FirstStrictMin(gaps, FloatMax, i).Some? ==>
                    var k := FirstStrictMin(gaps, FloatMax, i).value;
                    closestDistance == ProbeDistance(length, k) && closestDistanceToPoint == gaps[k]
      {
        var distanceAlongSpline := ProbeDistance(length, i);
        var pointOnSpline := path.GetPositionAtDistance(distanceAlongSpline);
        var distanceToPoint := Distance(g, worldPosition, pointOnSpline);
        assert distanceToPoint == ProbeGap(g, path.samples, length, path.origin, worldPosition, i) == gaps[i];
        if distanceToPoint < closestDistanceToPoint {
          closestDistanceToPoint := distanceToPoint;
          closestDistance := distanceAlongSpline;
        }
        i := i + 1;
      }
      r := closestDistance;
    }

    /**
     * The first loop of `FindAndSnapToNearestPath`: every candidate whose length is
     * <= 0 is rebuilt; the others are left alone.
     */
    method RegenerateEmptyPaths(g: Geometry, allPaths: seq<SplinePath>)
      modifies allPaths`samples, allPaths`totalLength
      ensures forall p :: p in allPaths ==> Regenerated(g, p, old(p.samples), old(p.totalLength))
    {
      ghost var rebuilt := map p | p in allPaths :: GeneratedSamples(g, p.controlPoints, p.segmentsPerCurve);
      ghost var oldSamples := map p | p in allPaths :: p.samples;
      ghost var oldLength := map p | p in allPaths :: p.totalLength;
      var i := 0;
      while i < |allPaths|
        invariant 0 <= i <= |allPaths|
        invariant RegeneratedSoFar(allPaths, FirstPaths(allPaths, i), rebuilt, oldSamples, oldLength)
      {
        RegenerateNext(g, allPaths, i, FirstPaths(allPaths, i), rebuilt, oldSamples, oldLength);
        FirstPathsSnoc(allPaths, i);
        i := i + 1;
      }
      FirstPathsAll(allPaths);
    }

    /**
     * One step of that loop: `allPaths[i]` is checked and, when its length is <= 0,
     * rebuilt. A path met a second time is already rebuilt and stays so.
     */
    static method RegenerateNext(g: Geometry, allPaths: seq<SplinePath>, i: nat, ghost done: set<SplinePath>,
                                 ghost rebuilt: map<SplinePath, seq<Sample>>,
                                 ghost oldSamples: map<SplinePath, seq<Sample>>, ghost oldLength: map<SplinePath, real>)
      requires i < |allPaths| && RegeneratedSoFar(allPaths, done, rebuilt, oldSamples, oldLength)
      requires rebuilt[allPaths[i]] == GeneratedSamples(g, allPaths[i].controlPoints, allPaths[i].segmentsPerCurve)
      modifies allPaths`samples, allPaths`totalLength
      ensures RegeneratedSoFar(allPaths, done + {allPaths[i]}, rebuilt, oldSamples, oldLength)
    {
      var path := allPaths[i];
      ghost var samplesBefore, lengthBefore := path.samples, path.totalLength;
      RegenerateIfEmpty(g, path);
      if path in done {
        RebuiltTwice(rebuilt[path], oldSamples[path], oldLength[path], samplesBefore, lengthBefore,
                     path.samples, path.totalLength);
      }
    }

    /** A path of length <= 0 is rebuilt; any other is left alone. */
    static method RegenerateIfEmpty(g: Geometry, path: SplinePath)
      modifies path`samples, path`totalLength
      ensures Regenerated(g, path, old(path.samples), old(path.totalLength))
    {
      if path.GetTotalLength() <= 0.0 {
        path.GenerateSplinePoints(g);
      }
    }

    /**
     * The second loop of `FindAndSnapToNearestPath`: the earliest candidate whose probed
     * point is strictly nearest to the traveler, with the distance the probe search found.
     */
    method ChooseNearestPath(g: Geometry, allPaths: seq<SplinePath>) returns (closestPath: SplinePath?, closestSplineDistance: real)
      ensures SnapChoice(g, allPaths, position).None? ==> closestPath == null && closestSplineDistance == 0.0
      ensures SnapChoice(g, allPaths, position).Some? ==>
                var k := SnapChoice(g, allPaths, position).value;
                closestPath == allPaths[k] && closestSplineDistance == SnapDistance(g, allPaths[k], position)
    {
      var closestDistance := FloatMax;
      closestPath := null;
      closestSplineDistance := 0.0;
      ghost var gaps := SnapGaps(g, allPaths, position);
      ghost var distances := SnapDistances(g, allPaths, position);
      var i := 0;
      while i < |allPaths|
        invariant 0 <= i <= |allPaths|
        invariant NearestSoFar(allPaths, gaps, distances, i, closestPath, closestDistance, closestSplineDistance)
      {
        closestPath, closestDistance, closestSplineDistance :=
          ConsiderPath(g, allPaths, position, gaps, distances, i, closestPath, closestDistance, closestSplineDistance);
        i := i + 1;
      }
      var k := FirstStrictMin(gaps, FloatMax, i);
      if k.Some? {
        SnapDistancesAt(g, allPaths, position, k.value);
      }
    }

    /** One step of that loop: candidate `i` replaces the best so far when it is strictly nearer. */
    method ConsiderPath(g: Geometry, allPaths: seq<SplinePath>, worldPosition: Vec3, ghost gaps: seq<real>,
                        ghost distances: seq<real>, i: nat,
                        closestPath: SplinePath?, closestDistance: real, closestSplineDistance: real)
      returns (closestPath': SplinePath?, closestDistance': real, closestSplineDistance': real)
      requires i < |allPaths| && gaps == SnapGaps(g, allPaths, worldPosition)
      requires distances == SnapDistances(g, allPaths, worldPosition)
      requires NearestSoFar(allPaths, gaps, distances, i, closestPath, closestDistance, closestSplineDistance)
      ensures NearestSoFar(allPaths, gaps, distances, i + 1, closestPath', closestDistance', closestSplineDistance')
    {
      var path := allPaths[i];
      var distanceAlongSpline, distanceToSpline := MeasurePath(g, path, worldPosition);
      SnapGapsAt(g, allPaths, worldPosition, i);
      SnapDistancesAt(g, allPaths, worldPosition, i);
      if distanceToSpline < closestDistance {
        closestDistance' := distanceToSpline;
        closestPath' := path;
        closestSplineDistance' := distanceAlongSpline;
      } else {
        closestPath', closestDistance', closestSplineDistance' := closestPath, closestDistance, closestSplineDistance;
      }
    }

    /** One candidate of that loop: the probed distance along it and how far its point is. */
    method MeasurePath(g: Geometry, path: SplinePath, worldPosition: Vec3) returns (distanceAlongSpline: real, distanceToSpline: real)
      ensures distanceAlongSpline == SnapDistance(g, path, worldPosition)
      ensures distanceToSpline == SnapGap(g, path, worldPosition)
    {
      distanceAlongSpline := FindClosestDistanceOnSpline(g, path, worldPosition);
      var closestPointOnSpline := path.GetPositionAtDistance(distanceAlongSpline);
      distanceToSpline := Distance(g, worldPosition, closestPointOnSpline);
    }

    /**
     * `FindAndSnapToNearestPath`, over an explicit list of candidates: nothing happens
     * without candidates; otherwise empty paths are rebuilt and the traveler is put on
     * the earliest strictly nearest path, if any probe was nearer than `float.MaxValue`.
     */
    method FindAndSnapToNearestPath(g: Geometry, allPaths: seq<SplinePath>)
      modifies this`splinePath, this`currentDistance, this`position, this`facing
      modifies allPaths`samples, allPaths`totalLength
      ensures |allPaths| == 0 ==>
                splinePath == old(splinePath) && currentDistance == old(currentDistance)
                && position == old(position) && facing == old(facing)
      ensures forall p :: p in allPaths ==> Regenerated(g, p, old(p.samples), old(p.totalLength))
      ensures SnapChoice(g, allPaths, old(position)).None? ==>
                splinePath == old(splinePath) && currentDistance == old(currentDistance)
                && position == old(position) && facing == old(facing)
      ensures SnapChoice(g, allPaths, old(position)).Some? ==>
                var p := allPaths[SnapChoice(g, allPaths, old(position)).value];
                && splinePath == p
                && currentDistance == Clamp(SnapDistance(g, p, old(position)), 0.0, p.totalLength)
                && position == p.GetPositionAtDistance(currentDistance)
                && facing == Oriented(p.GetDirectionAtDistance(g, currentDistance), movingForward)
    {
      if |allPaths| == 0 {
        return;
      }
      RegenerateEmptyPaths(g, allPaths);
      SnapToNearest(g, allPaths);
    }

    /** The end of `FindAndSnapToNearestPath`: the chosen path, if any, becomes the traveler's. */
    method SnapToNearest(g: Geometry, allPaths: seq<SplinePath>)
      modifies this`splinePath, this`currentDistance, this`position, this`facing
      ensures SnapChoice(g, allPaths, old(position)).None? ==>
                splinePath == old(splinePath) && currentDistance == old(currentDistance)
                && position == old(position) && facing == old(facing)
      ensures SnapChoice(g, allPaths, old(position)).Some? ==>
                var p := allPaths[SnapChoice(g, allPaths, old(position)).value];
                && splinePath == p
                && currentDistance == Clamp(SnapDistance(g, p, old(position)), 0.0, p.totalLength)
                && position == p.GetPositionAtDistance(currentDistance)
                && facing == Oriented(p.GetDirectionAtDistance(g, currentDistance), movingForward)
    {
      var closestPath, closestSplineDistance := ChooseNearestPath(g, allPaths);
      if closestPath != null {
        SetSplinePath(g, closestPath, closestSplineDistance);
      }
    }

    /**
     * `ForceSnapToNearestPath`: forgets the current path, snaps, and puts the old path
     * back only when no path was chosen.
     */
    method ForceSnapToNearestPath(g: Geometry, allPaths: seq<SplinePath>)
      modifies this`splinePath, this`currentDistance, this`position, this`facing
      modifies allPaths`samples, allPaths`totalLength
      ensures forall p :: p in allPaths ==> Regenerated(g, p, old(p.samples), old(p.totalLength))
      ensures SnapChoice(g, allPaths, old(position)).None? ==>
                splinePath == old(splinePath) && currentDistance == old(currentDistance)
                && position == old(position) && facing == old(facing)
      ensures SnapChoice(g, allPaths, old(position)).Some? ==>
                var p := allPaths[SnapChoice(g, allPaths, old(position)).value];
                && splinePath == p
                && currentDistance == Clamp(SnapDistance(g, p, old(position)), 0.0, p.totalLength)
                && position == p.GetPositionAtDistance(currentDistance)
                && facing == Oriented(p.GetDirectionAtDistance(g, currentDistance), movingForward)
    {
      var currentPath := splinePath;
      splinePath := null;
      FindAndSnapToNearestPath(g, allPaths);
      if splinePath == null {
        splinePath := currentPath;
      }
    }
  }

  /** On a path of non-negative length the snap's clamp keeps the probe search's distance. */
  lemma SnapDistanceUnclamped(g: Geometry, p: SplinePath, position: Vec3)
    requires p.totalLength >= 0.0
    ensures Clamp(SnapDistance(g, p, position), 0.0, p.totalLength) == SnapDistance(g, p, position)
  {
    ClosestDistanceInRange(g, p.samples, p.totalLength, p.origin, position);
  }
}
