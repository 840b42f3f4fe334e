/** The drag ruler: one session per ruler, opened by Start, fed pointer positions by
    Move, and closed by End or by a token drop. Settings are read on every call, so
    each operation takes them as an argument; host services are passed in as a Host. */
module TokenRuler {
  import opened Canvas
  import opened MovementPath
  import opened Follow
  import opened Pathfinding

  /** The session fields that End resets. */
  datatype SessionFields = SessionFields(
    previousPosition: Point,
    path: seq<Point>,
    lastSegmentOrigin: Option<Point>,
    pathFinderSegments: seq<Waypoint>,
    pathFinderSegmentsPrevious: seq<Waypoint>,
    pathFinderStart: Option<Point>)

  /** The session fields of a ruler that holds no session. */
  const InitialFields := SessionFields(Point(0, 0), [], None, [], [], None)

  /** The session fields after End: the delegated mode only forgets the path. */
  function AfterEnd(mode: Mode, f: SessionFields): (r: SessionFields)
    ensures mode == FindMovementPath ==> r.path == [] && r.(path := f.path) == f
    ensures mode != FindMovementPath ==> r == InitialFields
  {
    if mode == FindMovementPath then f.(path := []) else InitialFields
  }

  /** The view call End makes: the token's ruler in the delegated mode, the canvas ruler otherwise. */
  function EndCall(mode: Mode): ViewCall {
    if mode == FindMovementPath then ClearTokenRuler else Clear
  }

  /** The path a non-delegated move works on: an empty path starts at the origin. */
  function Seeded(path: seq<Point>, origin: Point): (r: seq<Point>)
    ensures r != [] && (path != [] ==> r == path) && (path == [] ==> r == [origin])
  {
    if path == [] then [origin] else path
  }

  /** The view calls that restart the canvas ruler at the origin when the path is empty. */
  function SeedCalls(path: seq<Point>, origin: Point): seq<ViewCall> {
    if path == [] then [Clear, SetStartState, AddWaypoint(origin)] else []
  }

  class DragRuler {
    var token: Option<Token>
    var hasRuler: bool                  // the canvas ruler obtained at start is held
    var origin: Option<Point>
    var previousPosition: Point
    var path: seq<Point>
    var lastSegmentOrigin: Option<Point>
    var pathFinderSegments: seq<Waypoint>
    var pathFinderSegmentsPrevious: seq<Waypoint>
    var pathFinderStart: Option<Point>
    var calls: seq<ViewCall>            // every call made on the canvas ruler and the token's ruler

    /** A held ruler belongs to a session with a token and an origin. */
    ghost predicate Valid()
      reads this
    {
      hasRuler ==> token.Some? && origin.Some?
    }

    function Fields(): SessionFields
      reads this
    {
      SessionFields(previousPosition, path, lastSegmentOrigin, pathFinderSegments, pathFinderSegmentsPrevious, pathFinderStart)
    }

    constructor ()
      ensures Valid() && token.None? && !hasRuler && origin.None?
      ensures Fields() == InitialFields && calls == []
    {
      token, hasRuler, origin := None, false, None;
      previousPosition, path, lastSegmentOrigin := Point(0, 0), [], None;
      pathFinderSegments, pathFinderSegmentsPrevious, pathFinderStart := [], [], None;
      calls := [];
    }

    /** Opens a session at the given position, ending the one already open. */
    method Start(settings: Settings, tok: Token, position: Point)
      requires Valid()
      modifies this
      ensures Valid()
      ensures settings.mode == Disabled ==> unchanged(this)
      ensures settings.mode != Disabled ==>
        && token == Some(tok) && hasRuler && origin == Some(position)
        && Fields() == (if old(hasRuler) then AfterEnd(settings.mode, old(Fields())) else old(Fields()))
                         .(previousPosition := position)
        && calls == old(calls) + (if old(hasRuler) then [EndCall(settings.mode)] else []) + [Draw]
    {
      if settings.mode == Disabled {
        return;
      }
      if hasRuler {
        End(settings);
      }
      token := Some(tok);
      origin := Some(position);
      previousPosition := position;
      hasRuler := true;
      calls := calls + [Draw];
    }

    /** The delegated mode: asks the movement path service for a path from the token to the
        pointer's cell and, when drawing, publishes found path and unreachable tail. */
    method FindMovementPath(host: Host, position: Point, drawRuler: bool)
      requires HostValid(host)
      modifies this`path, this`pathFinderSegments, this`calls
      ensures old(token).None? ==> path == old(path) && pathFinderSegments == old(pathFinderSegments) && calls == old(calls)
      ensures old(token).Some? ==>
        var from, target := old(token).value.at, host.normalize(position);
        var plan := PlanMovement(host, from, target);
        && path == ReachedPath(host, from, target)
        && pathFinderSegments == (if drawRuler then plan.foundPath else old(pathFinderSegments))
        && calls == old(calls) + (if drawRuler then [RefreshTokenRuler(plan), ShowTokenRuler] else [])
    {
      var target := host.normalize(position);
      if token.None? {
        return;
      }
      var from := token.value.at;
      var waypoints := host.findPath(from, target);
      var segments: seq<Waypoint> := [];
      var unreachableWaypoints: seq<Waypoint>;
      if |waypoints| < 2 {
        path := [];
        unreachableWaypoints := host.expand(from, target);
      } else {
        path := waypoints;
        segments := TagRoute(host, waypoints);
        var lastWaypoint := segments[|segments| - 1];
        unreachableWaypoints := [];
        if lastWaypoint.at != target {
          unreachableWaypoints := host.expand(lastWaypoint.at, target);
        }
      }
      assert segments == TaggedRoute(host, waypoints);
      assert unreachableWaypoints == UnreachableTail(host, from, target, waypoints);
      if !drawRuler {
        return;
      }
      var costs := host.measureCosts(segments + unreachableWaypoints);
      pathFinderSegments := AttachCosts(segments, costs);
      var unreachableDist: seq<Waypoint> := [];
      if |unreachableWaypoints| > 0 {
        unreachableDist := TagTail(unreachableWaypoints, costs, |segments|, |segments| == 0);
      }
      calls := calls + [RefreshTokenRuler(PlannedMovement(pathFinderSegments, unreachableDist)), ShowTokenRuler];
    }

    /** Follow mode on a seeded path: backtrack or append, then commit long diagonals. */
    method FollowMove(host: Host, position: Point, lastSegmentStart: Option<Point>)
      modifies this`path, this`lastSegmentOrigin, this`calls
      ensures var o := FollowStep(host, old(path), old(lastSegmentOrigin), position, lastSegmentStart);
        path == o.path && lastSegmentOrigin == o.lastSegmentOrigin && calls == old(calls) + o.calls
    {
      var segments := lastSegmentStart;
      if |path| > 2 && position == path[|path| - 2] {
        if |path| > 1 {
          path := path[..|path| - 1];
          if segments.Some? && position == segments.value {
            calls := calls + [RemoveWaypoint(position)];
            lastSegmentOrigin := Some(position);
          }
        }
      } else {
        path := path + [position];
      }
      if segments.Some? {
        var anchor := if lastSegmentOrigin.Some? then lastSegmentOrigin.value else segments.value;
        var distance := host.distance(anchor, position);
        var slope := anchor.x != position.x && anchor.y != position.y;
        if slope && distance > DiagonalCommitDistance {
          calls := calls + [AddThirdFromLast(path), AddWaypoint(position)];
          lastSegmentOrigin := Some(position);
        }
      }
    }

    /** Pathfinding mode with the planner available: backtrack, promote, plan from the
        start, and redraw the view from the working list and the fresh speculative path. */
    method PathfindingMove(host: Host, threshold: int, position: Point)
      requires origin.Some?
      modifies this`pathFinderSegments, this`pathFinderSegmentsPrevious, this`pathFinderStart, this`calls
      ensures var start := if old(pathFinderStart).None? then origin.value else old(pathFinderStart).value;
        var o := PathfindingStep(host, threshold, position, old(pathFinderSegments), old(pathFinderSegmentsPrevious), start);
        && pathFinderSegments == o.locked
        && pathFinderSegmentsPrevious == o.speculative
        && pathFinderStart == Some(o.start)
        && calls == old(calls) + [Clear] + AddAll(host, o.working + o.speculative)
    {
      if pathFinderStart.None? {
        pathFinderStart := origin;
      }
      var locked, pathSegments, start, planned :=
        PathfindingUpdate(host, threshold, position, pathFinderSegments, pathFinderSegmentsPrevious, pathFinderStart.value);
      pathFinderSegments, pathFinderStart, pathFinderSegmentsPrevious := locked, Some(start), planned;
      var added := AddWaypoints(host, pathSegments);
      calls := calls + [Clear] + added;
    }

    /** Feeds one pointer position to the session. */
    method Move(settings: Settings, host: Host, position: Point, lastSegmentStart: Option<Point>)
      requires Valid() && HostValid(host)
      requires (settings.mode == Follow || settings.mode == Pathfinding) && position != previousPosition ==> hasRuler
      modifies this
      ensures Valid()
      ensures settings.mode == Disabled || position == old(previousPosition) ==> unchanged(this)
      ensures settings.mode != Disabled && position != old(previousPosition) ==>
        previousPosition == position && token == old(token) && hasRuler == old(hasRuler) && origin == old(origin)
      ensures settings.mode.FindMovementPath? && position != old(previousPosition) ==>
        if old(token).None? then
          Fields() == old(Fields()).(previousPosition := position) && calls == old(calls)
        else
          var from, target := old(token).value.at, host.normalize(position);
          var plan := PlanMovement(host, from, target);
          && Fields() == old(Fields()).(previousPosition := position, path := ReachedPath(host, from, target),
                                        pathFinderSegments := plan.foundPath)
          && calls == old(calls) + [RefreshTokenRuler(plan), ShowTokenRuler]
      ensures settings.mode == Follow && position != old(previousPosition) ==>
        var o := FollowStep(host, Seeded(old(path), old(origin).value), old(lastSegmentOrigin), position, lastSegmentStart);
        && Fields() == old(Fields()).(previousPosition := position, path := o.path, lastSegmentOrigin := o.lastSegmentOrigin)
        && calls == old(calls) + SeedCalls(old(path), old(origin).value) + o.calls + [Measure(position, o.path)]
      ensures settings.mode == Pathfinding && position != old(previousPosition) && !host.routingReady ==>
        && Fields() == old(Fields()).(previousPosition := position, path := Seeded(old(path), old(origin).value))
        && calls == old(calls) + SeedCalls(old(path), old(origin).value)
      ensures settings.mode == Pathfinding && position != old(previousPosition) && host.routingReady ==>
        var start := if old(pathFinderStart).None? then old(origin).value else old(pathFinderStart).value;
        var o := PathfindingStep(host, Threshold(settings, host), position, old(pathFinderSegments),
                                 old(pathFinderSegmentsPrevious), start);
        && Fields() == old(Fields()).(previousPosition := position, path := Seeded(old(path), old(origin).value),
                                      pathFinderSegments := o.locked, pathFinderSegmentsPrevious := o.speculative,
                                      pathFinderStart := Some(o.start))
        && calls == old(calls) + SeedCalls(old(path), old(origin).value) + [Clear]
                    + AddAll(host, o.working + o.speculative) + [Measure(position, path)]
    {
      if settings.mode == Disabled {
        return;
      }
      if position == previousPosition {
        return;
      }
      match settings.mode
      case FindMovementPath => MoveDelegated(host, position);
      case Follow => MoveFollow(host, position, lastSegmentStart);
      case Pathfinding => MovePathfinding(host, Threshold(settings, host), position);
    }

    /** Move in the delegated mode: record the position and run the delegated planning. */
    method MoveDelegated(host: Host, position: Point)
      requires HostValid(host)
      modifies this`previousPosition, this`path, this`pathFinderSegments, this`calls
      ensures previousPosition == position
      ensures old(token).None? ==> path == old(path) && pathFinderSegments == old(pathFinderSegments) && calls == old(calls)
      ensures old(token).Some? ==>
        var from, target := old(token).value.at, host.normalize(position);
        var plan := PlanMovement(host, from, target);
        && path == ReachedPath(host, from, target)
        && pathFinderSegments == plan.foundPath
        && calls == old(calls) + [RefreshTokenRuler(plan), ShowTokenRuler]
    {
      previousPosition := position;
      FindMovementPath(host, position, true);
    }

    /** Starts an empty path at the origin and restarts the canvas ruler there. */
    method Seed()
      requires origin.Some?
      modifies this`path, this`calls
      ensures path == Seeded(old(path), origin.value)
      ensures calls == old(calls) + SeedCalls(old(path), origin.value)
    {
      if path == [] {
        path := [origin.value];
        calls := calls + [Clear, SetStartState, AddWaypoint(origin.value)];
      }
    }

    /** Move in follow mode: seed, follow, then measure along the path. */
    method MoveFollow(host: Host, position: Point, lastSegmentStart: Option<Point>)
      requires origin.Some?
      modifies this`previousPosition, this`path, this`lastSegmentOrigin, this`calls
      ensures var o := FollowStep(host, Seeded(old(path), origin.value), old(lastSegmentOrigin), position, lastSegmentStart);
        && previousPosition == position && path == o.path && lastSegmentOrigin == o.lastSegmentOrigin
        && calls == old(calls) + SeedCalls(old(path), origin.value) + o.calls + [Measure(position, o.path)]
    {
      previousPosition := position;
      Seed();
      FollowMove(host, position, lastSegmentStart);
      calls := calls + [Measure(position, path)];
    }

    /** Move in pathfinding mode: seed, and when the planner is available, plan and measure. */
    method MovePathfinding(host: Host, threshold: int, position: Point)
      requires origin.Some?
      modifies this`previousPosition, this`path, this`pathFinderSegments, this`pathFinderSegmentsPrevious,
               this`pathFinderStart, this`calls
      ensures previousPosition == position && path == Seeded(old(path), origin.value)
      ensures !host.routingReady ==>
        && pathFinderSegments == old(pathFinderSegments) && pathFinderSegmentsPrevious == old(pathFinderSegmentsPrevious)
        && pathFinderStart == old(pathFinderStart)
        && calls == old(calls) + SeedCalls(old(path), origin.value)
      ensures host.routingReady ==>
        var start := if old(pathFinderStart).None? then origin.value else old(pathFinderStart).value;
        var o := PathfindingStep(host, threshold, position, old(pathFinderSegments), old(pathFinderSegmentsPrevious), start);
        && pathFinderSegments == o.locked && pathFinderSegmentsPrevious == o.speculative
        && pathFinderStart == Some(o.start)
        && calls == old(calls) + SeedCalls(old(path), origin.value) + [Clear]
                    + AddAll(host, o.working + o.speculative) + [Measure(position, path)]
    {
      previousPosition := position;
      Seed();
      if !host.routingReady {
        return;
      }
      PathfindingMove(host, threshold, position);
      calls := calls + [Measure(position, path)];
    }

    /** Closes the session. The delegated mode clears the token's ruler and forgets only the
        path, token and ruler; every other mode resets all session fields. */
    method End(settings: Settings)
      requires settings.mode.FindMovementPath? ==> token.Some?
      modifies this
      ensures Valid()
      ensures token.None? && !hasRuler && origin == old(origin)
      ensures Fields() == AfterEnd(settings.mode, old(Fields()))
      ensures calls == old(calls) + [EndCall(settings.mode)]
    {
      if settings.mode.FindMovementPath? {
        calls := calls + [ClearTokenRuler];
        path := [];
        token := None;
        hasRuler := false;
        return;
      }
      token := None;
      calls := calls + [Clear];
      hasRuler := false;
      previousPosition := Point(0, 0);
      path := [];
      lastSegmentOrigin := None;
      pathFinderStart := None;
      pathFinderSegments := [];
      pathFinderSegmentsPrevious := [];
    }

    /** Ends the session on a token drop when the ruler is enabled and set to stop there. */
    method TokenDrop(settings: Settings)
      requires Valid()
      requires settings.mode.FindMovementPath? && settings.stop.TokenDrop? ==> token.Some?
      modifies this
      ensures Valid()
      ensures settings.mode != Disabled && settings.stop.TokenDrop? ==>
        && token.None? && !hasRuler && origin == old(origin)
        && Fields() == AfterEnd(settings.mode, old(Fields()))
        && calls == old(calls) + [EndCall(settings.mode)]
      ensures !(settings.mode != Disabled && settings.stop.TokenDrop?) ==> unchanged(this)
    {
      if settings.mode != Disabled && settings.stop.TokenDrop? {
        End(settings);
      }
    }
  }
}
