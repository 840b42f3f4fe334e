/** Whole drags through the DragRuler, stated as what a caller observes. */
module Scenarios {
  import opened Canvas
  import F = Follow
  import opened Pathfinding
  import opened TokenRuler

  /** In follow mode, origin -> p1 -> p2 -> p1 leaves the path [origin, p1]: the
      excursion to p2 is retracted. */
  method FollowExcursion(host: Host, origin: Point, p1: Point, p2: Point, lastSegmentStart: Option<Point>)
    returns (path: seq<Point>)
    requires HostValid(host)
    requires p1 != origin && p2 != p1
    ensures path == [origin, p1]
  {
    var settings := Settings(Follow, 0, TokenDrop);
    var ruler := new DragRuler();
    ruler.Start(settings, Token(origin), origin);
    ruler.Move(settings, host, p1, lastSegmentStart);
    assert ruler.path == F.FollowPath([origin], p1) == [origin, p1];
    ruler.Move(settings, host, p2, lastSegmentStart);
    assert ruler.path == F.FollowPath([origin, p1], p2) == [origin, p1, p2];
    ruler.Move(settings, host, p1, lastSegmentStart);
    assert ruler.path == F.FollowPath([origin, p1, p2], p1);
    path := ruler.path;
  }

  /** A first, straight follow move from the origin, with the view's last segment starting
      at the origin, adds one waypoint (the origin, when the ruler restarts) and one
      measurement, and appends the position to the path. */
  method StraightFirstMove(host: Host, origin: Point, position: Point)
    returns (path: seq<Point>, calls: seq<ViewCall>)
    requires HostValid(host)
    requires position != origin && (position.x == origin.x || position.y == origin.y)
    ensures path == [origin, position]
    ensures calls == [Draw, Clear, SetStartState, AddWaypoint(origin), Measure(position, [origin, position])]
  {
    var settings := Settings(Follow, 0, TokenDrop);
    var ruler := new DragRuler();
    ruler.Start(settings, Token(origin), origin);
    ruler.Move(settings, host, position, Some(origin));
    path, calls := ruler.path, ruler.calls;
  }

  /** A first follow move along a long diagonal commits the path's third-from-last point,
      which a two-point path does not have: the view is passed a missing point. */
  method FirstLongDiagonal(host: Host, origin: Point, position: Point)
    returns (path: seq<Point>, calls: seq<ViewCall>)
    requires HostValid(host)
    requires F.Diagonal(origin, position) && host.distance(origin, position) > F.DiagonalCommitDistance
    ensures path == [origin, position]
    ensures calls == [Draw, Clear, SetStartState, AddWaypoint(origin), AddMissingWaypoint, AddWaypoint(position),
                      Measure(position, [origin, position])]
  {
    var settings := Settings(Follow, 0, TokenDrop);
    var ruler := new DragRuler();
    ruler.Start(settings, Token(origin), origin);
    ruler.Move(settings, host, position, Some(origin));
    path, calls := ruler.path, ruler.calls;
  }

  /** A position equal to the previous one changes nothing, whatever the mode. */
  method RepeatedPositionIgnored(settings: Settings, host: Host, origin: Point, position: Point)
    returns (first: SessionFields, second: SessionFields, firstCalls: seq<ViewCall>, secondCalls: seq<ViewCall>)
    requires HostValid(host)
    ensures first == second && firstCalls == secondCalls
  {
    var ruler := new DragRuler();
    ruler.Start(settings, Token(origin), origin);
    ruler.Move(settings, host, position, None);
    first, firstCalls := ruler.Fields(), ruler.calls;
    ruler.Move(settings, host, position, None);
    second, secondCalls := ruler.Fields(), ruler.calls;
  }

  /** In pathfinding mode with a zero threshold, the planning start is set to the origin
      on the first move and never changes over a drag. */
  method ZeroThresholdDrag(host: Host, origin: Point, positions: seq<Point>) returns (start: Option<Point>)
    requires HostValid(host) && host.routingReady
    requires positions != [] && positions[0] != origin
    ensures start == Some(origin)
  {
    var settings := Settings(Pathfinding, 0, TokenDrop);
    var ruler := new DragRuler();
    ruler.Start(settings, Token(origin), origin);
    for i := 0 to |positions|
      invariant ruler.Valid() && ruler.hasRuler && ruler.origin == Some(origin)
      invariant i == 0 ==> ruler.previousPosition == origin && ruler.pathFinderStart.None?
      invariant i > 0 ==> ruler.pathFinderStart == Some(origin)
    {
      ruler.Move(settings, host, positions[i], None);
    }
    start := ruler.pathFinderStart;
  }

  /** Outside the delegated mode, ending a session and then dropping the token leaves every
      session field at its initial value. */
  method EndThenTokenDrop(settings: Settings, host: Host, origin: Point, position: Point, lastSegmentStart: Option<Point>)
    returns (fields: SessionFields)
    requires HostValid(host)
    requires settings.mode != FindMovementPath
    ensures fields == InitialFields
  {
    var ruler := new DragRuler();
    ruler.Start(settings, Token(origin), origin);
    if settings.mode != Disabled {
      ruler.Move(settings, host, position, lastSegmentStart);
    }
    ruler.End(settings);
    ruler.TokenDrop(settings);
    fields := ruler.Fields();
  }

  /** Starting a second session ends the first: outside the delegated mode every session
      field is reset before the new origin is recorded. */
  method RestartResetsSession(settings: Settings, host: Host, first: Point, position: Point, second: Point)
    returns (fields: SessionFields, calls: seq<ViewCall>)
    requires HostValid(host)
    requires settings.mode == Follow || settings.mode == Pathfinding
    ensures fields == InitialFields.(previousPosition := second)
    ensures |calls| >= 2 && calls[|calls| - 2] == Clear && calls[|calls| - 1] == Draw
  {
    var ruler := new DragRuler();
    ruler.Start(settings, Token(first), first);
    ruler.Move(settings, host, position, None);
    ruler.Start(settings, Token(second), second);
    fields, calls := ruler.Fields(), ruler.calls;
  }
}
