/** The free-follow mode: the path grows as the pointer moves forward, shrinks by one
    when the pointer steps back onto the second-to-last point, and long diagonal moves
    commit two waypoints to the view. */
module Follow {
  import opened Canvas

  /** The measured distance beyond which a diagonal move commits waypoints. */
  const DiagonalCommitDistance := 5

  /** The path after one follow move: stepping back onto the second-to-last point of a
      path longer than two pops the last point; any other position is appended. */
  function FollowPath(path: seq<Point>, position: Point): seq<Point>
  {
    if |path| > 2 && position == path[|path| - 2] then path[..|path| - 1] else path + [position]
  }

  /** The line between two points is neither horizontal nor vertical. */
  predicate Diagonal(a: Point, b: Point) {
    a.x != b.x && a.y != b.y
  }

  /** Adds the point three places from the end of the path, which is undefined on a
      path shorter than three. */
  function AddThirdFromLast(path: seq<Point>): (c: ViewCall)
    ensures |path| >= 3 <==> c.AddWaypoint?
    ensures |path| >= 3 ==> c.at == path[|path| - 3]
  {
    if |path| >= 3 then AddWaypoint(path[|path| - 3]) else AddMissingWaypoint
  }

  /** The pointer steps back onto the start of the view's last segment, so that
      waypoint is removed from the view. */
  predicate Retracts(path: seq<Point>, position: Point, lastSegmentStart: Option<Point>) {
    |path| > 2 && position == path[|path| - 2] && lastSegmentStart == Some(position)
  }

  /** The move to the pointer is a diagonal from the anchor longer than the commit distance. */
  predicate LongDiagonal(host: Host, anchor: Point, position: Point) {
    Diagonal(anchor, position) && host.distance(anchor, position) > DiagonalCommitDistance
  }

  /** The new path, remembered segment origin and view calls of one follow move. */
  datatype FollowOutcome = FollowOutcome(path: seq<Point>, lastSegmentOrigin: Option<Point>, calls: seq<ViewCall>)

  /** One follow move. `lastSegmentStart` is the start of the view's last drawn segment,
      or None when the view has no segment list. */
  function FollowStep(host: Host, path: seq<Point>, lastSegmentOrigin: Option<Point>, position: Point,
                      lastSegmentStart: Option<Point>): (o: FollowOutcome)
    ensures o.path == FollowPath(path, position)
    ensures lastSegmentStart.None? ==> o.calls == [] && o.lastSegmentOrigin == lastSegmentOrigin
    ensures o.lastSegmentOrigin == lastSegmentOrigin || o.lastSegmentOrigin == Some(position)
    ensures RemoveWaypoint(position) in o.calls <==> Retracts(path, position, lastSegmentStart)
    ensures Retracts(path, position, lastSegmentStart) ==> o.lastSegmentOrigin == Some(position)
    ensures lastSegmentStart.Some? && !Retracts(path, position, lastSegmentStart) ==>
      var anchor := if lastSegmentOrigin.Some? then lastSegmentOrigin.value else lastSegmentStart.value;
      (LongDiagonal(host, anchor, position) <==>
         o.calls == [AddThirdFromLast(o.path), AddWaypoint(position)] && o.lastSegmentOrigin == Some(position))
      && (!LongDiagonal(host, anchor, position) ==> o.calls == [] && o.lastSegmentOrigin == lastSegmentOrigin)
    ensures Retracts(path, position, lastSegmentStart) ==> o.calls == [RemoveWaypoint(position)]
  {
    var back := |path| > 2 && position == path[|path| - 2];
    var newPath := FollowPath(path, position);
    var removed := back && lastSegmentStart == Some(position);
    var origin := if removed then Some(position) else lastSegmentOrigin;
    var removal := if removed then [RemoveWaypoint(position)] else [];
    if lastSegmentStart.None? then FollowOutcome(newPath, origin, removal)
    else
      var anchor := if origin.Some? then origin.value else lastSegmentStart.value;
      if LongDiagonal(host, anchor, position) then
        FollowOutcome(newPath, Some(position), removal + [AddThirdFromLast(newPath), AddWaypoint(position)])
      else
        FollowOutcome(newPath, origin, removal)
  }

  /** After a follow move on a non-empty path, the path keeps its first point, holds at
      least two points and ends at the pointer, whichever way the pointer moved. */
  lemma FollowPathEndsAtPointer(path: seq<Point>, position: Point)
    requires |path| >= 1
    ensures var r := FollowPath(path, position);
      |r| >= 2 && r[0] == path[0] && r[|r| - 1] == position
  {
  }

  /** An excursion is retracted: moving forward to a new point and straight back leaves
      the path as it was. */
  lemma ExcursionRetracted(path: seq<Point>, excursion: Point)
    requires |path| >= 2
    requires !(|path| > 2 && excursion == path[|path| - 2])
    ensures FollowPath(FollowPath(path, excursion), path[|path| - 1]) == path
  {
    assert (path + [excursion])[..|path|] == path;
  }

  /** The path after a drag through the given positions. */
  function FollowAll(path: seq<Point>, positions: seq<Point>): seq<Point>
    decreases |positions|
  {
    if positions == [] then path else FollowAll(FollowPath(path, positions[0]), positions[1..])
  }

  /** Over any drag the path keeps its first point, ends at the last position fed, and
      holds only points that were on it or were fed to it. */
  lemma {:induction false} FollowAllStaysAnchored(path: seq<Point>, positions: seq<Point>)
    requires |path| >= 1
    ensures var r := FollowAll(path, positions);
      && |r| >= 1 && r[0] == path[0]
      && (positions != [] ==> r[|r| - 1] == positions[|positions| - 1])
      && forall p :: p in r ==> p in path || p in positions
    decreases |positions|
  {
    if positions != [] {
      var next := FollowPath(path, positions[0]);
      FollowPathEndsAtPointer(path, positions[0]);
      assert forall p :: p in next ==> p in path || p == positions[0];
      FollowAllStaysAnchored(next, positions[1..]);
      if positions[1..] == [] {
        assert |positions| == 1;
      } else {
        assert positions[1..][|positions[1..]| - 1] == positions[|positions| - 1];
      }
      forall p | p in positions[1..] ensures p in positions { }
    }
  }
}
