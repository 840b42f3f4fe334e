/** The pathfinding mode: a locked prefix of planner cells plus a speculative suffix
    recomputed on every move. Hovering near the planning start pops one locked cell;
    cells of the previous speculative path far enough from the pointer promote the
    prefix before them into the locked list. */
module Pathfinding {
  import opened Canvas

  /** The backtrack threshold: the configured distance times the grid size. */
  function Threshold(settings: Settings, host: Host): int {
    settings.distance * host.gridSize
  }

  /** A speculative cell lies farther than the threshold from the pointer. */
  predicate IsFar(host: Host, threshold: int, position: Point, segment: Waypoint) {
    host.distance(host.cellToCoords(segment.at), position) > threshold
  }

  /** The last index below n whose speculative cell is far from the pointer, if any. */
  function LastFar(host: Host, threshold: int, position: Point, previous: seq<Waypoint>, n: nat): (k: Option<nat>)
    requires n <= |previous|
    ensures k.Some? ==> k.value < n && IsFar(host, threshold, position, previous[k.value])
    ensures k.Some? ==> forall j :: k.value < j < n ==> !IsFar(host, threshold, position, previous[j])
    ensures k.None? ==> forall j :: 0 <= j < n ==> !IsFar(host, threshold, position, previous[j])
  {
    if n == 0 then None
    else if IsFar(host, threshold, position, previous[n - 1]) then Some(n - 1)
    else LastFar(host, threshold, position, previous, n - 1)
  }

  /** The cells promoted by the first n steps of the promotion loop: every far index i
      contributes the prefix previous[..i]. */
  function Promoted(host: Host, threshold: int, position: Point, previous: seq<Waypoint>, n: nat): seq<Waypoint>
    requires n <= |previous|
  {
    if n == 0 then []
    else
      Promoted(host, threshold, position, previous, n - 1)
      + (if IsFar(host, threshold, position, previous[n - 1]) then previous[..n - 1] else [])
  }

  /** The planning start after the first n steps of the promotion loop: the coordinates
      of the last far cell, or the start it had before the loop. */
  function Frontier(host: Host, threshold: int, position: Point, previous: seq<Waypoint>, n: nat, start: Point): Point
    requires n <= |previous|
  {
    match LastFar(host, threshold, position, previous, n)
    case None => start
    case Some(k) => host.cellToCoords(previous[k].at)
  }

  /** The locked list and planning start after the backtrack check. */
  datatype Backtracked = Backtracked(locked: seq<Waypoint>, start: Point)

  /** Within the threshold of the planning start, the last locked cell is popped and the
      start rewinds to it; nothing happens with a zero threshold or an empty list. */
  function Backtrack(host: Host, threshold: int, position: Point, locked: seq<Waypoint>, start: Point): (b: Backtracked)
    ensures |b.locked| <= |locked| && b.locked == locked[..|b.locked|]
    ensures |b.locked| == |locked| - 1 <==>
      threshold != 0 && host.distance(position, start) <= threshold && locked != []
    ensures |b.locked| == |locked| ==> b.start == start
    ensures |b.locked| != |locked| ==> |b.locked| == |locked| - 1 && b.start == host.cellToPixel(locked[|locked| - 1].at)
  {
    if threshold != 0 && host.distance(position, start) <= threshold && locked != [] then
      Backtracked(locked[..|locked| - 1], host.cellToPixel(locked[|locked| - 1].at))
    else
      Backtracked(locked, start)
  }

  /** Runs the promotion loop over the previous speculative path, appending promoted
      prefixes to both the locked and the working list. */
  method Promote(host: Host, threshold: int, position: Point, locked: seq<Waypoint>, working: seq<Waypoint>,
                 previous: seq<Waypoint>, start: Point)
    returns (newLocked: seq<Waypoint>, newWorking: seq<Waypoint>, newStart: Point)
    ensures newLocked == locked + Promoted(host, threshold, position, previous, |previous|)
    ensures newWorking == working + Promoted(host, threshold, position, previous, |previous|)
    ensures newStart == Frontier(host, threshold, position, previous, |previous|, start)
  {
    newLocked, newWorking, newStart := locked, working, start;
    for i := 0 to |previous|
      invariant newLocked == locked + Promoted(host, threshold, position, previous, i)
      invariant newWorking == working + Promoted(host, threshold, position, previous, i)
      invariant newStart == Frontier(host, threshold, position, previous, i, start)
    {
      var coords := host.cellToCoords(previous[i].at);
      var distance := host.distance(coords, position);
      if distance > threshold {
        newStart := coords;
        ghost var lockedBefore, workingBefore := newLocked, newWorking;
        for j := 0 to i
          invariant newLocked == lockedBefore + previous[..j]
          invariant newWorking == workingBefore + previous[..j]
        {
          assert previous[..j + 1] == previous[..j] + [previous[j]];
          newLocked := newLocked + [previous[j]];
          newWorking := newWorking + [previous[j]];
        }
      }
    }
  }

  /** Where the previous loop left the lists and the start, and the fresh speculative path. */
  datatype PathfindingOutcome = PathfindingOutcome(locked: seq<Waypoint>, working: seq<Waypoint>, start: Point,
                                                   speculative: seq<Waypoint>)

  /** One pathfinding move from a known planning start. */
  function PathfindingStep(host: Host, threshold: int, position: Point, locked: seq<Waypoint>,
                           previous: seq<Waypoint>, start: Point): (o: PathfindingOutcome)
    ensures |o.working| >= |locked| && o.working[..|locked|] == locked
    ensures o.speculative == host.plan(host.toPlannerCell(o.start), host.toPlannerCell(position))
    ensures threshold == 0 ==> o.start == start && o.locked == locked && o.working == locked
  {
    if threshold == 0 then
      PathfindingOutcome(locked, locked, start, host.plan(host.toPlannerCell(start), host.toPlannerCell(position)))
    else
      var b := Backtrack(host, threshold, position, locked, start);
      var promoted := Promoted(host, threshold, position, previous, |previous|);
      var frontier := Frontier(host, threshold, position, previous, |previous|, b.start);
      PathfindingOutcome(b.locked + promoted, locked + promoted, frontier,
                         host.plan(host.toPlannerCell(frontier), host.toPlannerCell(position)))
  }

  /** The view calls adding a waypoint at the top-left point of each cell. */
  function AddAll(host: Host, segments: seq<Waypoint>): (r: seq<ViewCall>)
    ensures |r| == |segments|
    ensures forall i :: 0 <= i < |r| ==> r[i] == AddWaypoint(host.cellToTopLeft(segments[i].at))
  {
    seq(|segments|, i requires 0 <= i < |segments| => AddWaypoint(host.cellToTopLeft(segments[i].at)))
  }

  /** One pathfinding move from a known planning start: copies the locked cells into the
      working list, backtracks, promotes, asks the planner for a fresh speculative path
      and appends it to the working list. */
  method PathfindingUpdate(host: Host, threshold: int, position: Point, locked: seq<Waypoint>,
                           previous: seq<Waypoint>, start: Point)
    returns (newLocked: seq<Waypoint>, pathSegments: seq<Waypoint>, newStart: Point, planned: seq<Waypoint>)
    ensures var o := PathfindingStep(host, threshold, position, locked, previous, start);
      && newLocked == o.locked && newStart == o.start && planned == o.speculative
      && pathSegments == o.working + o.speculative
  {
    pathSegments := [];
    for k := 0 to |locked|
      invariant pathSegments == locked[..k]
    {
      pathSegments := pathSegments + [locked[k]];
    }
    assert pathSegments == locked;
    newLocked, newStart := locked, start;
    if threshold != 0 {
      var distanceFromLastLocked := host.distance(position, newStart);
      if distanceFromLastLocked <= threshold {
        if newLocked != [] {
          var lastSegment := newLocked[|newLocked| - 1];
          newStart := host.cellToPixel(lastSegment.at);
          newLocked := newLocked[..|newLocked| - 1];
        }
      }
      ghost var b := Backtrack(host, threshold, position, locked, start);
      assert newLocked == b.locked && newStart == b.start;
      newLocked, pathSegments, newStart := Promote(host, threshold, position, newLocked, pathSegments, previous, newStart);
    }
    planned := host.plan(host.toPlannerCell(newStart), host.toPlannerCell(position));
    ghost var working := pathSegments;
    for k := 0 to |planned|
      invariant pathSegments == working + planned[..k]
    {
      assert planned[..k + 1] == planned[..k] + [planned[k]];
      pathSegments := pathSegments + [planned[k]];
    }
    assert planned[..|planned|] == planned;
  }

  /** Adds a waypoint to the view at the top-left point of each cell, in order. */
  method AddWaypoints(host: Host, segments: seq<Waypoint>) returns (added: seq<ViewCall>)
    ensures added == AddAll(host, segments)
  {
    added := [];
    for k := 0 to |segments|
      invariant added == AddAll(host, segments[..k])
    {
      added := added + [AddWaypoint(host.cellToTopLeft(segments[k].at))];
    }
    assert segments[..|segments|] == segments;
  }

  /** Steps of the promotion loop over near cells promote nothing. */
  lemma {:induction false} NearCellsPromoteNothing(host: Host, threshold: int, position: Point,
                                                   previous: seq<Waypoint>, a: nat, n: nat)
    requires a <= n <= |previous|
    requires forall j :: a <= j < n ==> !IsFar(host, threshold, position, previous[j])
    ensures Promoted(host, threshold, position, previous, n) == Promoted(host, threshold, position, previous, a)
    decreases n
  {
    if n > a {
      NearCellsPromoteNothing(host, threshold, position, previous, a, n - 1);
    }
  }

  /** When no speculative cell is far, nothing is promoted and the start stays. */
  lemma NothingFarKeepsStart(host: Host, threshold: int, position: Point, previous: seq<Waypoint>, start: Point)
    requires forall j :: 0 <= j < |previous| ==> !IsFar(host, threshold, position, previous[j])
    ensures Promoted(host, threshold, position, previous, |previous|) == []
    ensures Frontier(host, threshold, position, previous, |previous|, start) == start
  {
    NearCellsPromoteNothing(host, threshold, position, previous, 0, |previous|);
  }

  /** When exactly one speculative cell is far, the cells before it are promoted and the
      start moves to it: the loop then agrees with a loop that stops at the first far cell. */
  lemma OneFarPromotesItsPrefix(host: Host, threshold: int, position: Point, previous: seq<Waypoint>,
                                k: nat, start: Point)
    requires k < |previous| && IsFar(host, threshold, position, previous[k])
    requires forall j :: 0 <= j < |previous| && j != k ==> !IsFar(host, threshold, position, previous[j])
    ensures Promoted(host, threshold, position, previous, |previous|) == previous[..k]
    ensures Frontier(host, threshold, position, previous, |previous|, start) == host.cellToCoords(previous[k].at)
  {
    NearCellsPromoteNothing(host, threshold, position, previous, 0, k);
    NearCellsPromoteNothing(host, threshold, position, previous, k + 1, |previous|);
  }

  /** The loop has no early exit: with two far cells i < j, both prefixes are appended,
      so the cells before i are locked twice, and the start ends at cell j. */
  lemma TwoFarPromoteBothPrefixes(host: Host, threshold: int, position: Point, previous: seq<Waypoint>,
                                  i: nat, j: nat, start: Point)
    requires i < j < |previous|
    requires IsFar(host, threshold, position, previous[i]) && IsFar(host, threshold, position, previous[j])
    requires forall m :: 0 <= m < |previous| && m != i && m != j ==> !IsFar(host, threshold, position, previous[m])
    ensures Promoted(host, threshold, position, previous, |previous|) == previous[..i] + previous[..j]
    ensures Frontier(host, threshold, position, previous, |previous|, start) == host.cellToCoords(previous[j].at)
  {
    NearCellsPromoteNothing(host, threshold, position, previous, 0, i);
    NearCellsPromoteNothing(host, threshold, position, previous, i + 1, j);
    NearCellsPromoteNothing(host, threshold, position, previous, j + 1, |previous|);
  }

  /** Promotion only copies cells of the previous speculative path. */
  lemma {:induction false} PromotedFromPrevious(host: Host, threshold: int, position: Point,
                                                previous: seq<Waypoint>, n: nat)
    requires n <= |previous|
    ensures forall w :: w in Promoted(host, threshold, position, previous, n) ==> w in previous[..n]
    decreases n
  {
    if n > 0 {
      PromotedFromPrevious(host, threshold, position, previous, n - 1);
      forall w | w in previous[..n - 1] ensures w in previous[..n] {
        assert previous[..n] == previous[..n - 1] + [previous[n - 1]];
      }
    }
  }
}
