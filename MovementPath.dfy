/** The delegated mode: the host's movement path service finds the reachable waypoints,
    each pair is expanded into grid cells and tagged, the unreachable tail is computed,
    and one combined cost measurement is merged back by index. */
module MovementPath {
  import opened Canvas

  /** Two waypoints that differ at most in their checkpoint and intermediate tags. */
  predicate SameCell(a: Waypoint, b: Waypoint) {
    a.at == b.at && a.elevation == b.elevation && a.cost == b.cost
  }

  /** A non-empty list whose first and last waypoints are checkpoints and not intermediate,
      and whose interior waypoints are intermediate and not checkpoints. */
  predicate Framed(ws: seq<Waypoint>) {
    && |ws| > 0
    && ws[0].checkpoint && !ws[0].intermediate
    && ws[|ws| - 1].checkpoint && !ws[|ws| - 1].intermediate
    && forall i :: 0 < i < |ws| - 1 ==> !ws[i].checkpoint && ws[i].intermediate
  }

  /** Tags the expansion of one waypoint pair: every cell intermediate, then the first
      made a checkpoint and the last made non-intermediate. */
  function TagExpansion(cells: seq<Waypoint>): (r: seq<Waypoint>)
    requires cells != []
    ensures |r| == |cells|
    ensures forall i :: 0 <= i < |r| ==> SameCell(r[i], cells[i])
    ensures r[0].checkpoint && !r[0].intermediate
    ensures !r[|r| - 1].intermediate && (|r| > 1 ==> !r[|r| - 1].checkpoint)
    ensures forall i :: 0 < i < |r| - 1 ==> !r[i].checkpoint && r[i].intermediate
  {
    var all := seq(|cells|, i requires 0 <= i < |cells| => cells[i].(checkpoint := false, intermediate := true));
    var first := all[0 := all[0].(checkpoint := true, intermediate := false)];
    first[|first| - 1 := first[|first| - 1].(intermediate := false)]
  }

  /** The untagged expansions of consecutive waypoint pairs, concatenated in order. */
  function Expanded(host: Host, w: seq<Point>): seq<Waypoint>
    decreases |w|
  {
    if |w| < 2 then [] else Expanded(host, w[..|w| - 1]) + host.expand(w[|w| - 2], w[|w| - 1])
  }

  /** The tagged expansions of consecutive waypoint pairs, concatenated in order. */
  function TaggedRoute(host: Host, w: seq<Point>): (r: seq<Waypoint>)
    requires HostValid(host)
    ensures |r| == |Expanded(host, w)|
    ensures forall i :: 0 <= i < |r| ==> SameCell(r[i], Expanded(host, w)[i])
    ensures r == [] <==> |w| < 2
    ensures |w| >= 2 ==> r[0].checkpoint && !r[0].intermediate && !r[|r| - 1].intermediate
    ensures |w| >= 2 ==> r[|r| - 1].at == Last(host.expand(w[|w| - 2], w[|w| - 1])).at
    decreases |w|
  {
    if |w| < 2 then []
    else
      var e := host.expand(w[|w| - 2], w[|w| - 1]);
      var before := TaggedRoute(host, w[..|w| - 1]);
      var r := before + TagExpansion(e);
      assert Expanded(host, w) == Expanded(host, w[..|w| - 1]) + e;
      assert forall i :: |before| <= i < |r| ==> SameCell(r[i], Expanded(host, w)[i]) by {
        forall i | |before| <= i < |r| ensures SameCell(r[i], Expanded(host, w)[i]) {
          assert r[i] == TagExpansion(e)[i - |before|];
        }
      }
      r
  }

  /** Where one pair's expansion meets the next, the route holds a cell that is not
      intermediate followed by a checkpoint; and the route ends on a checkpoint only when
      the last pair expands to a single cell. So, unless it is two single checkpoints, a
      route over three or more waypoints is not framed as one run, unlike the tail of a
      wholly unreachable route (see PlanWhollyUnreachable). */
  lemma RouteJunctions(host: Host, w: seq<Point>)
    requires HostValid(host) && |w| >= 3
    ensures var r, k := TaggedRoute(host, w), |TaggedRoute(host, w[..|w| - 1])|;
      && 0 < k < |r|
      && !r[k - 1].intermediate
      && r[k].checkpoint && !r[k].intermediate
      && (r[|r| - 1].checkpoint <==> |host.expand(w[|w| - 2], w[|w| - 1])| == 1)
      && (|host.expand(w[|w| - 2], w[|w| - 1])| > 1 || k > 1 ==> !Framed(r))
  {
    var r, before := TaggedRoute(host, w), TaggedRoute(host, w[..|w| - 1]);
    var e := host.expand(w[|w| - 2], w[|w| - 1]);
    assert r == before + TagExpansion(e);
    assert w[..|w| - 1][|w[..|w| - 1]| - 2] == w[|w| - 3];
    assert r[|before|] == TagExpansion(e)[0];
    assert r[|r| - 1] == TagExpansion(e)[|e| - 1];
  }

  function Last<T>(s: seq<T>): T
    requires s != []
  {
    s[|s| - 1]
  }

  /** Expands and tags every consecutive pair of waypoints, appending each expansion. */
  method TagRoute(host: Host, waypoints: seq<Point>) returns (segments: seq<Waypoint>)
    requires HostValid(host)
    ensures segments == TaggedRoute(host, waypoints)
  {
    segments := [];
    var i := 1;
    while i < |waypoints|
      invariant 1 <= i
      invariant |waypoints| > 0 ==> i <= |waypoints|
      invariant segments == TaggedRoute(host, waypoints[..if i <= |waypoints| then i else |waypoints|])
    {
      var intermediateWaypoints := host.expand(waypoints[i - 1], waypoints[i]);
      var intermediateSegments := TagExpansion(intermediateWaypoints);
      assert waypoints[..i + 1][..i] == waypoints[..i];
      segments := segments + intermediateSegments;
      i := i + 1;
    }
    assert |waypoints| > 0 ==> waypoints[..|waypoints|] == waypoints;
  }

  /** The reachable route ends on the target cell. */
  predicate Reaches(host: Host, w: seq<Point>, target: Point)
    requires HostValid(host)
  {
    |w| >= 2 && Last(TaggedRoute(host, w)).at == target
  }

  /** The cells from the end of the reachable route (or from the token, when nothing is
      reachable) to the target, when the route stops short of the target. */
  function UnreachableTail(host: Host, from: Point, target: Point, w: seq<Point>): seq<Waypoint>
    requires HostValid(host)
  {
    if |w| < 2 then host.expand(from, target)
    else
      var last := Last(TaggedRoute(host, w)).at;
      if last == target then [] else host.expand(last, target)
  }

  /** The tail is empty exactly when the reachable route ends on the target. */
  lemma UnreachableTailEmptyIffReached(host: Host, from: Point, target: Point, w: seq<Point>)
    requires HostValid(host)
    ensures UnreachableTail(host, from, target, w) == [] <==> Reaches(host, w, target)
    ensures !Reaches(host, w, target) ==>
      var start := if |w| < 2 then from else Last(TaggedRoute(host, w)).at;
      UnreachableTail(host, from, target, w) == host.expand(start, target)
  {
    if |w| < 2 {
      assert host.expand(from, target) != [];
    } else {
      var last := Last(TaggedRoute(host, w)).at;
      assert host.expand(last, target) != [];
    }
  }

  /** Gives each reachable segment the cost measured at its own index. */
  function AttachCosts(segments: seq<Waypoint>, costs: seq<Option<int>>): (r: seq<Waypoint>)
    requires |costs| >= |segments|
    ensures |r| == |segments|
    ensures forall i :: 0 <= i < |r| ==> r[i].cost == costs[i] && r[i].(cost := segments[i].cost) == segments[i]
  {
    seq(|segments|, i requires 0 <= i < |segments| => segments[i].(cost := costs[i]))
  }

  /** Annotates the unreachable tail: the k-th waypoint takes the cost at index offset + k,
      elevation 0, and is intermediate; the last is a checkpoint, and so is the first
      when the whole route is unreachable. */
  function TagTail(tail: seq<Waypoint>, costs: seq<Option<int>>, offset: nat, wholeRoute: bool): (r: seq<Waypoint>)
    requires |costs| >= offset + |tail|
    ensures |r| == |tail|
    ensures forall k :: 0 <= k < |r| ==> r[k].at == tail[k].at && r[k].cost == costs[offset + k] && r[k].elevation == 0
    ensures |r| > 0 ==> r[|r| - 1].checkpoint && !r[|r| - 1].intermediate
    ensures forall k :: 0 <= k < |r| - 1 ==>
      (r[k].checkpoint <==> k == 0 && wholeRoute) && (r[k].intermediate <==> !(k == 0 && wholeRoute))
  {
    if tail == [] then []
    else
      var all := seq(|tail|, k requires 0 <= k < |tail| =>
        tail[k].(cost := costs[offset + k], checkpoint := false, elevation := 0, intermediate := true));
      var first := if wholeRoute then all[0 := all[0].(checkpoint := true, intermediate := false)] else all;
      first[|first| - 1 := first[|first| - 1].(checkpoint := true, intermediate := false)]
  }

  /** The path kept by the ruler: the service's waypoints, or nothing when it found no path. */
  function ReachedPath(host: Host, from: Point, target: Point): seq<Point>
  {
    var w := host.findPath(from, target);
    if |w| < 2 then [] else w
  }

  /** The costs of one combined measurement over the reachable segments and the tail. */
  function RouteCosts(host: Host, from: Point, target: Point): seq<Option<int>>
    requires HostValid(host)
  {
    var w := host.findPath(from, target);
    host.measureCosts(TaggedRoute(host, w) + UnreachableTail(host, from, target, w))
  }

  /** The planned movement published for a drag from the token to the target cell. */
  function PlanMovement(host: Host, from: Point, target: Point): PlannedMovement
    requires HostValid(host)
  {
    var w := host.findPath(from, target);
    var segments := TaggedRoute(host, w);
    var tail := UnreachableTail(host, from, target, w);
    var costs := host.measureCosts(segments + tail);
    PlannedMovement(AttachCosts(segments, costs), TagTail(tail, costs, |segments|, |segments| == 0))
  }

  /** Costs come from one measurement: segment i takes entry i, tail waypoint k takes
      entry k + |segments|; tagging and costing change no cell of the expansions. */
  lemma PlanCosts(host: Host, from: Point, target: Point)
    requires HostValid(host)
    ensures var p := PlanMovement(host, from, target);
      var costs := RouteCosts(host, from, target);
      && Cells(p.foundPath) == Cells(Expanded(host, host.findPath(from, target)))
      && (forall i :: 0 <= i < |p.foundPath| ==> p.foundPath[i].cost == costs[i])
      && (forall k :: 0 <= k < |p.unreachableWaypoints| ==>
            p.unreachableWaypoints[k].cost == costs[k + |p.foundPath|] && p.unreachableWaypoints[k].elevation == 0)
  {
    var p := PlanMovement(host, from, target);
    var w := host.findPath(from, target);
    assert |Cells(p.foundPath)| == |Cells(Expanded(host, w))|;
    forall i | 0 <= i < |p.foundPath|
      ensures Cells(p.foundPath)[i] == Cells(Expanded(host, w))[i]
    {
      assert SameCell(TaggedRoute(host, w)[i], Expanded(host, w)[i]);
    }
  }

  /** The unreachable tail is non-empty exactly when the reachable route stops short of the target. */
  lemma PlanUnreachableIffBlocked(host: Host, from: Point, target: Point)
    requires HostValid(host)
    ensures PlanMovement(host, from, target).unreachableWaypoints == [] <==>
      Reaches(host, host.findPath(from, target), target)
  {
    UnreachableTailEmptyIffReached(host, from, target, host.findPath(from, target));
  }

  /** With no path found, nothing is reachable and the whole route from the token to the
      target is the tail, with a checkpoint at both ends and intermediate cells between. */
  lemma PlanWhollyUnreachable(host: Host, from: Point, target: Point)
    requires HostValid(host)
    requires |host.findPath(from, target)| < 2
    ensures var p := PlanMovement(host, from, target);
      && p.foundPath == []
      && Cells(p.unreachableWaypoints) == Cells(host.expand(from, target))
      && Framed(p.unreachableWaypoints)
  {
    var p := PlanMovement(host, from, target);
    assert host.expand(from, target) != [];
    assert |p.unreachableWaypoints| == |host.expand(from, target)|;
  }

  /** With a path that stops short of the target, the tail runs from the last reachable
      cell to the target and starts as an intermediate, non-checkpoint cell. */
  lemma PlanPartlyBlocked(host: Host, from: Point, target: Point)
    requires HostValid(host)
    requires |host.findPath(from, target)| >= 2 && !Reaches(host, host.findPath(from, target), target)
    ensures var p := PlanMovement(host, from, target);
      && p.foundPath != []
      && Cells(p.unreachableWaypoints) == Cells(host.expand(Last(p.foundPath).at, target))
      && (|p.unreachableWaypoints| > 1 ==> !p.unreachableWaypoints[0].checkpoint && p.unreachableWaypoints[0].intermediate)
  {
    var w := host.findPath(from, target);
    var p := PlanMovement(host, from, target);
    var segments := TaggedRoute(host, w);
    assert Last(p.foundPath).at == Last(segments).at;
    UnreachableTailEmptyIffReached(host, from, target, w);
  }
}
