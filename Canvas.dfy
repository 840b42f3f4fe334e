/** Values the movement ruler works with: positions, waypoints, the ruler settings,
    the calls it makes on the ruler views, and the host services it consumes. */
module Canvas {

  datatype Option<+T> = None | Some(value: T)

  /** A canvas or grid position. Positions are compared on x and y only. */
  datatype Point = Point(x: int, y: int)

  /** A waypoint with the annotations the host ruler draws from. A cell returned by the
      path planner is a waypoint whose annotations the pathfinding mode never reads. */
  datatype Waypoint = Waypoint(at: Point, elevation: int, checkpoint: bool, intermediate: bool, cost: Option<int>)

  /** The token being dragged; only its position is read. */
  datatype Token = Token(at: Point)

  /** The ruler modes the settings recognise. */
  datatype Mode = Disabled | FindMovementPath | Follow | Pathfinding

  /** When the ruler stops: on token drop, or on some other trigger outside this model. */
  datatype Stop = TokenDrop | OtherTrigger

  /** The ruler settings: mode, backtrack distance (in grid spaces) and stop trigger. */
  datatype Settings = Settings(mode: Mode, distance: int, stop: Stop)

  /** The reachable path and the unreachable tail published to the token's ruler. */
  datatype PlannedMovement = PlannedMovement(foundPath: seq<Waypoint>, unreachableWaypoints: seq<Waypoint>)

  /** One call the drag ruler makes on the canvas ruler or the token's ruler. The log does not tell apart
      a call made directly on the ruler from the same call made through the compatibility
      handler: `Clear` stands for both `ruler.clear()` and the handler's clear, and
      `AddWaypoint` for both `ruler._addWaypoint` and the handler's addWaypoint. */
  datatype ViewCall =
    | Draw                              // obtain a fresh canvas ruler
    | Clear                             // clear the canvas ruler
    | SetStartState
    | AddWaypoint(at: Point)
    | AddMissingWaypoint                // addWaypoint called with an undefined point
    | RemoveWaypoint(at: Point)
    | Measure(to: Point, path: seq<Point>)
    | RefreshTokenRuler(plan: PlannedMovement)
    | ShowTokenRuler                    // make the token's ruler visible and draw it
    | ClearTokenRuler

  /** The host geometry and services, as functions of their point arguments. */
  datatype Host = Host(
    gridSize: int,                                    // pixels per grid space
    normalize: Point -> Point,                        // pointer position to the cell's top-left corner
    distance: (Point, Point) -> int,                  // measured distance between two points
    cellToPixel: Point -> Point,                      // locked cell to the pixel position it starts from
    cellToCoords: Point -> Point,                     // speculative cell to the coordinates measured against
    toPlannerCell: Point -> Point,                    // position to the planner's cell arguments
    cellToTopLeft: Point -> Point,                    // planner cell to the waypoint drawn for it
    routingReady: bool,                               // the path planner is available
    plan: (Point, Point) -> seq<Waypoint>,            // path planner: cells from one cell to another
    findPath: (Point, Point) -> seq<Point>,           // movement path service: reachable waypoints
    expand: (Point, Point) -> seq<Waypoint>,          // every grid cell between two waypoints
    measureCosts: seq<Waypoint> -> seq<Option<int>>   // backward cumulative cost per waypoint
  )

  /** What the ruler relies on from the host: an expansion always holds at least its
      start cell, and a measurement has a cost entry for every waypoint measured. */
  ghost predicate HostValid(host: Host) {
    && (forall a, b :: host.expand(a, b) != [])
    && (forall ws :: |host.measureCosts(ws)| >= |ws|)
  }

  /** The positions of a list of waypoints. */
  function Cells(ws: seq<Waypoint>): (ps: seq<Point>)
    ensures |ps| == |ws|
    ensures forall i :: 0 <= i < |ws| ==> ps[i] == ws[i].at
  {
    seq(|ws|, i requires 0 <= i < |ws| => ws[i].at)
  }
}
