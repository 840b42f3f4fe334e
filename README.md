# DragRuler model

This project models `DragRuler` from `src/IRtoken/tokenRuler.js` of Material Plane. Material Plane is a Foundry VTT module that moves tokens with an infrared pointer.
A drag session is a sequence of calls on one object:

- `start` opens a session at the token's position.
- `move` is called for each pointer position.
- `end` closes the session, and so does `tokenDrop` when the settings say so.

While the pointer moves, the ruler draws a path on the canvas. The configured mode chooses how the path is built:

- `findMovementPath`: the host's movement path service finds the path, and the result goes to the token's own ruler.
- `follow`: the path simply follows the pointer and backtracks when the pointer steps back.
- `pathfinding`: a routing library computes the path. Part of it is locked, and the rest is speculative and recomputed on every move.
- `disabled`: nothing happens.

Modules:

- `Canvas`: the value types of the model.
  - Points, waypoints, tokens and settings.
  - `ViewCall`, the calls made on the canvas ruler and on the token's ruler.
  - `Host`, the host services as total functions: grid geometry, the movement path service, cell expansion, cost measurement and the routing library.
  - `HostValid`, what the ruler assumes of those services.
- `MovementPath`: the `findMovementPath` computation as functions, with `TagRoute` as the expansion loop.
  - The reachable waypoints are expanded into tagged cells.
  - The unreachable tail is computed.
  - One cost measurement is merged back by index.
- `Follow`: one follow-mode step as a function, plus lemmas about whole drags.
- `Pathfinding`: the parts of one pathfinding move.
  - The backtrack and the promotion loop over the previous speculative path.
  - `PathfindingUpdate`, the move's loops written as methods.
  - Functions that specify those methods.
- `TokenRuler`: `DragRuler` as a class.
  - It has the source's session fields and an append-only log `calls` of view calls.
  - Each method ensures the new state in terms of the functions above.
- `Scenarios`: whole drags through the class, with what a caller observes at the end.

Settings, the view's last segment, and the host are passed in as parameters because the source reads them from global state on every call.

## Model

| member | source | states |
|---|---|---|
| MovementPath.TagExpansion | src/IRtoken/tokenRuler.js:84-94 | tagging keeps each cell and its cost; the first cell becomes a checkpoint, not intermediate; the last is not intermediate; cells in between are intermediate, non-checkpoint |
| MovementPath.TaggedRoute | src/IRtoken/tokenRuler.js:81-96 | the route has as many cells as the pairwise expansions and the same cells in order; it is empty exactly when fewer than two waypoints were found; it starts at a checkpoint and ends on the last cell of the last pair's expansion |
| MovementPath.TagRoute | src/IRtoken/tokenRuler.js:81-96 | the expansion loop over consecutive waypoint pairs produces exactly the tagged route |
| MovementPath.UnreachableTailEmptyIffReached | src/IRtoken/tokenRuler.js:97-111 | the unreachable tail is empty if and only if the route ends on the target; otherwise it is the expansion from the route's last cell (or from the token when nothing is reachable) to the target |
| MovementPath.AttachCosts | src/IRtoken/tokenRuler.js:125-127 | segment i takes the cost measured at index i, and nothing else about it changes |
| MovementPath.TagTail | src/IRtoken/tokenRuler.js:129-151 | tail waypoint k keeps its cell and takes cost offset+k and elevation 0; the last is a checkpoint, not intermediate; an earlier one is a checkpoint exactly when it is the first and the whole route is unreachable, and intermediate otherwise |
| MovementPath.PlanCosts | src/IRtoken/tokenRuler.js:125-151 | both lists take their costs from one measurement over route then tail, the tail offset by the route's length; the published route holds the expansion's cells unchanged |
| MovementPath.PlanUnreachableIffBlocked | src/IRtoken/tokenRuler.js:72-111 | the published tail is empty if and only if the found path reaches the target |
| MovementPath.PlanWhollyUnreachable | src/IRtoken/tokenRuler.js:72-151 | with no path found, nothing is published as reachable; the tail is the whole expansion from token to target, framed by checkpoints with intermediate cells between |
| MovementPath.PlanPartlyBlocked | src/IRtoken/tokenRuler.js:97-151 | with a path that stops short, the tail is the expansion from the last reachable cell to the target, and its first cell continues the route instead of starting a new one |
| MovementPath.RouteJunctions | src/IRtoken/tokenRuler.js:81-96 | where one pair's expansion meets the next, a non-intermediate cell is followed by a checkpoint; the route ends on a checkpoint exactly when the last pair expands to one cell; so a route over three or more waypoints is, apart from two single checkpoints, not one framed run |
| Follow.AddThirdFromLast | src/IRtoken/tokenRuler.js:228 | the committed earlier waypoint is the path's third-from-last point exactly when the path has at least three points; otherwise the view is passed a missing point |
| Follow.FollowStep | src/IRtoken/tokenRuler.js:201-235 | one follow move produces the follow path. A waypoint is removed from the view exactly when the pointer steps back onto the last segment's start. A step that is not retracted commits two waypoints and moves the segment origin to the pointer exactly when it is a long diagonal from the anchor; otherwise it changes nothing in the view. With no segment list the view is untouched. |
| Follow.FollowPathEndsAtPointer | src/IRtoken/tokenRuler.js:204-217 | after any follow move the path keeps its first point, has at least two points and ends at the pointer |
| Follow.ExcursionRetracted | src/IRtoken/tokenRuler.js:204-217 | moving forward to a new point and straight back restores the path exactly |
| Follow.FollowAllStaysAnchored | src/IRtoken/tokenRuler.js:201-217 | over any drag the path keeps the origin first, ends at the last pointer position, and holds only points it started with or was fed |
| Pathfinding.LastFar | src/IRtoken/tokenRuler.js:272-289 | finds the far cell that the loop's last assignment leaves as the planning start: it is far, and every later cell is near; when none is found, no cell is far |
| Pathfinding.Backtrack | src/IRtoken/tokenRuler.js:257-269 | the locked list loses its last cell exactly when the threshold is non-zero, the pointer is within it of the start, and a cell is locked; the start then rewinds to that cell, and otherwise it stays; the result is always a prefix |
| Pathfinding.Promote | src/IRtoken/tokenRuler.js:271-289 | the promotion loop appends the promoted cells to both lists and leaves the start at the frontier |
| Pathfinding.PathfindingStep | src/IRtoken/tokenRuler.js:248-299 | the working list extends the locked list held before the move; the new speculative path is the plan from the new start to the pointer's cell; with a zero threshold the start and locked cells are unchanged |
| Pathfinding.AddAll | src/IRtoken/tokenRuler.js:306-313 | one waypoint is added per cell, in order, at that cell's top-left point |
| Pathfinding.PathfindingUpdate | src/IRtoken/tokenRuler.js:248-304 | the copy, backtrack, promotion, planning and append loops yield the step's locked list, start and speculative path; the segments drawn are the working list followed by the speculative path |
| Pathfinding.AddWaypoints | src/IRtoken/tokenRuler.js:306-313 | the waypoint loop adds exactly one waypoint per cell, in order |
| Pathfinding.NearCellsPromoteNothing | src/IRtoken/tokenRuler.js:282-288 | loop steps over cells within the threshold promote nothing |
| Pathfinding.NothingFarKeepsStart | src/IRtoken/tokenRuler.js:272-289 | when every previous speculative cell is near, nothing is locked and the start stays |
| Pathfinding.OneFarPromotesItsPrefix | src/IRtoken/tokenRuler.js:272-289 | with exactly one far cell, the cells before it are locked and the start moves to it |
| Pathfinding.TwoFarPromoteBothPrefixes | src/IRtoken/tokenRuler.js:272-289 | with two far cells, both prefixes are locked, so the cells before the first are locked twice, and the start moves to the later cell |
| Pathfinding.PromotedFromPrevious | src/IRtoken/tokenRuler.js:284-287 | promotion only copies cells of the previous speculative path |
| TokenRuler.AfterEnd | src/IRtoken/tokenRuler.js:322-343 | ending forgets the path in every mode; the delegated mode keeps every other session field, and every other mode puts every session field back to its initial value |
| TokenRuler.Seeded | src/IRtoken/tokenRuler.js:191-199 | the path a move works on is never empty: a non-empty path is kept, and an empty one becomes exactly the origin alone |
| TokenRuler.DragRuler.constructor | src/IRtoken/tokenRuler.js:12-23 | a new ruler holds no token, ruler or origin, has every session field at its initial value, and has made no view call |
| TokenRuler.DragRuler.Start | src/IRtoken/tokenRuler.js:31-42 | when disabled, nothing changes; otherwise a held ruler's session is ended first, then the token, origin and previous position are recorded and the canvas ruler is drawn |
| TokenRuler.DragRuler.FindMovementPath | src/IRtoken/tokenRuler.js:51-165 | without a token nothing changes; otherwise the path becomes the service's waypoints (or nothing); when drawing, the found path and the planned movement are published to the token's ruler, which is then shown |
| TokenRuler.DragRuler.FollowMove | src/IRtoken/tokenRuler.js:201-235 | path, segment origin and view calls become those of one follow step |
| TokenRuler.DragRuler.PathfindingMove | src/IRtoken/tokenRuler.js:248-313 | starting from the origin when no start is set, the locked list, start and speculative path become the step's, and the view is cleared and redrawn from the working and speculative cells |
| TokenRuler.DragRuler.Move | src/IRtoken/tokenRuler.js:171-317 | a disabled ruler or a repeated position changes nothing; otherwise the position is recorded and exactly one mode's algorithm runs, with its whole new state stated per mode: the delegated mode publishes the planned movement; follow mode seeds an empty path, steps and measures once; pathfinding mode seeds an empty path and, only when the routing library is available, plans, redraws and measures once |
| TokenRuler.DragRuler.MoveDelegated | src/IRtoken/tokenRuler.js:178-188 | the delegated mode records the position and publishes the planned movement to the token's ruler |
| TokenRuler.DragRuler.Seed | src/IRtoken/tokenRuler.js:191-199 | an empty path is started at the origin, and the canvas ruler is restarted there |
| TokenRuler.DragRuler.MoveFollow | src/IRtoken/tokenRuler.js:191-235 | follow mode seeds, runs one follow step, and measures along the new path |
| TokenRuler.DragRuler.MovePathfinding | src/IRtoken/tokenRuler.js:237-313 | pathfinding mode seeds and stops if the routing library is unavailable; otherwise it runs one pathfinding move and measures |
| TokenRuler.DragRuler.End | src/IRtoken/tokenRuler.js:322-343 | the session is closed: no token, no ruler, the origin kept, the session fields as AfterEnd states, and one clear of the ruler the mode drew on |
| TokenRuler.DragRuler.TokenDrop | src/IRtoken/tokenRuler.js:348-351 | a token drop ends the session exactly when the ruler is enabled and set to stop on drop; otherwise nothing changes |
| Scenarios.FollowExcursion | src/IRtoken/tokenRuler.js:201-217 | in follow mode, dragging from the origin to p1, on to p2 and back to p1 leaves the path [origin, p1] |
| Scenarios.StraightFirstMove | src/IRtoken/tokenRuler.js:191-234 | a first straight follow move draws, restarts the ruler at the origin, measures once, and commits nothing |
| Scenarios.FirstLongDiagonal | src/IRtoken/tokenRuler.js:191-234 | the first follow move along a diagonal longer than the commit distance passes a missing point to the view before adding the pointer, because the seeded path has only two points |
| Scenarios.RepeatedPositionIgnored | src/IRtoken/tokenRuler.js:177-179 | repeating a position changes no field and makes no view call, in every mode |
| Scenarios.ZeroThresholdDrag | src/IRtoken/tokenRuler.js:255-257 | with a zero threshold the planning start is the origin throughout a drag |
| Scenarios.EndThenTokenDrop | src/IRtoken/tokenRuler.js:322-351 | outside the delegated mode, ending and then dropping the token leaves every session field at its initial value |
| Scenarios.RestartResetsSession | src/IRtoken/tokenRuler.js:31-42 | restarting a follow or pathfinding session clears the old one before drawing, so only the new previous position remains |

The specification functions behind these contracts are defined by their bodies. Their properties are stated by the members above:

- `MovementPath.UnreachableTail` (lines 72-111): see `MovementPath.UnreachableTailEmptyIffReached`.
- `MovementPath.PlanMovement` (lines 72-161): see `MovementPath.PlanCosts`, `MovementPath.PlanUnreachableIffBlocked`, `MovementPath.PlanWhollyUnreachable` and `MovementPath.PlanPartlyBlocked`.
- `Follow.FollowPath` (lines 204-217): see `Follow.FollowPathEndsAtPointer`, `Follow.ExcursionRetracted` and `Follow.FollowAllStaysAnchored`.
- `Pathfinding.Promoted` and `Pathfinding.Frontier` (lines 272-289): see `Pathfinding.Promote`, `Pathfinding.NothingFarKeepsStart`, `Pathfinding.OneFarPromotesItsPrefix`, `Pathfinding.TwoFarPromoteBothPrefixes` and `Pathfinding.PromotedFromPrevious`.
- `Pathfinding.Threshold` (line 238): the configured distance times the grid size.

Behaviours of the code worth knowing, each proved about the model:

- **Promotion.** The loop at lines 272-289 has no early exit. Every far cell of the previous speculative path promotes the whole prefix before it, so with two far cells the earlier prefix is locked twice, and the start ends at the last far cell. `Pathfinding.TwoFarPromoteBothPrefixes` shows this. A loop that stopped at the first far cell would lock each cell once; `Pathfinding.OneFarPromotesItsPrefix` shows that the two agree when exactly one cell is far.
- **Ending twice.** In the delegated mode, line 326 reads the token's ruler, so a second `end` with no token fails. `TokenRuler.DragRuler.End` therefore requires a token in that mode; in every other mode it needs nothing.
- **Seeding.** The delegated mode returns at line 187, before the empty path is seeded at lines 191-199, so only the follow and pathfinding modes seed.
- **Found-path tags.** Each pair's expansion is tagged on its own (lines 84-95). The found path therefore has a non-intermediate cell, then a checkpoint, at every junction between expansions, and it ends on a checkpoint only when the last pair expands to one cell. `MovementPath.RouteJunctions` states this. Only the tail of a wholly unreachable route is one run framed by checkpoints (lines 144-150, `MovementPath.PlanWhollyUnreachable`). After a partly found path, the tail starts on an intermediate, non-checkpoint cell that continues the route, and it ends on a checkpoint (lines 137-150, `MovementPath.PlanPartlyBlocked`).
- **First long diagonal.** Line 228 adds the path's third-from-last point. On the first follow move the seeded path has two points, so a long diagonal passes `undefined` to the view; `Scenarios.FirstLongDiagonal` shows the resulting calls.

## Left out

- `src/analyzeIR.js` is not part of this model. It turns pointer readings into the calls modelled here.
- `TokenRuler.DragRuler.Start` runs to completion in one step. The source sets the ruler only after awaiting `draw()` (line 41). A caller that does not await `start` can call `move` while the ruler is still undefined, and in follow mode that move fails reading its segments.
- Asynchrony: `TokenRuler.DragRuler.Move` runs the delegated computation to completion. The source does not await it (line 186), so two moves can interleave.
- The routing-library warning and its ten-second timer (lines 240-245) are not modelled. Only the early return is kept.
- Debug logging is not modelled.
- Coordinates are abstract. These are host functions:
  - the half-cell shift of the target (line 56), as `host.normalize`;
  - grid and pixel conversions, including the swapped x/y arguments at lines 265, 274, 293-298 and 308;
  - distance measurement, as `host.distance`.
- Position comparison is equality of points.
- Floating-point coordinates and the `snapped` flag are not modelled.
- Measured distances (`host.distance`), the grid size and the distance setting are integers. In the source they are JavaScript numbers, so with a fractional setting or measurement the comparisons at lines 227, 262 and 282 can come out differently from an integer threshold.
- The `active` field is never read or written by the class, so it is not modelled.
- The token's movement history and the `hidden`/`searching` flags of the planned movement are constant payload and are not modelled.
- The `refresh` call's empty passed and pending waypoint lists are likewise not modelled.
- `ruler.segments` is read once per follow move, as `lastSegmentStart`, the start of its last segment (or None when the list is absent). A present but empty segment list is not modelled. The source then fails only where it reads the last segment's start: at line 209 when retracting onto the second-to-last point, or at line 222 when no segment origin is remembered. With a remembered origin it measures from that origin and may commit two waypoints (lines 219-233), which the model's input cannot express.
- `TokenRuler.DragRuler.Move` requires a held ruler for a changed position in follow and pathfinding modes. The source reads the ruler's segments at line 202 and calls its `clear` at line 301, so those moves fail without one. The requirement also excludes a pathfinding move without a ruler while the routing library is unavailable. The source does not fail there: it passes the undefined ruler to the compatibility handler (lines 193-195) and returns at line 245.
- `HostValid`: every waypoint pair expands to at least one cell, and the measurement returns a cost for every waypoint. The source indexes both without checking (lines 91, 127 and 136).
- `Follow.AddThirdFromLast`: on a path shorter than three points, the source passes `undefined` to the view. The model logs this as `AddMissingWaypoint` and says nothing about what the view then does.
- The routing library's `calculatePath` is synchronous here (`host.plan`).
- The pathfinding start (`pathFinderStart`) is one abstract point. The model does not model pixel-versus-grid units, although the source mixes them (lines 266 and 283).
