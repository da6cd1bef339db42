# A verified model of the hexagonal map server

This project models the map core of the game server and proves what it is for: cells are created around the
entities that keep them alive, grouped into clusters each tick, counted down when nobody watches them, and
destroyed, without ever leaving an updater on freed ground. Around it stand the hex geometry under the map, the
area-of-interest protocol, the double-buffered cell queues, and the self-contained algorithms of the repository:
the quadtree, the packet format, the separating axis test, the segment test and the arc-length search.
`dafny verify dfyconfig.toml` checks everything.

## How the map is modelled

- **The state** is one record, `World.World` (`World.dfy`): `Map::_cells` and its operation queue, the cells with
  their stall flags, and the cluster's `_currentCells`, `_oldCells`, `_stallCells`, `_cellsByCluster`, graph edges
  and keepers. The functions on it (`GetOrCreate`, `ExecAdd`, `ExecRemove`, `ExecDestroy`, `TouchWatched`,
  `ClusterCleanup`, `Regroup`, `ProcessStall`, ...) follow `map.cpp` and `cluster.cpp` branch by branch. Each
  returns an `Outcome`: it runs, or it stops at a named `Fault`: the `LOG_ASSERT` of `touch`, a read through a
  dangling cell pointer, an erase of something that is not there, or a missing direction index.
- **The classes** `MapFields.MapData`, `Clusters.Cluster` and `Maps.Map` (`MapData.dfy`, `Cluster.dfy`, `Map.dfy`)
  hold the same state the way the program does, with two cell buffers that swap, vertices numbered in order of
  insertion, an edge list and buckets, and change it in place. Every method is proved equal to the function on
  records, through `Snapshot()`.
- **A run** (`Runs.dfy`) is a list of events: an entity is spawned, despawned or moves, `Map::update`,
  `Map::cleanup`. `Runs.Legal` is the run hypothesis, stated once:
  - (a) `update` and `cleanup` alternate, as in `Server::update`; moves come between `update` and `cleanup`, spawns
    and despawns at any time.
  - (b) That the guard of `touch`, its `LOG_ASSERT` against a cell on cooldown, holds is **not** assumed. A run in
    which it fails is legal and stops there with `TouchedCooldown`. That is the only way a run can stop
    (`Runs.EveryRunIsSafe`), and `Stops.EveryRunStopsIff` says for every run whether it does: at an update, iff some
    operation of the queue names an offset without a cell next to a cell whose DESTROY is still behind it; at a
    cleanup, iff a cell in sight of an updater runs out in it. `Hypotheses.GuardFailsInALegalRun` and
    `Stops.UpdateStopsInALegalRun` are runs from the empty map that come to each.
  - (c) The queued operations of an updater alternate between a REMOVE from where it is and an ADD; a move goes to
    the same or an adjacent cell (`HexRounding.ShortStepsAreAdjacent` says which steps do); and an updater spawned on
    a cell whose DESTROY is queued behind its ADD is removed again in between (`Runs.SpawnsClear`). That last
    condition is exact: without it some DESTROY frees the cell an updater stands on (`Stops.SpawnsClearIsExact`), and
    `Stops.SpawnOnDoomedCellDangles` is a run from the empty map in which that happens and the freed cell is read.
  - (d) Whether an entity is an updater or a client does not change, and every client is an updater
    (`Runs.Initial`).
- **The order of iteration** over a `std::set` or an unordered table is an input of the model (`order` of a cleanup,
  `entities` of a cell update), and so is the allocator: any function that never hands out a live cell, so that
  addresses of freed cells may come back.

Coordinates and positions: hex offsets are integers; floats are reals, sqrt(3) is a positive `w` with `w * w == 3`,
and a rotation is given by its cosine and sine.

## Model

| member | source | states |
|---|---|---|
| Runs.EveryRunIsSafe | src/server/server.cpp:81-98 | From an empty map, every run under the hypothesis keeps the invariant or stops at the guard of `touch`: no dangling cell is read, no erase misses, no direction is missing, in any interleaving |
| Runs.StepKeepsInv | src/map/map.cpp:40-50 | One event of any kind keeps the invariant of its phase, idle or busy; only an update or a cleanup can stop, and only at the guard |
| Runs.MapUpdateKeepsInv | src/map/map.cpp:40-107 | `Map::update` of an idle map empties the queue, leads to a busy map with every cell current and loses no edge, or stops at the guard; when it stops is `Stops.UpdateStopsIff` |
| Runs.OnMoveKeepsInv | src/map/map.cpp:154-165 | A move between update and cleanup never stops and keeps the busy invariant. It creates the cell if needed and, if that is not the cell the entity is in, queues the REMOVE at the old offset with the new cell and then the ADD at the new offset with the old cell; the entity stays where it is until then |
| Runs.VacatedIff | src/map/map.cpp:62-98 | On an idle map, every DESTROY of the queue finds all updaters off its cell iff no spawned updater stays on a cell whose DESTROY is behind its ADD: moves are proved clear, and the condition on spawns is exact |
| Stops.EveryRunStopsIff | src/server/server.cpp:81-98 | A run from the empty map stops iff it comes to an update whose queue names an absent offset next to a cell still to be destroyed, or to a cleanup in which a cell in sight of an updater runs out |
| Stops.StepStopsIff | src/map/map.cpp:40-50 | The same for one event: spawns, despawns and moves never stop |
| Stops.UpdateStopsIff | src/map/map.cpp:40-44 | `Map::update` of an idle map stops iff an operation of its queue names an offset that has no cell by then, within distance 1 of a cell whose DESTROY comes later |
| Stops.UpdateStopsInALegalRun | src/map/map-cluster/cluster.cpp:257-260 | From the empty map, a concrete run that `Map::update` stops: an entity is spawned next to cells that are destroyed behind its ADD |
| Stops.SpawnsClearIsExact | src/map/map.cpp:52-107 | On an idle map the condition on spawns holds iff no DESTROY of the queue catches an updater; where it fails, the first such DESTROY is reached with the updater on its cell, unless the guard stops the update before |
| Stops.CaughtIff | src/map/map.cpp:94-98 | A DESTROY of the queue, none before it having done so, finds an updater on its cell iff the operations before it leave one there |
| Stops.SpawnOnDoomedCellDangles | src/map/map.cpp:62-98 | From the empty map, a concrete run, legal but for the condition on spawns, in which an updater's cell is freed under it and the cleanup reads the freed cell |
| Guarantees.AfterEveryTick | src/map/map-cluster/cluster.cpp:78-287 | After every full tick of every run: `_currentCells` is exactly the live cells that are not doomed; such a cell is in `_stallCells` iff no keeper is within distance 1, iff it is registered; on cooldown iff doomed; the keepers are the updaters of the map, once each, on live unstalled cells |
| Guarantees.UpdatersKeepTheirGround | src/map/map-cluster/cluster.cpp:165-208 | At every point of every run the cell of an updater, and the cell its queued ADD leads to, is live, not on cooldown and not doomed; no other cell holds the updater |
| Guarantees.CellsAreDestroyedOnce | src/map/map.cpp:94-98 | At every point of every run each queued DESTROY names a live cell and that cell's own map entry, no two name the same cell, and only live cells are in `_currentCells`, `_stallCells`, the buckets, the graph and the map |
| Guarantees.EntitiesAreConserved | src/map/cell.cpp:162-180 | At every point of every run an updater is in the entities of exactly its own cell, `_clientsCount` counts the clients of the cell, and draining the keeper queue misses no UNKEEP and yields the updaters in the map once each |
| Entities.HeldAsRequested | src/map/map.cpp:52-107 | At every point of every run and for every entity, updater or not: the cell at an offset holds it iff, among the operations executed so far, some ADD brought it there and neither its REMOVE there nor the DESTROY of the cell came after |
| Entities.RequestsAreExecutedInOrder | src/map/map.cpp:52-56 | Over every run, what was executed and what still waits in the queue is together what the events requested, in order: nothing is lost, repeated or overtaken |
| Entities.ExecHolds | src/map/map.cpp:62-98 | One operation changes which cell holds which entity exactly as it says |
| Entities.AddPlaces | src/map/map.cpp:62-77 | After an ADD, of any entity and on any map, the entity points to the cell at its offset and is among its entities; no other entity has come or gone, there or elsewhere; `_clientsCount` grew by one for a client; and the cells around are there, all of them for an updater, else those that the old cell does not have around it |
| Entities.RemoveTakes | src/map/map.cpp:79-92 | After a REMOVE the entity points to no cell and is not among the entities of the cell at its offset; nobody else has moved; and the cells around are there that the new cell does not have around it. Without a cell at the offset nothing changes |
| Entities.DestroyTakes | src/map/map.cpp:94-98 | A DESTROY takes its cell and the entry of it, and leaves every other cell and every entity's pointer as they are |
| Guarantees.GraphAfterUpdate | src/map/map-cluster/cluster.cpp:233-255 | The exact graph that an update groups: two cells are joined iff they are adjacent, unless both were there before in sight of an updater and neither held one. So every centre of `touchWithNeighbours`, a keeper's cell, a stalled one or one just created, is joined to all its live neighbours |
| Guarantees.KeepersWithCommonNeighbourConnect | src/map/map-cluster/cluster.cpp:233-255 | In the graph that the update groups, a keeper's cell is connected to each of its neighbours that is live after the update, and two keepers with such a neighbour in common are connected |
| Maps.CentresShareBuckets | src/map/map-cluster/cluster.cpp:35-57 | If the buckets are the connected components of the graph, every two joined cells, and every two keepers with a live common neighbour, share a bucket; `Maps.Map.Update` establishes it |
| Operations.ExecAddKeepsCore | src/map/map.cpp:62-77 | An ADD keeps the invariant for the rest of the queue or stops at the guard, and before and after the entity enters (`Entities.AddPlaces`) it only grows the map |
| Operations.ExecRemoveKeepsCore | src/map/map.cpp:79-92 | A REMOVE keeps the invariant for the rest of the queue or stops at the guard |
| Operations.SkippedRemove | src/map/map.cpp:79-81 | A REMOVE that finds no cell changes nothing, and is never the REMOVE of an updater |
| Operations.ExecDestroyKeepsCore | src/map/map.cpp:94-98 | DESTROY frees a live cell that is in no structure of the cluster, and erases that cell's own entry and no other |
| Operations.ExecTracks | src/map/map.cpp:62-98 | Where each updater stands after an operation is where the queue says |
| Operations.ExecAllKeepsCore | src/map/map.cpp:52-107 | Draining the whole queue keeps the invariant, or stops at the guard and nowhere else |
| Operations.CheckStallKeepsCells | src/map/map-cluster/cluster.cpp:210-226 | `checkStall` finds the cell it erases from `_stallCells`, and keeps flags and sets in agreement |
| Operations.SettleKeepsCore | src/map/map.cpp:66-75 | The siblings, the broadcast and `checkStall` of an ADD keep the invariant |
| Invariants.GetOrCreateKeepsCells | src/map/map.cpp:270-284 | Creating a cell touches it and its neighbours; it keeps the cells' invariant and only adds cells, or stops at the guard |
| TickProofs.MapCleanupKeeps | src/map/map.cpp:46-50 | `Map::cleanup` stops iff a cell in sight of an updater runs out in this very tick; otherwise every cell meets its fate (seen, newly registered, counted down, or on cooldown), DESTROY is queued for exactly the cells that ran out, and the idle invariant holds |
| Ticks.RegroupClosed | src/map/map-cluster/cluster.cpp:165-204 | Touching the keepers' cells and enlisting the lost ones equals a pointwise formula over what the updaters see, edges included |
| Ticks.CleanupClosed | src/map/map-cluster/cluster.cpp:78-129 | `Cluster::cleanup` counts down every live cell, since the buckets cover all registered ones, and empties the graph |
| Ticks.TouchAllIsWatch | src/map/map-cluster/cluster.cpp:182-185 | Touching a list of centres one after another equals one simultaneous touch of all they cover, and fails iff a covered cell is on cooldown |
| Ticks.CentresAreUpdaterCells | src/map/map-cluster/cluster.cpp:167-185 | After the keeper queue is drained, the centres touched are exactly the cells of updaters |
| Expiry.CountdownStarts | src/map/map-cluster/cluster.cpp:187-204 | A cell that was not counting down and that no updater sees at a cleanup counts down afterwards, with exactly 120000 left |
| Expiry.ExactExpiry | src/map/map-cluster/cluster.cpp:90-102 | A cell with 120000 left whose countdown no event disturbs goes on cooldown, and has its DESTROY queued, in the first cleanup at which the elapsed times sum to at least 120000, and not before |
| Expiry.Countdown | src/map/map-cluster/cluster.cpp:91-96 | Over any run whose events do not disturb it, a registered cell stays registered while the elapsed times sum to less than its time left, which drops by exactly that sum |
| Expiry.CountsOnIff | src/map/map-cluster/cluster.cpp:210-287 | For each event, exactly when a registered cell stays registered: no cell is created within distance 1, no ADD into it comes from an unstalled cell, no updater sees it at the cleanup, and its time does not run out |
| Expiry.QueueCountsIff | src/map/map.cpp:52-107 | Over a whole queue, a cell stays registered iff no operation creates a cell within distance 1 or un-stalls it |
| Expiry.DestroyedWhenReached | src/map/map.cpp:94-98 | In the next `Map::update`, when its DESTROY is reached the cell is still live under its own entry, and afterwards both are gone |
| Expiry.UnwatchedMapEmpties | src/map/map-cluster/cluster.cpp:131-163 | A map with no keepers and nothing queued but DESTROYs is empty after the first update at which the elapsed times sum to 120000, and never stops on the way |
| Creations.CreationStopsIff | src/map/map.cpp:270-284 | Creating a cell stops at the guard of `touch` iff a live neighbour is on cooldown; otherwise exactly the cells within distance 1 leave their countdown, and the new cell is joined to each of them |
| Creations.ExecCreates | src/map/map.cpp:62-98 | An operation stops iff one of the offsets it names has no cell and lies next to a cell on cooldown; otherwise the countdowns that end are those next to a cell it creates, and the one `checkStall` ends; every created cell is joined to all its neighbours, and no edge is lost |
| Creations.ExecAllStopsIff | src/map/map.cpp:52-107 | From any position of the queue, draining the rest stops iff a later operation names an offset that has no cell then, next to a cell whose DESTROY is behind it |
| Hypotheses.SpawnOnExpiringCellStops | src/map/map-cluster/cluster.cpp:257-260 | An updater that spawns on a stalled cell in the tick in which its countdown ends stops the server at the guard |
| Hypotheses.GuardFailsInALegalRun | src/map/map-cluster/cluster.cpp:257-260 | From the empty map, a concrete run under the hypothesis reaches that failure: the guard is not a consequence of the other clauses |
| Clusters.Cluster.constructor | src/map/map-cluster/cluster.cpp:25-28 | The two buffers start empty, the first one current |
| Clusters.Cluster.Touch | src/map/map-cluster/cluster.cpp:257-287 | In place: a vertex for a cell that is new this tick, flags and `_stallCells` cleared by a non-stall touch; fails iff a non-stall touch meets a cooldown |
| Clusters.Cluster.Connect | src/map/map-cluster/cluster.cpp:289-295 | The edge list gains exactly the edge between the two cells, whatever their vertex numbers |
| Clusters.Cluster.TouchWithNeighbours | src/map/map-cluster/cluster.cpp:233-255 | The loop over `inRadius(1)` touches the ball and connects the centre to it, or fails iff the ball meets a cooldown |
| Clusters.Cluster.TouchStall | src/map/map-cluster/cluster.cpp:233-255 | The stall form of the same loop: nothing if the centre is on cooldown, else the ball without its cells on cooldown |
| Clusters.Cluster.CheckStallOf | src/map/map-cluster/cluster.cpp:210-226 | In place: the cell leaves its countdown iff there is an old cell that is neither registered nor on cooldown |
| Clusters.Cluster.DrainKeepers | src/map/map-cluster/cluster.cpp:167-179 | The loop appends on KEEP, erases the first occurrence on UNKEEP, and fails iff one is not there |
| Operations.KeepersInOrder | src/map/map-cluster/cluster.cpp:167-179 | After any queue of them, one more KEEP puts its entity behind all keepers, and one more UNKEEP takes out the first occurrence of its entity, the others in their order, or fails iff there is none |
| Clusters.Cluster.EnlistLost | src/map/map-cluster/cluster.cpp:187-204 | The loop over `_oldCells` registers, for 120000, exactly the cells that are neither current nor already in `_stallCells` |
| Clusters.Cluster.ProcessStallCells | src/map/map-cluster/cluster.cpp:131-163 | The loop erases and destroys the cells on cooldown, and touches the rest with their neighbours; the result does not depend on the order but for the order of the DESTROYs |
| Clusters.Cluster.RunScheduledOperations | src/map/map-cluster/cluster.cpp:165-208 | Keepers, centres, lost cells and stall cells in the order of the code |
| Clusters.Cluster.Cleanup | src/map/map-cluster/cluster.cpp:78-129 | The countdown per bucket, the graph and buckets emptied, the buffers swapped and the new current one cleared |
| Clusters.Cluster.Update | src/map/map-cluster/cluster.cpp:35-57 | Every current cell is in exactly one bucket, and two are in the same bucket iff the graph connects them |
| Components.ConnectedComponents | src/map/map-cluster/cluster.cpp:39-40 | The labelling that stands for `boost::connected_components`: equal labels iff a path of edges joins the vertices, and the labels are 0 to k-1 with none unused |
| Maps.Map.constructor | src/map/map.cpp:26-31 | An empty map over an empty cluster |
| Maps.Map.GetOrCreateCell | src/map/map.cpp:270-284 | In place: an existing cell is returned unchanged; a new one is constructed, entered under its offset and touched |
| Maps.Map.CreateSiblings | src/map/map.cpp:286-300 | In place: the six siblings are found or created, in order, and the cell at each of the six offsets is returned |
| Maps.Map.Push | src/map/map.cpp:183-246 | The queue gains the operation at its end and nothing else changes |
| Maps.Map.GetCellsExcluding | src/map/map.cpp:123-152 | In place: without `exclude` creates and returns the six siblings and the cell itself, with an adjacent `exclude` the cells at the three offsets ahead |
| Maps.Map.ExecuteAdd | src/map/map.cpp:62-77 | In place: the entity ends up in the cell at its offset with everyone else where they were, as `Entities.AddPlaces` says on the fields, by the function that `Operations.ExecAddKeepsCore` is about |
| Maps.Map.ExecuteRemove | src/map/map.cpp:79-92 | In place: the entity is out of the cell at its offset with everyone else where they were, as `Entities.RemoveTakes` says on the fields, by the function that `Operations.ExecRemoveKeepsCore` is about |
| Maps.Map.ExecuteDestroy | src/map/map.cpp:94-98 | In place, for any offset and cell, equal to the function that `Operations.ExecDestroyKeepsCore` is about; the table stays the inverse of the pool if the offset is that of the cell |
| Maps.Map.RunScheduledOperations | src/map/map.cpp:52-107 | The loop drains the queue in order, equal to the function that `Operations.ExecAllKeepsCore` is about |
| Maps.Map.OnMoveTo | src/map/map.cpp:154-165 | In place: nothing for the same cell, else REMOVE with the new cell and ADD with the old one, in that order |
| Maps.Map.Update | src/map/map.cpp:40-44 | Drains the queue and groups the cells: two are in one bucket iff the graph connects them. On an idle map only the guard of `touch` can stop it; it leaves a busy map in which every centre shares the bucket of all its live neighbours, and keepers with a common one share theirs |
| Maps.IdleOwnsEntries | src/map/map.cpp:94-98 | On an idle map of a legal run each DESTROY of the queue that names a live cell when it is reached names it under its own offset, and the buckets are empty: what `Maps.Map.Update` asks for |
| Maps.Map.Cleanup | src/map/map.cpp:46-50 | Counts down, regroups and treats the stalled cells, on any map. On a busy map it stops iff a cell in sight of an updater runs out, and leaves an idle map |
| Hex.NearIsDistanceOne | src/map/offset.hpp:66-72 | Two offsets are at distance at most 1 iff they are equal or differ by one of the six directions |
| Hex.DirectionIndexInverts | src/map/offset.hpp:122-140 | `directionIdxs` inverts `directions` and is -1 for everything that is not a direction |
| Hex.SiblingsAreTheRing | src/map/map.cpp:286-300 | The six siblings of a cell are the offsets at distance 1 |
| Hex.AheadIsTheDifference | src/map/map.cpp:133-151 | For adjacent cells, `getCellsExcluding(c, x)` is the closed ball of c without the closed ball of x, without repetition |
| HexRounding.CentresAreALattice | src/map/offset.hpp:74-77 | The centre of cell (0, 0) is the origin; a step in q moves it by (120, 40 sqrt(3)) and a step in r by (0, 80 sqrt(3)) |
| HexRounding.AdjacentCentres | src/map/offset.hpp:66-77 | Two cells are adjacent iff their centres are exactly 80 sqrt(3) apart, and no two centres are nearer |
| HexRounding.OffsetOfIsNearest | src/map/offset.hpp:84-112 | The centre of `offsetOf(p)` is nearest to p among the centres of all cells |
| HexRounding.DiscIsInItsCell | src/map/offset.hpp:84-112 | Every point less than 40 sqrt(3) from the centre of a cell is in that cell |
| HexRounding.PointIsInItsCell | src/map/cell.cpp:31 | A point is at most 80 from the centre of its cell, so inside the disc of that cell's quadtree |
| HexRounding.FarIsRefused | src/map/quadtree.hpp:252-257 | That disc has the radius 90: a point farther from the centre is refused |
| HexRounding.OffsetOfCenter | src/map/offset.hpp:74-112 | `offsetOf` of the centre of a cell is the cell |
| HexRounding.RoundsHalvesAway | src/map/offset.hpp:90-92 | `round` takes halves away from zero, on both sides |
| HexRounding.ShortStepsAreAdjacent | src/map/offset.hpp:84-140 | Points less than 80 apart are in the same or in adjacent cells, so `directionIdxs` never returns -1 for such a step |
| Rings.InRadius | src/map/cell.cpp:70-87 | Looks up exactly the 3R(R+1)+1 offsets at distance at most R, each once, within the reserved capacity |
| Rings.Ring | src/map/cell.cpp:46-68 | Looks up exactly the 6R offsets at distance R, each once, along a closed walk of adjacent steps |
| AreaOfInterest.TellSpawn | src/map/map_aware_entity.cpp:47-68 | Telling SPAWN to the cells ahead makes the told cells the ball of the new cell, and no cell hears SPAWN twice |
| AreaOfInterest.TellDespawn | src/map/map_aware_entity.cpp:70-98 | Telling DESPAWN to the cells behind leaves those of the ball of the new cell, and only cells that were told hear it |
| AreaOfInterest.MapAwareEntity.OnAdded | src/map/map_aware_entity.cpp:47-68 | The broadcasts, and for a client the requests, of one `onAdded` |
| AreaOfInterest.MapAwareEntity.OnRemoved | src/map/map_aware_entity.cpp:70-98 | The broadcasts of one `onRemoved`; requests only for a client that goes on to another cell |
| AreaOfInterest.MapAwareEntity.Spawn | src/map/map_aware_entity.cpp:47-68 | An ADD with no old cell tells the ball of its cell; the requests of a client then alternate and cover that ball iff no cell had been asked before, or all had been dropped again |
| AreaOfInterest.SpawnAlternatesIff | src/map/map_aware_entity.cpp:47-68 | SPAWN to the surroundings of a cell repeats no SPAWN iff none of them had been told and not untold since; so a client added again after a disconnect, which untells nothing in its requests, repeats SPAWN iff its new surroundings meet the old |
| AreaOfInterest.MapAwareEntity.Walk | src/map/map_aware_entity.cpp:47-98 | After any walk of adjacent steps the cells told SPAWN and not DESPAWN since are the ball of the last cell, and each cell's broadcasts alternate; so do the requests of a client that walks for the first time |
| AreaOfInterest.MapAwareEntity.Disconnect | src/map/map_aware_entity.cpp:81-95 | Leaving the map tells DESPAWN to every cell that had been told, and requests nothing |
| CellQueues.BatchesConserve | src/map/cell.cpp:89-108 | Every packet accepted by `broadcast`, at whatever point of the tick, is in exactly one update's batch, in order, or still waits |
| CellQueues.CleanupClearsOnlySent | src/map/cell.cpp:230-235 | What a cleanup clears is the batch of the update before it: no unsent packet is dropped |
| CellQueues.EachClientReceivesTheBatch | src/map/cell.cpp:95-108 | Each client in the cell receives the batch once, in order; nobody else receives anything |
| CellQueues.RepliesAnswerRequests | src/map/cell.cpp:184-208 | How often each reply is sent: once for each time the client made that request, about each other entity of the cell, and never about itself or an entity elsewhere |
| CellQueues.Cell.BroadcastPacket | src/map/cell.cpp:219-228 | In place: appended to the active queue iff the cell has a client |
| CellQueues.Cell.AddRequest | src/map/cell.cpp:210-217 | In place: the request is appended, and waits for the next update |
| CellQueues.Cell.UpdateCell | src/map/cell.cpp:89-125 | In place: flips the queues, sends the old active one to every client, and answers the requests, while packets that arrive meanwhile go to the other queue |
| CellQueues.Cell.CleanupCell | src/map/cell.cpp:152-160 | In place: clears the drained queue and the requests, and leaves the active queue |
| QuadTrees.GetIndexIsQuadrant | src/map/quadtree.hpp:153-178 | `getIndex` by position: 0 iff right of the vertical midline and above the horizontal one, 1 left and above, 2 left and below, 3 right and below, -1 iff the rectangle touches or crosses a midline |
| QuadTrees.TruncateTowardZero | src/map/quadtree.hpp:219-222 | The conversions to int in `split` drop the fraction: toward zero on both sides |
| QuadTrees.SplitCorners | src/map/quadtree.hpp:216-229 | Where the four children lie: child 1 at the truncated corner, child 0 to its right, child 2 below it, child 3 diagonally, each with the truncated half width and height where its own far corner belongs |
| QuadTrees.LeafSplitsIff | src/map/quadtree.hpp:73-111 | A leaf takes an entity without splitting while it holds fewer than MaxEntities, or at MaxDepth; otherwise it gets the four children of `split` |
| QuadTrees.InsertAddsOne | src/map/quadtree.hpp:73-111 | Insertion terminates and adds exactly one occurrence of the entity to what the tree stores |
| QuadTrees.InsertKeepsPlaces | src/map/quadtree.hpp:73-111 | Insertion keeps the placement: below MaxDepth a node is a leaf with at most MaxEntities, or keeps only what fits in none of its quadrants; what is under a child fits in that quadrant |
| QuadTrees.StoredAtDestination | src/map/quadtree.hpp:153-178 | Every entity is stored as often as it was inserted, all in the one list that `getIndex` leads its rectangle to |
| QuadTrees.ChildrenAreApart | src/map/quadtree.hpp:153-178 | Entities under different children of a node have disjoint rectangles |
| QuadTrees.RebuildStoresExactly | src/map/cell.cpp:113-114 | Clearing a tree and inserting a list, as a cell does every tick, stores exactly that list, each entity in its place |
| QuadTrees.ClearIsEmpty | src/map/quadtree.hpp:231-243 | Clearing empties every list and keeps the nodes and their depths |
| QuadTreeNodes.QuadTree.Split | src/map/quadtree.hpp:216-229 | In the heap: four fresh leaves with the bounds the code gives them |
| QuadTreeNodes.QuadTree.Insert | src/map/quadtree.hpp:73-111 | In the heap, with the list edited while it is iterated: the tree formed by the nodes becomes the one that `QuadTrees.InsertAddsOne` and `QuadTrees.InsertKeepsPlaces` are about |
| QuadTreeNodes.QuadTree.Clear | src/map/quadtree.hpp:231-243 | In the heap: the same nodes, all lists empty |
| SatCollisions.SeparatedMeansApart | src/physics/sat_collisions.cpp:89-104 | If the projections on one axis, any axis, do not overlap, the convex hulls of the two vertex lists have no common point |
| SatCollisions.SatIsExact | src/physics/sat_collisions.cpp:48-56 | For two parallelograms with some area, rectangles among them, the projections overlap on all four normals iff the closed shapes share a point |
| SatCollisions.FourSlabs | src/physics/sat_collisions.cpp:89-104 | Four slabs of the plane, of which each three have a common point, have one in common: the step from overlaps to a common point |
| SatCollisions.Project | src/physics/collisions_framework.cpp:14-32 | The loop returns the least and the greatest value of the vertices along the axis |
| SatCollisions.CollidesOn | src/physics/sat_collisions.cpp:89-104 | True iff the projections overlap on every axis; false only if the shapes have no common point |
| SatCollisions.Collides | src/physics/sat_collisions.cpp:48-56 | With the lazily recomputed normals: never false for shapes that touch, and true iff they touch once both boxes have been rotated |
| BoundingBoxes.RectBoundingBox.Rotate | src/physics/rect_bounding_box.cpp:36-45 | Turns every vertex in place around the origin by the angle with the given cosine and sine, counterclockwise, at its distance, and marks the caches stale |
| BoundingBoxes.RectBoundingBox.Normals | src/physics/rect_bounding_box.cpp:47-78 | Recomputes the two normals and the bounds iff they are stale: the bounds cover all vertices and each side is attained |
| BoundingBoxes.RectBoundingBox.AsRect | src/physics/rect_bounding_box.cpp:80-86 | Returns the cached bounds moved by the position, recomputed first if they are stale; of a box that was rotated at least once, the smallest axis-parallel rectangle around it |
| BoundingBoxes.TurnedByAngle | src/physics/rect_bounding_box.cpp:42 | The angle from a vector to the turned one has the given cosine and sine, and the length stays: (1, 0) goes to (c, s) and (0, 1) to (-s, c) |
| BoundingBoxes.NormalIsQuarterTurn | src/physics/rect_bounding_box.cpp:58-59 | The normal of an edge is the edge turned by a quarter, counterclockwise |
| BoundingBoxes.TurnedRectangle | src/physics/rect_bounding_box.cpp:36-45 | A rotation keeps a rectangle a rectangle |
| BoundingBoxes.TurnedDistances | src/physics/rect_bounding_box.cpp:36-45 | A rotation keeps every distance between vertices |
| BoundingBoxes.RectangleIsParallelogram | src/physics/rect_bounding_box.cpp:56-60 | A rectangle with two proper sides meets the condition of `SatCollisions.SatIsExact` |
| Segments.IntersectsIff | src/physics/methods.cpp:7-15 | The test is true iff the segments are not parallel and cross, each segment counted closed at one end and open at the other, by the sign of the slope |
| Segments.CommonPoint | src/physics/methods.cpp:7-15 | When the test is true, the two parameters of a common point |
| Segments.ProperCrossingIsFound | src/physics/methods.cpp:7-15 | Every crossing inside both segments makes the test true |
| Segments.IntersectsIsSymmetric | src/physics/methods.cpp:12-15 | Swapping the two segments does not change the result |
| Segments.TouchingEndsDependOnTheSide | src/physics/methods.cpp:7-15 | Two concrete inputs: a segment that ends on another is found from one side and missed from the other |
| ArcLength.CalcIsDeCasteljau | src/movement/movement_generator.hpp:67-81 | The cubic is the curve of de Casteljau's construction: its control points cut at t, thrice |
| ArcLength.CalcEnds | src/movement/movement_generator.hpp:67-81 | It starts at a and ends at d |
| ArcLength.SampleIsShare | src/movement/movement_generator.hpp:102-105 | The samples go from 0 to 1 in len equal steps |
| ArcLength.SegmentedBezier.constructor | src/movement/movement_generator.hpp:95-109 | The loop fills a table that starts at 0, never decreases, and grows in step i by the distance between the points of the curve at (i - 1) / len and i / len |
| ArcLength.SegmentedBezier.Search | src/movement/movement_generator.hpp:124-140 | The last probe of the binary search is the first entry that reaches the target, or the one before it |
| ArcLength.SegmentedBezier.Map | src/movement/movement_generator.hpp:122-156 | For every t in [0, 1]: in bounds, no division by zero, and the result is the first m in [0, 1] at which the interpolated length of the table is t times the total |
| ArcLength.ReachedIsInverse | src/movement/movement_generator.hpp:142-155 | The interpolated length at the point found is the target: a right inverse of the arc length |
| ArcLength.ReachedIsLeast | src/movement/movement_generator.hpp:122-155 | Everywhere before the point found the interpolated length is shorter |
| ArcLength.MapIsMonotone | src/movement/movement_generator.hpp:122-156 | Any two results that meet the contract of `Map` are in the order of their arguments |
| PacketFormat.ByteOfNumber | src/io/packet.hpp:79-85 | Byte i of a stored number is its digit i to the base 256: little endian |
| PacketFormat.TextLayout | src/io/packet.hpp:109-120 | A string is its length modulo 65536 in two bytes, the low one first, and that many of its characters |
| PacketFormat.VectorLayout | src/io/packet.hpp:92-107 | Two or three floats are the bits of each in four bytes, in the order x, y, z |
| PacketFormat.RoundTrip | src/io/packet.hpp:79-120 | A value read where it was written comes back, but for a string cut to its stored length, with the cursor after it |
| PacketFormat.RoundTripAll | src/io/packet.hpp:152-170 | So does any list of values, in order, with the cursor after the last |
| PacketFormat.RoundTripIff | src/io/packet.hpp:109-120 | A list comes back identical iff each of its strings has fewer than 65536 characters |
| PacketFormat.FloatsCursor | src/io/packet.cpp:33-52 | A read of floats moves the cursor over every whole float that is there, up to as many as it asks for, and throws iff there are fewer |
| PacketFormat.TextCursor | src/io/packet.cpp:54-60 | A read of a string throws iff the length or the characters it announces are not all there, with the cursor in front of or behind the length |
| PacketFormat.TruncatedIsRefused | src/io/packet.hpp:141-150 | Every proper prefix of what a list of reads needs makes one of the reads throw |
| PacketFormat.FrameRoundTrip | src/io/packet.hpp:52-62 | A receiver of a frame reads the opcode, the payload length and every value |
| PacketFormat.ToFromBytes | src/io/packet.hpp:79-85 | Little-endian bytes and numbers of the same width are in bijection (with `FromToBytes`) |
| PacketFormat.FromToBytes | src/io/packet.hpp:141-150 | A number that fits its width is read back from its bytes |
| PacketFormat.EncodeAllJoins | src/io/packet.hpp:79-120 | Writing one list after another is writing their concatenation |
| Packets.Packet.WithOpcode | src/io/packet.hpp:52-62 | A created packet holds the opcode in its first two bytes, the low one first, and a zero length in the next two |
| Packets.Packet.Copy | src/io/packet.hpp:64-77 | A copy reads the same bytes, from the start |
| Packets.Packet.Reset | src/io/packet.hpp:172 | All three cursors return to zero, and the buffer stays |
| Packets.Packet.Write | src/io/packet.hpp:79-120 | In the buffer: the encoding is stored at the write cursor, which moves past it; nothing else changes |
| Packets.Packet.WriteAll | src/io/packet.hpp:79-120 | A chain of writes stores the encoding of the list |
| Packets.Packet.Embed | src/io/packet.hpp:122-134 | The loop appends the bytes of the other packet from its fourth byte to the furthest of its cursors, byte for byte, and leaves the rest of the buffer |
| Packets.Packet.SendBuffer | src/io/packet.hpp:180-184 | Stores the payload length at bytes 2 and 3, wrapped to 16 bits for a packet without a header, and returns what is before the write cursor |
| Packets.Packet.PeekAt | src/io/packet.hpp:141-150 | Throws iff the value ends after the furthest of size and write |
| Packets.Packet.ReadText | src/io/packet.cpp:54-60 | A string, or an exception that leaves the cursor behind what was read |
| Packets.Packet.ReadFloats | src/io/packet.cpp:33-52 | One, two or three floats by their bits, or an exception that leaves the cursor behind what was read |
| Packets.Packet.Read | src/io/packet.cpp:33-60 | A typed read of the buffer equals the decoding that `PacketFormat.RoundTrip` is about |
| Packets.SentIsFrame | src/io/packet.hpp:52-62 | Create, write a list and send: what goes out is the frame, with the exact payload length |
| Packets.WrittenIsReadBack | src/io/packet.hpp:152-158 | Values written at the cursor of a packet are read back from there, whatever was before or follows |
| Packets.FramePayload | src/io/packet.hpp:122-134 | The payload of a frame is the encoding of its values, so embedding a packet is writing its values |

Where the documentation in the code and the code differ, the model follows the code: the comment at
`src/map/map-cluster/cluster.cpp:141-144` says that a cell on cooldown can be freed at once, but the cell is only
queued for destruction and stays in the map until the next `Map::update`.

## Left out

- Maps.Map.Update: needs empty buckets, as every cleanup leaves them, and the condition of `Maps.Map.RunScheduledOperations`; clusters update one after another, not on a thread pool.
- Maps.Map.RunScheduledOperations: a DESTROY that, when it is reached, names a live cell under another offset than the cell's own is excluded; `destroyCell` pushes none (`src/map/map.cpp:238-246`), and in legal runs none is reached (`Maps.IdleOwnsEntries`). An entity that is not an updater may be left behind in a destroyed cell (the TODO at `src/map/map.cpp:97`): its cell no longer holds it (`Entities.HeldAsRequested`), its own pointer stays (`Entities.DestroyTakes`), and what it does with that pointer is not modelled.
- Maps.Map.ExecuteDestroy: for an offset that is not the cell's own the new state is given, but not that the table is still the inverse of the pool.
- Clusters.Cluster.Update: updating and moving the entities of the cells is a `Move` event of a run, and what the cells send is `CellQueues`.
- Clusters.Cluster.ProcessStallCells: the counters `_numStall` and `_numStallCandidates` are for display.
- Guarantees.GraphAfterUpdate: the two cells of a fringe (`Guarantees.Fringe`: both seen by updaters, both empty of them) are not joined by an edge, even when they are adjacent, and may be in different buckets.
- LOG_ASSERT stops a debug build and is nothing in a release build (`src/debug/debug.hpp:133-145`); the model stops, and does not follow a release build past the guard.
- Integer widths in the map: offsets of 32 bits, 16-bit counters of clusters and clients.
- HexRounding.OffsetOfIsNearest: over the reals; the rounding of floats is not modelled.
- AreaOfInterest.MapAwareEntity.Walk: nothing is claimed of the requests of a client that walks again after a disconnect; `AreaOfInterest.SpawnAlternatesIff` says when they repeat a SPAWN.
- AreaOfInterest.MapAwareEntity.OnAdded: the packets themselves, and what a cell does with them, are separate (`CellQueues`).
- CellQueues.BatchesConserve: for a cell that stays live; packets waiting in a destroyed cell go with it.
- CellQueues.Cell.UpdateCell: filling the quadtrees of the cell and its neighbours, and the movement of the entities.
- QuadTrees.InsertAddsOne: an entity's rectangle does not change between the insertion and the next clear; one that moves in between may be stored off its path.
- QuadTree::retrieve and QuadTree::trace: `split` hands width and height to children that read them as x1 and y1, and `retrieve` tests one edge twice, so no completeness holds.
- BoundingBoxes.RectBoundingBox.AsRect: before its first rotation a box has bounds that were never computed; the result is those, and nothing is claimed of them.
- SatCollisions.Collides: before its first rotation a box has normals that were never computed; then only the negative answer is claimed. Over the reals.
- Circles: the axis is not normalised where it is projected on, and the closest-vertex step ignores positions.
- RectBoundingBox::intersects with a distance.
- ArcLength.SegmentedBezier.constructor: of `glm::distance` only that it is not negative.
- Packets.Packet.Write: the caller keeps within the 1024 bytes; the program does not check, and what it does beyond them is not modelled.
- Packets.Packet.Embed: for a packet embedded in itself with received bytes past its write cursor only the cursors are stated.
- Executor: its comparator puts the latest task on top, so earliest-first order is not what the code does.
- Sockets, timers, the database queue, CPU and memory probes, logging, the terminal interface, random movement and trigonometry.
- `src/map-slow-radius`, which is not in the build.
