/** The state shared by Map and Cluster, and what each of their operations does to it.
    A pointer to a cell is a CellId; it is live while it is a key of `pool`, the object pool the cells
    are allocated from. Reading through a freed pointer, erasing an absent element, indexing the
    directions with -1 and failing the guard of Cluster::touch all end the run with a Fault. */
module World {
  import opened Hex

  type CellId = nat
  type EntityId = nat

  function SetOf<T>(s: seq<T>): set<T> {
    set x | x in s
  }

  ghost predicate Distinct<T>(s: seq<T>) {
    forall i, j :: 0 <= i < j < |s| ==> s[i] != s[j]
  }

  datatype Option<+T> = None | Some(value: T) {
    function GetOr(default: T): T {
      if Some? then value else default
    }
  }

  datatype Fault =
    | TouchedCooldown  // the LOG_ASSERT of Cluster::touch
    | Dangling         // a cell read or destroyed after it was freed, or a null one
    | EraseMissing     // erase(std::find(...)) of an absent element
    | NoDirection      // directions[-1]

  datatype Outcome<+T> = Running(value: T) | Stopped(fault: Fault) {
    predicate IsFailure() { Stopped? }
    function PropagateFailure<U>(): Outcome<U>
      requires Stopped?
    {
      Stopped(fault)
    }
    function Extract(): T
      requires Running?
    {
      value
    }
  }

  /** Two minutes, the countdown given to a cell that nobody watches any more. */
  const STALL_TIME: nat := 120000

  datatype Cell = Cell(at: Coord, registered: bool, cooldown: bool, remaining: nat,
                       entities: set<EntityId>, clientsCount: int)

  datatype MapOp =
    | Add(at: Coord, who: EntityId, from: Option<CellId>)
    | Remove(at: Coord, who: EntityId, to: Option<CellId>)
    | Destroy(at: Coord, cell: CellId)

  datatype KeepOp = Keep(who: EntityId) | Unkeep(who: EntityId)

  datatype World = World(
    alloc: (nat, set<CellId>) -> CellId,  // the allocator, from the allocation count and the live ids
    births: nat,
    updaters: set<EntityId>,              // entities with isUpdater()
    clients: set<EntityId>,               // entities with client()
    pool: map<CellId, Cell>,              // _cellAllocator
    cells: map<Coord, CellId>,            // Map::_cells
    place: map<EntityId, CellId>,         // MapAwareEntity::_cell where it is not null
    ops: seq<MapOp>,                      // Map::_scheduledOperations
    keepOps: seq<KeepOp>,                 // Cluster::_scheduledOperations
    keepers: seq<EntityId>,
    current: set<CellId>,                 // *_currentCells, the keys of _vertices
    previous: set<CellId>,                // *_oldCells
    stall: set<CellId>,                   // _stallCells
    bucketed: set<CellId>,                // the cells of _cellsByCluster
    links: set<(CellId, CellId)>)         // the edges of _graph

  function EmptyWorld(alloc: (nat, set<CellId>) -> CellId, updaters: set<EntityId>, clients: set<EntityId>): World {
    World(alloc, 0, updaters, clients, map[], map[], map[], [], [], [], {}, {}, {}, {}, {})
  }

  // ---------- Cluster: touching cells ----------

  ghost function Ball(w: World, c: CellId): set<CellId>
    requires c in w.pool
  {
    set n | n in w.pool && Near(w.pool[n].at, w.pool[c].at)
  }

  ghost function Spokes(w: World, c: CellId): set<(CellId, CellId)>
    requires c in w.pool
  {
    set n | n in Ball(w, c) && n != c :: (c, n)
  }

  /** The effect of non-stall touches on the cells of `s` and of the edges `l` they connect. */
  ghost function Watch(w: World, s: set<CellId>, l: set<(CellId, CellId)>): World {
    w.(current := w.current + s,
       links := w.links + l,
       stall := w.stall - (set n | n in s && n in w.pool && w.pool[n].registered),
       pool := map n | n in w.pool :: if n in s then w.pool[n].(registered := false) else w.pool[n])
  }

  /** touchWithNeighbours(cell, false) */
  ghost function TouchWatched(w: World, c: CellId): Outcome<World> {
    if c !in w.pool then Stopped(Dangling)
    else if exists n :: n in Ball(w, c) && w.pool[n].cooldown then Stopped(TouchedCooldown)
    else if exists n :: n in Ball(w, c) && w.pool[n].registered && n !in w.stall then Stopped(EraseMissing)
    else Running(Watch(w, Ball(w, c), Spokes(w, c)))
  }

  /** checkStall(from, to) */
  ghost function CheckStall(w: World, from: Option<CellId>, to: CellId): Outcome<World>
    requires to in w.pool
  {
    if from.None? || !w.pool[to].registered || w.pool[to].cooldown then Running(w)
    else if from.value !in w.pool then Stopped(Dangling)
    else if w.pool[from.value].registered || w.pool[from.value].cooldown then Running(w)
    else if to !in w.stall then Stopped(EraseMissing)
    else Running(w.(stall := w.stall - {to}, pool := w.pool[to := w.pool[to].(registered := false)]))
  }

  // ---------- Map: creating cells ----------

  ghost function GetOrCreate(w: World, o: Coord): (r: Outcome<World>)
    ensures r.Running? ==> o in r.value.cells
  {
    if o in w.cells then Running(w)
    else
      var id := w.alloc(w.births, w.pool.Keys);
      TouchWatched(w.(births := w.births + 1,
                      pool := w.pool[id := Cell(o, false, false, 0, {}, 0)],
                      cells := w.cells[o := id]), id)
  }

  ghost function EnsureCells(w: World, os: seq<Coord>): Outcome<World>
    decreases |os|
  {
    if os == [] then Running(w)
    else
      var w1 :- GetOrCreate(w, os[0]);
      EnsureCells(w1, os[1..])
  }

  /** The cells that getCellsExcluding(cell, exclude) creates. */
  ghost function EnsureExcluding(w: World, c: CellId, exclude: Option<CellId>): Outcome<World> {
    if c !in w.pool then Stopped(Dangling)
    else if exclude.None? then EnsureCells(w, Siblings(w.pool[c].at))
    else if exclude.value !in w.pool then Stopped(Dangling)
    else if DirectionIndex(Minus(w.pool[c].at, w.pool[exclude.value].at)) == -1 then Stopped(NoDirection)
    else EnsureCells(w, Ahead(w.pool[c].at, w.pool[exclude.value].at))
  }

  // ---------- Map: one scheduled operation ----------

  function Bit(b: bool): int { if b then 1 else 0 }

  /** entity->cell(cell); cell->addEntity(entity) */
  ghost function Enter(w: World, e: EntityId, c: CellId): World
    requires c in w.pool
  {
    w.(place := w.place[e := c],
       pool := w.pool[c := w.pool[c].(entities := w.pool[c].entities + {e},
                                      clientsCount := w.pool[c].clientsCount + Bit(e in w.clients))])
  }

  /** cell->removeEntity(entity), and the _cell = nullptr of onRemoved */
  ghost function Leave(w: World, e: EntityId, c: CellId): World
    requires c in w.pool
  {
    w.(place := w.place - {e},
       pool := w.pool[c := w.pool[c].(entities := w.pool[c].entities - {e},
                                      clientsCount := w.pool[c].clientsCount - Bit(e in w.clients))])
  }

  ghost function QueueKeep(w: World, op: KeepOp): World {
    if op.who in w.updaters then w.(keepOps := w.keepOps + [op]) else w
  }

  /** The cells that onAdded reaches, then checkStall. */
  ghost function Arrive(w: World, c: CellId, from: Option<CellId>): Outcome<World> {
    var w1 :- EnsureExcluding(w, c, from);
    if c !in w1.pool then Stopped(Dangling) else CheckStall(w1, from, c)
  }

  /** createSiblings(cell), for an updater */
  ghost function EnsureSiblings(w: World, c: CellId, e: EntityId): Outcome<World>
    requires c in w.pool
  {
    if e in w.updaters then EnsureCells(w, Siblings(w.pool[c].at)) else Running(w)
  }

  /** What an ADD does once the entity is in its cell. */
  ghost function Settle(w: World, c: CellId, e: EntityId, from: Option<CellId>): Outcome<World> {
    if c !in w.pool then Stopped(Dangling)
    else
      var w1 :- EnsureSiblings(w, c, e);
      Arrive(w1, c, from)
  }

  ghost function ExecAdd(w: World, o: Coord, e: EntityId, from: Option<CellId>): Outcome<World> {
    var w1 :- GetOrCreate(w, o);
    var c := w1.cells[o];
    if c !in w1.pool then Stopped(Dangling) else Settle(QueueKeep(Enter(w1, e, c), Keep(e)), c, e, from)
  }

  ghost function ExecRemove(w: World, o: Coord, e: EntityId, to: Option<CellId>): Outcome<World> {
    if o !in w.cells then Running(w)
    else
      var c := w.cells[o];
      if c !in w.pool then Stopped(Dangling)
      else EnsureExcluding(QueueKeep(Leave(w, e, c), Unkeep(e)), c, to)
  }

  ghost function ExecDestroy(w: World, o: Coord, c: CellId): Outcome<World> {
    if c !in w.pool then Stopped(Dangling)
    else Running(w.(cells := w.cells - {o}, pool := w.pool - {c}))
  }

  ghost function Exec(w: World, op: MapOp): Outcome<World> {
    match op
    case Add(o, e, from) => ExecAdd(w, o, e, from)
    case Remove(o, e, to) => ExecRemove(w, o, e, to)
    case Destroy(o, c) => ExecDestroy(w, o, c)
  }

  ghost function ExecAll(w: World, ops: seq<MapOp>): Outcome<World>
    decreases |ops|
  {
    if ops == [] then Running(w)
    else
      var w1 :- Exec(w, ops[0]);
      ExecAll(w1, ops[1..])
  }

  // ---------- The two halves of a tick, and what happens between them ----------

  /** Map::update: drain the operations, then group the vertices of the graph into buckets. */
  ghost function MapUpdate(w: World): Outcome<World> {
    var w1 :- ExecAll(w.(ops := []), w.ops);
    Running(w1.(bucketed := w1.current))
  }

  /** Map::onMove, once the entity's position falls on the cell at `o`. */
  ghost function OnMove(w: World, e: EntityId, o: Coord): Outcome<World> {
    var w1 :- GetOrCreate(w, o);
    var c := w1.cells[o];
    if e in w1.place && w1.place[e] == c then Running(w1)
    else if e !in w1.place || w1.place[e] !in w1.pool || c !in w1.pool then Stopped(Dangling)
    else
      var a := w1.place[e];
      Running(w1.(ops := w1.ops + [Remove(w1.pool[a].at, e, Some(c)), Add(w1.pool[c].at, e, Some(a))]))
  }

  function CountDown(c: Cell, elapsed: nat): Cell {
    if !c.registered then c
    else if elapsed < c.remaining then c.(remaining := c.remaining - elapsed)
    else c.(cooldown := true, registered := false)
  }

  /** Cluster::cleanup */
  ghost function ClusterCleanup(w: World, elapsed: nat): Outcome<World> {
    if w.current != {} && !(w.bucketed <= w.pool.Keys) then Stopped(Dangling)
    else
      var w1 :=
        if w.current == {} then w
        else w.(pool := map c | c in w.pool :: if c in w.bucketed then CountDown(w.pool[c], elapsed) else w.pool[c],
                bucketed := {},
                links := {});
      Running(w1.(previous := w1.current, current := {}))
  }

  /** The keepers after one KEEP or UNKEEP: push_back, or erase of the first occurrence. */
  function KeepStep(ks: seq<EntityId>, op: KeepOp): Outcome<seq<EntityId>> {
    match op
    case Keep(e) => Running(ks + [e])
    case Unkeep(e) => if e in ks then Running(Without(ks, e)) else Stopped(EraseMissing)
  }

  function Without(ks: seq<EntityId>, e: EntityId): seq<EntityId> {
    if ks == [] then [] else if ks[0] == e then ks[1..] else [ks[0]] + Without(ks[1..], e)
  }

  function KeepAll(ks: seq<EntityId>, ops: seq<KeepOp>): Outcome<seq<EntityId>>
    decreases |ops|
  {
    if ops == [] then Running(ks)
    else
      var ks1 :- KeepStep(ks, ops[0]);
      KeepAll(ks1, ops[1..])
  }

  /** touchWithNeighbours(entity->cell()) for every keeper */
  ghost function TouchKeepers(w: World, ks: seq<EntityId>): Outcome<World>
    decreases |ks|
  {
    if ks == [] then Running(w)
    else if ks[0] !in w.place then Stopped(Dangling)
    else
      var w1 :- TouchWatched(w, w.place[ks[0]]);
      TouchKeepers(w1, ks[1..])
  }

  /** The cells of _oldCells that are not in _currentCells start, or continue, their countdown. */
  ghost function Enlist(w: World): Outcome<World> {
    var lost := w.previous - w.current - w.stall;
    if !(lost <= w.pool.Keys) then Stopped(Dangling)
    else
      Running(w.(stall := w.stall + lost,
                 pool := map c | c in w.pool ::
                   if c in lost then w.pool[c].(registered := true, cooldown := false, remaining := STALL_TIME)
                   else w.pool[c]))
  }

  ghost function Expired(w: World): set<CellId> {
    set c | c in w.stall && c in w.pool && w.pool[c].cooldown
  }

  /** What touchWithNeighbours(c, true) inserts for every stall cell that is not on cooldown. */
  ghost function StallReach(w: World): set<CellId> {
    set c, n | c in w.stall && c in w.pool && !w.pool[c].cooldown && n in Ball(w, c) && !w.pool[n].cooldown :: n
  }

  ghost function StallSpokes(w: World): set<(CellId, CellId)> {
    set c, n | c in w.stall && c in w.pool && !w.pool[c].cooldown && n in Ball(w, c) && n != c && !w.pool[n].cooldown
    :: (c, n)
  }

  ghost predicate Enumerates(order: seq<CellId>, s: set<CellId>) {
    (forall c :: c in order <==> c in s) && Distinct(order)
  }

  ghost function Destroys(w: World, order: seq<CellId>): seq<MapOp>
    requires forall c :: c in order ==> c in w.pool
  {
    seq(|order|, i requires 0 <= i < |order| => Destroy(w.pool[order[i]].at, order[i]))
  }

  /** processStallCells; `order` is the order in which the set was iterated. */
  ghost function ProcessStall(w: World, order: seq<CellId>): Outcome<World>
    requires Enumerates(order, Expired(w))
  {
    if !(w.stall <= w.pool.Keys) then Stopped(Dangling)
    else
      Running(w.(current := w.current + StallReach(w),
                 links := w.links + StallSpokes(w),
                 ops := w.ops + Destroys(w, order),
                 stall := w.stall - Expired(w)))
  }

  /** Cluster::runScheduledOperations up to the point where the stall cells are processed. */
  ghost function Regroup(w: World): Outcome<World> {
    var ks :- KeepAll(w.keepers, w.keepOps);
    var w1 :- TouchKeepers(w.(keepers := ks, keepOps := []), ks);
    Enlist(w1)
  }

  /** Map::cleanup before processStallCells */
  ghost function CleanupAndRegroup(w: World, elapsed: nat): Outcome<World> {
    var w1 :- ClusterCleanup(w, elapsed);
    Regroup(w1)
  }

  /** Map::cleanup */
  ghost function MapCleanup(w: World, elapsed: nat, order: seq<CellId>): Outcome<World>
    requires var r := CleanupAndRegroup(w, elapsed); r.Running? ==> Enumerates(order, Expired(r.value))
  {
    var w1 :- CleanupAndRegroup(w, elapsed);
    ProcessStall(w1, order)
  }
}
