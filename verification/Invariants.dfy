/** What every run keeps true of the map and the cluster, and that creating cells keeps it. */
module Invariants {
  import opened Hex
  import opened World

  // ---------- Cells ----------

  /** The allocator never hands out a live cell. It may hand out a freed one again. */
  ghost predicate NeverLive(alloc: (nat, set<CellId>) -> CellId) {
    forall k: nat, s: set<CellId> :: alloc(k, s) !in s
  }

  ghost predicate Allocates(w: World) {
    NeverLive(w.alloc)
  }

  /** Map::_cells and the live cells are each other's inverse. */
  ghost predicate IsTable(cells: map<Coord, CellId>, pool: map<CellId, Cell>) {
    && (forall o :: o in cells ==> cells[o] in pool && pool[cells[o]].at == o)
    && (forall c :: c in pool ==> pool[c].at in cells && cells[pool[c].at] == c)
  }

  ghost predicate TableOk(w: World) {
    IsTable(w.cells, w.pool)
  }

  /** `rest` still has to destroy `c`. */
  ghost predicate Doomed(rest: seq<MapOp>, c: CellId) {
    exists i :: 0 <= i < |rest| && rest[i].Destroy? && rest[i].cell == c
  }

  /** The flags agree with the sets: on cooldown iff doomed, registered iff in _stallCells, never both;
      _currentCells is exactly the cells that are not doomed. */
  ghost predicate FlagsOk(w: World, rest: seq<MapOp>) {
    && (forall c :: c in w.pool ==> (w.pool[c].cooldown <==> Doomed(rest, c)))
    && (forall c :: c in w.pool ==> (w.pool[c].registered <==> c in w.stall))
    && (forall c :: c in w.pool && w.pool[c].registered ==>
          !w.pool[c].cooldown && 0 < w.pool[c].remaining <= STALL_TIME)
    && (forall c :: c in w.current <==> c in w.pool && !w.pool[c].cooldown)
    && w.stall <= w.pool.Keys
  }

  /** Every edge of the graph joins two vertices, and they are neighbours on the grid. */
  ghost predicate LinksOk(w: World) {
    forall a, b :: (a, b) in w.links ==>
      a in w.current && b in w.current && a != b && a in w.pool && b in w.pool && Near(w.pool[a].at, w.pool[b].at)
  }

  // ---------- Entities ----------

  /** An updater that is in the map is in the entities of exactly the cell it points to, and that cell is live. */
  ghost predicate UpdatersOk(w: World) {
    && (forall e :: e in w.updaters && e in w.place ==>
          w.place[e] in w.pool && e in w.pool[w.place[e]].entities)
    && (forall c, e :: c in w.pool && e in w.pool[c].entities && e in w.updaters ==> e in w.place && w.place[e] == c)
  }

  ghost predicate CountsOk(w: World) {
    && w.clients <= w.updaters
    && (forall c :: c in w.pool ==> w.pool[c].clientsCount == |w.pool[c].entities * w.clients|)
  }

  ghost predicate KeepersAre(w: World, ks: seq<EntityId>) {
    Distinct(ks) && forall e :: e in ks <==> e in w.updaters && e in w.place
  }

  /** Once its own queue is drained, _keepers lists every updater of the map once. */
  ghost predicate KeepersOk(w: World) {
    var ks := KeepAll(w.keepers, w.keepOps);
    ks.Running? && KeepersAre(w, ks.value)
  }

  // ---------- The queue ----------

  function Pointee(op: MapOp): Option<CellId> {
    match op
    case Add(_, _, from) => from
    case Remove(_, _, to) => to
    case Destroy(_, c) => Some(c)
  }

  ghost predicate OpOk(w: World, op: MapOp) {
    match Pointee(op)
    case None => true
    case Some(c) =>
      && c in w.pool
      && (if op.Destroy? then w.pool[c].at == op.at else Near(op.at, w.pool[c].at) && op.at != w.pool[c].at)
  }

  /** Every cell an operation points to is live, and no earlier operation destroys it. */
  ghost predicate ParamsOk(w: World, rest: seq<MapOp>) {
    && (forall i :: 0 <= i < |rest| ==> OpOk(w, rest[i]))
    && (forall i, j :: 0 <= i < j < |rest| && rest[i].Destroy? ==> Pointee(rest[j]) != Some(rest[i].cell))
  }

  /** Where an operation leaves entity `e`. */
  function After(op: MapOp, e: EntityId, at: Option<Coord>): Option<Coord> {
    match op
    case Add(o, who, _) => if who == e then Some(o) else at
    case Remove(_, who, _) => if who == e then None else at
    case Destroy(_, _) => at
  }

  function Where(rest: seq<MapOp>, e: EntityId, at: Option<Coord>): Option<Coord> {
    if rest == [] then at else Where(rest[1..], e, After(rest[0], e, at))
  }

  /** ADD finds the entity outside the map, REMOVE finds it where it says. */
  predicate Fits(op: MapOp, e: EntityId, at: Option<Coord>) {
    match op
    case Add(_, who, _) => who == e ==> at == None
    case Remove(o, who, _) => who == e ==> at == Some(o)
    case Destroy(_, _) => true
  }

  predicate Alternates(rest: seq<MapOp>, e: EntityId, at: Option<Coord>) {
    rest == [] || (Fits(rest[0], e, at) && Alternates(rest[1..], e, After(rest[0], e, at)))
  }

  ghost function Standing(w: World, e: EntityId): Option<Coord> {
    if e in w.place && w.place[e] in w.pool then Some(w.pool[w.place[e]].at) else None
  }

  ghost predicate QueueAlternates(w: World, rest: seq<MapOp>) {
    forall e :: e in w.updaters ==> Alternates(rest, e, Standing(w, e))
  }

  /** When the DESTROY of a cell is reached, the operations before it have not left the entity there. */
  predicate Leaves(rest: seq<MapOp>, e: EntityId, at: Option<Coord>) {
    rest == []
    || ((rest[0].Destroy? ==> at != Some(rest[0].at)) && Leaves(rest[1..], e, After(rest[0], e, at)))
  }

  /** No updater stands on a cell when its DESTROY is reached. */
  ghost predicate Vacated(w: World, rest: seq<MapOp>) {
    forall e :: e in w.updaters ==> Leaves(rest, e, Standing(w, e))
  }

  // ---------- Put together ----------

  ghost predicate CellsOk(w: World, rest: seq<MapOp>) {
    Allocates(w) && TableOk(w) && FlagsOk(w, rest) && LinksOk(w)
  }

  ghost predicate PeopleOk(w: World) {
    UpdatersOk(w) && CountsOk(w) && KeepersOk(w)
  }

  ghost predicate Core(w: World, rest: seq<MapOp>) {
    CellsOk(w, rest) && PeopleOk(w) && ParamsOk(w, rest) && QueueAlternates(w, rest)
  }

  // ---------- Creating cells ----------

  /** `v` is `u` with more cells, none of which is occupied, and fewer cells registered. */
  ghost predicate Grown(u: World, v: World) {
    && (forall c :: c in u.pool ==> c in v.pool)
    && (forall c :: c in u.pool ==> v.pool[c] == u.pool[c] || v.pool[c] == u.pool[c].(registered := false))
    && (forall c :: c in v.pool && c !in u.pool ==>
          !v.pool[c].registered && !v.pool[c].cooldown && v.pool[c].entities == {} && v.pool[c].clientsCount == 0)
    && (forall o :: o in u.cells ==> o in v.cells && v.cells[o] == u.cells[o])
    && u.links <= v.links
    && v == u.(births := v.births, pool := v.pool, cells := v.cells, current := v.current, stall := v.stall,
               links := v.links)
  }

  lemma GrownTransitive(u: World, v: World, x: World)
    requires Grown(u, v) && Grown(v, x)
    ensures Grown(u, x)
  {
  }

  lemma GrownKeepsUpdaters(u: World, v: World)
    requires Grown(u, v) && UpdatersOk(u)
    ensures UpdatersOk(v)
  {
  }

  lemma GrownKeepsCounts(u: World, v: World)
    requires Grown(u, v) && CountsOk(u)
    ensures CountsOk(v)
  {
    forall c | c in v.pool
      ensures v.pool[c].clientsCount == |v.pool[c].entities * v.clients|
    {
      if c !in u.pool {
        assert v.pool[c].entities * v.clients == {};
      }
    }
  }

  lemma GrownKeepsPeople(u: World, v: World)
    requires Grown(u, v) && PeopleOk(u)
    ensures PeopleOk(v)
  {
    GrownKeepsUpdaters(u, v);
    GrownKeepsCounts(u, v);
  }

  lemma GrownKeepsQueue(u: World, v: World, rest: seq<MapOp>)
    requires Grown(u, v) && UpdatersOk(u) && ParamsOk(u, rest) && QueueAlternates(u, rest)
    ensures ParamsOk(v, rest) && QueueAlternates(v, rest)
  {
    forall i | 0 <= i < |rest|
      ensures OpOk(v, rest[i])
    {
      assert OpOk(u, rest[i]);
    }
    forall e | e in v.updaters
      ensures Alternates(rest, e, Standing(v, e))
    {
      assert Standing(v, e) == Standing(u, e);
    }
  }

  /** The world between the construction of a cell and the touch of onCellCreated. */
  ghost function Created(w: World, o: Coord): World {
    var id := w.alloc(w.births, w.pool.Keys);
    w.(births := w.births + 1,
       pool := w.pool[id := Cell(o, false, false, 0, {}, 0)],
       cells := w.cells[o := id])
  }

  lemma CreatedIsGrown(w: World, o: Coord)
    requires Allocates(w) && TableOk(w) && o !in w.cells
    ensures Grown(w, Created(w, o)) && TableOk(Created(w, o))
  {
  }

  lemma WatchIsGrown(w: World, s: set<CellId>, l: set<(CellId, CellId)>)
    ensures Grown(w, Watch(w, s, l))
    ensures TableOk(w) ==> TableOk(Watch(w, s, l))
  {
  }

  lemma NewIsNotDoomed(w: World, rest: seq<MapOp>, id: CellId)
    requires ParamsOk(w, rest) && id !in w.pool
    ensures !Doomed(rest, id)
  {
    forall i | 0 <= i < |rest| && rest[i].Destroy?
      ensures rest[i].cell != id
    {
      assert OpOk(w, rest[i]);
    }
  }

  lemma CreationIsGrown(w: World, o: Coord)
    requires Allocates(w) && TableOk(w) && o !in w.cells
    ensures var u, id := Created(w, o), w.alloc(w.births, w.pool.Keys);
            var v := Watch(u, Ball(u, id), Spokes(u, id));
            id !in w.pool && id in v.pool && Allocates(v) && TableOk(v) && Grown(w, v) && v.cells[o] == id
  {
    var u, id := Created(w, o), w.alloc(w.births, w.pool.Keys);
    CreatedIsGrown(w, o);
    WatchIsGrown(u, Ball(u, id), Spokes(u, id));
    GrownTransitive(w, u, Watch(u, Ball(u, id), Spokes(u, id)));
  }

  lemma CreationTouches(w: World, o: Coord)
    requires Allocates(w) && TableOk(w) && (forall c :: c in w.pool && w.pool[c].registered ==> c in w.stall)
    requires o !in w.cells
    ensures var u, id := Created(w, o), w.alloc(w.births, w.pool.Keys);
            var r := TouchWatched(u, id);
            r == Running(Watch(u, Ball(u, id), Spokes(u, id))) || r == Stopped(TouchedCooldown)
  {
  }

  lemma GetOrCreateKeepsCells(w: World, o: Coord, rest: seq<MapOp>)
    requires CellsOk(w, rest) && ParamsOk(w, rest)
    ensures var r := GetOrCreate(w, o);
            if r.Running? then CellsOk(r.value, rest) && Grown(w, r.value) && r.value.cells[o] in r.value.pool
            else r == Stopped(TouchedCooldown)
  {
    if o !in w.cells {
      var id := w.alloc(w.births, w.pool.Keys);
      CreationIsGrown(w, o);
      NewIsNotDoomed(w, rest, id);
      CreationTouches(w, o);
      if TouchWatched(Created(w, o), id).Running? {
        WatchAfterCreation(w, o, rest);
      }
    }
  }

  lemma WatchAfterCreation(w: World, o: Coord, rest: seq<MapOp>)
    requires CellsOk(w, rest) && o !in w.cells && !Doomed(rest, w.alloc(w.births, w.pool.Keys))
    requires var u := Created(w, o); TouchWatched(u, w.alloc(w.births, w.pool.Keys)).Running?
    ensures var u, id := Created(w, o), w.alloc(w.births, w.pool.Keys);
            var v := Watch(u, Ball(u, id), Spokes(u, id));
            FlagsOk(v, rest) && LinksOk(v)
  {
    FlagsAfterCreation(w, o, rest);
    LinksAfterCreation(w, o);
  }

  lemma FlagsAfterCreation(w: World, o: Coord, rest: seq<MapOp>)
    requires Allocates(w) && TableOk(w) && FlagsOk(w, rest)
    requires o !in w.cells && !Doomed(rest, w.alloc(w.births, w.pool.Keys))
    requires var u := Created(w, o); TouchWatched(u, w.alloc(w.births, w.pool.Keys)).Running?
    ensures var u, id := Created(w, o), w.alloc(w.births, w.pool.Keys);
            FlagsOk(Watch(u, Ball(u, id), Spokes(u, id)), rest)
  {
  }

  lemma LinksAfterCreation(w: World, o: Coord)
    requires Allocates(w) && TableOk(w) && LinksOk(w) && o !in w.cells
    requires var u := Created(w, o); TouchWatched(u, w.alloc(w.births, w.pool.Keys)).Running?
    ensures var u, id := Created(w, o), w.alloc(w.births, w.pool.Keys);
            LinksOk(Watch(u, Ball(u, id), Spokes(u, id)))
  {
  }
}
