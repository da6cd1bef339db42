/** The class Map: the cell table, the operation queue and the two halves of a tick, over MapData and Cluster. */
module Maps {
  import opened Hex
  import opened World
  import opened Invariants
  import opened MapFields
  import opened Clusters
  import opened Components
  import opened Operations
  import opened Guarantees
  import opened Ticks
  import opened TickProofs
  import opened Runs
  import opened Entities

  // ---------- An operation neither reads nor writes the queue it came from, nor the buckets ----------

  ghost function Requeued(r: Outcome<World>, q: seq<MapOp>, b: set<CellId>): Outcome<World> {
    if r.Running? then Running(r.value.(ops := q, bucketed := b)) else r
  }

  lemma TouchIgnoresQueue(w: World, c: CellId, q: seq<MapOp>, b: set<CellId>)
    ensures TouchWatched(w.(ops := q, bucketed := b), c) == Requeued(TouchWatched(w, c), q, b)
  {
    var v := w.(ops := q, bucketed := b);
    if c in w.pool {
      assert Ball(v, c) == Ball(w, c) && Spokes(v, c) == Spokes(w, c);
      assert Watch(v, Ball(w, c), Spokes(w, c)) == Watch(w, Ball(w, c), Spokes(w, c)).(ops := q, bucketed := b);
    }
  }

  lemma CreateIgnoresQueue(w: World, o: Coord, q: seq<MapOp>, b: set<CellId>)
    ensures GetOrCreate(w.(ops := q, bucketed := b), o) == Requeued(GetOrCreate(w, o), q, b)
  {
    if o !in w.cells {
      var u := Created(w, o);
      assert Created(w.(ops := q, bucketed := b), o) == u.(ops := q, bucketed := b);
      TouchIgnoresQueue(u, w.alloc(w.births, w.pool.Keys), q, b);
    }
  }

  lemma {:induction false} EnsureIgnoresQueue(w: World, os: seq<Coord>, q: seq<MapOp>, b: set<CellId>)
    ensures EnsureCells(w.(ops := q, bucketed := b), os) == Requeued(EnsureCells(w, os), q, b)
    decreases |os|
  {
    if os != [] {
      CreateIgnoresQueue(w, os[0], q, b);
      var r := GetOrCreate(w, os[0]);
      if r.Running? {
        EnsureIgnoresQueue(r.value, os[1..], q, b);
      }
    }
  }

  lemma ExcludingIgnoresQueue(w: World, c: CellId, exclude: Option<CellId>, q: seq<MapOp>, b: set<CellId>)
    ensures EnsureExcluding(w.(ops := q, bucketed := b), c, exclude) == Requeued(EnsureExcluding(w, c, exclude), q, b)
  {
    if c in w.pool && exclude.None? {
      EnsureIgnoresQueue(w, Siblings(w.pool[c].at), q, b);
    } else if c in w.pool && exclude.value in w.pool
              && DirectionIndex(Minus(w.pool[c].at, w.pool[exclude.value].at)) != -1 {
      EnsureIgnoresQueue(w, Ahead(w.pool[c].at, w.pool[exclude.value].at), q, b);
    }
  }

  lemma CheckIgnoresQueue(w: World, from: Option<CellId>, c: CellId, q: seq<MapOp>, b: set<CellId>)
    requires c in w.pool
    ensures CheckStall(w.(ops := q, bucketed := b), from, c) == Requeued(CheckStall(w, from, c), q, b)
  {
  }

  lemma ArriveIgnoresQueue(w: World, c: CellId, from: Option<CellId>, q: seq<MapOp>, b: set<CellId>)
    ensures Arrive(w.(ops := q, bucketed := b), c, from) == Requeued(Arrive(w, c, from), q, b)
  {
    ExcludingIgnoresQueue(w, c, from, q, b);
    var r := EnsureExcluding(w, c, from);
    if r.Running? && c in r.value.pool {
      CheckIgnoresQueue(r.value, from, c, q, b);
    }
  }

  lemma SettleIgnoresQueue(w: World, c: CellId, e: EntityId, from: Option<CellId>, q: seq<MapOp>, b: set<CellId>)
    ensures Settle(w.(ops := q, bucketed := b), c, e, from) == Requeued(Settle(w, c, e, from), q, b)
  {
    if c in w.pool {
      EnsureIgnoresQueue(w, Siblings(w.pool[c].at), q, b);
      var r := EnsureSiblings(w, c, e);
      if r.Running? {
        ArriveIgnoresQueue(r.value, c, from, q, b);
      }
    }
  }

  lemma EnterIgnoresQueue(w: World, e: EntityId, c: CellId, q: seq<MapOp>, b: set<CellId>)
    requires c in w.pool
    ensures QueueKeep(Enter(w.(ops := q, bucketed := b), e, c), Keep(e))
         == QueueKeep(Enter(w, e, c), Keep(e)).(ops := q, bucketed := b)
    ensures QueueKeep(Leave(w.(ops := q, bucketed := b), e, c), Unkeep(e))
         == QueueKeep(Leave(w, e, c), Unkeep(e)).(ops := q, bucketed := b)
  {
  }

  lemma AddIgnoresQueue(w: World, o: Coord, e: EntityId, from: Option<CellId>, q: seq<MapOp>, b: set<CellId>)
    ensures ExecAdd(w.(ops := q, bucketed := b), o, e, from) == Requeued(ExecAdd(w, o, e, from), q, b)
  {
    CreateIgnoresQueue(w, o, q, b);
    var r := GetOrCreate(w, o);
    if r.Running? && r.value.cells[o] in r.value.pool {
      var c := r.value.cells[o];
      EnterIgnoresQueue(r.value, e, c, q, b);
      SettleIgnoresQueue(QueueKeep(Enter(r.value, e, c), Keep(e)), c, e, from, q, b);
    }
  }

  lemma ExecIgnoresQueue(w: World, op: MapOp, q: seq<MapOp>, b: set<CellId>)
    ensures Exec(w.(ops := q, bucketed := b), op) == Requeued(Exec(w, op), q, b)
  {
    match op
    case Add(o, e, from) => AddIgnoresQueue(w, o, e, from, q, b);
    case Remove(o, e, to) =>
      if o in w.cells && w.cells[o] in w.pool {
        EnterIgnoresQueue(w, e, w.cells[o], q, b);
        ExcludingIgnoresQueue(QueueKeep(Leave(w, e, w.cells[o]), Unkeep(e)), w.cells[o], to, q, b);
      }
    case Destroy(_, _) =>
  }

  /** Draining one operation of a queue, with the rest still in it. */
  lemma DrainOne(w: World)
    requires w.ops != [] && OwnEntries(w.(ops := []), w.ops)
    ensures var r := Exec(w.(ops := w.ops[1..]), w.ops[0]);
            && ExecAll(w.(ops := []), w.ops) ==
               (if r.Running? then ExecAll(r.value.(ops := []), r.value.ops) else r)
            && (r.Running? ==> r.value.ops == w.ops[1..] && r.value.bucketed == w.bucketed
                               && OwnEntries(r.value.(ops := []), r.value.ops))
    ensures OwnEntry(w, w.ops[0])
  {
    var u := w.(ops := []);
    ExecIgnoresQueue(u, w.ops[0], w.ops[1..], w.bucketed);
    ExecIgnoresQueue(u, w.ops[0], [], w.bucketed);
    assert u.(ops := w.ops[1..], bucketed := w.bucketed) == w.(ops := w.ops[1..]);
    assert u.(ops := [], bucketed := w.bucketed) == u;
  }

  /** A DESTROY erases the entry of the cell that it frees, as every DESTROY that Map::destroyCell pushes does. */
  predicate OwnEntry(w: World, op: MapOp) {
    op.Destroy? && op.cell in w.pool ==> w.pool[op.cell].at == op.at
  }

  /** So does every DESTROY of a queue, when it is reached. */
  ghost predicate OwnEntries(w: World, ops: seq<MapOp>)
    decreases |ops|
  {
    ops != [] ==>
      OwnEntry(w, ops[0]) && var r := Exec(w, ops[0]); r.Running? ==> OwnEntries(r.value, ops[1..])
  }

  lemma OwnNow(w: World, op: MapOp, rest: seq<MapOp>)
    requires ParamsOk(w, [op] + rest)
    ensures OwnEntry(w, op)
  {
    assert OpOk(w, ([op] + rest)[0]);
  }

  /** In every run that meets the run hypothesis they do. */
  lemma {:induction false} CoreOwnsEntries(w: World, ops: seq<MapOp>)
    requires Core(w, ops) && Vacated(w, ops)
    ensures OwnEntries(w, ops)
    decreases |ops|
  {
    if ops != [] {
      assert ops == [ops[0]] + ops[1..];
      OwnNow(w, ops[0], ops[1..]);
      if Exec(w, ops[0]).Running? {
        var v := OneExecuted(w, ops[0], ops[1..]);
        CoreOwnsEntries(v, ops[1..]);
      }
    }
  }

  /** The precondition of Map::update, in every legal run. */
  lemma IdleOwnsEntries(w: World)
    requires IdleOk(w) && SpawnsClear(w)
    ensures w.bucketed == {} && OwnEntries(w.(ops := []), w.ops)
  {
    QueueIsReady(w);
    CoreOwnsEntries(w.(ops := []), w.ops);
  }

  /** Creating a cell leaves the table entries that there are. */
  lemma CreationKeepsTable(w: World, o: Coord)
    requires GetOrCreate(w, o).Running?
    ensures var v := GetOrCreate(w, o).value;
            forall x :: x in w.cells ==> x in v.cells && v.cells[x] == w.cells[x]
  {
  }

  /** `found` are the cells at the offsets `os`, in order. */
  predicate FoundAt(w: World, os: seq<Coord>, found: seq<CellId>) {
    |found| == |os| && forall i :: 0 <= i < |os| ==> os[i] in w.cells && found[i] == w.cells[os[i]]
  }

  /** One turn of the loop over a list of offsets. */
  lemma CreationUnrolls(w: World, os: seq<Coord>, n: nat, found: seq<CellId>)
    requires n < |os| && FoundAt(w, os[..n], found)
    ensures EnsureCells(w, os[n..])
         == var r := GetOrCreate(w, os[n]); if r.Running? then EnsureCells(r.value, os[n + 1..]) else r
    ensures var r := GetOrCreate(w, os[n]);
            r.Running? ==> FoundAt(r.value, os[..n + 1], found + [r.value.cells[os[n]]])
  {
    assert os[n..][0] == os[n] && os[n..][1..] == os[n + 1..];
    if GetOrCreate(w, os[n]).Running? {
      CreationKeepsTable(w, os[n]);
    }
  }

  lemma CreateUnfolds(w: World, o: Coord)
    requires o !in w.cells
    ensures var u, c := Created(w, o), w.alloc(w.births, w.pool.Keys);
            && GetOrCreate(w, o) == TouchWatched(u, c)
            && var r := TouchWatched(u, c);
               r.Running? ==> c in r.value.pool && o in r.value.cells && r.value.cells[o] == c
  {
  }

  lemma TableWithout(w: World, o: Coord, c: CellId)
    requires TableOk(w) && c in w.pool && w.pool[c].at == o
    ensures TableOk(w.(cells := w.cells - {o}, pool := w.pool - {c}))
  {
  }

  // ---------- Buckets ----------

  /** What Map::update does to `w`, seen in the buckets: every two adjacent cells share a bucket, but for a fringe;
      and two keepers share one if they have a live common neighbour. */
  ghost predicate SharesBuckets(w: World, v: World, buckets: map<int, seq<CellId>>) {
    && (forall c, n :: Joined(w, v, c, n) ==> SameBucket(buckets, c, n))
    && (forall k, l, n ::
          k in w.keepers && l in w.keepers && k in w.place && l in w.place && n in v.pool
          && NearKeeper(w, v, k, n) && NearKeeper(w, v, l, n) ==>
            SameBucket(buckets, w.place[k], w.place[l]))
  }

  ghost predicate NearKeeper(w: World, v: World, k: EntityId, n: CellId)
    requires n in v.pool && k in w.place
  {
    w.place[k] in v.pool && Near(v.pool[n].at, v.pool[w.place[k]].at)
  }

  lemma CentresShareBuckets(w: World, v: World, buckets: map<int, seq<CellId>>)
    requires IdleOk(w) && SpawnsClear(w) && MapUpdate(w) == Running(v)
    requires forall a, b :: a in v.current && b in v.current ==>
               (SameBucket(buckets, a, b) <==> Connected(v.links, a, b))
    ensures SharesBuckets(w, v, buckets)
  {
    assert v.current == v.pool.Keys by {
      MapUpdateKeepsInv(w);
      BusyIsCalm(v);
    }
    forall c, n | Joined(w, v, c, n)
      ensures SameBucket(buckets, c, n)
    {
      JoinedConnects(w, c, n);
    }
    forall k, l, n | k in w.keepers && l in w.keepers && k in w.place && l in w.place && n in v.pool
                     && NearKeeper(w, v, k, n) && NearKeeper(w, v, l, n)
      ensures SameBucket(buckets, w.place[k], w.place[l])
    {
      KeepersWithCommonNeighbourConnect(w, k, l, n);
    }
  }

  // ---------- The class ----------

  /** What a cleanup that follows the function does on a busy map. */
  lemma CleanupOfBusy(w: World, elapsed: nat, fault: Option<Fault>, order: seq<CellId>)
    requires BusyOk(w)
    requires match CleanupAndRegroup(w, elapsed)
             case Running(v) =>
               && fault == (if v.stall <= v.pool.Keys then None else Some(Dangling))
               && (fault == None ==> Enumerates(order, Expired(v)))
             case Stopped(f) => fault == Some(f)
    ensures fault == if GuardHolds(w, elapsed) then None else Some(TouchedCooldown)
    ensures fault == None ==> MapCleanup(w, elapsed, order).Running? && IdleOk(MapCleanup(w, elapsed, order).value)
  {
    RegroupClosed(w, elapsed);
    if fault == None {
      MapCleanupKeeps(w, elapsed, order);
    }
  }

  class Map {
    const grid: MapData
    const cluster: Cluster

    ghost predicate Valid()
      reads this, grid, cluster
    {
      cluster.grid == grid && cluster.Valid()
    }

    ghost function Snapshot(): World
      requires cluster.grid == grid
      reads this, grid, cluster
    {
      cluster.Snapshot()
    }

    constructor (alloc: (nat, set<CellId>) -> CellId, updaters: set<EntityId>, clients: set<EntityId>)
      requires NeverLive(alloc)
      ensures Valid() && Snapshot() == EmptyWorld(alloc, updaters, clients)
    {
      var data := new MapData(alloc, updaters, clients);
      grid := data;
      cluster := new Cluster(data);
    }

    // ---------- Requests ----------

    /** The pushes of addTo, removeFrom and destroyCell. */
    method Push(op: MapOp)
      requires Valid()
      modifies grid
      ensures Valid() && Snapshot() == old(Snapshot()).(ops := old(grid.ops) + [op])
    {
      grid.ops := grid.ops + [op];
    }

    /** Map::getOrCreate */
    method GetOrCreateCell(o: Coord) returns (fault: Option<Fault>, c: CellId)
      requires Valid()
      modifies grid, cluster
      ensures match GetOrCreate(old(Snapshot()), o)
              case Running(v) => fault == None && Valid() && Snapshot() == v && c == v.cells[o] && c in v.pool
              case Stopped(f) => fault == Some(f)
    {
      fault := None;
      if o in grid.cells {
        c := grid.cells[o];
      } else {
        CreateUnfolds(Snapshot(), o);
        c := grid.alloc(grid.births, grid.pool.Keys);
        Construct(c, o);
        fault := cluster.TouchWithNeighbours(c);
      }
    }

    /** _cellAllocator->construct and _cells.emplace */
    method Construct(c: CellId, o: Coord)
      requires Valid() && o !in grid.cells && c == grid.alloc(grid.births, grid.pool.Keys)
      modifies grid
      ensures Valid() && Snapshot() == Created(old(Snapshot()), o)
    {
      assert c !in grid.pool;
      grid.births := grid.births + 1;
      grid.pool := grid.pool[c := Cell(o, false, false, 0, {}, 0)];
      grid.cells := grid.cells[o := c];
    }

    /** The calls of getOrCreate that createSiblings and getCellsExcluding make, in order. */
    method EnsureAll(os: seq<Coord>) returns (fault: Option<Fault>, found: seq<CellId>)
      requires Valid()
      modifies grid, cluster
      ensures match EnsureCells(old(Snapshot()), os)
              case Running(v) => fault == None && Valid() && Snapshot() == v && FoundAt(v, os, found)
              case Stopped(f) => fault == Some(f)
    {
      fault, found := None, [];
      var n := 0;
      assert os[0..] == os;
      while n < |os|
        invariant Valid() && fault == None && 0 <= n <= |os|
        invariant FoundAt(Snapshot(), os[..n], found)
        invariant EnsureCells(Snapshot(), os[n..]) == EnsureCells(old(Snapshot()), os)
      {
        var c;
        CreationUnrolls(Snapshot(), os, n, found);
        fault, c := GetOrCreateCell(os[n]);
        if fault.Some? {
          return;
        }
        found, n := found + [c], n + 1;
      }
      assert os[..n] == os;
    }

    /** Map::createSiblings */
    method CreateSiblings(c: CellId) returns (fault: Option<Fault>, found: seq<CellId>)
      requires Valid() && c in grid.pool
      modifies grid, cluster
      ensures match EnsureCells(old(Snapshot()), Siblings(old(grid.pool)[c].at))
              case Running(v) =>
                fault == None && Valid() && Snapshot() == v && FoundAt(v, Siblings(old(grid.pool)[c].at), found)
              case Stopped(f) => fault == Some(f)
    {
      fault, found := EnsureAll(Siblings(grid.pool[c].at));
    }

    method SiblingsAndSelf(c: CellId) returns (fault: Option<Fault>, found: seq<CellId>)
      requires Valid() && c in grid.pool
      modifies grid, cluster
      ensures match EnsureCells(old(Snapshot()), Siblings(old(grid.pool)[c].at))
              case Running(v) =>
                && fault == None && Valid() && Snapshot() == v && |found| == 7 && found[6] == c
                && FoundAt(v, Siblings(old(grid.pool)[c].at), found[..6])
              case Stopped(f) => fault == Some(f)
    {
      var siblings;
      fault, siblings := CreateSiblings(c);
      found := siblings + [c];
      assert fault == None ==> found[..6] == siblings;
    }

    /** Map::getCellsExcluding: the siblings and the cell itself, or the three cells ahead. */
    method GetCellsExcluding(c: CellId, exclude: Option<CellId>) returns (fault: Option<Fault>, found: seq<CellId>)
      requires Valid()
      modifies grid, cluster
      ensures match EnsureExcluding(old(Snapshot()), c, exclude)
              case Running(v) =>
                && fault == None && Valid() && Snapshot() == v
                && var o := old(grid.pool)[c].at;
                   if exclude.None? then |found| == 7 && FoundAt(v, Siblings(o), found[..6]) && found[6] == c
                   else FoundAt(v, Ahead(o, old(grid.pool)[exclude.value].at), found)
              case Stopped(f) => fault == Some(f)
    {
      found := [];
      if c !in grid.pool {
        return Some(Dangling), found;
      }
      if exclude.None? {
        fault, found := SiblingsAndSelf(c);
        return;
      }
      if exclude.value !in grid.pool {
        return Some(Dangling), found;
      }
      if DirectionIndex(Minus(grid.pool[c].at, grid.pool[exclude.value].at)) == -1 {
        return Some(NoDirection), found;
      }
      fault, found := EnsureAll(Ahead(grid.pool[c].at, grid.pool[exclude.value].at));
    }

    // ---------- runScheduledOperations ----------

    /** entity->cell(cell); cell->addEntity(entity) */
    method Seat(e: EntityId, c: CellId)
      requires Valid() && c in grid.pool
      modifies grid
      ensures Valid() && Snapshot() == Enter(old(Snapshot()), e, c)
    {
      Attach(e, c);
      AddToCell(e, c);
    }

    /** The entering of an entity, and the KEEP of an updater. */
    method EnterCell(e: EntityId, c: CellId)
      requires Valid() && c in grid.pool
      modifies grid, cluster
      ensures Valid() && Snapshot() == QueueKeep(Enter(old(Snapshot()), e, c), Keep(e))
    {
      Seat(e, c);
      cluster.Schedule(Keep(e));
    }

    /** entity->cell(cell) */
    method Attach(e: EntityId, c: CellId)
      requires Valid()
      modifies grid
      ensures Valid() && Snapshot() == old(Snapshot()).(place := old(grid.place)[e := c])
    {
      grid.place := grid.place[e := c];
    }

    /** cell->addEntity(entity) */
    method AddToCell(e: EntityId, c: CellId)
      requires Valid() && c in grid.pool
      modifies grid
      ensures Valid() && Snapshot() == Enter(old(Snapshot()), e, c).(place := old(grid.place))
    {
      var cell := grid.pool[c];
      cell := cell.(entities := cell.entities + {e});
      if e in grid.clients {
        cell := cell.(clientsCount := cell.clientsCount + 1);
      }
      cluster.SetCell(c, cell);
    }

    /** cell->removeEntity(entity), the UNKEEP of an updater, and the _cell = nullptr of onRemoved */
    method LeaveCell(e: EntityId, c: CellId)
      requires Valid() && c in grid.pool
      modifies grid, cluster
      ensures Valid() && Snapshot() == QueueKeep(Leave(old(Snapshot()), e, c), Unkeep(e))
    {
      RemoveFromCell(e, c);
      Detach(e);
      cluster.Schedule(Unkeep(e));
    }

    /** cell->removeEntity(entity) */
    method RemoveFromCell(e: EntityId, c: CellId)
      requires Valid() && c in grid.pool
      modifies grid
      ensures Valid() && Snapshot() == Leave(old(Snapshot()), e, c).(place := old(grid.place))
    {
      var cell := grid.pool[c];
      cell := cell.(entities := cell.entities - {e});
      if e in grid.clients {
        cell := cell.(clientsCount := cell.clientsCount - 1);
      }
      cluster.SetCell(c, cell);
    }

    /** entity->_cell = nullptr */
    method Detach(e: EntityId)
      requires Valid()
      modifies grid
      ensures Valid() && Snapshot() == old(Snapshot()).(place := old(grid.place) - {e})
    {
      grid.place := grid.place - {e};
    }

    /** The siblings of an updater's cell, the cells onAdded reaches, checkStall. */
    method SettleIn(c: CellId, e: EntityId, from: Option<CellId>) returns (fault: Option<Fault>)
      requires Valid() && c in grid.pool
      modifies grid, cluster
      ensures match Settle(old(Snapshot()), c, e, from)
              case Running(v) => fault == None && Valid() && Snapshot() == v
              case Stopped(f) => fault == Some(f)
    {
      var found;
      fault := None;
      if e in grid.updaters {
        fault, found := CreateSiblings(c);
      }
      if fault == None {
        assert EnsureSiblings(old(Snapshot()), c, e) == Running(Snapshot());
        fault := ArriveIn(c, from);
      }
    }

    method ArriveIn(c: CellId, from: Option<CellId>) returns (fault: Option<Fault>)
      requires Valid()
      modifies grid, cluster
      ensures match Arrive(old(Snapshot()), c, from)
              case Running(v) => fault == None && Valid() && Snapshot() == v
              case Stopped(f) => fault == Some(f)
    {
      var found;
      fault, found := GetCellsExcluding(c, from);
      if fault == None {
        if c !in grid.pool {
          return Some(Dangling);
        }
        fault := cluster.CheckStallOf(from, c);
      }
    }

    /** The ADD of any entity. `Added` says on the fields where it is then, and that no other entity has gone. */
    method ExecuteAdd(o: Coord, e: EntityId, from: Option<CellId>) returns (fault: Option<Fault>)
      requires Valid()
      modifies grid, cluster
      ensures match ExecAdd(old(Snapshot()), o, e, from)
              case Running(v) => fault == None && Valid() && Snapshot() == v
              case Stopped(f) => fault == Some(f)
      ensures fault == None ==> Added(old(Snapshot()), o, e, from, Snapshot())
    {
      ghost var w := Snapshot();
      fault := EnterAndSettle(o, e, from);
      if fault == None {
        AddPlaces(w, o, e, from);
      }
    }

    method EnterAndSettle(o: Coord, e: EntityId, from: Option<CellId>) returns (fault: Option<Fault>)
      requires Valid()
      modifies grid, cluster
      ensures match ExecAdd(old(Snapshot()), o, e, from)
              case Running(v) => fault == None && Valid() && Snapshot() == v
              case Stopped(f) => fault == Some(f)
    {
      var c;
      fault, c := GetOrCreateCell(o);
      if fault == None {
        EnterCell(e, c);
        fault := SettleIn(c, e, from);
      }
    }

    /** The REMOVE of any entity; `Removed` says on the fields what that leaves. */
    method ExecuteRemove(o: Coord, e: EntityId, to: Option<CellId>) returns (fault: Option<Fault>)
      requires Valid()
      modifies grid, cluster
      ensures match ExecRemove(old(Snapshot()), o, e, to)
              case Running(v) => fault == None && Valid() && Snapshot() == v
              case Stopped(f) => fault == Some(f)
      ensures fault == None ==>
                if o in old(grid.cells) then Removed(old(Snapshot()), o, e, to, Snapshot())
                else Snapshot() == old(Snapshot())
    {
      ghost var w := Snapshot();
      fault := LeaveAndSettle(o, e, to);
      if fault == None {
        RemoveTakes(w, o, e, to);
      }
    }

    method LeaveAndSettle(o: Coord, e: EntityId, to: Option<CellId>) returns (fault: Option<Fault>)
      requires Valid()
      modifies grid, cluster
      ensures match ExecRemove(old(Snapshot()), o, e, to)
              case Running(v) => fault == None && Valid() && Snapshot() == v
              case Stopped(f) => fault == Some(f)
    {
      fault := None;
      if o in grid.cells {
        var c := grid.cells[o];
        LeaveCell(e, c);
        var found;
        fault, found := GetCellsExcluding(c, to);
      }
    }

    /** _cells.erase and _cellAllocator->destroy. The table stays right if the entry erased is that of the cell. */
    method ExecuteDestroy(o: Coord, c: CellId) returns (fault: Option<Fault>)
      requires Valid()
      modifies grid
      ensures match ExecDestroy(old(Snapshot()), o, c)
              case Running(v) => fault == None && Snapshot() == v && (old(grid.pool)[c].at == o ==> Valid())
              case Stopped(f) => fault == Some(f)
    {
      fault := None;
      if c !in grid.pool {
        return Some(Dangling);
      }
      ghost var w := Snapshot();
      if grid.pool[c].at == o {
        TableWithout(w, o, c);
      }
      grid.cells := grid.cells - {o};
      grid.pool := grid.pool - {c};
      assert w.pool[c].at == o ==> grid.Valid();
      assert Snapshot() == ExecDestroy(w, o, c).value;
    }

    method Execute(op: MapOp) returns (fault: Option<Fault>)
      requires Valid() && (op.Destroy? && op.cell in grid.pool ==> grid.pool[op.cell].at == op.at)
      modifies grid, cluster
      ensures match Exec(old(Snapshot()), op)
              case Running(v) => fault == None && Valid() && Snapshot() == v
              case Stopped(f) => fault == Some(f)
    {
      match op
      case Add(o, e, from) => fault := ExecuteAdd(o, e, from);
      case Remove(o, e, to) => fault := ExecuteRemove(o, e, to);
      case Destroy(o, c) => fault := ExecuteDestroy(o, c);
    }

    /** Map::runScheduledOperations. */
    method RunScheduledOperations() returns (fault: Option<Fault>)
      requires Valid() && OwnEntries(Snapshot().(ops := []), grid.ops)
      modifies grid, cluster
      ensures match ExecAll(old(Snapshot()).(ops := []), old(grid.ops))
              case Running(v) =>
                fault == None && Valid() && Snapshot() == v && v.bucketed == old(Snapshot()).bucketed
              case Stopped(f) => fault == Some(f)
    {
      fault := None;
      while grid.ops != []
        invariant Valid() && fault == None && OwnEntries(Snapshot().(ops := []), grid.ops)
        invariant Snapshot().bucketed == old(Snapshot()).bucketed
        invariant ExecAll(Snapshot().(ops := []), grid.ops) == ExecAll(old(Snapshot()).(ops := []), old(grid.ops))
        decreases |grid.ops|
      {
        fault := PopAndExecute();
        if fault.Some? {
          return;
        }
      }
    }

    /** _scheduledOperations->pop */
    method Pop() returns (op: MapOp)
      requires Valid() && grid.ops != []
      modifies grid
      ensures Valid() && op == old(grid.ops)[0] && Snapshot() == old(Snapshot()).(ops := old(grid.ops)[1..])
    {
      op := grid.ops[0];
      grid.ops := grid.ops[1..];
    }

    /** One turn of that loop. */
    method PopAndExecute() returns (fault: Option<Fault>)
      requires Valid() && grid.ops != [] && OwnEntries(Snapshot().(ops := []), grid.ops)
      modifies grid, cluster
      ensures fault.Some? ==> ExecAll(old(Snapshot()).(ops := []), old(grid.ops)) == Stopped(fault.value)
      ensures fault == None ==>
                && Valid() && grid.ops == old(grid.ops)[1..] && OwnEntries(Snapshot().(ops := []), grid.ops)
                && Snapshot().bucketed == old(Snapshot()).bucketed
                && ExecAll(Snapshot().(ops := []), grid.ops) == ExecAll(old(Snapshot()).(ops := []), old(grid.ops))
    {
      DrainOne(Snapshot());
      var op := Pop();
      fault := Execute(op);
    }

    /** The two operations of a move from the cell `a` to the cell `c`. */
    method PushMove(e: EntityId, a: CellId, c: CellId)
      requires Valid() && a in grid.pool && c in grid.pool
      modifies grid
      ensures Valid()
      ensures var w := old(Snapshot());
              Snapshot() == w.(ops := w.ops + [Remove(w.pool[a].at, e, Some(c)), Add(w.pool[c].at, e, Some(a))])
    {
      ghost var before, leave, enter := grid.ops, Remove(grid.pool[a].at, e, Some(c)), Add(grid.pool[c].at, e, Some(a));
      Push(Remove(grid.pool[a].at, e, Some(c)));
      Push(Add(grid.pool[c].at, e, Some(a)));
      assert before + [leave] + [enter] == before + [leave, enter];
    }

    /** Map::onMove, for an entity whose position has come to lie on `o`. */
    method OnMoveTo(e: EntityId, o: Coord) returns (fault: Option<Fault>)
      requires Valid()
      modifies grid, cluster
      ensures match OnMove(old(Snapshot()), e, o)
              case Running(v) => fault == None && Valid() && Snapshot() == v
              case Stopped(f) => fault == Some(f)
    {
      var c;
      fault, c := GetOrCreateCell(o);
      if fault == None && !(e in grid.place && grid.place[e] == c) {
        if e !in grid.place || grid.place[e] !in grid.pool {
          return Some(Dangling);
        }
        PushMove(e, grid.place[e], c);
      }
    }

    /** Map::update, with the buckets that the last cleanup has emptied. What it is for holds on the maps of legal
        runs. */
    method Update() returns (fault: Option<Fault>)
      requires Valid() && Snapshot().bucketed == {} && OwnEntries(Snapshot().(ops := []), grid.ops)
      modifies grid, cluster
      ensures match MapUpdate(old(Snapshot()))
              case Running(v) => fault == None && Valid() && Snapshot() == v
              case Stopped(f) => fault == Some(f)
      ensures fault == None ==>
                forall a, b :: a in Snapshot().current && b in Snapshot().current ==>
                  (SameBucket(cluster.cellsByCluster, a, b) <==> Connected(Snapshot().links, a, b))
      ensures old(IdleOk(Snapshot()) && SpawnsClear(Snapshot())) ==>
                if fault == None
                then BusyOk(Snapshot()) && SharesBuckets(old(Snapshot()), Snapshot(), cluster.cellsByCluster)
                else fault == Some(TouchedCooldown)
    {
      ghost var w := Snapshot();
      fault := RunScheduledOperations();
      if fault == None {
        cluster.Update();
      }
      if IdleOk(w) && SpawnsClear(w) {
        MapUpdateKeepsInv(w);
        if fault == None {
          CentresShareBuckets(w, Snapshot(), cluster.cellsByCluster);
        }
      }
    }

    /** Map::cleanup. After the update of a legal run only the guard of touch can stop it. */
    method Cleanup(elapsed: nat) returns (fault: Option<Fault>, ghost order: seq<CellId>)
      requires Valid()
      modifies grid, cluster
      ensures match CleanupAndRegroup(old(Snapshot()), elapsed)
              case Running(v) =>
                && fault == (if v.stall <= v.pool.Keys then None else Some(Dangling))
                && (fault == None ==>
                      Valid() && Enumerates(order, Expired(v)) && ProcessStall(v, order) == Running(Snapshot()))
              case Stopped(f) => fault == Some(f)
      ensures old(BusyOk(Snapshot())) ==>
                && fault == (if GuardHolds(old(Snapshot()), elapsed) then None else Some(TouchedCooldown))
                && (fault == None ==> IdleOk(Snapshot()))
    {
      ghost var w := Snapshot();
      order := [];
      fault := cluster.Cleanup(elapsed);
      if fault == None {
        fault, order := cluster.RunScheduledOperations();
      }
      if BusyOk(w) {
        CleanupOfBusy(w, elapsed, fault, order);
      }
    }
  }
}
