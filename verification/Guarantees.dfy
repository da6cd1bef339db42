/** What the invariant of every run means for the cells, the updaters and the passing of time. */
module Guarantees {
  import opened Hex
  import opened World
  import opened Invariants
  import opened Operations
  import opened Creations
  import opened Ticks
  import opened TickProofs
  import opened Runs
  import opened Components

  // ---------- After each tick ----------

  /** Whether some keeper's cell is within distance 1. */
  ghost predicate KeeperNear(w: World, c: CellId)
    requires c in w.pool
  {
    exists k :: k in w.keepers && k in w.place && w.place[k] in w.pool
                && Distance(w.pool[c].at, w.pool[w.place[k]].at) <= 1
  }

  lemma SightIsKeeperNear(w: World, c: CellId)
    requires IdleOk(w) && c in w.pool
    ensures c in Sight(w) <==> KeeperNear(w, c)
  {
    var ks := KeepAll(w.keepers, w.keepOps).value;
    assert ks == w.keepers && KeepersAre(w, ks);
    forall e
      ensures SeenBy(w, c, e) <==> e in w.keepers && e in w.place && w.place[e] in w.pool
                                   && Distance(w.pool[c].at, w.pool[w.place[e]].at) <= 1
    {
      if e in w.place && w.place[e] in w.pool {
        NearIsDistanceOne(w.pool[c].at, w.pool[w.place[e]].at);
      }
    }
  }

  /** After every full tick of every run: _currentCells is exactly the live cells that are not doomed; such a
      cell is in _stallCells iff no keeper is within distance 1, iff it is registered; the cells on cooldown
      are the doomed ones; _keepers lists the updaters of the map once each, and each stands on a live cell. */
  lemma AfterEveryTick(s: Server, evs: seq<Event>)
    requires Initial(s) && LegalRun(s, evs)
    requires Run(s, evs).Running? && !Run(s, evs).value.busy
    ensures var w := Run(s, evs).value.w;
            && (forall c :: c in w.current <==> c in w.pool && !Doomed(w.ops, c))
            && (forall c :: c in w.pool ==> (w.pool[c].cooldown <==> Doomed(w.ops, c)))
            && (forall c :: c in w.pool ==> (w.pool[c].registered <==> c in w.stall))
            && (forall c :: c in w.current ==> (c in w.stall <==> !KeeperNear(w, c)))
            && (forall c :: c in w.stall ==> c in w.current)
            && Distinct(w.keepers) && (forall e :: e in w.keepers <==> e in w.updaters && e in w.place)
            && (forall e :: e in w.keepers ==> w.place[e] in w.current && w.place[e] !in w.stall)
  {
    EveryRunIsSafe(s, evs);
    var w := Run(s, evs).value.w;
    assert KeepersAre(w, w.keepers);
    forall c | c in w.pool
      ensures c in Sight(w) <==> KeeperNear(w, c)
    {
      SightIsKeeperNear(w, c);
    }
    SightOfUpdaters(w);
  }

  // ---------- Destruction ----------

  /** Cells that were freed are in no structure that is still read: only live cells are in _currentCells,
      _stallCells, the buckets, the graph and the map. (_oldCells may keep a freed cell; EveryRunIsSafe says that
      it is never read.) */
  ghost predicate OnlyLiveCells(w: World) {
    && w.current <= w.pool.Keys && w.stall <= w.pool.Keys && w.bucketed <= w.pool.Keys
    && (forall a, b :: (a, b) in w.links ==> a in w.pool && b in w.pool)
    && (forall o :: o in w.cells ==> w.cells[o] in w.pool)
  }

  /** Every queued DESTROY names a live cell and the map entry of that cell, and no two name the same. */
  ghost predicate DestroysOnce(w: World) {
    && (forall i :: 0 <= i < |w.ops| && w.ops[i].Destroy? ==>
          && w.ops[i].cell in w.pool && w.pool[w.ops[i].cell].at == w.ops[i].at
          && w.ops[i].at in w.cells && w.cells[w.ops[i].at] == w.ops[i].cell)
    && (forall i, j :: 0 <= i < j < |w.ops| && w.ops[i].Destroy? && w.ops[j].Destroy? ==>
          w.ops[i].cell != w.ops[j].cell)
  }

  lemma CellsAreLive(w: World)
    requires CellsOk(w, w.ops) && w.bucketed <= w.pool.Keys
    ensures OnlyLiveCells(w)
  {
  }

  lemma QueuedOnce(w: World)
    requires TableOk(w) && ParamsOk(w, w.ops)
    ensures DestroysOnce(w)
  {
    forall i | 0 <= i < |w.ops| && w.ops[i].Destroy?
      ensures w.ops[i].cell in w.pool && w.pool[w.ops[i].cell].at == w.ops[i].at
    {
      assert OpOk(w, w.ops[i]);
    }
  }

  /** At every point of every run. */
  lemma CellsAreDestroyedOnce(s: Server, evs: seq<Event>)
    requires Initial(s) && LegalRun(s, evs) && Run(s, evs).Running?
    ensures OnlyLiveCells(Run(s, evs).value.w) && DestroysOnce(Run(s, evs).value.w)
  {
    var t := Run(s, evs).value;
    assert Inv(t) by { EveryRunIsSafe(s, evs); }
    CellsAreLive(t.w);
    QueuedOnce(t.w);
  }

  // ---------- Updaters keep solid ground ----------

  /** A live cell that is neither on cooldown nor doomed. */
  ghost predicate Solid(w: World, c: CellId) {
    c in w.pool && !w.pool[c].cooldown && !Doomed(w.ops, c)
  }

  lemma SightIsSolid(t: Server, c: CellId)
    requires Inv(t) && c in Sight(t.w)
    ensures Solid(t.w, c)
  {
    if t.busy {
      BusyIsCalm(t.w);
    }
    assert FlagsOk(t.w, t.w.ops);
  }

  /** The cell that a queued move leads to is seen from the cell it leaves. */
  lemma TargetInSight(w: World, i: nat)
    requires CellsOk(w, w.ops) && ParamsOk(w, w.ops) && UpdatersOk(w) && Anchored(w) && i < |w.ops|
    requires w.ops[i].Add? && w.ops[i].who in w.updaters && w.ops[i].from.Some?
    ensures w.ops[i].at in w.cells && w.cells[w.ops[i].at] in Sight(w)
    ensures w.pool[w.cells[w.ops[i].at]].at == w.ops[i].at
  {
    assert TableOk(w) && OpOk(w, w.ops[i]);
    assert SeenBy(w, w.cells[w.ops[i].at], w.ops[i].who);
  }

  /** An updater in the map stands on a solid cell, and is in the entities of that cell alone. */
  ghost predicate StandsFirm(w: World, e: EntityId) {
    e in w.place ==> Solid(w, w.place[e]) && forall d :: d in w.pool ==> (e in w.pool[d].entities <==> d == w.place[e])
  }

  /** The cells that its queued moves lead to are solid too. */
  ghost predicate MovesToSolid(w: World, e: EntityId) {
    forall i :: 0 <= i < |w.ops| && w.ops[i].Add? && w.ops[i].who == e && w.ops[i].from.Some? ==>
      && w.ops[i].at in w.cells && Solid(w, w.cells[w.ops[i].at])
      && w.pool[w.cells[w.ops[i].at]].at == w.ops[i].at
  }

  lemma InvStandsFirm(t: Server, e: EntityId)
    requires Inv(t) && e in t.w.updaters
    ensures StandsFirm(t.w, e)
  {
    assert UpdatersOk(t.w);
    if e in t.w.place {
      assert t.w.place[e] in Sight(t.w) by { SightOfUpdaters(t.w); }
      SightIsSolid(t, t.w.place[e]);
    }
  }

  lemma InvMovesToSolid(t: Server, e: EntityId)
    requires Inv(t) && e in t.w.updaters
    ensures MovesToSolid(t.w, e)
  {
    forall i | 0 <= i < |t.w.ops| && t.w.ops[i].Add? && t.w.ops[i].who == e && t.w.ops[i].from.Some?
      ensures t.w.ops[i].at in t.w.cells && Solid(t.w, t.w.cells[t.w.ops[i].at])
      ensures t.w.pool[t.w.cells[t.w.ops[i].at]].at == t.w.ops[i].at
    {
      TargetInSight(t.w, i);
      SightIsSolid(t, t.w.cells[t.w.ops[i].at]);
    }
  }

  lemma InvKeepsGround(t: Server, e: EntityId)
    requires Inv(t) && e in t.w.updaters
    ensures StandsFirm(t.w, e) && MovesToSolid(t.w, e)
  {
    InvStandsFirm(t, e);
    InvMovesToSolid(t, e);
  }

  /** At every point of every legal run an updater stands on a cell that is live, neither on cooldown nor doomed, and
      so are the cells that its queued moves lead to. */
  lemma UpdatersKeepTheirGround(s: Server, evs: seq<Event>, e: EntityId)
    requires Initial(s) && LegalRun(s, evs) && Run(s, evs).Running? && e in s.w.updaters
    ensures StandsFirm(Run(s, evs).value.w, e) && MovesToSolid(Run(s, evs).value.w, e)
  {
    var t := Run(s, evs).value;
    assert Inv(t) && t.w.updaters == s.w.updaters by {
      EveryRunIsSafe(s, evs);
      InitialIsIdle(s);
      RunKeepsRoles(s, evs);
    }
    InvKeepsGround(t, e);
  }

  /** Clause (d): who is an updater and who is a client never changes. */
  lemma {:induction false} RunKeepsRoles(s: Server, evs: seq<Event>)
    requires Inv(s) && LegalRun(s, evs) && Run(s, evs).Running?
    ensures Run(s, evs).value.w.updaters == s.w.updaters && Run(s, evs).value.w.clients == s.w.clients
    decreases |evs|
  {
    if evs != [] {
      StepKeepsInv(s, evs[0]);
      StepKeepsRoles(s, evs[0]);
      RunKeepsRoles(Step(s, evs[0]).value, evs[1..]);
    }
  }

  lemma UpdateKeepsRoles(w: World)
    requires IdleOk(w) && SpawnsClear(w) && MapUpdate(w).Running?
    ensures MapUpdate(w).value.updaters == w.updaters && MapUpdate(w).value.clients == w.clients
  {
    QueueIsReady(w);
    ExecAllKeepsCore(w.(ops := []), w.ops);
  }

  lemma MoveKeepsRoles(w: World, e: EntityId, o: Coord)
    requires Core(w, w.ops) && e in w.place && w.place[e] in w.pool && OnMove(w, e, o).Running?
    ensures OnMove(w, e, o).value.updaters == w.updaters && OnMove(w, e, o).value.clients == w.clients
  {
    GetOrCreateKeepsCells(w, o, w.ops);
  }

  lemma StepKeepsRoles(s: Server, ev: Event)
    requires Inv(s) && Legal(s, ev) && Step(s, ev).Running?
    ensures Step(s, ev).value.w.updaters == s.w.updaters && Step(s, ev).value.w.clients == s.w.clients
  {
    match ev
    case Spawn(_, _) =>
    case Despawn(_, _) =>
    case Move(e, o) => MoveKeepsRoles(s.w, e, o);
    case Update => UpdateKeepsRoles(s.w);
    case Cleanup(elapsed, order) => MapCleanupKeeps(s.w, elapsed, order);
  }

  // ---------- Conservation of entities ----------

  /** The cells that list `e` among their entities. */
  ghost function CellsHolding(w: World, e: EntityId): set<CellId> {
    set c | c in w.pool && e in w.pool[c].entities
  }

  lemma HeldOnce(w: World)
    requires UpdatersOk(w)
    ensures forall e :: e in w.updaters ==> CellsHolding(w, e) == if e in w.place then {w.place[e]} else {}
  {
  }

  /** At every point of every run an updater is held by its own cell alone, or by none when it is outside
      the map; every _clientsCount is the number of clients in its cell; and the keeper queue, once drained,
      misses no UNKEEP and leaves _keepers with exactly the updaters of the map, once each. */
  lemma EntitiesAreConserved(s: Server, evs: seq<Event>)
    requires Initial(s) && LegalRun(s, evs) && Run(s, evs).Running?
    ensures var w := Run(s, evs).value.w;
            && (forall e :: e in w.updaters ==> CellsHolding(w, e) == if e in w.place then {w.place[e]} else {})
            && (forall c :: c in w.pool ==> w.pool[c].clientsCount == |w.pool[c].entities * w.clients|)
            && var ks := KeepAll(w.keepers, w.keepOps);
               ks.Running? && Distinct(ks.value) && forall e :: e in ks.value <==> e in w.updaters && e in w.place
  {
    var w := Run(s, evs).value.w;
    assert PeopleOk(w) by { EveryRunIsSafe(s, evs); }
    HeldOnce(w);
  }

  // ---------- Clusters ----------

  /** The one way in which two adjacent cells can fail to be joined in the graph that Map::update groups: both
      were there before and in sight of an updater, but neither held one. They are at the fringe. */
  ghost predicate Fringe(w: World, c: CellId, n: CellId) {
    && c in w.current && n in w.current && c in Sight(w) && n in Sight(w)
    && !UpdaterIn(w, c) && !UpdaterIn(w, n)
  }

  ghost predicate Joined(w: World, v: World, c: CellId, n: CellId) {
    c in v.pool && n in v.pool && c != n && Near(v.pool[c].at, v.pool[n].at) && !Fringe(w, c, n)
  }

  /** Before the update a cell that is a vertex is the centre of its surroundings, unless it is only in sight. */
  lemma CentreBefore(w: World, c: CellId, n: CellId)
    requires IdleOk(w) && c in w.current && n in w.current && c in w.pool && n in w.pool
    requires c != n && Near(w.pool[n].at, w.pool[c].at)
    ensures (c, n) in w.links <==> UpdaterIn(w, c) || c !in Sight(w)
  {
    assert (c, n) in w.links <==> Wire(w, c, n);
    assert FlagsOk(w, w.ops);
  }

  lemma UpdateExtends(w: World)
    requires IdleOk(w) && SpawnsClear(w) && MapUpdate(w).Running?
    ensures Extends(w, MapUpdate(w).value)
  {
    var u := w.(ops := []);
    assert Core(u, w.ops) && Vacated(u, w.ops) by { QueueIsReady(w); }
    var x := ExecAll(u, w.ops).value;
    assert Extends(u, x) by { ExecAllExtends(u, w.ops); }
    ExtendsRegardless(w, [], x, x.current);
  }

  lemma ExtendsRegardless(w: World, ops: seq<MapOp>, x: World, bucketed: set<CellId>)
    requires Extends(w.(ops := ops), x)
    ensures Extends(w, x.(bucketed := bucketed))
  {
    forall a, b | a in x.current && b in x.current && (a !in w.current || b !in w.current)
      ensures Meets(x.(bucketed := bucketed), a, b)
    {
      assert Meets(x, a, b);
    }
  }

  /** Two cells that were vertices before the update. */
  lemma OldPair(w: World, v: World, c: CellId, n: CellId)
    requires IdleOk(w) && Extends(w, v) && LinksOk(v) && c in w.current && n in w.current
    ensures Adjacent(v.links, c, n) <==> Joined(w, v, c, n)
  {
    assert c in w.pool && n in w.pool && c in v.pool && n in v.pool by { assert FlagsOk(w, w.ops); }
    NearIsDistanceOne(v.pool[c].at, v.pool[n].at);
    if c != n && Near(v.pool[c].at, v.pool[n].at) {
      CentreBefore(w, c, n);
      CentreBefore(w, n, c);
    }
  }

  /** Two cells of which one is new among the vertices. */
  lemma NewPair(w: World, v: World, c: CellId, n: CellId)
    requires Extends(w, v) && LinksOk(v) && v.current == v.pool.Keys && (c !in w.current || n !in w.current)
    ensures Adjacent(v.links, c, n) <==> Joined(w, v, c, n)
  {
    if c in v.pool && n in v.pool {
      NearIsDistanceOne(v.pool[c].at, v.pool[n].at);
      assert Meets(v, c, n);
    }
  }

  /** Exactly which cells the graph joins when Map::update groups it: every two that are adjacent, but for a fringe.
      So every centre of touchWithNeighbours, be it the cell of a keeper, a stalled one or one created meanwhile,
      is joined to all its live neighbours. */
  lemma GraphAfterUpdate(w: World, c: CellId, n: CellId)
    requires IdleOk(w) && SpawnsClear(w) && MapUpdate(w).Running?
    ensures Adjacent(MapUpdate(w).value.links, c, n) <==> Joined(w, MapUpdate(w).value, c, n)
  {
    var v := MapUpdate(w).value;
    UpdateExtends(w);
    assert v.current == v.pool.Keys && LinksOk(v) by {
      MapUpdateKeepsInv(w);
      BusyIsCalm(v);
    }
    if c in w.current && n in w.current {
      OldPair(w, v, c, n);
    } else {
      NewPair(w, v, c, n);
    }
  }

  lemma JoinedConnects(w: World, c: CellId, n: CellId)
    requires IdleOk(w) && SpawnsClear(w) && MapUpdate(w).Running? && Joined(w, MapUpdate(w).value, c, n)
    ensures Connected(MapUpdate(w).value.links, c, n)
  {
    GraphAfterUpdate(w, c, n);
    AdjacentConnected(MapUpdate(w).value.links, c, n);
  }

  /** Two keepers with a live common neighbour, even one created in this update, are connected. */
  lemma KeepersWithCommonNeighbourConnect(w: World, k: EntityId, l: EntityId, n: CellId)
    requires IdleOk(w) && SpawnsClear(w) && MapUpdate(w).Running?
    requires k in w.keepers && l in w.keepers && n in MapUpdate(w).value.pool
    ensures k in w.place && w.place[k] in w.pool && l in w.place && w.place[l] in w.pool
    ensures var v := MapUpdate(w).value;
            && w.place[k] in v.pool && w.place[l] in v.pool
            && (Near(v.pool[n].at, v.pool[w.place[k]].at) && Near(v.pool[n].at, v.pool[w.place[l]].at) ==>
                  Connected(v.links, w.place[k], n) && Connected(v.links, w.place[k], w.place[l]))
  {
    var v := MapUpdate(w).value;
    KeeperConnects(w, k, n);
    KeeperConnects(w, l, n);
    if Near(v.pool[n].at, v.pool[w.place[k]].at) && Near(v.pool[n].at, v.pool[w.place[l]].at) {
      ConnectedSymmetric(v.links, w.place[l], n);
      ConnectedTransitive(v.links, w.place[k], n, w.place[l]);
    }
  }

  lemma KeeperConnects(w: World, k: EntityId, n: CellId)
    requires IdleOk(w) && SpawnsClear(w) && MapUpdate(w).Running?
    requires k in w.keepers && n in MapUpdate(w).value.pool
    ensures k in w.place && w.place[k] in w.pool && w.place[k] in MapUpdate(w).value.pool
    ensures var v := MapUpdate(w).value;
            Near(v.pool[n].at, v.pool[w.place[k]].at) ==> Connected(v.links, w.place[k], n)
  {
    var v := MapUpdate(w).value;
    KeeperStands(w, k);
    var c := w.place[k];
    UpdateExtends(w);
    assert c in v.pool;
    if n == c {
      ConnectedToItself(v.links, c);
    } else if Near(v.pool[n].at, v.pool[c].at) {
      NearIsDistanceOne(v.pool[n].at, v.pool[c].at);
      JoinedConnects(w, c, n);
    }
  }

  lemma KeeperStands(w: World, k: EntityId)
    requires IdleOk(w) && k in w.keepers
    ensures k in w.place && w.place[k] in w.pool && w.place[k] in w.current && UpdaterIn(w, w.place[k])
  {
    assert KeepersAre(w, w.keepers);
    SightOfUpdaters(w);
    assert w.place[k] in Sight(w);
    assert FlagsOk(w, w.ops);
  }
}
