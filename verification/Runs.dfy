/** Runs of the server loop: which requests may be made when (the hypothesis H), and what every run keeps. */
module Runs {
  import opened Hex
  import opened World
  import opened Invariants
  import opened Operations
  import opened Creations
  import opened Ticks
  import opened TickProofs

  /** One thing that happens to the map. `order` is the order in which _stallCells happens to be iterated. */
  datatype Event =
    | Spawn(at: Coord, who: EntityId)     // Map::addTo(offset, entity, nullptr)
    | Despawn(at: Coord, who: EntityId)   // Map::removeFrom(cell, entity, nullptr)
    | Move(who: EntityId, to: Coord)      // Map::onMove, from the entity's own update
    | Update                              // Map::update
    | Cleanup(elapsed: nat, order: seq<CellId>)  // Map::cleanup

  /** `busy` holds from a Map::update to the Map::cleanup of the same tick. */
  datatype Server = Server(busy: bool, w: World)

  ghost predicate Inv(s: Server) {
    if s.busy then BusyOk(s.w) else IdleOk(s.w)
  }

  /** Nothing after position i of the queue removes the entity, up to position j. */
  predicate Stays(ops: seq<MapOp>, e: EntityId, i: int, j: int) {
    forall k :: i < k < j && 0 <= k < |ops| && ops[k].Remove? ==> ops[k].who != e
  }

  /** An updater spawned, by an ADD already queued, on a cell whose DESTROY is queued behind it is removed in
      between. */
  ghost predicate SpawnsClear(w: World) {
    forall i, j :: 0 <= i < j < |w.ops| && w.ops[i].Add? && w.ops[i].from.None? && w.ops[i].who in w.updaters
                   && w.ops[j].Destroy? && w.ops[i].at == w.ops[j].at ==>
      !Stays(w.ops, w.ops[i].who, i, j)
  }

  /** The run hypothesis H. (a) update and cleanup alternate, and entities move in between. (b) The guard of touch
      is not assumed to hold: a run that violates it is legal, and stops there. (c) The requests of an updater
      alternate: it is added where its earlier requests leave it outside the map, removed from where they leave it,
      and moves only to the same or an adjacent cell; SpawnsClear. (d) `updaters` and `clients` never change, and
      every client is an updater (Initial). */
  ghost predicate Legal(s: Server, ev: Event) {
    var w := s.w;
    match ev
    case Spawn(_, e) => e in w.updaters ==> Where(w.ops, e, Standing(w, e)) == None
    case Despawn(o, e) => e in w.updaters ==> Where(w.ops, e, Standing(w, e)) == Some(o)
    case Move(e, o) =>
      && s.busy && e in w.place && w.place[e] in w.pool && Near(o, w.pool[w.place[e]].at)
      && (e in w.updaters ==> Where(w.ops, e, Standing(w, e)) == Standing(w, e))
    case Update => !s.busy && SpawnsClear(w)
    case Cleanup(elapsed, order) =>
      s.busy && var r := CleanupAndRegroup(w, elapsed); r.Running? ==> Enumerates(order, Expired(r.value))
  }

  ghost function Push(w: World, op: MapOp): World {
    w.(ops := w.ops + [op])
  }

  ghost function Step(s: Server, ev: Event): Outcome<Server>
    requires Legal(s, ev)
  {
    match ev
    case Spawn(o, e) => Running(s.(w := Push(s.w, Add(o, e, None))))
    case Despawn(o, e) => Running(s.(w := Push(s.w, Remove(o, e, None))))
    case Move(e, o) =>
      var w1 :- OnMove(s.w, e, o);
      Running(s.(w := w1))
    case Update =>
      var w1 :- MapUpdate(s.w);
      Running(Server(true, w1))
    case Cleanup(elapsed, order) =>
      var w1 :- MapCleanup(s.w, elapsed, order);
      Running(Server(false, w1))
  }

  ghost predicate LegalRun(s: Server, evs: seq<Event>)
    decreases |evs|
  {
    evs == [] || (Legal(s, evs[0]) && var r := Step(s, evs[0]); r.Running? ==> LegalRun(r.value, evs[1..]))
  }

  ghost function Run(s: Server, evs: seq<Event>): Outcome<Server>
    requires LegalRun(s, evs)
    decreases |evs|
  {
    if evs == [] then Running(s)
    else
      var s1 :- Step(s, evs[0]);
      Run(s1, evs[1..])
  }

  // ---------- Requests ----------

  lemma {:induction false} AlternatesAppend(ops: seq<MapOp>, op: MapOp, e: EntityId, at: Option<Coord>)
    ensures Where(ops + [op], e, at) == After(op, e, Where(ops, e, at))
    ensures Alternates(ops + [op], e, at) <==> Alternates(ops, e, at) && Fits(op, e, Where(ops, e, at))
    decreases |ops|
  {
    if ops == [] {
      assert ops + [op] == [op] && [op][1..] == [];
    } else {
      assert (ops + [op])[1..] == ops[1..] + [op];
      AlternatesAppend(ops[1..], op, e, After(ops[0], e, at));
    }
  }

  lemma DoomedAppend(ops: seq<MapOp>, op: MapOp, c: CellId)
    requires !op.Destroy?
    ensures Doomed(ops + [op], c) <==> Doomed(ops, c)
  {
    var all := ops + [op];
    if Doomed(ops, c) {
      var i :| 0 <= i < |ops| && ops[i].Destroy? && ops[i].cell == c;
      assert all[i] == ops[i];
    }
    if Doomed(all, c) {
      var i :| 0 <= i < |all| && all[i].Destroy? && all[i].cell == c;
      assert i < |ops| && all[i] == ops[i];
    }
  }

  lemma PushKeepsCells(w: World, op: MapOp)
    requires CellsOk(w, w.ops) && !op.Destroy?
    ensures CellsOk(Push(w, op), Push(w, op).ops)
  {
    forall c
      ensures Doomed(Push(w, op).ops, c) <==> Doomed(w.ops, c)
    {
      DoomedAppend(w.ops, op, c);
    }
  }

  lemma PushKeepsAlternation(w: World, op: MapOp)
    requires QueueAlternates(w, w.ops) && !op.Destroy?
    requires op.who in w.updaters ==> Fits(op, op.who, Where(w.ops, op.who, Standing(w, op.who)))
    ensures QueueAlternates(Push(w, op), Push(w, op).ops)
  {
    var v := Push(w, op);
    forall e | e in v.updaters
      ensures Alternates(v.ops, e, Standing(v, e))
    {
      assert Standing(v, e) == Standing(w, e);
      AlternatesAppend(w.ops, op, e, Standing(w, e));
    }
  }

  lemma PushKeepsPeople(w: World, op: MapOp)
    requires PeopleOk(w)
    ensures PeopleOk(Push(w, op))
  {
    SameEntitiesKeepPeople(w, Push(w, op));
    assert KeepersAre(Push(w, op), KeepAll(w.keepers, w.keepOps).value);
  }

  lemma PushKeepsCore(w: World, op: MapOp)
    requires Core(w, w.ops) && !op.Destroy? && OpOk(w, op)
    requires op.who in w.updaters ==> Fits(op, op.who, Where(w.ops, op.who, Standing(w, op.who)))
    requires Pointee(op).Some? ==> forall i :: 0 <= i < |w.ops| ==> !w.ops[i].Destroy?
    ensures Core(Push(w, op), Push(w, op).ops)
  {
    PushKeepsCells(w, op);
    PushKeepsPeople(w, op);
    PushKeepsParams(w, op);
    PushKeepsAlternation(w, op);
  }

  lemma PushKeepsParams(w: World, op: MapOp)
    requires ParamsOk(w, w.ops) && !op.Destroy? && OpOk(w, op)
    requires Pointee(op).Some? ==> forall i :: 0 <= i < |w.ops| ==> !w.ops[i].Destroy?
    ensures ParamsOk(Push(w, op), Push(w, op).ops)
  {
    var v := Push(w, op);
    forall i | 0 <= i < |v.ops|
      ensures OpOk(v, v.ops[i])
    {
      if i < |w.ops| {
        assert OpOk(w, w.ops[i]);
      }
    }
  }

  lemma PushKeepsAnchored(w: World, op: MapOp)
    requires Anchored(w) && Pointee(op).None?
    ensures Anchored(Push(w, op))
  {
  }

  lemma PushKeepsIdle(w: World, op: MapOp)
    requires IdleOk(w) && Core(Push(w, op), Push(w, op).ops) && Anchored(Push(w, op))
    ensures IdleOk(Push(w, op))
  {
    SightUnchanged(w, Push(w, op));
  }

  lemma PushKeepsInv(s: Server, op: MapOp)
    requires Inv(s) && (op.Add? || op.Remove?) && Pointee(op).None?
    requires op.who in s.w.updaters ==> Fits(op, op.who, Where(s.w.ops, op.who, Standing(s.w, op.who)))
    ensures Inv(s.(w := Push(s.w, op)))
  {
    PushKeepsCore(s.w, op);
    PushKeepsAnchored(s.w, op);
    if !s.busy {
      PushKeepsIdle(s.w, op);
    }
  }

  // ---------- Moves ----------

  lemma GrownKeepsAnchored(w: World, v: World)
    requires Anchored(w) && Grown(w, v)
    ensures Anchored(v)
  {
  }

  lemma GrownKeepsBuckets(w: World, v: World)
    requires Grown(w, v) && w.bucketed <= w.pool.Keys
    requires forall c :: c in w.pool && w.pool[c].registered ==> c in w.bucketed
    ensures v.bucketed <= v.pool.Keys
    ensures forall c :: c in v.pool && v.pool[c].registered ==> c in v.bucketed
  {
  }

  /** Everything that a busy world says about a world grown from it by new cells. */
  lemma GrownKeepsBusy(w: World, v: World)
    requires BusyOk(w) && Grown(w, v) && Core(v, v.ops)
    ensures BusyOk(v)
  {
    GrownKeepsAnchored(w, v);
    GrownKeepsBuckets(w, v);
  }

  lemma PushKeepsBusy(w: World, op: MapOp)
    requires BusyOk(w) && !op.Destroy? && OpOk(w, op)
    requires op.who in w.updaters ==> Fits(op, op.who, Where(w.ops, op.who, Standing(w, op.who)))
    requires op.Add? && op.from.Some? ==> op.who in w.place && w.place[op.who] == op.from.value && op.at in w.cells
    ensures BusyOk(Push(w, op))
  {
    PushKeepsCore(w, op);
  }

  lemma MovePushed(w: World, e: EntityId, c: CellId)
    requires BusyOk(w) && e in w.place && w.place[e] in w.pool && c in w.pool && c != w.place[e]
    requires Near(w.pool[c].at, w.pool[w.place[e]].at)
    requires e in w.updaters ==> Where(w.ops, e, Standing(w, e)) == Standing(w, e)
    ensures var a := w.place[e];
            BusyOk(Push(Push(w, Remove(w.pool[a].at, e, Some(c))), Add(w.pool[c].at, e, Some(a))))
  {
    var a := w.place[e];
    var leave, enter := Remove(w.pool[a].at, e, Some(c)), Add(w.pool[c].at, e, Some(a));
    NearIsDistanceOne(w.pool[c].at, w.pool[a].at);
    assert w.pool[c].at != w.pool[a].at && w.pool[c].at in w.cells by { assert TableOk(w); }
    PushKeepsBusy(w, leave);
    var u := Push(w, leave);
    if e in w.updaters {
      assert Alternates(w.ops, e, Standing(w, e));
      AlternatesAppend(w.ops, leave, e, Standing(w, e));
      assert Standing(u, e) == Standing(w, e);
    }
    assert OpOk(u, enter);
    PushKeepsBusy(u, enter);
  }

  /** Between Map::update and Map::cleanup nothing is on cooldown, so nothing is in the way of a new cell. */
  lemma BusyCreates(w: World, o: Coord)
    requires BusyOk(w)
    ensures var r := GetOrCreate(w, o);
            && r.Running? && BusyOk(r.value) && Grown(w, r.value)
            && r.value.cells[o] in r.value.pool && r.value.pool[r.value.cells[o]].at == o
  {
    BusyIsCalm(w);
    CreationStopsIff(w, o, w.ops);
    GetOrCreateKeepsCore(w, o, w.ops);
    GrownKeepsBusy(w, GetOrCreate(w, o).value);
    assert TableOk(GetOrCreate(w, o).value);
  }

  /** What makes a move legal is still so when its cell has been created. */
  lemma MoveStaysLegal(w: World, u: World, e: EntityId, o: Coord)
    requires Grown(w, u) && UpdatersOk(w) && Legal(Server(true, w), Move(e, o))
    ensures e in u.place && u.place[e] in u.pool && Near(o, u.pool[u.place[e]].at)
    ensures e in u.updaters ==> Where(u.ops, e, Standing(u, e)) == Standing(u, e)
  {
    assert e in w.updaters ==> Standing(u, e) == Standing(w, e);
  }

  /** But for the queue, a move does what the creation of its cell does. */
  lemma OnMoveOnlyQueues(w: World, e: EntityId, o: Coord)
    requires OnMove(w, e, o).Running?
    ensures GetOrCreate(w, o).Running?
    ensures OnMove(w, e, o).value == GetOrCreate(w, o).value.(ops := OnMove(w, e, o).value.ops)
  {
  }

  /** A move between two cells, once both are there. */
  lemma MoveQueues(w: World, u: World, e: EntityId, o: Coord)
    requires GetOrCreate(w, o) == Running(u) && o in u.cells && u.cells[o] in u.pool
    requires e in u.place && u.place[e] in u.pool
    ensures var a, c := u.place[e], u.cells[o];
            OnMove(w, e, o) ==
            if c == a then Running(u)
            else Running(Push(Push(u, Remove(u.pool[a].at, e, Some(c))), Add(u.pool[c].at, e, Some(a))))
  {
    var a, c := u.place[e], u.cells[o];
    assert u.ops + [Remove(u.pool[a].at, e, Some(c))] + [Add(u.pool[c].at, e, Some(a))]
        == u.ops + [Remove(u.pool[a].at, e, Some(c)), Add(u.pool[c].at, e, Some(a))];
  }

  /** The operations that a move to `o` queues: none to the cell where the entity is, otherwise the REMOVE at its old
      offset with the new cell, and then the ADD at the new offset with the old cell. */
  ghost predicate QueuesMove(w: World, e: EntityId, o: Coord, v: World)
    requires e in w.place && w.place[e] in w.pool
  {
    var a := w.place[e];
    && o in v.cells && v.cells[o] in v.pool && v.pool[v.cells[o]].at == o && v.place == w.place
    && v.ops == if w.pool[a].at == o then w.ops
                else w.ops + [Remove(w.pool[a].at, e, Some(v.cells[o])), Add(o, e, Some(a))]
  }

  lemma MoveIsQueued(w: World, u: World, e: EntityId, o: Coord)
    requires Grown(w, u) && TableOk(u) && GetOrCreate(w, o) == Running(u) && o in u.cells
    requires e in w.place && w.place[e] in w.pool
    ensures OnMove(w, e, o).Running? && QueuesMove(w, e, o, OnMove(w, e, o).value)
  {
    var a := w.place[e];
    assert a in u.pool && u.pool[a].at == w.pool[a].at && u.cells[u.pool[a].at] == a;
    assert u.pool[u.cells[o]].at == o;
  }

  /** A move never stops. It leaves the entity where it is and queues that it goes over. */
  lemma OnMoveKeepsInv(w: World, e: EntityId, o: Coord)
    requires BusyOk(w) && Legal(Server(true, w), Move(e, o))
    ensures OnMove(w, e, o).Running? && BusyOk(OnMove(w, e, o).value)
    ensures QueuesMove(w, e, o, OnMove(w, e, o).value)
  {
    BusyCreates(w, o);
    var u := GetOrCreate(w, o).value;
    MoveStaysLegal(w, u, e, o);
    MoveQueues(w, u, e, o);
    assert TableOk(u);
    MoveIsQueued(w, u, e, o);
    if u.cells[o] != u.place[e] {
      MovePushed(u, e, u.cells[o]);
    }
  }

  // ---------- Map::update ----------

  /** The DESTROY at position j, if it is one, finds the entity elsewhere. */
  predicate LeavesBy(ops: seq<MapOp>, e: EntityId, at: Option<Coord>, j: nat)
    requires j < |ops|
  {
    ops[j].Destroy? ==> Where(ops[..j], e, at) != Some(ops[j].at)
  }

  lemma {:induction false} LeavesByEach(ops: seq<MapOp>, e: EntityId, at: Option<Coord>)
    ensures Leaves(ops, e, at) <==> forall j :: 0 <= j < |ops| ==> LeavesBy(ops, e, at, j)
    decreases |ops|
  {
    if ops != [] {
      var rest, next := ops[1..], After(ops[0], e, at);
      LeavesByEach(rest, e, next);
      forall j | 0 < j < |ops|
        ensures LeavesBy(ops, e, at, j) <==> LeavesBy(rest, e, next, j - 1)
      {
        assert ops[..j][1..] == rest[..j - 1] && ops[..j][0] == ops[0];
      }
      assert LeavesBy(ops, e, at, 0) <==> (ops[0].Destroy? ==> at != Some(ops[0].at));
      assert forall k :: 0 <= k < |rest| ==> (LeavesBy(rest, e, next, k) <==> LeavesBy(ops, e, at, k + 1));
    }
  }

  /** What brought the entity to `x`: its last ADD, unless it was there from the start. */
  lemma {:induction false} LastAdd(ops: seq<MapOp>, e: EntityId, at: Option<Coord>, x: Coord) returns (i: int)
    requires Where(ops, e, at) == Some(x)
    ensures i == -1 ==> at == Some(x)
    ensures i != -1 ==> 0 <= i < |ops| && ops[i].Add? && ops[i].who == e && ops[i].at == x && Stays(ops, e, i, |ops|)
    decreases |ops|
  {
    i := -1;
    if ops != [] {
      var n := |ops| - 1;
      assert ops == ops[..n] + [ops[n]];
      AlternatesAppend(ops[..n], ops[n], e, at);
      if ops[n].Add? && ops[n].who == e {
        i := n;
      } else {
        i := LastAdd(ops[..n], e, at, x);
      }
    }
  }

  /** An entity that was added and not removed since is where it was added. */
  lemma {:induction false} StillThere(ops: seq<MapOp>, e: EntityId, at: Option<Coord>, i: nat)
    requires Alternates(ops, e, at) && i < |ops| && ops[i].Add? && ops[i].who == e && Stays(ops, e, i, |ops|)
    ensures Where(ops, e, at) == Some(ops[i].at)
    decreases |ops|
  {
    var n := |ops| - 1;
    assert ops == ops[..n] + [ops[n]];
    AlternatesAppend(ops[..n], ops[n], e, at);
    if i < n {
      StillThere(ops[..n], e, at, i);
    }
  }

  lemma {:induction false} PrefixAlternates(ops: seq<MapOp>, e: EntityId, at: Option<Coord>, j: nat)
    requires Alternates(ops, e, at) && j <= |ops|
    ensures Alternates(ops[..j], e, at)
    decreases |ops|
  {
    if j < |ops| {
      var n := |ops| - 1;
      assert ops == ops[..n] + [ops[n]];
      AlternatesAppend(ops[..n], ops[n], e, at);
      PrefixAlternates(ops[..n], e, at, j);
      assert ops[..n][..j] == ops[..j];
    } else {
      assert ops[..j] == ops;
    }
  }

  /** An updater that moves is not heading for a doomed cell: the cell it leaves still has it in sight. */
  lemma MoveIsClear(w: World, i: int, j: int)
    requires IdleOk(w) && 0 <= i < j < |w.ops|
    requires w.ops[i].Add? && w.ops[i].who in w.updaters && w.ops[i].from.Some? && w.ops[j].Destroy?
    ensures w.ops[i].at != w.ops[j].at
  {
    var c := w.cells[w.ops[i].at];
    assert OpOk(w, w.ops[i]) && OpOk(w, w.ops[j]);
    assert SeenBy(w, c, w.ops[i].who);
    assert c in Sight(w) && !w.pool[c].cooldown;
    assert Doomed(w.ops, w.ops[j].cell);
  }

  /** Nor does an updater stand on one. */
  lemma StandingIsClear(w: World, e: EntityId, j: int)
    requires IdleOk(w) && 0 <= j < |w.ops| && w.ops[j].Destroy? && e in w.updaters
    ensures Standing(w, e) != Some(w.ops[j].at)
  {
    assert OpOk(w, w.ops[j]);
    if e in w.place {
      assert SeenBy(w, w.place[e], e);
      assert w.place[e] in Sight(w) && !w.pool[w.place[e]].cooldown;
      assert Doomed(w.ops, w.ops[j].cell);
    }
  }

  lemma AddedOnClear(w: World, i: nat, j: nat)
    requires IdleOk(w) && SpawnsClear(w) && i < j < |w.ops| && w.ops[i].Add? && w.ops[i].who in w.updaters
    requires w.ops[j].Destroy? && w.ops[i].at == w.ops[j].at
    ensures !Stays(w.ops, w.ops[i].who, i, j)
  {
    if w.ops[i].from.Some? {
      MoveIsClear(w, i, j);
    }
  }

  lemma SpawnLeaves(w: World, e: EntityId, j: nat)
    requires IdleOk(w) && SpawnsClear(w) && j < |w.ops| && e in w.updaters
    ensures LeavesBy(w.ops, e, Standing(w, e), j)
  {
    var front := w.ops[..j];
    assert forall k :: 0 <= k < j ==> front[k] == w.ops[k];
    if w.ops[j].Destroy? {
      StandingIsClear(w, e, j);
      if Where(front, e, Standing(w, e)) == Some(w.ops[j].at) {
        var i := LastAdd(front, e, Standing(w, e), w.ops[j].at);
        AddedOnClear(w, i, j);
      }
    }
  }

  lemma SpawnStays(w: World, i: nat, j: nat)
    requires QueueAlternates(w, w.ops) && i < j < |w.ops| && w.ops[i].Add? && w.ops[i].who in w.updaters
    requires w.ops[j].Destroy? && w.ops[i].at == w.ops[j].at && Stays(w.ops, w.ops[i].who, i, j)
    ensures !LeavesBy(w.ops, w.ops[i].who, Standing(w, w.ops[i].who), j)
  {
    var e := w.ops[i].who;
    var front := w.ops[..j];
    assert Alternates(w.ops, e, Standing(w, e));
    PrefixAlternates(w.ops, e, Standing(w, e), j);
    assert front[i] == w.ops[i] && Stays(front, e, i, |front|);
    StillThere(front, e, Standing(w, e), i);
  }

  /** Exactly which queues leave no updater on a cell when its DESTROY is reached: those whose spawns are clear.
      Moves, and updaters that stay where they are, never do. */
  lemma VacatedIff(w: World)
    requires IdleOk(w)
    ensures Vacated(w, w.ops) <==> SpawnsClear(w)
  {
    forall e | e in w.updaters
      ensures SpawnsClear(w) ==> Leaves(w.ops, e, Standing(w, e))
    {
      LeavesByEach(w.ops, e, Standing(w, e));
      if SpawnsClear(w) {
        forall j | 0 <= j < |w.ops|
          ensures LeavesBy(w.ops, e, Standing(w, e), j)
        {
          SpawnLeaves(w, e, j);
        }
      }
    }
    if Vacated(w, w.ops) {
      forall i, j | 0 <= i < j < |w.ops| && w.ops[i].Add? && w.ops[i].from.None? && w.ops[i].who in w.updaters
                    && w.ops[j].Destroy? && w.ops[i].at == w.ops[j].at
        ensures !Stays(w.ops, w.ops[i].who, i, j)
      {
        var e := w.ops[i].who;
        assert Leaves(w.ops, e, Standing(w, e));
        LeavesByEach(w.ops, e, Standing(w, e));
        if Stays(w.ops, e, i, j) {
          SpawnStays(w, i, j);
        }
      }
    }
  }

  lemma CellsIgnoreOwnQueue(w: World, ops: seq<MapOp>, rest: seq<MapOp>)
    requires CellsOk(w, rest)
    ensures CellsOk(w.(ops := ops), rest)
  {
  }

  lemma PeopleIgnoreOwnQueue(w: World, ops: seq<MapOp>)
    requires PeopleOk(w)
    ensures PeopleOk(w.(ops := ops))
  {
    SameEntitiesKeepPeople(w, w.(ops := ops));
    assert KeepersAre(w.(ops := ops), KeepAll(w.keepers, w.keepOps).value);
  }

  lemma CoreIgnoresOwnQueue(w: World, ops: seq<MapOp>, rest: seq<MapOp>)
    requires Core(w, rest)
    ensures Core(w.(ops := ops), rest)
  {
    var v := w.(ops := ops);
    CellsIgnoreOwnQueue(w, ops, rest);
    PeopleIgnoreOwnQueue(w, ops);
    assert forall i :: 0 <= i < |rest| ==> OpOk(w, rest[i]) ==> OpOk(v, rest[i]);
    assert forall e :: Standing(v, e) == Standing(w, e);
  }

  lemma VacatedIgnoresOwnQueue(w: World, ops: seq<MapOp>)
    requires Vacated(w, w.ops)
    ensures Vacated(w.(ops := ops), w.ops)
  {
    assert forall e :: Standing(w.(ops := ops), e) == Standing(w, e);
  }

  /** Map::update starts to drain a queue that no updater will be caught by. */
  lemma QueueIsReady(w: World)
    requires IdleOk(w) && SpawnsClear(w)
    ensures Core(w.(ops := []), w.ops) && Vacated(w.(ops := []), w.ops)
  {
    VacatedIff(w);
    VacatedIgnoresOwnQueue(w, []);
    CoreIgnoresOwnQueue(w, [], w.ops);
  }

  lemma MapUpdateKeepsInv(w: World)
    requires IdleOk(w) && SpawnsClear(w)
    ensures match MapUpdate(w)
            case Running(v) => BusyOk(v) && v.ops == [] && w.links <= v.links
            case Stopped(f) => f == TouchedCooldown
  {
    QueueIsReady(w);
    var u := w.(ops := []);
    ExecAllKeepsCore(u, w.ops);
    var r := ExecAll(u, w.ops);
    if r.Running? {
      BucketsKeepCore(r.value);
    }
  }

  lemma BucketsKeepCells(v: World, x: World)
    requires x == v.(bucketed := v.current) && CellsOk(v, [])
    ensures CellsOk(x, [])
  {
  }

  lemma BucketsKeepPeople(v: World, x: World)
    requires x == v.(bucketed := v.current) && PeopleOk(v)
    ensures PeopleOk(x)
  {
    SameEntitiesKeepPeople(v, x);
    assert KeepersAre(x, KeepAll(v.keepers, v.keepOps).value);
  }

  lemma BucketsKeepCore(v: World)
    requires Core(v, []) && v.ops == []
    ensures BusyOk(v.(bucketed := v.current))
  {
    var x := v.(bucketed := v.current);
    BucketsKeepCells(v, x);
    BucketsKeepPeople(v, x);
    assert forall e :: Standing(x, e) == Standing(v, e);
    assert forall c :: c in v.pool && v.pool[c].registered ==> c in v.current by { assert FlagsOk(v, []); }
  }

  // ---------- Every run ----------

  /** One event: the invariant again, or the guard of touch, and that only in Map::update and Map::cleanup. No
      dangling pointer, no erase of an absent element, no move without a direction. */
  lemma StepKeepsInv(s: Server, ev: Event)
    requires Inv(s) && Legal(s, ev)
    ensures match Step(s, ev)
            case Running(t) => Inv(t)
            case Stopped(f) => f == TouchedCooldown && (ev.Update? || ev.Cleanup?)
  {
    match ev
    case Spawn(o, e) => PushKeepsInv(s, Add(o, e, None));
    case Despawn(o, e) => PushKeepsInv(s, Remove(o, e, None));
    case Move(e, o) => OnMoveKeepsInv(s.w, e, o);
    case Update => MapUpdateKeepsInv(s.w);
    case Cleanup(elapsed, order) => MapCleanupKeeps(s.w, elapsed, order);
  }

  lemma {:induction false} RunKeepsInv(s: Server, evs: seq<Event>)
    requires Inv(s) && LegalRun(s, evs)
    ensures match Run(s, evs)
            case Running(t) => Inv(t)
            case Stopped(f) => f == TouchedCooldown
    decreases |evs|
  {
    if evs != [] {
      StepKeepsInv(s, evs[0]);
      var r := Step(s, evs[0]);
      if r.Running? {
        RunKeepsInv(r.value, evs[1..]);
      }
    }
  }

  ghost predicate Initial(s: Server) {
    !s.busy && s.w == EmptyWorld(s.w.alloc, s.w.updaters, s.w.clients) && Allocates(s.w) && s.w.clients <= s.w.updaters
  }

  lemma InitialIsIdle(s: Server)
    requires Initial(s)
    ensures Inv(s)
  {
    assert KeepersAre(s.w, []);
    assert Sight(s.w) == {};
  }

  /** Memory safety of every run of the server: the only way a run can stop is the guard of touch. */
  lemma EveryRunIsSafe(s: Server, evs: seq<Event>)
    requires Initial(s) && LegalRun(s, evs)
    ensures match Run(s, evs)
            case Running(t) => Inv(t)
            case Stopped(f) => f == TouchedCooldown
  {
    InitialIsIdle(s);
    RunKeepsInv(s, evs);
  }
}
