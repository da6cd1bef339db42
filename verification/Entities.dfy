/** Which cell holds which entity, updater or not, field by field: what ADD, REMOVE and DESTROY do to it, and what a
    whole run makes of all the requests. */
module Entities {
  import opened Hex
  import opened World
  import opened Invariants
  import opened Operations
  import opened Creations
  import opened Ticks
  import opened TickProofs
  import opened Runs

  // ---------- What the creation of cells leaves alone, on any map ----------

  /** The allocator and the table are in order, as the constructors of Map leave them. */
  ghost predicate Ordered(w: World) {
    Allocates(w) && TableOk(w)
  }

  ghost predicate GrowsInto(w: World, v: World) {
    Grown(w, v) && Ordered(v)
  }

  lemma GetOrCreateGrows(w: World, o: Coord)
    requires Ordered(w) && GetOrCreate(w, o).Running?
    ensures var v := GetOrCreate(w, o).value;
            GrowsInto(w, v) && v.cells[o] in v.pool && v.pool[v.cells[o]].at == o
  {
    if o !in w.cells {
      CreationIsGrown(w, o);
    }
  }

  lemma {:induction false} EnsureCellsGrows(w: World, os: seq<Coord>)
    requires Ordered(w) && EnsureCells(w, os).Running?
    ensures var v := EnsureCells(w, os).value; GrowsInto(w, v) && forall o :: o in os ==> o in v.cells
    decreases |os|
  {
    if os != [] {
      GetOrCreateGrows(w, os[0]);
      var u := GetOrCreate(w, os[0]).value;
      EnsureCellsGrows(u, os[1..]);
      GrownTransitive(w, u, EnsureCells(w, os).value);
    }
  }

  /** All cells within distance 1 of `o` are there, but for those also within distance 1 of `behind`. */
  ghost predicate Surrounded(v: World, o: Coord, behind: Option<Coord>) {
    forall n :: Near(n, o) && (behind.Some? ==> !Near(n, behind.value)) ==> n in v.cells
  }

  lemma SiblingsSurround(v: World, o: Coord)
    requires o in v.cells && forall n :: n in Siblings(o) ==> n in v.cells
    ensures Surrounded(v, o, None)
  {
    forall n | Near(n, o)
      ensures n in v.cells
    {
      SiblingsAreTheRing(o, n);
    }
  }

  lemma ExcludingGrows(w: World, c: CellId, exclude: Option<CellId>)
    requires Ordered(w) && EnsureExcluding(w, c, exclude).Running?
    ensures c in w.pool && GrowsInto(w, EnsureExcluding(w, c, exclude).value)
    ensures var v := EnsureExcluding(w, c, exclude).value; Surrounded(v, w.pool[c].at, PlaceOf(v, exclude))
  {
    var o, v := w.pool[c].at, EnsureExcluding(w, c, exclude).value;
    if exclude.None? {
      EnsureCellsGrows(w, Siblings(o));
      SiblingsSurround(v, o);
    } else {
      var x := w.pool[exclude.value].at;
      EnsureCellsGrows(w, Ahead(o, x));
      DirectionIndexInverts(o, x);
      AheadIsTheDifference(o, x);
      assert PlaceOf(v, exclude) == Some(x);
    }
  }

  lemma SurroundedStays(u: World, v: World, o: Coord, behind: Option<Coord>)
    requires Surrounded(u, o, behind) && Grown(u, v)
    ensures Surrounded(v, o, behind)
  {
  }

  lemma ArriveGrows(w: World, c: CellId, from: Option<CellId>)
    requires Ordered(w) && Arrive(w, c, from).Running?
    ensures c in w.pool && GrowsInto(w, Arrive(w, c, from).value)
    ensures var v := Arrive(w, c, from).value; Surrounded(v, w.pool[c].at, PlaceOf(v, from))
  {
    ExcludingGrows(w, c, from);
    var u, v := EnsureExcluding(w, c, from).value, Arrive(w, c, from).value;
    CheckStallGrows(u, from, c);
    GrownTransitive(w, u, v);
    SurroundedStays(u, v, w.pool[c].at, PlaceOf(u, from));
    assert PlaceOf(v, from) == PlaceOf(u, from);
  }

  lemma SettleGrows(w: World, c: CellId, e: EntityId, from: Option<CellId>)
    requires Ordered(w) && Settle(w, c, e, from).Running?
    ensures c in w.pool && GrowsInto(w, Settle(w, c, e, from).value)
    ensures var v, o := Settle(w, c, e, from).value, w.pool[c].at;
            Surrounded(v, o, PlaceOf(v, from)) && (e in w.updaters ==> Surrounded(v, o, None))
  {
    var o, u, v := w.pool[c].at, EnsureSiblings(w, c, e).value, Settle(w, c, e, from).value;
    if e in w.updaters {
      EnsureCellsGrows(w, Siblings(o));
      SiblingsSurround(u, o);
    }
    ArriveGrows(u, c, from);
    GrownTransitive(w, u, v);
    if e in w.updaters {
      SurroundedStays(u, v, o, None);
    }
  }

  // ---------- One operation ----------

  /** What an ADD leaves: the entity is in the cell at its offset and nowhere else it was not before, every other
      entity is where it was, and the cells around are there: all of them around an updater, and those that the old
      cell did not have around it in any case. */
  ghost predicate Added(w: World, o: Coord, e: EntityId, from: Option<CellId>, v: World) {
    && o in v.cells && v.cells[o] in v.pool && v.pool[v.cells[o]].at == o
    && v.place == w.place[e := v.cells[o]]
    && w.pool.Keys <= v.pool.Keys
    && (forall d :: d in v.pool ==>
          var before: set<EntityId> := if d in w.pool then w.pool[d].entities else {};
          v.pool[d].entities == if d == v.cells[o] then before + {e} else before)
    && (forall d :: d in v.pool ==>
          var before := if d in w.pool then w.pool[d].clientsCount else 0;
          v.pool[d].clientsCount == if d == v.cells[o] && e in w.clients then before + 1 else before)
    && Surrounded(v, o, PlaceOf(v, from)) && (e in w.updaters ==> Surrounded(v, o, None))
  }

  lemma EnterIsOrdered(w: World, e: EntityId, c: CellId)
    requires Ordered(w) && c in w.pool
    ensures Ordered(QueueKeep(Enter(w, e, c), Keep(e))) && Ordered(QueueKeep(Leave(w, e, c), Unkeep(e)))
  {
  }

  /** Entering a cell between two growths. */
  lemma EnteredOnFields(w: World, u: World, o: Coord, e: EntityId, v: World)
    requires Grown(w, u) && o in u.cells && u.cells[o] in u.pool
    requires Grown(QueueKeep(Enter(u, e, u.cells[o]), Keep(e)), v)
    ensures o in v.cells && v.cells[o] == u.cells[o] && v.place == w.place[e := v.cells[o]]
    ensures w.pool.Keys <= v.pool.Keys
    ensures forall d :: d in v.pool ==>
              var before: set<EntityId> := if d in w.pool then w.pool[d].entities else {};
              v.pool[d].entities == if d == v.cells[o] then before + {e} else before
    ensures forall d :: d in v.pool ==>
              var before := if d in w.pool then w.pool[d].clientsCount else 0;
              v.pool[d].clientsCount == if d == v.cells[o] && e in w.clients then before + 1 else before
  {
  }

  /** An ADD, of any entity and on any map, puts it where it says. */
  lemma AddPlaces(w: World, o: Coord, e: EntityId, from: Option<CellId>)
    requires Ordered(w) && ExecAdd(w, o, e, from).Running?
    ensures Added(w, o, e, from, ExecAdd(w, o, e, from).value) && Ordered(ExecAdd(w, o, e, from).value)
  {
    GetOrCreateGrows(w, o);
    var u, v := GetOrCreate(w, o).value, ExecAdd(w, o, e, from).value;
    var c := u.cells[o];
    EnterIsOrdered(u, e, c);
    SettleGrows(QueueKeep(Enter(u, e, c), Keep(e)), c, e, from);
    EnteredOnFields(w, u, o, e, v);
  }

  /** What a REMOVE leaves: the entity is out of the cell at its offset, and in no cell as far as it knows; every other
      entity is where it was; and the cells around are there that the new cell does not have around it. */
  ghost predicate Removed(w: World, o: Coord, e: EntityId, to: Option<CellId>, v: World)
    requires o in w.cells && w.cells[o] in w.pool
  {
    && v.place == w.place - {e}
    && w.pool.Keys <= v.pool.Keys && o in v.cells && v.cells[o] == w.cells[o]
    && (forall d :: d in v.pool ==>
          var before: set<EntityId> := if d in w.pool then w.pool[d].entities else {};
          v.pool[d].entities == if d == w.cells[o] then before - {e} else before)
    && (forall d :: d in v.pool ==>
          var before := if d in w.pool then w.pool[d].clientsCount else 0;
          v.pool[d].clientsCount == if d == w.cells[o] && e in w.clients then before - 1 else before)
    && Surrounded(v, o, PlaceOf(v, to))
  }

  lemma LeftOnFields(w: World, o: Coord, e: EntityId, v: World)
    requires o in w.cells && w.cells[o] in w.pool && Grown(QueueKeep(Leave(w, e, w.cells[o]), Unkeep(e)), v)
    ensures v.place == w.place - {e} && w.pool.Keys <= v.pool.Keys && o in v.cells && v.cells[o] == w.cells[o]
    ensures forall d :: d in v.pool ==>
              var before: set<EntityId> := if d in w.pool then w.pool[d].entities else {};
              v.pool[d].entities == if d == w.cells[o] then before - {e} else before
    ensures forall d :: d in v.pool ==>
              var before := if d in w.pool then w.pool[d].clientsCount else 0;
              v.pool[d].clientsCount == if d == w.cells[o] && e in w.clients then before - 1 else before
  {
  }

  /** A REMOVE, of any entity and on any map, takes it out of the cell it names; if there is none it does nothing. */
  lemma RemoveTakes(w: World, o: Coord, e: EntityId, to: Option<CellId>)
    requires Ordered(w) && ExecRemove(w, o, e, to).Running?
    ensures Ordered(ExecRemove(w, o, e, to).value)
    ensures if o in w.cells then Removed(w, o, e, to, ExecRemove(w, o, e, to).value)
            else ExecRemove(w, o, e, to).value == w
  {
    if o in w.cells {
      var u := QueueKeep(Leave(w, e, w.cells[o]), Unkeep(e));
      assert Ordered(u) by { EnterIsOrdered(w, e, w.cells[o]); }
      assert u.pool[w.cells[o]].at == o;
      ExcludingGrows(u, w.cells[o], to);
      LeftOnFields(w, o, e, ExecRemove(w, o, e, to).value);
    }
  }

  /** A DESTROY takes the cell and its entry; the other cells and what they hold stay as they are, and so does every
      entity's own pointer. */
  lemma DestroyTakes(w: World, o: Coord, c: CellId)
    requires Ordered(w) && c in w.pool && w.pool[c].at == o
    ensures ExecDestroy(w, o, c).Running? && Ordered(ExecDestroy(w, o, c).value)
    ensures var v := ExecDestroy(w, o, c).value;
            && v.pool.Keys == w.pool.Keys - {c} && (forall d :: d in v.pool ==> v.pool[d] == w.pool[d])
            && v.cells.Keys == w.cells.Keys - {o} && (forall x :: x in v.cells ==> v.cells[x] == w.cells[x])
            && v.place == w.place
  {
  }

  // ---------- Who is held where ----------

  /** The cell at `x` holds the entity. */
  ghost predicate Held(w: World, e: EntityId, x: Coord) {
    x in w.cells && w.cells[x] in w.pool && e in w.pool[w.cells[x]].entities
  }

  /** Whether it does after an operation. */
  predicate HeldAfter(op: MapOp, e: EntityId, x: Coord, held: bool) {
    match op
    case Add(o, who, _) => held || (who == e && o == x)
    case Remove(o, who, _) => held && !(who == e && o == x)
    case Destroy(o, _) => held && o != x
  }

  lemma GrownHolds(w: World, v: World, e: EntityId, x: Coord)
    requires Ordered(w) && Ordered(v) && Grown(w, v)
    ensures Held(v, e, x) <==> Held(w, e, x)
  {
    if x in v.cells && v.cells[x] in w.pool {
      assert w.pool[v.cells[x]].at == x;
    }
  }

  lemma AddHolds(w: World, o: Coord, from: Option<CellId>, who: EntityId, e: EntityId, x: Coord)
    requires Ordered(w) && ExecAdd(w, o, who, from).Running?
    ensures Ordered(ExecAdd(w, o, who, from).value)
    ensures Held(ExecAdd(w, o, who, from).value, e, x) <==> HeldAfter(Add(o, who, from), e, x, Held(w, e, x))
  {
    GetOrCreateGrows(w, o);
    var u, v := GetOrCreate(w, o).value, ExecAdd(w, o, who, from).value;
    var c := u.cells[o];
    EnterIsOrdered(u, who, c);
    SettleGrows(QueueKeep(Enter(u, who, c), Keep(who)), c, who, from);
    GrownHolds(w, u, e, x);
    EnterHolds(u, o, who, e, x);
    GrownHolds(QueueKeep(Enter(u, who, c), Keep(who)), v, e, x);
  }

  lemma EnterHolds(w: World, o: Coord, who: EntityId, e: EntityId, x: Coord)
    requires Ordered(w) && o in w.cells
    ensures Held(QueueKeep(Enter(w, who, w.cells[o]), Keep(who)), e, x) <==>
              Held(w, e, x) || (who == e && o == x)
    ensures Held(QueueKeep(Leave(w, who, w.cells[o]), Unkeep(who)), e, x) <==>
              Held(w, e, x) && !(who == e && o == x)
  {
    assert x in w.cells && w.cells[x] == w.cells[o] ==> x == o;
  }

  lemma RemoveHolds(w: World, o: Coord, to: Option<CellId>, who: EntityId, e: EntityId, x: Coord)
    requires Ordered(w) && ExecRemove(w, o, who, to).Running?
    ensures Ordered(ExecRemove(w, o, who, to).value)
    ensures Held(ExecRemove(w, o, who, to).value, e, x) <==> HeldAfter(Remove(o, who, to), e, x, Held(w, e, x))
  {
    if o in w.cells {
      var c := w.cells[o];
      EnterIsOrdered(w, who, c);
      EnterHolds(w, o, who, e, x);
      ExcludingGrows(QueueKeep(Leave(w, who, c), Unkeep(who)), c, to);
      GrownHolds(QueueKeep(Leave(w, who, c), Unkeep(who)), ExecRemove(w, o, who, to).value, e, x);
    }
  }

  /** Any operation changes who is held where exactly as it says. */
  lemma ExecHolds(w: World, op: MapOp, e: EntityId, x: Coord)
    requires Ordered(w) && Exec(w, op).Running?
    requires op.Destroy? && op.cell in w.pool ==> w.pool[op.cell].at == op.at
    ensures Ordered(Exec(w, op).value)
    ensures Held(Exec(w, op).value, e, x) <==> HeldAfter(op, e, x, Held(w, e, x))
  {
    match op
    case Add(o, who, from) => AddHolds(w, o, from, who, e, x);
    case Remove(o, who, to) => RemoveHolds(w, o, to, who, e, x);
    case Destroy(o, c) => DestroyTakes(w, o, c);
  }

  // ---------- A whole run ----------

  predicate HeldBy(ops: seq<MapOp>, e: EntityId, x: Coord, held: bool) {
    if ops == [] then held else HeldBy(ops[1..], e, x, HeldAfter(ops[0], e, x, held))
  }

  /** Some ADD of the list brought the entity to `x`, and nothing behind it took it away again. */
  ghost predicate LastBroughtTo(ops: seq<MapOp>, e: EntityId, x: Coord) {
    exists i :: 0 <= i < |ops| && Brings(ops[i], e, x) && forall j :: i < j < |ops| ==> !Takes(ops[j], e, x)
  }

  predicate Brings(op: MapOp, e: EntityId, x: Coord) {
    op.Add? && op.who == e && op.at == x
  }

  predicate Takes(op: MapOp, e: EntityId, x: Coord) {
    (op.Remove? && op.who == e && op.at == x) || (op.Destroy? && op.at == x)
  }

  lemma {:induction false} HeldByIff(ops: seq<MapOp>, e: EntityId, x: Coord, held: bool)
    ensures HeldBy(ops, e, x, held) <==>
              LastBroughtTo(ops, e, x) || (held && forall j :: 0 <= j < |ops| ==> !Takes(ops[j], e, x))
    decreases |ops|
  {
    if ops != [] {
      var op, rest := ops[0], ops[1..];
      HeldByIff(rest, e, x, HeldAfter(op, e, x, held));
      assert forall j :: 0 <= j < |rest| ==> rest[j] == ops[j + 1];
      assert forall j :: 1 <= j < |ops| ==> ops[j] == rest[j - 1];
      if LastBroughtTo(rest, e, x) {
        var i :| 0 <= i < |rest| && Brings(rest[i], e, x) && forall j :: i < j < |rest| ==> !Takes(rest[j], e, x);
        assert Brings(ops[i + 1], e, x);
      }
      if LastBroughtTo(ops, e, x) {
        var i :| 0 <= i < |ops| && Brings(ops[i], e, x) && forall j :: i < j < |ops| ==> !Takes(ops[j], e, x);
        if i > 0 {
          assert Brings(rest[i - 1], e, x);
        }
      }
    }
  }

  lemma {:induction false} HeldByJoins(a: seq<MapOp>, b: seq<MapOp>, e: EntityId, x: Coord, held: bool)
    ensures HeldBy(a + b, e, x, held) <==> HeldBy(b, e, x, HeldBy(a, e, x, held))
    decreases |a|
  {
    if a == [] {
      assert a + b == b;
    } else {
      assert (a + b)[0] == a[0] && (a + b)[1..] == a[1..] + b;
      HeldByJoins(a[1..], b, e, x, HeldAfter(a[0], e, x, held));
    }
  }

  lemma CoreIsOrdered(w: World, op: MapOp, rest: seq<MapOp>)
    requires Core(w, [op] + rest)
    ensures Ordered(w) && (op.Destroy? && op.cell in w.pool ==> w.pool[op.cell].at == op.at)
  {
    assert OpOk(w, ([op] + rest)[0]);
  }

  lemma OneHolds(w: World, op: MapOp, rest: seq<MapOp>, e: EntityId, x: Coord) returns (v: World)
    requires Core(w, [op] + rest) && Vacated(w, [op] + rest) && Exec(w, op).Running?
    ensures Exec(w, op).value == v && Core(v, rest) && Vacated(v, rest)
    ensures Held(v, e, x) <==> HeldAfter(op, e, x, Held(w, e, x))
  {
    CoreIsOrdered(w, op, rest);
    ExecHolds(w, op, e, x);
    v := OneExecuted(w, op, rest);
  }

  lemma {:induction false} ExecAllHolds(w: World, ops: seq<MapOp>, e: EntityId, x: Coord)
    requires Core(w, ops) && Vacated(w, ops) && ExecAll(w, ops).Running?
    ensures Held(ExecAll(w, ops).value, e, x) <==> HeldBy(ops, e, x, Held(w, e, x))
    decreases |ops|
  {
    if ops != [] {
      assert ops == [ops[0]] + ops[1..];
      ExecAllStep(w, ops);
      var v := OneHolds(w, ops[0], ops[1..], e, x);
      ExecAllHolds(v, ops[1..], e, x);
    }
  }

  lemma UpdateHolds(w: World, e: EntityId, x: Coord)
    requires IdleOk(w) && SpawnsClear(w) && MapUpdate(w).Running?
    ensures Held(MapUpdate(w).value, e, x) <==> HeldBy(w.ops, e, x, Held(w, e, x))
  {
    QueueIsReady(w);
    ExecAllHolds(w.(ops := []), w.ops, e, x);
  }

  lemma MoveHolds(w: World, p: EntityId, o: Coord, e: EntityId, x: Coord)
    requires BusyOk(w) && Legal(Server(true, w), Move(p, o))
    ensures OnMove(w, p, o).Running? && (Held(OnMove(w, p, o).value, e, x) <==> Held(w, e, x))
  {
    OnMoveKeepsInv(w, p, o);
    OnMoveOnlyQueues(w, p, o);
    GetOrCreateGrows(w, o);
    GrownHolds(w, GetOrCreate(w, o).value, e, x);
  }

  lemma FatesHold(w: World, v: World, seen: set<CellId>, elapsed: nat, e: EntityId, x: Coord)
    requires v.pool == Fates(w, seen, elapsed) && v.cells == w.cells
    ensures Held(v, e, x) <==> Held(w, e, x)
  {
  }

  lemma CleanupHolds(w: World, elapsed: nat, order: seq<CellId>, e: EntityId, x: Coord)
    requires BusyOk(w) && Legal(Server(true, w), Cleanup(elapsed, order)) && MapCleanup(w, elapsed, order).Running?
    ensures Held(MapCleanup(w, elapsed, order).value, e, x) <==> Held(w, e, x)
  {
    var v := MapCleanup(w, elapsed, order).value;
    assert v.pool == Fates(w, Sight(w), elapsed) && v.cells == w.cells by { MapCleanupKeeps(w, elapsed, order); }
    FatesHold(w, v, Sight(w), elapsed, e, x);
  }

  /** What a step executes: the queue, if it is an update. */
  ghost function DrainedBy(s: Server, ev: Event): seq<MapOp> {
    if ev.Update? then s.w.ops else []
  }

  lemma StepHolds(s: Server, ev: Event, e: EntityId, x: Coord)
    requires Inv(s) && Legal(s, ev) && Step(s, ev).Running?
    ensures Held(Step(s, ev).value.w, e, x) <==> HeldBy(DrainedBy(s, ev), e, x, Held(s.w, e, x))
  {
    match ev
    case Spawn(_, _) =>
    case Despawn(_, _) =>
    case Move(p, o) => MoveHolds(s.w, p, o, e, x);
    case Update => UpdateHolds(s.w, e, x);
    case Cleanup(elapsed, order) => CleanupHolds(s.w, elapsed, order, e, x);
  }

  /** The operations that a run has executed, in order. */
  ghost function Drained(s: Server, evs: seq<Event>): seq<MapOp>
    requires LegalRun(s, evs)
    decreases |evs|
  {
    if evs == [] || Step(s, evs[0]).Stopped? then []
    else DrainedBy(s, evs[0]) + Drained(Step(s, evs[0]).value, evs[1..])
  }

  lemma {:induction false} RunHolds(s: Server, evs: seq<Event>, e: EntityId, x: Coord)
    requires Inv(s) && LegalRun(s, evs) && Run(s, evs).Running?
    ensures Held(Run(s, evs).value.w, e, x) <==> HeldBy(Drained(s, evs), e, x, Held(s.w, e, x))
    decreases |evs|
  {
    if evs != [] {
      StepKeepsInv(s, evs[0]);
      StepHolds(s, evs[0], e, x);
      var t := Step(s, evs[0]).value;
      RunHolds(t, evs[1..], e, x);
      HeldByJoins(DrainedBy(s, evs[0]), Drained(t, evs[1..]), e, x, Held(s.w, e, x));
    }
  }

  /** At every point of every run, and for every entity: the cell at `x` holds it iff, among the operations executed so
      far, some ADD brought it there and neither its REMOVE nor the DESTROY of the cell came after. */
  lemma HeldAsRequested(s: Server, evs: seq<Event>, e: EntityId, x: Coord)
    requires Initial(s) && LegalRun(s, evs) && Run(s, evs).Running?
    ensures Held(Run(s, evs).value.w, e, x) <==> LastBroughtTo(Drained(s, evs), e, x)
  {
    InitialIsIdle(s);
    RunHolds(s, evs, e, x);
    HeldByIff(Drained(s, evs), e, x, false);
  }

  // ---------- Every request is executed, once and in order ----------

  /** What an event puts at the end of the queue. */
  ghost function Requested(s: Server, ev: Event): seq<MapOp>
    requires Legal(s, ev)
  {
    match ev
    case Spawn(o, e) => [Add(o, e, None)]
    case Despawn(o, e) => [Remove(o, e, None)]
    case Move(e, o) => RequestedByMove(s.w, e, o)
    case Update => []
    case Cleanup(elapsed, order) => if forall c :: c in order ==> c in s.w.pool then Destroys(s.w, order) else []
  }

  /** A move to another cell requests the REMOVE at the old offset and the ADD at the new one. */
  ghost function RequestedByMove(w: World, e: EntityId, o: Coord): seq<MapOp>
    requires e in w.place && w.place[e] in w.pool
  {
    var a, r := w.place[e], GetOrCreate(w, o);
    if r.Stopped? || w.pool[a].at == o then []
    else [Remove(w.pool[a].at, e, Some(r.value.cells[o])), Add(o, e, Some(a))]
  }

  ghost function RequestedIn(s: Server, evs: seq<Event>): seq<MapOp>
    requires LegalRun(s, evs)
    decreases |evs|
  {
    if evs == [] || Step(s, evs[0]).Stopped? then []
    else Requested(s, evs[0]) + RequestedIn(Step(s, evs[0]).value, evs[1..])
  }

  lemma MoveRequests(w: World, e: EntityId, o: Coord)
    requires BusyOk(w) && Legal(Server(true, w), Move(e, o))
    ensures OnMove(w, e, o).Running? && OnMove(w, e, o).value.ops == w.ops + RequestedByMove(w, e, o)
  {
    OnMoveKeepsInv(w, e, o);
    OnMoveOnlyQueues(w, e, o);
  }

  lemma UpdateDrains(w: World)
    requires IdleOk(w) && SpawnsClear(w) && MapUpdate(w).Running?
    ensures MapUpdate(w).value.ops == []
  {
    MapUpdateKeepsInv(w);
  }

  lemma CleanupRequests(w: World, elapsed: nat, order: seq<CellId>)
    requires BusyOk(w) && Legal(Server(true, w), Cleanup(elapsed, order)) && MapCleanup(w, elapsed, order).Running?
    ensures forall c :: c in order ==> c in w.pool
    ensures MapCleanup(w, elapsed, order).value.ops == w.ops + Destroys(w, order)
  {
    MapCleanupKeeps(w, elapsed, order);
  }

  lemma StepQueues(s: Server, ev: Event)
    requires Inv(s) && Legal(s, ev) && Step(s, ev).Running?
    ensures DrainedBy(s, ev) + Step(s, ev).value.w.ops == s.w.ops + Requested(s, ev)
  {
    match ev
    case Spawn(_, _) =>
    case Despawn(_, _) =>
    case Move(e, o) => MoveRequests(s.w, e, o);
    case Update => UpdateDrains(s.w);
    case Cleanup(elapsed, order) => CleanupRequests(s.w, elapsed, order);
  }

  /** What has been executed and what still waits is together what was requested: nothing is lost, repeated or
      overtaken. */
  lemma {:induction false} RequestsAreExecutedInOrder(s: Server, evs: seq<Event>)
    requires Inv(s) && LegalRun(s, evs) && Run(s, evs).Running?
    ensures Drained(s, evs) + Run(s, evs).value.w.ops == s.w.ops + RequestedIn(s, evs)
    decreases |evs|
  {
    if evs != [] {
      StepKeepsInv(s, evs[0]);
      StepQueues(s, evs[0]);
      var t := Step(s, evs[0]).value;
      RequestsAreExecutedInOrder(t, evs[1..]);
      Exchange(DrainedBy(s, evs[0]), t.w.ops, s.w.ops, Requested(s, evs[0]),
               Drained(t, evs[1..]), Run(s, evs).value.w.ops, RequestedIn(t, evs[1..]));
    }
  }

  lemma Exchange(d: seq<MapOp>, q1: seq<MapOp>, q: seq<MapOp>, r: seq<MapOp>, ds: seq<MapOp>, q2: seq<MapOp>,
                 rs: seq<MapOp>)
    requires d + q1 == q + r && ds + q2 == q1 + rs
    ensures (d + ds) + q2 == q + (r + rs)
  {
    assert (d + ds) + q2 == d + (ds + q2) == d + (q1 + rs) == (d + q1) + rs == (q + r) + rs == q + (r + rs);
  }
}
