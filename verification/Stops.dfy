/** Exactly when a run stops, and exactly when a DESTROY catches an updater on its cell; with runs from the empty
    map that come to each. */
module Stops {
  import opened Hex
  import opened World
  import opened Invariants
  import opened Operations
  import opened Creations
  import opened Ticks
  import opened TickProofs
  import opened Runs
  import opened Expiry
  import opened Hypotheses

  // ---------- Map::update ----------

  /** Some operation of the queue names an offset that has no cell when it is reached, next to a cell whose
      DESTROY is still behind it. */
  ghost predicate QueueCollides(w: World) {
    exists i: nat :: i < |w.ops| && Collides(w, w.ops, i)
  }

  /** Map::update stops at the guard iff its queue collides. */
  lemma UpdateStopsIff(w: World)
    requires IdleOk(w) && SpawnsClear(w)
    ensures MapUpdate(w).Stopped? <==> QueueCollides(w)
  {
    var u := w.(ops := []);
    QueueIsReady(w);
    assert w.ops[0..] == w.ops;
    assert forall c :: PlaceOf(u, c) == PlaceOf(w, c);
    assert Reaches(w, w.ops, 0, u);
    ExecAllStopsIff(w, w.ops, 0, u);
  }

  // ---------- One event, and a run ----------

  /** What stops an event: a queue that collides, or a cell in sight of an updater that runs out. */
  ghost predicate Halts(s: Server, ev: Event) {
    match ev
    case Update => QueueCollides(s.w)
    case Cleanup(elapsed, _) => !GuardHolds(s.w, elapsed)
    case _ => false
  }

  lemma StepStopsIff(s: Server, ev: Event)
    requires Inv(s) && Legal(s, ev)
    ensures Step(s, ev) == Stopped(TouchedCooldown) <==> Halts(s, ev)
    ensures Step(s, ev).Stopped? ==> Step(s, ev) == Stopped(TouchedCooldown)
  {
    StepKeepsInv(s, ev);
    match ev
    case Spawn(_, _) =>
    case Despawn(_, _) =>
    case Move(_, _) =>
    case Update => UpdateStopsIff(s.w);
    case Cleanup(elapsed, order) => MapCleanupKeeps(s.w, elapsed, order);
  }

  /** The run comes to an event that halts. */
  ghost predicate HaltsIn(s: Server, evs: seq<Event>)
    requires LegalRun(s, evs)
    decreases |evs|
  {
    evs != [] && (Halts(s, evs[0]) || (Step(s, evs[0]).Running? && HaltsIn(Step(s, evs[0]).value, evs[1..])))
  }

  lemma {:induction false} RunStopsWhen(s: Server, evs: seq<Event>)
    requires Inv(s) && LegalRun(s, evs)
    ensures Run(s, evs) == Stopped(TouchedCooldown) <==> HaltsIn(s, evs)
    ensures Run(s, evs).Stopped? ==> Run(s, evs) == Stopped(TouchedCooldown)
    decreases |evs|
  {
    if evs != [] {
      StepStopsIff(s, evs[0]);
      StepKeepsInv(s, evs[0]);
      if Step(s, evs[0]).Running? {
        RunStopsWhen(Step(s, evs[0]).value, evs[1..]);
      }
    }
  }

  /** A run from the empty map stops iff it comes to an update whose queue collides, or to a cleanup in which a cell
      in sight of an updater runs out; and then it stops at the guard of touch. */
  lemma EveryRunStopsIff(s: Server, evs: seq<Event>)
    requires Initial(s) && LegalRun(s, evs)
    ensures Run(s, evs).Stopped? <==> HaltsIn(s, evs)
    ensures Run(s, evs).Stopped? ==> Run(s, evs) == Stopped(TouchedCooldown)
  {
    InitialIsIdle(s);
    RunStopsWhen(s, evs);
  }

  // ---------- Under an updater's feet ----------

  /** Position j of the queue is the DESTROY of a cell on which the operations before it leave an updater. */
  ghost predicate CaughtAt(w: World, ops: seq<MapOp>, j: nat)
    requires j < |ops|
  {
    exists e :: e in w.updaters && !LeavesBy(ops, e, Standing(w, e), j)
  }

  /** Where the operations of a prefix leave every updater, if none is caught on the way. */
  ghost predicate StandsAsQueued(w: World, ops: seq<MapOp>, u: World) {
    u.updaters == w.updaters && forall e :: e in w.updaters ==> Standing(u, e) == Where(ops, e, Standing(w, e))
  }

  lemma {:induction false} PrefixTracks(w: World, a: seq<MapOp>, b: seq<MapOp>)
    requires Core(w, a + b) && Vacated(w, a)
    ensures match ExecAll(w, a)
            case Running(u) => Core(u, b) && StandsAsQueued(w, a, u)
            case Stopped(f) => f == TouchedCooldown
    decreases |a|
  {
    if a == [] {
      assert a + b == b;
    } else {
      var op, rest := a[0], a[1..];
      assert a + b == [op] + (rest + b) && a == [op] + rest;
      VacatedNow(w, op, rest);
      ExecKeepsCoreOnce(w, op, rest + b);
      ExecAllStep(w, a);
      if Exec(w, op).Running? {
        var v := Exec(w, op).value;
        StillVacated(w, op, rest, v);
        PrefixTracks(v, rest, b);
      }
    }
  }

  /** An updater stands on the cell that the next operation destroys. */
  ghost predicate Underfoot(u: World, op: MapOp) {
    op.Destroy? && exists e :: e in u.updaters && e in u.place && u.place[e] == op.cell
  }

  lemma UnderfootIffStanding(u: World, op: MapOp, rest: seq<MapOp>)
    requires Core(u, [op] + rest) && op.Destroy?
    ensures Underfoot(u, op) <==> exists e :: e in u.updaters && Standing(u, e) == Some(op.at)
  {
    var all := [op] + rest;
    assert all[0] == op && OpOk(u, all[0]);
    if e :| e in u.updaters && e in u.place && u.place[e] == op.cell {
      assert Standing(u, e) == Some(op.at);
    }
    if e :| e in u.updaters && Standing(u, e) == Some(op.at) {
      assert u.cells[op.at] == u.place[e] && u.cells[op.at] == op.cell by { assert TableOk(u); }
    }
  }

  lemma PrefixIsReady(w: World, j: nat, w0: World)
    requires IdleOk(w) && j < |w.ops| && Vacated(w, w.ops[..j]) && w0 == w.(ops := [])
    ensures Core(w0, w.ops[..j] + ([w.ops[j]] + w.ops[j + 1..])) && Vacated(w0, w.ops[..j])
    ensures forall e :: Standing(w0, e) == Standing(w, e)
  {
    assert w.ops == w.ops[..j] + ([w.ops[j]] + w.ops[j + 1..]);
    CoreIgnoresOwnQueue(w, [], w.ops);
    assert forall e :: Standing(w0, e) == Standing(w, e);
  }

  /** Up to the first time, and then, a DESTROY catches an updater exactly where the queue says. */
  lemma CaughtIff(w: World, j: nat)
    requires IdleOk(w) && j < |w.ops| && w.ops[j].Destroy? && Vacated(w, w.ops[..j])
    ensures match ExecAll(w.(ops := []), w.ops[..j])
            case Running(u) => Underfoot(u, w.ops[j]) <==> CaughtAt(w, w.ops, j)
            case Stopped(f) => f == TouchedCooldown
  {
    var w0 := w.(ops := []);
    PrefixIsReady(w, j, w0);
    PrefixTracks(w0, w.ops[..j], [w.ops[j]] + w.ops[j + 1..]);
    var r := ExecAll(w0, w.ops[..j]);
    if r.Running? {
      UnderfootIffStanding(r.value, w.ops[j], w.ops[j + 1..]);
      StandsWhereQueued(w, j, w0, r.value);
    }
  }

  lemma StandsWhereQueued(w: World, j: nat, w0: World, u: World)
    requires j < |w.ops| && w.ops[j].Destroy? && w0.updaters == w.updaters
    requires (forall e :: Standing(w0, e) == Standing(w, e)) && StandsAsQueued(w0, w.ops[..j], u)
    ensures (exists e :: e in u.updaters && Standing(u, e) == Some(w.ops[j].at)) <==> CaughtAt(w, w.ops, j)
  {
    forall e | e in u.updaters
      ensures Standing(u, e) == Some(w.ops[j].at) <==> !LeavesBy(w.ops, e, Standing(w, e), j)
    {
    }
    if e :| e in w.updaters && !LeavesBy(w.ops, e, Standing(w, e), j) {
      assert Standing(u, e) == Some(w.ops[j].at);
    }
  }

  lemma {:induction false} FirstCatch(w: World, j: nat) returns (k: nat)
    requires j < |w.ops| && CaughtAt(w, w.ops, j)
    ensures k <= j && CaughtAt(w, w.ops, k) && forall i :: 0 <= i < k ==> !CaughtAt(w, w.ops, i)
    decreases j
  {
    if i :| 0 <= i < j && CaughtAt(w, w.ops, i) {
      k := FirstCatch(w, i);
    } else {
      k := j;
    }
  }

  lemma VacatedBefore(w: World, k: nat)
    requires k <= |w.ops| && forall i :: 0 <= i < k ==> !CaughtAt(w, w.ops, i)
    ensures Vacated(w, w.ops[..k])
  {
    var a := w.ops[..k];
    forall e | e in w.updaters
      ensures Leaves(a, e, Standing(w, e))
    {
      LeavesByEach(a, e, Standing(w, e));
      forall i | 0 <= i < k
        ensures LeavesBy(a, e, Standing(w, e), i)
      {
        assert !CaughtAt(w, w.ops, i);
        assert LeavesBy(w.ops, e, Standing(w, e), i);
        assert a[..i] == w.ops[..i];
      }
    }
  }

  /** The condition on spawns in the run hypothesis is exact. With it no DESTROY ever catches an updater; without it
      the first one that does is reached, unless the guard of touch stops the update before. */
  lemma SpawnsClearIsExact(w: World) returns (k: nat)
    requires IdleOk(w)
    ensures SpawnsClear(w) <==> forall j :: 0 <= j < |w.ops| ==> !CaughtAt(w, w.ops, j)
    ensures !SpawnsClear(w) ==>
              && k < |w.ops| && w.ops[k].Destroy?
              && match ExecAll(w.(ops := []), w.ops[..k])
                 case Running(u) => Underfoot(u, w.ops[k])
                 case Stopped(f) => f == TouchedCooldown
  {
    k := 0;
    VacatedIff(w);
    VacatedEach(w);
    if !SpawnsClear(w) {
      var j :| 0 <= j < |w.ops| && CaughtAt(w, w.ops, j);
      k := FirstCatch(w, j);
      VacatedBefore(w, k);
      CaughtIff(w, k);
    }
  }

  lemma VacatedEach(w: World)
    ensures Vacated(w, w.ops) <==> forall j :: 0 <= j < |w.ops| ==> !CaughtAt(w, w.ops, j)
  {
    assert w.ops[..|w.ops|] == w.ops;
    if forall j :: 0 <= j < |w.ops| ==> !CaughtAt(w, w.ops, j) {
      VacatedBefore(w, |w.ops|);
    }
    if Vacated(w, w.ops) {
      forall j | 0 <= j < |w.ops|
        ensures !CaughtAt(w, w.ops, j)
      {
        forall e | e in w.updaters
          ensures LeavesBy(w.ops, e, Standing(w, e), j)
        {
          assert Leaves(w.ops, e, Standing(w, e));
          LeavesByEach(w.ops, e, Standing(w, e));
        }
      }
    }
  }

  // ---------- Two runs from the empty map ----------

  lemma {:induction false} Enumeration(s: set<CellId>) returns (order: seq<CellId>)
    ensures Enumerates(order, s)
    decreases |s|
  {
    if s == {} {
      order := [];
    } else {
      var c :| c in s;
      var rest := Enumeration(s - {c});
      order := [c] + rest;
      assert forall d :: d in order <==> d == c || d in rest;
    }
  }

  /** A map with no updater, where every cell is doomed and an entity is about to be spawned at `x`, ahead of all
      the DESTROYs. */
  ghost predicate Doomsday(w: World, x: Coord, e: EntityId) {
    && IdleOk(w) && w.keepers == [] && (forall u :: u in w.updaters ==> u !in w.place)
    && w.ops != [] && w.ops[0] == Add(x, e, None)
    && (forall i :: 0 < i < |w.ops| ==> w.ops[i].Destroy?)
    && (forall c :: c in w.pool ==> Destroy(w.pool[c].at, c) in w.ops)
  }

  lemma IdleUpdate(w: World)
    requires IdleOk(w) && w.ops == []
    ensures SpawnsClear(w) && MapUpdate(w) == Running(w.(bucketed := w.current)) && BusyOk(w.(bucketed := w.current))
  {
    assert w.(ops := []) == w;
    MapUpdateKeepsInv(w);
  }

  lemma EmptyOrNot(ks: seq<EntityId>)
    ensures ks == [] || exists e :: e in ks
  {
    if ks != [] {
      assert ks[0] in ks;
    }
  }

  lemma AllTombs(w: World, order: seq<CellId>, v: World, op: MapOp)
    requires w.ops == [op] && (forall c :: c in w.pool ==> c in order) && (forall c :: c in order ==> c in w.pool)
    requires v.ops == w.ops + Destroys(w, order) && SameGround(w, v)
    ensures forall i :: 0 < i < |v.ops| ==> v.ops[i].Destroy?
    ensures forall c :: c in v.pool ==> Destroy(v.pool[c].at, c) in v.ops
  {
    forall c | c in v.pool
      ensures Destroy(v.pool[c].at, c) in v.ops
    {
      assert c in order;
      var i :| 0 <= i < |order| && order[i] == c;
      assert v.ops[1 + i] == Destroy(w.pool[c].at, c);
    }
  }

  /** A cleanup two minutes long, with nobody in the map: every cell runs out. */
  lemma LongCleanup(w: World, x: Coord, e: EntityId) returns (order: seq<CellId>, v: World)
    requires BusyOk(w) && w.ops == [Add(x, e, None)] && (forall u :: u in w.updaters ==> u !in w.place)
    requires forall c :: c in w.pool ==> w.pool[c].registered && w.pool[c].remaining == STALL_TIME
    ensures var r := CleanupAndRegroup(w, STALL_TIME); r.Running? && Enumerates(order, Expired(r.value))
    ensures MapCleanup(w, STALL_TIME, order) == Running(v)
    ensures Doomsday(v, x, e) && v.cells == w.cells && v.updaters == w.updaters
  {
    assert Sight(w) == {};
    RegroupClosed(w, STALL_TIME);
    order := Enumeration(Expired(CleanupAndRegroup(w, STALL_TIME).value));
    MapCleanupKeeps(w, STALL_TIME, order);
    v := MapCleanup(w, STALL_TIME, order).value;
    assert forall c :: c in w.pool ==> Due(w, c, STALL_TIME);
    AllTombs(w, order, v, w.ops[0]);
    assert KeepersAre(v, v.keepers);
    EmptyOrNot(v.keepers);
  }

  /** The second tick of a map into which one entity that is no updater was spawned: a spawn between its two halves,
      and a cleanup two minutes long. */
  lemma DoomsdayComes(w: World, o: Coord, x: Coord, e: EntityId) returns (t: Server, order: seq<CellId>)
    requires Unwatched(w, o)
    ensures LegalRun(Start(w), [Update, Spawn(x, e), Cleanup(STALL_TIME, order)])
    ensures Run(Start(w), [Update, Spawn(x, e), Cleanup(STALL_TIME, order)]) == Running(t)
    ensures !t.busy && Doomsday(t.w, x, e) && t.w.cells == w.cells && t.w.updaters == w.updaters
  {
    var w1 := w.(bucketed := w.current);
    var w2 := Push(w1, Add(x, e, None));
    IdleUpdate(w);
    assert Legal(Server(true, w1), Spawn(x, e));
    assert BusyOk(w2) by { StepKeepsInv(Server(true, w1), Spawn(x, e)); }
    assert w2.ops == [Add(x, e, None)];
    assert FlagsOk(w, w.ops);
    var v;
    order, v := LongCleanup(w2, x, e);
    ThreeEvents(Start(w), Update, Server(true, w1), Spawn(x, e), Server(true, w2), Cleanup(STALL_TIME, order));
    t := Server(false, v);
  }

  /** The offset two steps east. */
  function Beyond(o: Coord): Coord { Coord(o.q + 2, o.r) }

  lemma TombsHaveCells(w: World, j: nat)
    requires TableOk(w) && ParamsOk(w, w.ops) && j < |w.ops| && w.ops[j].Destroy?
    ensures w.ops[j].at in w.cells
  {
    assert OpOk(w, w.ops[j]);
  }

  lemma AbsentIsClear(w: World, x: Coord, e: EntityId)
    requires Doomsday(w, x, e) && x !in w.cells
    ensures SpawnsClear(w)
  {
    forall i, j | 0 <= i < j < |w.ops| && w.ops[i].Add?
      ensures w.ops[i].at != w.ops[j].at
    {
      TombsHaveCells(w, j);
    }
  }

  lemma NextToDoomed(w: World, x: Coord, e: EntityId, n: Coord)
    requires Doomsday(w, x, e) && x !in w.cells && n in w.cells && Near(x, n)
    ensures QueueCollides(w)
  {
    assert w.cells[n] in w.pool && w.pool[w.cells[n]].at == n by { assert TableOk(w); }
    var j :| 0 <= j < |w.ops| && w.ops[j] == Destroy(n, w.cells[n]);
    assert x in Named(w, KnownAt(w, w.ops, 0), w.ops[0]) && x !in KnownAt(w, w.ops, 0) && Near(x, w.ops[j].at);
    assert Collides(w, w.ops, 0);
  }

  lemma BeyondIsAbsent(w: World, o: Coord)
    requires w.cells.Keys == {o} + SetOf(Siblings(o))
    ensures Beyond(o) !in w.cells && Coord(o.q + 1, o.r) in w.cells && Near(Beyond(o), Coord(o.q + 1, o.r))
  {
    assert Siblings(o)[2] == Coord(o.q + 1, o.r);
    assert Beyond(o) !in w.cells.Keys && Coord(o.q + 1, o.r) in w.cells.Keys;
  }

  lemma BeyondCollides(w: World, o: Coord, e: EntityId)
    requires Doomsday(w, Beyond(o), e) && w.cells.Keys == {o} + SetOf(Siblings(o))
    ensures SpawnsClear(w) && QueueCollides(w)
  {
    BeyondIsAbsent(w, o);
    AbsentIsClear(w, Beyond(o), e);
    NextToDoomed(w, Beyond(o), e, Coord(o.q + 1, o.r));
  }

  /** A legal run from the empty map that Map::update stops: an entity is spawned next to cells that are doomed
      before its ADD is reached. */
  lemma UpdateStopsInALegalRun(s: Server, o: Coord, m: EntityId, e: EntityId)
    returns (t: Server, u: Server, order: seq<CellId>)
    requires Initial(s) && m !in s.w.updaters
    ensures LegalRun(s, [Spawn(o, m), Update, Cleanup(0, [])])
    ensures Run(s, [Spawn(o, m), Update, Cleanup(0, [])]) == Running(t)
    ensures LegalRun(t, [Update, Spawn(Beyond(o), e), Cleanup(STALL_TIME, order)])
    ensures Run(t, [Update, Spawn(Beyond(o), e), Cleanup(STALL_TIME, order)]) == Running(u)
    ensures LegalRun(u, [Update]) && Run(u, [Update]) == Stopped(TouchedCooldown)
  {
    FirstTick(s, o, m);
    t := Run(s, [Spawn(o, m), Update, Cleanup(0, [])]).value;
    u, order := DoomsdayComes(t.w, o, Beyond(o), e);
    BeyondCollides(u.w, o, e);
    UpdateStopsIff(u.w);
    MapUpdateKeepsInv(u.w);
    OneEvent(u, Update);
  }

  lemma {:induction false} DestroysFree(w: World, tombs: seq<MapOp>, c: CellId)
    requires forall i :: 0 <= i < |tombs| ==> tombs[i].Destroy? && tombs[i].cell in w.pool
    requires forall i, j :: 0 <= i < j < |tombs| ==> tombs[i].cell != tombs[j].cell
    ensures ExecAll(w, tombs).Running?
    ensures var v := ExecAll(w, tombs).value;
            && v.place == w.place && v.keepOps == w.keepOps && v.keepers == w.keepers && v.current == w.current
            && (c in v.pool <==> c in w.pool && forall i :: 0 <= i < |tombs| ==> tombs[i].cell != c)
    decreases |tombs|
  {
    if tombs != [] {
      var u := Exec(w, tombs[0]).value;
      DestroysFree(u, tombs[1..], c);
    }
  }

  lemma TombsAreApart(w: World, spawn: MapOp, tombs: seq<MapOp>)
    requires ParamsOk(w, [spawn] + tombs) && forall i :: 0 <= i < |tombs| ==> tombs[i].Destroy?
    ensures forall i :: 0 <= i < |tombs| ==> tombs[i].cell in w.pool
    ensures forall i, k :: 0 <= i < k < |tombs| ==> tombs[i].cell != tombs[k].cell
  {
    var ops := [spawn] + tombs;
    forall i | 0 <= i < |tombs|
      ensures tombs[i].cell in w.pool
    {
      assert ops[i + 1] == tombs[i] && OpOk(w, ops[i + 1]);
    }
    forall i, k | 0 <= i < k < |tombs|
      ensures tombs[i].cell != tombs[k].cell
    {
      assert ops[i + 1] == tombs[i] && ops[k + 1] == tombs[k];
    }
  }

  lemma FreedCentreIsRead(x: World, e: EntityId, elapsed: nat)
    requires x.keepers == [] && x.keepOps == [Keep(e)] && e in x.place && x.place[e] !in x.pool
    ensures CleanupAndRegroup(x, elapsed) == Stopped(Dangling)
  {
    assert KeepAll([], [Keep(e)]) == Running([e]) by {
      assert [Keep(e)][1..] == [];
      assert [] + [e] == [e];
    }
    assert [e][0] !in x.place || x.place[[e][0]] !in x.pool;
  }

  lemma SpawnStaysBehind(w: World, o: Coord, e: EntityId, j: nat)
    requires Doomsday(w, o, e) && e in w.updaters && j < |w.ops| && w.ops[j].Destroy? && w.ops[j].at == o
    ensures !SpawnsClear(w)
  {
    assert Stays(w.ops, e, 0, j) && w.ops[0].at == w.ops[j].at;
  }

  /** The ADD, with every sibling there, and then the DESTROYs. */
  lemma SpawnedThenDrained(u: World, o: Coord, e: EntityId, tombs: seq<MapOp>, c: CellId)
    requires TableOk(u) && o in u.cells && u.cells[o] == c && e in u.updaters && e !in u.place
    requires (forall n :: n in Siblings(o) ==> n in u.cells) && ParamsOk(u, [Add(o, e, None)] + tombs)
    requires (forall i :: 0 <= i < |tombs| ==> tombs[i].Destroy?) && Destroy(o, c) in tombs
    requires u.keepers == [] && u.keepOps == []
    ensures var r := ExecAll(u, [Add(o, e, None)] + tombs);
            && r.Running? && e in r.value.place && r.value.place[e] == c && c !in r.value.pool
            && r.value.keepers == [] && r.value.keepOps == [Keep(e)]
  {
    SpawnInside(u, o, e);
    OneAdd(u, o, e, tombs);
    TombsAreApart(u, Add(o, e, None), tombs);
    var v := QueueKeep(Enter(u, e, c), Keep(e));
    DestroysFree(v, tombs, c);
    var j :| 0 <= j < |tombs| && tombs[j] == Destroy(o, c);
  }

  lemma IdleTable(w: World)
    requires IdleOk(w)
    ensures TableOk(w) && ParamsOk(w, w.ops) && w.keepOps == []
  {
  }

  /** The queue of a doomed map, taken apart. */
  lemma SpawnThenTombs(w: World, x: Coord, e: EntityId, o: Coord) returns (tombs: seq<MapOp>)
    requires TableOk(w) && o in w.cells && w.ops != [] && w.ops[0] == Add(x, e, None)
    requires forall i :: 0 < i < |w.ops| ==> w.ops[i].Destroy?
    requires forall c :: c in w.pool ==> Destroy(w.pool[c].at, c) in w.ops
    ensures w.ops == [Add(x, e, None)] + tombs && Destroy(o, w.cells[o]) in tombs
    ensures forall i :: 0 <= i < |tombs| ==> tombs[i].Destroy?
  {
    tombs := w.ops[1..];
    var j :| 0 <= j < |w.ops| && w.ops[j] == Destroy(o, w.cells[o]);
    assert tombs[j - 1] == w.ops[j];
  }

  lemma ParamsIgnoreQueue(w: World, rest: seq<MapOp>)
    requires ParamsOk(w, rest)
    ensures ParamsOk(w.(ops := []), rest)
  {
    assert forall i :: 0 <= i < |rest| && OpOk(w, rest[i]) ==> OpOk(w.(ops := []), rest[i]);
  }

  lemma UpdateOfDoomed(w: World, o: Coord, e: EntityId, tombs: seq<MapOp>)
    requires TableOk(w) && ParamsOk(w, w.ops) && w.keepers == [] && w.keepOps == []
    requires o in w.cells && e in w.updaters && e !in w.place && forall n :: n in Siblings(o) ==> n in w.cells
    requires w.ops == [Add(o, e, None)] + tombs && Destroy(o, w.cells[o]) in tombs
    requires forall i :: 0 <= i < |tombs| ==> tombs[i].Destroy?
    ensures MapUpdate(w).Running?
    ensures var v := MapUpdate(w).value;
            && e in v.place && v.place[e] !in v.pool && v.keepers == [] && v.keepOps == [Keep(e)]
  {
    ParamsIgnoreQueue(w, w.ops);
    SpawnedThenDrained(w.(ops := []), o, e, tombs, w.cells[o]);
  }

  lemma UpdateFrees(w: World, o: Coord, e: EntityId)
    requires Doomsday(w, o, e) && e in w.updaters
    requires o in w.cells && (forall n :: n in Siblings(o) ==> n in w.cells)
    ensures !SpawnsClear(w) && MapUpdate(w).Running?
    ensures var v := MapUpdate(w).value;
            && e in v.place && v.place[e] !in v.pool && v.keepers == [] && v.keepOps == [Keep(e)]
  {
    IdleTable(w);
    var tombs := SpawnThenTombs(w, o, e, o);
    UpdateOfDoomed(w, o, e, tombs);
    var j :| 0 <= j < |tombs| && tombs[j] == Destroy(o, w.cells[o]);
    assert w.ops[j + 1] == tombs[j];
    SpawnStaysBehind(w, o, e, j + 1);
  }

  /** A run from the empty map that keeps to the run hypothesis but for SpawnsClear, and in which the cell of an
      updater is freed under it and then read. */
  lemma SpawnOnDoomedCellDangles(s: Server, o: Coord, m: EntityId, e: EntityId, elapsed: nat)
    returns (t: Server, u: Server, order: seq<CellId>)
    requires Initial(s) && m !in s.w.updaters && e in s.w.updaters
    ensures LegalRun(s, [Spawn(o, m), Update, Cleanup(0, [])])
    ensures Run(s, [Spawn(o, m), Update, Cleanup(0, [])]) == Running(t)
    ensures LegalRun(t, [Update, Spawn(o, e), Cleanup(STALL_TIME, order)])
    ensures Run(t, [Update, Spawn(o, e), Cleanup(STALL_TIME, order)]) == Running(u)
    ensures !u.busy && !SpawnsClear(u.w)
    ensures var r := MapUpdate(u.w);
            && r.Running? && e in r.value.place && r.value.place[e] !in r.value.pool
            && CleanupAndRegroup(r.value, elapsed) == Stopped(Dangling)
  {
    FirstTick(s, o, m);
    t := Run(s, [Spawn(o, m), Update, Cleanup(0, [])]).value;
    u, order := DoomsdayComes(t.w, o, o, e);
    UpdateFrees(u.w, o, e);
    FreedCentreIsRead(MapUpdate(u.w).value, e, elapsed);
  }
}
