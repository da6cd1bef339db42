/** That the guard of Cluster::touch holds is no consequence of the run hypothesis: legal runs that stop there. */
module Hypotheses {
  import opened Hex
  import opened World
  import opened Invariants
  import opened Operations
  import opened Creations
  import opened Ticks
  import opened TickProofs
  import opened Runs

  // ---------- The guard can fail in a run that respects every other hypothesis ----------

  lemma {:induction false} EnsureNothing(w: World, os: seq<Coord>)
    requires forall o :: o in os ==> o in w.cells
    ensures EnsureCells(w, os) == Running(w)
    decreases |os|
  {
    if os != [] {
      EnsureNothing(w, os[1..]);
    }
  }

  /** An updater spawned where all six siblings exist changes no flag. */
  lemma SpawnInside(w: World, o: Coord, e: EntityId)
    requires TableOk(w) && o in w.cells && e in w.updaters
    requires forall n :: n in Siblings(o) ==> n in w.cells
    ensures ExecAdd(w, o, e, None) == Running(QueueKeep(Enter(w, e, w.cells[o]), Keep(e)))
  {
    var v := QueueKeep(Enter(w, e, w.cells[o]), Keep(e));
    EnsureNothing(v, Siblings(o));
  }

  ghost function Start(w: World): Server { Server(false, w) }

  lemma OneAdd(w: World, o: Coord, e: EntityId, rest: seq<MapOp>)
    ensures ExecAll(w, [Add(o, e, None)] + rest) ==
            if ExecAdd(w, o, e, None).Running? then ExecAll(ExecAdd(w, o, e, None).value, rest)
            else ExecAdd(w, o, e, None)
  {
    var all := [Add(o, e, None)] + rest;
    assert all[0] == Add(o, e, None) && all[1..] == rest;
  }

  lemma OneEvent(s: Server, c: Event)
    requires Legal(s, c)
    ensures LegalRun(s, [c]) && Run(s, [c]) == Step(s, c)
  {
    var r := Step(s, c);
    assert [c][1..] == [];
    assert r.Running? ==> LegalRun(r.value, []) && Run(r.value, []) == r;
  }

  lemma ThreeEvents(s: Server, a: Event, s1: Server, b: Event, s2: Server, c: Event)
    requires Legal(s, a) && Step(s, a) == Running(s1)
    requires Legal(s1, b) && Step(s1, b) == Running(s2)
    requires Legal(s2, c)
    ensures LegalRun(s, [a, b, c]) && Run(s, [a, b, c]) == Step(s2, c)
  {
    assert [a, b, c][1..] == [b, c] && [b, c][1..] == [c] && [c][1..] == [];
    OneEvent(s2, c);
    assert LegalRun(s1, [b, c]) && Run(s1, [b, c]) == Run(s2, [c]);
  }

  /** The world after the ADD of an updater on the live cell `c`. */
  ghost function Entered(w: World, e: EntityId, c: CellId): World
    requires c in w.pool
  {
    var v := QueueKeep(Enter(w, e, c), Keep(e));
    v.(bucketed := v.current)
  }

  lemma UpdateEnters(w: World, o: Coord, e: EntityId)
    requires TableOk(w) && o in w.cells && e in w.updaters && w.ops == []
    requires forall n :: n in Siblings(o) ==> n in w.cells
    ensures MapUpdate(Push(w, Add(o, e, None))) == Running(Entered(w, e, w.cells[o]))
  {
    var w1 := Push(w, Add(o, e, None));
    assert w1.ops == [Add(o, e, None)] + [] && w1.(ops := []) == w;
    SpawnInside(w, o, e);
    OneAdd(w, o, e, []);
  }

  lemma DueInSight(w: World, e: EntityId, c: CellId, elapsed: nat)
    requires c in w.pool && w.pool[c].registered && w.pool[c].remaining <= elapsed && e in w.updaters
    ensures !GuardHolds(Entered(w, e, c), elapsed)
  {
    var v := Entered(w, e, c);
    assert SeenBy(v, c, e) && Due(v, c, elapsed);
    assert c in Sight(v);
  }

  /** Spawning an updater on a cell whose countdown ends in the same tick, with all its siblings live,
      stops the run at the guard. */
  lemma SpawnOnExpiringCellStops(w: World, c: CellId, e: EntityId, elapsed: nat, order: seq<CellId>)
    requires IdleOk(w) && w.ops == [] && c in w.stall && e in w.updaters && e !in w.place
    requires forall n :: n in Siblings(w.pool[c].at) ==> n in w.cells
    requires w.pool[c].remaining <= elapsed
    ensures var evs := [Spawn(w.pool[c].at, e), Update, Cleanup(elapsed, order)];
            LegalRun(Start(w), evs) && Run(Start(w), evs) == Stopped(TouchedCooldown)
  {
    var o := w.pool[c].at;
    var w1, w2 := Push(w, Add(o, e, None)), Entered(w, e, c);
    assert IdleOk(w1) by { StepKeepsInv(Start(w), Spawn(o, e)); }
    UpdateEnters(w, o, e);
    assert BusyOk(w2) by { MapUpdateKeepsInv(w1); }
    DueInSight(w, e, c, elapsed);
    RegroupClosed(w2, elapsed);
    ThreeEvents(Start(w), Spawn(o, e), Start(w1), Update, Server(true, w2), Cleanup(elapsed, order));
  }

  /** An idle map with nothing queued and no updater, where every cell has the full two minutes left. */
  ghost predicate Unwatched(w: World, o: Coord) {
    && IdleOk(w) && w.ops == []
    && w.cells.Keys == {o} + SetOf(Siblings(o))
    && o in w.cells && (forall n :: n in Siblings(o) ==> n in w.cells)
    && (forall e :: e in w.updaters ==> e !in w.place)
    && (forall c :: c in w.pool ==> c in w.stall && w.pool[c].remaining == STALL_TIME)
  }

  /** The first tick of a map into which one non-updater is spawned: its cell and the six siblings
      exist and start their countdown. */
  lemma FirstTick(s: Server, o: Coord, m: EntityId)
    requires Initial(s) && m !in s.w.updaters
    ensures var evs := [Spawn(o, m), Update, Cleanup(0, [])];
            && LegalRun(s, evs) && Run(s, evs).Running?
            && var t := Run(s, evs).value; !t.busy && Unwatched(t.w, o) && t.w.updaters == s.w.updaters
  {
    var w1 := Push(s.w, Add(o, m, None));
    assert IdleOk(w1) by {
      assert KeepersAre(s.w, []);
      assert Sight(s.w) == {};
      StepKeepsInv(s, Spawn(o, m));
    }
    FirstUpdate(w1, o, m);
    var w2 := MapUpdate(w1).value;
    var w3 := FirstCleanup(w2);
    ThreeEvents(s, Spawn(o, m), Server(false, w1), Update, Server(true, w2), Cleanup(0, []));
  }

  lemma FirstUpdate(w: World, o: Coord, m: EntityId)
    requires IdleOk(w) && w.ops == [Add(o, m, None)] && m !in w.updaters && w.pool == map[] && w.cells == map[]
    ensures SpawnsClear(w) && MapUpdate(w).Running?
    ensures var v := MapUpdate(w).value;
            && v.cells.Keys == {o} + SetOf(Siblings(o))
            && BusyOk(v) && v.ops == [] && v.updaters == w.updaters && (forall e :: e in w.updaters ==> e !in v.place)
            && o in v.cells && (forall n :: n in Siblings(o) ==> n in v.cells)
            && (forall c :: c in v.pool ==> !v.pool[c].registered)
  {
    MapUpdateKeepsInv(w);
    var u := w.(ops := []);
    assert Core(u, w.ops) by { CoreIgnoresOwnQueue(w, [], w.ops); }
    assert w.ops == [Add(o, m, None)] + [];
    OneAdd(u, o, m, []);
    FirstAdd(u, o, m);
    FirstCells(u, o, m);
  }

  lemma FirstCells(u: World, o: Coord, m: EntityId)
    requires Core(u, [Add(o, m, None)]) && m !in u.updaters && u.cells == map[] && ExecAdd(u, o, m, None).Running?
    ensures ExecAdd(u, o, m, None).value.cells.Keys == {o} + SetOf(Siblings(o))
  {
    var op := Add(o, m, None);
    assert [op] == [op] + [];
    AddCreates(u, o, m, None, []);
    assert Around(o, None) == SetOf(Siblings(o));
    assert Named(u, u.cells.Keys, op) == {o} + SetOf(Siblings(o));
  }

  lemma FirstAdd(u: World, o: Coord, m: EntityId)
    requires Core(u, [Add(o, m, None)]) && m !in u.updaters && u.pool == map[]
    ensures ExecAdd(u, o, m, None).Running?
    ensures var v := ExecAdd(u, o, m, None).value;
            && v.updaters == u.updaters && (forall e :: e in u.updaters ==> e !in v.place)
            && o in v.cells && (forall n :: n in Siblings(o) ==> n in v.cells)
            && (forall c :: c in v.pool ==> !v.pool[c].registered)
  {
    CalmGetOrCreate(u, o, [Add(o, m, None)]);
    var u1 := GetOrCreate(u, o).value;
    OtherPlaced(u1, o, m);
    var u2 := QueueKeep(Enter(u1, m, u1.cells[o]), Keep(m));
    CalmSettle(u2, o, m);
    assert ExecAdd(u, o, m, None) == Settle(u2, u1.cells[o], m, None);
  }

  lemma CalmSettle(w: World, o: Coord, m: EntityId)
    requires Core(w, []) && NothingCounts(w) && o in w.cells && w.cells[o] in w.pool && w.pool[w.cells[o]].at == o
    requires m !in w.updaters
    ensures var r := Settle(w, w.cells[o], m, None);
            && r.Running? && r.value.place == w.place && r.value.updaters == w.updaters && o in r.value.cells
            && (forall n :: n in Siblings(o) ==> n in r.value.cells) && NothingCounts(r.value)
  {
    CalmCreation(w, Siblings(o), []);
    EnsureCellsKeepsCore(w, Siblings(o), []);
    assert EnsureSiblings(w, w.cells[o], m) == Running(w);
    assert EnsureExcluding(w, w.cells[o], None) == EnsureCells(w, Siblings(o));
  }

  lemma OtherPlaced(w: World, o: Coord, m: EntityId)
    requires Core(w, [Add(o, m, None)]) && NothingCounts(w) && o in w.cells && w.cells[o] in w.pool
    requires m !in w.updaters && w.pool[w.cells[o]].at == o
    ensures var v := QueueKeep(Enter(w, m, w.cells[o]), Keep(m));
            && Core(v, []) && NothingCounts(v) && v.updaters == w.updaters && v.place == w.place[m := w.cells[o]]
            && v.cells == w.cells && v.pool[v.cells[o]].at == o
  {
    assert [Add(o, m, None)] == [Add(o, m, None)] + [];
    PlaceEntity(w, o, m, None, []);
  }

  ghost predicate NothingCounts(w: World) {
    forall c :: c in w.pool ==> !w.pool[c].cooldown && !w.pool[c].registered
  }

  lemma CalmGetOrCreate(w: World, o: Coord, rest: seq<MapOp>)
    requires Core(w, rest) && NothingCounts(w)
    ensures GetOrCreate(w, o).Running?
    ensures var v := GetOrCreate(w, o).value;
            && Core(v, rest) && v.place == w.place && v.updaters == w.updaters
            && (forall x :: x in w.cells ==> x in v.cells) && v.cells[o] in v.pool && v.pool[v.cells[o]].at == o
            && NothingCounts(v)
  {
    GetOrCreateKeepsCore(w, o, rest);
    CreationStopsIff(w, o, rest);
  }

  /** While nothing is on cooldown or registered, creating cells neither stops nor registers anything. */
  lemma {:induction false} CalmCreation(w: World, os: seq<Coord>, rest: seq<MapOp>)
    requires Core(w, rest) && NothingCounts(w)
    ensures EnsureCells(w, os).Running?
    ensures var v := EnsureCells(w, os).value;
            && v.place == w.place && v.updaters == w.updaters && (forall o :: o in os ==> o in v.cells)
            && (forall o :: o in w.cells ==> o in v.cells) && NothingCounts(v)
    decreases |os|
  {
    if os != [] {
      CalmGetOrCreate(w, os[0], rest);
      CalmCreation(GetOrCreate(w, os[0]).value, os[1..], rest);
    }
  }

  lemma StartsCountdown(w: World, v: World)
    requires Calm(w) && (forall c :: c in w.pool ==> !w.pool[c].registered)
    requires v.pool == Fates(w, {}, 0) && FlagsOk(v, v.ops)
    ensures forall c :: c in v.pool ==> c in v.stall && v.pool[c].remaining == STALL_TIME
  {
    forall c | c in v.pool
      ensures c in v.stall && v.pool[c].remaining == STALL_TIME
    {
      assert v.pool[c] == Fate(w.pool[c], false, 0);
    }
  }

  lemma NothingIsExpired(w: World, v: World)
    requires Sorted(w, 0, {}, v) && (forall c :: c in w.pool ==> !w.pool[c].registered)
    ensures Enumerates([], Expired(v))
  {
    ExpiredIsDue(w, 0, {}, v);
  }

  lemma NothingExpires(w: World)
    requires BusyOk(w) && Sight(w) == {} && (forall c :: c in w.pool ==> !w.pool[c].registered)
    ensures var r := CleanupAndRegroup(w, 0); r.Running? && Enumerates([], Expired(r.value))
  {
    var r := CleanupAndRegroup(w, 0);
    assert r.Running? && Regrouped(w, 0, {}, r.value) by { RegroupClosed(w, 0); }
    assert Calm(w) by { BusyIsCalm(w); }
    NothingIsExpired(w, r.value);
  }

  lemma FirstCleanup(w: World) returns (v: World)
    requires BusyOk(w) && w.ops == [] && (forall e :: e in w.updaters ==> e !in w.place)
    requires forall c :: c in w.pool ==> !w.pool[c].registered
    ensures var r := CleanupAndRegroup(w, 0); r.Running? && Enumerates([], Expired(r.value))
    ensures MapCleanup(w, 0, []) == Running(v)
    ensures IdleOk(v) && v.ops == [] && v.updaters == w.updaters && v.place == w.place && v.cells == w.cells
    ensures forall c :: c in v.pool ==> c in v.stall && v.pool[c].remaining == STALL_TIME
  {
    assert Sight(w) == {};
    NothingExpires(w);
    MapCleanupKeeps(w, 0, []);
    v := MapCleanup(w, 0, []).value;
    assert Calm(w) by { BusyIsCalm(w); }
    assert FlagsOk(v, v.ops);
    StartsCountdown(w, v);
  }

  /** The run hypothesis allows runs from an empty map that stop at the guard:
      a non-updater is spawned and, two minutes later, an updater on the same cell. */
  lemma GuardFailsInALegalRun(s: Server, o: Coord, m: EntityId, e: EntityId) returns (t: Server)
    requires Initial(s) && m !in s.w.updaters && e in s.w.updaters
    ensures LegalRun(s, [Spawn(o, m), Update, Cleanup(0, [])])
    ensures Run(s, [Spawn(o, m), Update, Cleanup(0, [])]) == Running(t)
    ensures LegalRun(t, [Spawn(o, e), Update, Cleanup(STALL_TIME, [])])
    ensures Run(t, [Spawn(o, e), Update, Cleanup(STALL_TIME, [])]) == Stopped(TouchedCooldown)
  {
    FirstTick(s, o, m);
    t := Run(s, [Spawn(o, m), Update, Cleanup(0, [])]).value;
    SecondTick(t.w, o, e);
  }

  lemma SecondTick(w: World, o: Coord, e: EntityId)
    requires Unwatched(w, o) && e in w.updaters
    ensures LegalRun(Start(w), [Spawn(o, e), Update, Cleanup(STALL_TIME, [])])
    ensures Run(Start(w), [Spawn(o, e), Update, Cleanup(STALL_TIME, [])]) == Stopped(TouchedCooldown)
  {
    OpportunityExists(w, o);
    SpawnOnExpiringCellStops(w, w.cells[o], e, STALL_TIME, []);
  }

  lemma OpportunityExists(w: World, o: Coord)
    requires Unwatched(w, o)
    ensures var c := w.cells[o]; c in w.stall && c in w.pool && w.pool[c].at == o && w.pool[c].remaining == STALL_TIME
  {
  }
}
