/** How long an unwatched cell lives: exactly until two minutes of elapsed time have been counted. */
module Expiry {
  import opened Hex
  import opened World
  import opened Invariants
  import opened Operations
  import opened Creations
  import opened Ticks
  import opened TickProofs
  import opened Runs

  /** The time that the cleanups of a run count down. */
  function Elapsed(evs: seq<Event>): nat {
    if evs == [] then 0
    else (if evs[0].Cleanup? then evs[0].elapsed else 0) + Elapsed(evs[1..])
  }

  // ---------- Operations only ever unregister ----------

  /** Whatever is registered afterwards was registered before, with the same time left. */
  ghost predicate OnlyUnregisters(u: World, v: World) {
    forall c :: c in v.pool && v.pool[c].registered ==>
      c in u.pool && u.pool[c].registered && v.pool[c].remaining == u.pool[c].remaining
  }

  lemma GrownOnlyUnregisters(u: World, v: World)
    requires Grown(u, v)
    ensures OnlyUnregisters(u, v)
  {
  }

  lemma AddedOnlyUnregisters(w: World, w1: World, o: Coord, e: EntityId, v: World)
    requires AddedThrough(w, w1, o, e, v)
    ensures OnlyUnregisters(w, v)
  {
    var w2 := QueueKeep(Enter(w1, e, w1.cells[o]), Keep(e));
    GrownOnlyUnregisters(w, w1);
    GrownOnlyUnregisters(w2, v);
    assert OnlyUnregisters(w1, w2);
  }

  lemma RemovedOnlyUnregisters(w: World, c: CellId, e: EntityId, v: World)
    requires c in w.pool && Grown(QueueKeep(Leave(w, e, c), Unkeep(e)), v)
    ensures OnlyUnregisters(w, v)
  {
    var u := QueueKeep(Leave(w, e, c), Unkeep(e));
    GrownOnlyUnregisters(u, v);
    assert OnlyUnregisters(w, u);
  }

  lemma AddOnlyUnregisters(w: World, o: Coord, e: EntityId, from: Option<CellId>, rest: seq<MapOp>)
    requires Core(w, [Add(o, e, from)] + rest) && ExecAdd(w, o, e, from).Running?
    ensures OnlyUnregisters(w, ExecAdd(w, o, e, from).value)
  {
    var w1 := ExecAddKeepsCore(w, o, e, from, rest);
    AddedOnlyUnregisters(w, w1, o, e, ExecAdd(w, o, e, from).value);
  }

  lemma ExecOnlyUnregisters(w: World, op: MapOp, rest: seq<MapOp>)
    requires Core(w, [op] + rest) && Vacated(w, [op] + rest) && Exec(w, op).Running?
    ensures OnlyUnregisters(w, Exec(w, op).value)
  {
    match op
    case Add(o, e, from) =>
      AddOnlyUnregisters(w, o, e, from, rest);
    case Remove(o, e, to) =>
      ExecRemoveKeepsCore(w, o, e, to, rest);
      if o in w.cells {
        RemovedOnlyUnregisters(w, w.cells[o], e, Exec(w, op).value);
      }
    case Destroy(o, c) =>
  }

  lemma OneOnlyUnregisters(w: World, ops: seq<MapOp>) returns (v: World)
    requires Core(w, ops) && Vacated(w, ops) && ops != [] && ExecAll(w, ops).Running?
    ensures ExecAll(w, ops) == ExecAll(v, ops[1..])
    ensures Core(v, ops[1..]) && Vacated(v, ops[1..]) && OnlyUnregisters(w, v)
  {
    var op, rest := ops[0], ops[1..];
    assert ops == [op] + rest;
    ExecKeepsCore(w, op, rest);
    ExecOnlyUnregisters(w, op, rest);
    v := Exec(w, op).value;
  }

  lemma {:induction false} ExecAllOnlyUnregisters(w: World, ops: seq<MapOp>)
    requires Core(w, ops) && Vacated(w, ops) && ExecAll(w, ops).Running?
    ensures OnlyUnregisters(w, ExecAll(w, ops).value)
    decreases |ops|
  {
    if ops != [] {
      var v := OneOnlyUnregisters(w, ops);
      ExecAllOnlyUnregisters(v, ops[1..]);
    }
  }

  // ---------- What cuts a countdown short ----------

  /** An operation takes `c` out of its countdown: it creates a cell within distance 1, or it is the ADD, into `c`,
      of an entity from a cell that is not stalled. */
  ghost predicate OpDisturbs(w: World, op: MapOp, v: World, c: CellId)
    requires c in w.pool
  {
    Touches(w, Named(w, w.cells.Keys, op), w.pool[c].at) || Unstalled(w, op, v, c)
  }

  /** One of the operations of a queue does. */
  ghost predicate QueueDisturbs(w: World, ops: seq<MapOp>, c: CellId)
    decreases |ops|
  {
    && ops != [] && c in w.pool
    && var r := Exec(w, ops[0]);
       r.Running? && (OpDisturbs(w, ops[0], r.value, c) || QueueDisturbs(r.value, ops[1..], c))
  }

  /** What each event can do to the countdown of `c`, other than let it run out. */
  ghost predicate Disturbs(s: Server, ev: Event, c: CellId) {
    match ev
    case Spawn(_, _) => false
    case Despawn(_, _) => false
    case Move(_, o) => c in s.w.pool && Touches(s.w, {o}, s.w.pool[c].at)
    case Update => QueueDisturbs(s.w.(ops := []), s.w.ops, c)
    case Cleanup(_, _) => c in Sight(s.w)
  }

  ghost predicate Counting(s: Server, c: CellId) {
    c in s.w.pool && s.w.pool[c].registered
  }

  lemma OneOperation(w: World, op: MapOp, rest: seq<MapOp>) returns (v: World)
    requires Core(w, [op] + rest) && Vacated(w, [op] + rest) && Exec(w, op).Running?
    ensures Exec(w, op) == Running(v) && Core(v, rest) && Vacated(v, rest) && Fares(w, op, v)
  {
    v := Exec(w, op).value;
    assert Core(v, rest) && Vacated(v, rest) by { ExecKeepsCore(w, op, rest); }
    assert Fares(w, op, v) by { ExecCreates(w, op, rest); }
  }

  lemma AddKeepsLive(w: World, w1: World, o: Coord, e: EntityId, v: World)
    requires AddedThrough(w, w1, o, e, v)
    ensures w.pool.Keys <= v.pool.Keys
  {
  }

  lemma RemoveKeepsLive(w: World, o: Coord, e: EntityId, to: Option<CellId>, rest: seq<MapOp>)
    requires Core(w, [Remove(o, e, to)] + rest) && ExecRemove(w, o, e, to).Running?
    ensures w.pool.Keys <= ExecRemove(w, o, e, to).value.pool.Keys
  {
    ExecRemoveKeepsCore(w, o, e, to, rest);
  }

  lemma AddSurvives(w: World, o: Coord, e: EntityId, from: Option<CellId>, rest: seq<MapOp>)
    requires Core(w, [Add(o, e, from)] + rest) && ExecAdd(w, o, e, from).Running?
    ensures w.pool.Keys <= ExecAdd(w, o, e, from).value.pool.Keys
  {
    var w1 := ExecAddKeepsCore(w, o, e, from, rest);
    AddKeepsLive(w, w1, o, e, ExecAdd(w, o, e, from).value);
  }

  lemma DestroySurvives(w: World, o: Coord, d: CellId, c: CellId)
    requires c in w.pool && ExecDestroy(w, o, d).Running? && d != c
    ensures c in ExecDestroy(w, o, d).value.pool
  {
  }

  /** Only its DESTROY frees a cell. */
  lemma Survives(w: World, op: MapOp, rest: seq<MapOp>, c: CellId)
    requires Core(w, [op] + rest) && c in w.pool && Exec(w, op).Running? && !(op.Destroy? && op.cell == c)
    ensures c in Exec(w, op).value.pool
  {
    match op
    case Add(o, e, from) => AddSurvives(w, o, e, from, rest);
    case Remove(o, e, to) => RemoveKeepsLive(w, o, e, to, rest);
    case Destroy(o, d) => DestroySurvives(w, o, d, c);
  }

  lemma OneCounts(w: World, op: MapOp, rest: seq<MapOp>, c: CellId) returns (v: World)
    requires Core(w, [op] + rest) && Vacated(w, [op] + rest) && Exec(w, op).Running?
    requires c in w.pool && !Doomed([op] + rest, c)
    ensures ExecAll(w, [op] + rest) == ExecAll(v, rest) && Core(v, rest) && Vacated(v, rest)
    ensures c in v.pool && !Doomed(rest, c)
    ensures v.pool[c].registered && !QueueDisturbs(v, rest, c) <==>
              w.pool[c].registered && !QueueDisturbs(w, [op] + rest, c)
  {
    DoomedTail(op, rest, c);
    assert c in Exec(w, op).value.pool by { Survives(w, op, rest, c); }
    v := OneOperation(w, op, rest);
    assert ([op] + rest)[0] == op && ([op] + rest)[1..] == rest;
    ExecAllStep(w, [op] + rest);
    DisturbsUnfolds(w, [op] + rest, v, c);
  }

  lemma DisturbsUnfolds(w: World, ops: seq<MapOp>, v: World, c: CellId)
    requires ops != [] && c in w.pool && Exec(w, ops[0]) == Running(v)
    ensures QueueDisturbs(w, ops, c) <==> OpDisturbs(w, ops[0], v, c) || QueueDisturbs(v, ops[1..], c)
  {
  }

  /** Draining a queue leaves a cell in its countdown iff nothing in the queue disturbs it. */
  lemma {:induction false} QueueCountsIff(w: World, ops: seq<MapOp>, c: CellId)
    requires Core(w, ops) && Vacated(w, ops) && ExecAll(w, ops).Running? && c in w.pool && !Doomed(ops, c)
    ensures var v := ExecAll(w, ops).value;
            c in v.pool && (v.pool[c].registered <==> w.pool[c].registered && !QueueDisturbs(w, ops, c))
    decreases |ops|
  {
    if ops != [] {
      var op, rest := ops[0], ops[1..];
      assert ops == [op] + rest;
      ExecAllStep(w, ops);
      var v := OneCounts(w, op, rest, c);
      QueueCountsIff(v, rest, c);
    }
  }

  lemma UpdateCountsIff(w: World, c: CellId)
    requires IdleOk(w) && SpawnsClear(w) && MapUpdate(w).Running? && c in w.pool && w.pool[c].registered
    ensures var v := MapUpdate(w).value;
            c in v.pool && (v.pool[c].registered <==> !QueueDisturbs(w.(ops := []), w.ops, c))
  {
    QueueIsReady(w);
    assert !Doomed(w.ops, c) by { assert FlagsOk(w, w.ops); }
    QueueCountsIff(w.(ops := []), w.ops, c);
  }

  lemma MoveCountsIff(w: World, e: EntityId, o: Coord, c: CellId)
    requires BusyOk(w) && Legal(Server(true, w), Move(e, o)) && c in w.pool
    ensures OnMove(w, e, o).Running?
    ensures var v := OnMove(w, e, o).value;
            c in v.pool && (v.pool[c].registered <==> w.pool[c].registered && !Touches(w, {o}, w.pool[c].at))
  {
    OnMoveKeepsInv(w, e, o);
    CreationStopsIff(w, o, w.ops);
    OnMoveOnlyQueues(w, e, o);
  }

  lemma CleanupCountsIff(w: World, elapsed: nat, order: seq<CellId>, c: CellId)
    requires BusyOk(w) && Legal(Server(true, w), Cleanup(elapsed, order)) && MapCleanup(w, elapsed, order).Running?
    requires c in w.pool && w.pool[c].registered
    ensures var v := MapCleanup(w, elapsed, order).value;
            c in v.pool && (v.pool[c].registered <==> c !in Sight(w) && w.pool[c].remaining > elapsed)
  {
    FateOfCell(w, elapsed, order, c);
  }

  /** A cell stays in its countdown over an event iff nothing disturbs it and it does not run out. */
  ghost predicate CountsAsSaid(s: Server, ev: Event, c: CellId)
    requires Legal(s, ev) && Step(s, ev).Running? && Counting(s, c)
  {
    Counting(Step(s, ev).value, c) <==>
      !Disturbs(s, ev, c) && !(ev.Cleanup? && s.w.pool[c].remaining <= ev.elapsed)
  }

  lemma CountsOverPush(s: Server, ev: Event, c: CellId)
    requires Legal(s, ev) && (ev.Spawn? || ev.Despawn?) && Counting(s, c)
    ensures CountsAsSaid(s, ev, c)
  {
  }

  lemma CountsOverMove(s: Server, e: EntityId, o: Coord, c: CellId)
    requires Inv(s) && Legal(s, Move(e, o)) && Step(s, Move(e, o)).Running? && Counting(s, c)
    ensures CountsAsSaid(s, Move(e, o), c)
  {
    MoveCountsIff(s.w, e, o, c);
  }

  lemma CountsOverUpdate(s: Server, c: CellId)
    requires Inv(s) && Legal(s, Update) && Step(s, Update).Running? && Counting(s, c)
    ensures CountsAsSaid(s, Update, c)
  {
    UpdateCountsIff(s.w, c);
  }

  lemma CountsOverCleanup(s: Server, elapsed: nat, order: seq<CellId>, c: CellId)
    requires Inv(s) && Legal(s, Cleanup(elapsed, order)) && Step(s, Cleanup(elapsed, order)).Running? && Counting(s, c)
    ensures CountsAsSaid(s, Cleanup(elapsed, order), c)
  {
    CleanupCountsIff(s.w, elapsed, order, c);
  }

  /** Exactly when a cell stays in its countdown over an event: nothing disturbs it and it does not run out. */
  lemma CountsOnIff(s: Server, ev: Event, c: CellId)
    requires Inv(s) && Legal(s, ev) && Step(s, ev).Running? && Counting(s, c)
    ensures CountsAsSaid(s, ev, c)
  {
    match ev
    case Spawn(_, _) => CountsOverPush(s, ev, c);
    case Despawn(_, _) => CountsOverPush(s, ev, c);
    case Move(e, o) => CountsOverMove(s, e, o, c);
    case Update => CountsOverUpdate(s, c);
    case Cleanup(elapsed, order) => CountsOverCleanup(s, elapsed, order, c);
  }

  // ---------- The countdown ----------

  /** No event of the run disturbs the countdown of `c`. */
  ghost predicate Undisturbed(s: Server, evs: seq<Event>, c: CellId)
    requires LegalRun(s, evs)
    decreases |evs|
  {
    evs == []
    || (!Disturbs(s, evs[0], c) && (Step(s, evs[0]).Running? ==> Undisturbed(Step(s, evs[0]).value, evs[1..], c)))
  }

  lemma CountdownMove(w: World, e: EntityId, o: Coord, c: CellId)
    requires BusyOk(w) && OnMove(w, e, o).Running?
    ensures OnlyUnregisters(w, OnMove(w, e, o).value)
  {
    GetOrCreateKeepsCells(w, o, w.ops);
    GrownOnlyUnregisters(w, GetOrCreate(w, o).value);
  }

  lemma CountdownUpdate(w: World)
    requires IdleOk(w) && SpawnsClear(w) && MapUpdate(w).Running?
    ensures OnlyUnregisters(w, MapUpdate(w).value)
  {
    QueueIsReady(w);
    ExecAllOnlyUnregisters(w.(ops := []), w.ops);
  }

  /** What MapCleanupKeeps says of a single cell. */
  lemma FateOfCell(w: World, elapsed: nat, order: seq<CellId>, c: CellId)
    requires BusyOk(w) && Legal(Server(true, w), Cleanup(elapsed, order)) && MapCleanup(w, elapsed, order).Running?
    ensures var v := MapCleanup(w, elapsed, order).value;
            (c in v.pool <==> c in w.pool) && (c in w.pool ==> v.pool[c] == Fate(w.pool[c], c in Sight(w), elapsed))
  {
    MapCleanupKeeps(w, elapsed, order);
  }

  lemma CountdownCleanup(w: World, elapsed: nat, order: seq<CellId>, c: CellId)
    requires BusyOk(w) && Legal(Server(true, w), Cleanup(elapsed, order)) && MapCleanup(w, elapsed, order).Running?
    requires Counting(Server(true, w), c) && Counting(Server(false, MapCleanup(w, elapsed, order).value), c)
    ensures w.pool[c].remaining == MapCleanup(w, elapsed, order).value.pool[c].remaining + elapsed
  {
    FateOfCell(w, elapsed, order, c);
  }

  /** The time that an event takes from the countdown of a cell that stays in it. */
  ghost predicate CountsDown(s: Server, ev: Event, c: CellId)
    requires Legal(s, ev) && Step(s, ev).Running? && Counting(s, c) && Counting(Step(s, ev).value, c)
  {
    s.w.pool[c].remaining == Step(s, ev).value.w.pool[c].remaining + if ev.Cleanup? then ev.elapsed else 0
  }

  lemma PushCountsDown(s: Server, ev: Event, c: CellId)
    requires Legal(s, ev) && (ev.Spawn? || ev.Despawn?) && Counting(s, c)
    ensures CountsDown(s, ev, c)
  {
  }

  lemma MoveCountsDown(s: Server, e: EntityId, o: Coord, c: CellId)
    requires Inv(s) && Legal(s, Move(e, o)) && Step(s, Move(e, o)).Running?
    requires Counting(s, c) && Counting(Step(s, Move(e, o)).value, c)
    ensures CountsDown(s, Move(e, o), c)
  {
    CountdownMove(s.w, e, o, c);
  }

  lemma UpdateCountsDown(s: Server, c: CellId)
    requires Inv(s) && Legal(s, Update) && Step(s, Update).Running?
    requires Counting(s, c) && Counting(Step(s, Update).value, c)
    ensures CountsDown(s, Update, c)
  {
    CountdownUpdate(s.w);
  }

  lemma CleanupCountsDown(s: Server, elapsed: nat, order: seq<CellId>, c: CellId)
    requires Inv(s) && Legal(s, Cleanup(elapsed, order)) && Step(s, Cleanup(elapsed, order)).Running?
    requires Counting(s, c) && Counting(Step(s, Cleanup(elapsed, order)).value, c)
    ensures CountsDown(s, Cleanup(elapsed, order), c)
  {
    CountdownCleanup(s.w, elapsed, order, c);
  }

  lemma CountdownStep(s: Server, ev: Event, c: CellId)
    requires Inv(s) && Legal(s, ev) && Step(s, ev).Running?
    requires Counting(s, c) && Counting(Step(s, ev).value, c)
    ensures CountsDown(s, ev, c)
  {
    match ev
    case Spawn(_, _) => PushCountsDown(s, ev, c);
    case Despawn(_, _) => PushCountsDown(s, ev, c);
    case Move(e, o) => MoveCountsDown(s, e, o, c);
    case Update => UpdateCountsDown(s, c);
    case Cleanup(elapsed, order) => CleanupCountsDown(s, elapsed, order, c);
  }

  /** As long as the elapsed times do not use up what is left, an undisturbed cell counts them down exactly. */
  lemma {:induction false} Countdown(s: Server, evs: seq<Event>, c: CellId)
    requires Inv(s) && LegalRun(s, evs) && Run(s, evs).Running? && Undisturbed(s, evs, c)
    requires Counting(s, c) && Elapsed(evs) < s.w.pool[c].remaining
    ensures Counting(Run(s, evs).value, c)
    ensures s.w.pool[c].remaining == Run(s, evs).value.w.pool[c].remaining + Elapsed(evs)
    decreases |evs|
  {
    if evs != [] {
      assert Elapsed([evs[0]]) == if evs[0].Cleanup? then evs[0].elapsed else 0;
      StepKeepsInv(s, evs[0]);
      CountsOnIff(s, evs[0], c);
      CountdownStep(s, evs[0], c);
      Countdown(Step(s, evs[0]).value, evs[1..], c);
    }
  }

  lemma TombOfDoomed(w: World, c: CellId)
    requires ParamsOk(w, w.ops) && c in w.pool
    ensures Doomed(w.ops, c) <==> Destroy(w.pool[c].at, c) in w.ops
  {
    if Doomed(w.ops, c) {
      var i :| 0 <= i < |w.ops| && w.ops[i].Destroy? && w.ops[i].cell == c;
      assert OpOk(w, w.ops[i]);
      assert w.ops[i] == Destroy(w.pool[c].at, c);
    }
  }

  lemma FadesOrCounts(w: World, seen: set<CellId>, elapsed: nat, c: CellId)
    requires c in w.pool && w.pool[c].registered && !w.pool[c].cooldown && c !in seen
    ensures Fates(w, seen, elapsed)[c].cooldown <==> w.pool[c].remaining <= elapsed
    ensures Fates(w, seen, elapsed)[c].registered <==> w.pool[c].remaining > elapsed
  {
  }

  lemma FateOutOfSight(w: World, elapsed: nat, order: seq<CellId>, c: CellId)
    requires BusyOk(w) && Legal(Server(true, w), Cleanup(elapsed, order)) && MapCleanup(w, elapsed, order).Running?
    requires c in w.pool && w.pool[c].registered && c !in Sight(w)
    ensures var v := MapCleanup(w, elapsed, order).value;
            && IdleOk(v) && c in v.pool
            && (v.pool[c].cooldown <==> w.pool[c].remaining <= elapsed)
            && (v.pool[c].registered <==> w.pool[c].remaining > elapsed)
  {
    var v := MapCleanup(w, elapsed, order).value;
    assert IdleOk(v) && v.pool == Fates(w, Sight(w), elapsed) by { MapCleanupKeeps(w, elapsed, order); }
    assert !w.pool[c].cooldown by { BusyIsCalm(w); }
    FadesOrCounts(w, Sight(w), elapsed, c);
  }

  lemma ExpiryStep(t: Server, c: CellId, elapsed: nat, order: seq<CellId>)
    requires Inv(t) && Counting(t, c) && Legal(t, Cleanup(elapsed, order)) && c !in Sight(t.w)
    requires Step(t, Cleanup(elapsed, order)).Running?
    ensures var v := Step(t, Cleanup(elapsed, order)).value.w;
            && c in v.pool
            && (v.pool[c].cooldown <==> t.w.pool[c].remaining <= elapsed)
            && (v.pool[c].registered <==> t.w.pool[c].remaining > elapsed)
            && (Destroy(v.pool[c].at, c) in v.ops <==> t.w.pool[c].remaining <= elapsed)
  {
    FateOutOfSight(t.w, elapsed, order, c);
    var v := MapCleanup(t.w, elapsed, order).value;
    assert FlagsOk(v, v.ops);
    TombOfDoomed(v, c);
  }

  /** The cleanup that registers a cell gives it two minutes. */
  lemma CountdownStarts(w: World, elapsed: nat, order: seq<CellId>, c: CellId)
    requires BusyOk(w) && Legal(Server(true, w), Cleanup(elapsed, order)) && MapCleanup(w, elapsed, order).Running?
    requires c in w.pool && !w.pool[c].registered
    ensures var v := MapCleanup(w, elapsed, order).value;
            c in v.pool && (c !in Sight(w) ==> v.pool[c].registered && v.pool[c].remaining == 120000)
  {
    FateOfCell(w, elapsed, order, c);
  }

  /** Exact expiry. A cell that has just been registered, and that nothing disturbs up to a Map::cleanup before
      which less than two minutes have elapsed, goes on cooldown and is queued for destruction in that cleanup iff
      the elapsed times then add up to two minutes; else it stays registered. */
  lemma ExactExpiry(s: Server, evs: seq<Event>, c: CellId, elapsed: nat, order: seq<CellId>)
    requires Inv(s) && Counting(s, c) && s.w.pool[c].remaining == 120000
    requires LegalRun(s, evs) && Run(s, evs).Running? && Undisturbed(s, evs, c) && Elapsed(evs) < 120000
    requires var t := Run(s, evs).value; Legal(t, Cleanup(elapsed, order)) && c !in Sight(t.w)
    requires Step(Run(s, evs).value, Cleanup(elapsed, order)).Running?
    ensures var v := Step(Run(s, evs).value, Cleanup(elapsed, order)).value.w;
            && c in v.pool
            && (v.pool[c].cooldown <==> Elapsed(evs) + elapsed >= 120000)
            && (v.pool[c].registered <==> Elapsed(evs) + elapsed < 120000)
            && (Destroy(v.pool[c].at, c) in v.ops <==> Elapsed(evs) + elapsed >= 120000)
  {
    Countdown(s, evs, c);
    RunKeepsInv(s, evs);
    ExpiryStep(Run(s, evs).value, c, elapsed, order);
  }

  lemma {:induction false} ExecAllSplits(w: World, a: seq<MapOp>, b: seq<MapOp>)
    ensures ExecAll(w, a + b) == if ExecAll(w, a).Running? then ExecAll(ExecAll(w, a).value, b) else ExecAll(w, a)
    decreases |a|
  {
    if a == [] {
      assert a + b == b;
    } else {
      assert (a + b)[1..] == a[1..] + b;
      var r := Exec(w, a[0]);
      if r.Running? {
        ExecAllSplits(r.value, a[1..], b);
      }
    }
  }

  lemma ExecAllReaches(w: World, a: seq<MapOp>, op: MapOp, b: seq<MapOp>)
    requires ExecAll(w, a).Running? && Exec(ExecAll(w, a).value, op).Running?
    ensures ExecAll(w, a + [op] + b) == ExecAll(Exec(ExecAll(w, a).value, op).value, b)
  {
    assert a + [op] + b == a + ([op] + b);
    ExecAllSplits(w, a, [op] + b);
    assert ([op] + b)[0] == op && ([op] + b)[1..] == b;
  }

  /** In the next Map::update, once its DESTROY is reached, the cell and its own map entry are gone. */
  lemma DestroyedWhenReached(w: World, a: seq<MapOp>, o: Coord, c: CellId, b: seq<MapOp>)
    requires Core(w, a + [Destroy(o, c)] + b) && Vacated(w, a + [Destroy(o, c)] + b)
    requires ExecAll(w, a).Running?
    ensures var u := ExecAll(w, a).value; c in u.pool && o in u.cells && u.cells[o] == c
    ensures var r := ExecDestroy(ExecAll(w, a).value, o, c);
            r.Running? && c !in r.value.pool && o !in r.value.cells
            && ExecAll(w, a + [Destroy(o, c)] + b) == ExecAll(r.value, b)
  {
    assert a + [Destroy(o, c)] + b == a + ([Destroy(o, c)] + b);
    var u := ExecAll(w, a).value;
    assert Core(u, [Destroy(o, c)] + b) && Vacated(u, [Destroy(o, c)] + b) by {
      ExecPrefixKeepsCore(w, a, [Destroy(o, c)] + b);
    }
    assert c in u.pool && o in u.cells && u.cells[o] == c by { DestroyIsOfOwnEntry(u, o, c, b); }
    ExecAllReaches(w, a, Destroy(o, c), b);
  }

  lemma DestroyIsOfOwnEntry(u: World, o: Coord, c: CellId, b: seq<MapOp>)
    requires Core(u, [Destroy(o, c)] + b) && Vacated(u, [Destroy(o, c)] + b)
    ensures c in u.pool && o in u.cells && u.cells[o] == c
  {
    VacatedNow(u, Destroy(o, c), b);
    ExecDestroyKeepsCore(u, o, c, b);
    assert TableOk(u);
  }

  lemma OnePrefix(w: World, op: MapOp, rest: seq<MapOp>, b: seq<MapOp>) returns (v: World)
    requires Core(w, [op] + rest + b) && Vacated(w, [op] + rest + b) && Exec(w, op).Running?
    ensures Exec(w, op).value == v && Core(v, rest + b) && Vacated(v, rest + b)
  {
    assert [op] + rest + b == [op] + (rest + b);
    v := OneExecuted(w, op, rest + b);
  }

  lemma {:induction false} ExecPrefixKeepsCore(w: World, a: seq<MapOp>, b: seq<MapOp>)
    requires Core(w, a + b) && Vacated(w, a + b) && ExecAll(w, a).Running?
    ensures Core(ExecAll(w, a).value, b) && Vacated(ExecAll(w, a).value, b)
    decreases |a|
  {
    if a == [] {
      assert a + b == b;
    } else {
      assert a == [a[0]] + a[1..];
      ExecAllStep(w, a);
      var v := OnePrefix(w, a[0], a[1..], b);
      ExecPrefixKeepsCore(v, a[1..], b);
    }
  }

  // ---------- A map nobody watches ----------

  /** No updater is in the map, nothing but destructions is queued,
      and every cell that is not doomed has at most `left` to live. */
  ghost predicate Fading(s: Server, left: int) {
    && Inv(s)
    && (forall e :: e in s.w.updaters ==> e !in s.w.place)
    && (forall i :: 0 <= i < |s.w.ops| ==> s.w.ops[i].Destroy?)
    && (forall c :: c in s.w.pool && !s.w.pool[c].cooldown ==> s.w.pool[c].registered && s.w.pool[c].remaining <= left)
  }

  ghost predicate OnlyLess(w: World, v: World) {
    v.place == w.place && v.updaters == w.updaters && forall c :: c in v.pool ==> c in w.pool && v.pool[c] == w.pool[c]
  }

  lemma OneDestroy(w: World, ops: seq<MapOp>) returns (v: World)
    requires Core(w, ops) && Vacated(w, ops) && ops != [] && ops[0].Destroy?
    ensures ExecAll(w, ops) == ExecAll(v, ops[1..]) && Core(v, ops[1..]) && Vacated(v, ops[1..]) && OnlyLess(w, v)
  {
    var o, c := ops[0].at, ops[0].cell;
    assert ops == [Destroy(o, c)] + ops[1..];
    assert ExecDestroy(w, o, c).Running? by { DestroyedIsDoomed(w, o, c, ops[1..]); }
    v := OneExecuted(w, ops[0], ops[1..]);
    ExecAllStep(w, ops);
  }

  ghost predicate AllDestroy(ops: seq<MapOp>) {
    forall i :: 0 <= i < |ops| ==> ops[i].Destroy?
  }

  lemma {:induction false} DestroysOnlyDestroy(w: World, ops: seq<MapOp>)
    requires Core(w, ops) && Vacated(w, ops) && AllDestroy(ops)
    ensures ExecAll(w, ops).Running? && OnlyLess(w, ExecAll(w, ops).value)
    decreases |ops|
  {
    if ops == [] {
      assert ExecAll(w, ops) == Running(w);
    } else {
      var v := OneDestroy(w, ops);
      assert AllDestroy(ops[1..]);
      DestroysOnlyDestroy(v, ops[1..]);
      OnlyLessTwice(w, v, ExecAll(v, ops[1..]).value);
    }
  }

  lemma OnlyLessTwice(w: World, v: World, x: World)
    requires OnlyLess(w, v) && OnlyLess(v, x)
    ensures OnlyLess(w, x)
  {
  }

  lemma FadingUpdate(w: World)
    requires IdleOk(w) && forall i :: 0 <= i < |w.ops| ==> w.ops[i].Destroy?
    ensures MapUpdate(w).Running? && OnlyLess(w, MapUpdate(w).value)
  {
    assert SpawnsClear(w);
    QueueIsReady(w);
    DestroysOnlyDestroy(w.(ops := []), w.ops);
  }

  lemma FadingCleanup(w: World, elapsed: nat, order: seq<CellId>, left: int)
    requires Fading(Server(true, w), left) && Legal(Server(true, w), Cleanup(elapsed, order))
    ensures var r := MapCleanup(w, elapsed, order);
            r.Running? && forall c :: c in r.value.pool && !r.value.pool[c].cooldown ==>
              r.value.pool[c].registered && r.value.pool[c].remaining <= left - elapsed
  {
    assert Sight(w) == {};
    assert MapCleanup(w, elapsed, order).Running? by { MapCleanupKeeps(w, elapsed, order); }
    var v := MapCleanup(w, elapsed, order).value;
    forall c | c in v.pool && !v.pool[c].cooldown
      ensures v.pool[c].registered && v.pool[c].remaining <= left - elapsed
    {
      FateOfCell(w, elapsed, order, c);
      BusyIsCalm(w);
    }
  }

  lemma FadingAfterUpdate(w: World, left: int)
    requires Fading(Server(false, w), left) && Legal(Server(false, w), Update)
    ensures MapUpdate(w).Running? && Fading(Server(true, MapUpdate(w).value), left)
  {
    StepKeepsInv(Server(false, w), Update);
    FadingUpdate(w);
    assert MapUpdate(w).value.ops == [] by { MapUpdateKeepsInv(w); }
  }

  lemma CleanupLeavesTombs(w: World, elapsed: nat, order: seq<CellId>)
    requires BusyOk(w) && Legal(Server(true, w), Cleanup(elapsed, order)) && MapCleanup(w, elapsed, order).Running?
    requires forall i :: 0 <= i < |w.ops| ==> w.ops[i].Destroy?
    ensures var v := MapCleanup(w, elapsed, order).value;
            && IdleOk(v) && v.place == w.place && v.updaters == w.updaters
            && forall i :: 0 <= i < |v.ops| ==> v.ops[i].Destroy?
  {
    MapCleanupKeeps(w, elapsed, order);
  }

  lemma FadingAfterCleanup(w: World, elapsed: nat, order: seq<CellId>, left: int)
    requires Fading(Server(true, w), left) && Legal(Server(true, w), Cleanup(elapsed, order))
    ensures MapCleanup(w, elapsed, order).Running?
    ensures Fading(Server(false, MapCleanup(w, elapsed, order).value), left - elapsed)
  {
    FadingCleanup(w, elapsed, order, left);
    CleanupLeavesTombs(w, elapsed, order);
  }

  lemma FadingStep(s: Server, ev: Event, left: int)
    requires Fading(s, left) && Legal(s, ev) && (ev.Update? || ev.Cleanup?)
    ensures Step(s, ev).Running? && Fading(Step(s, ev).value, left - Elapsed([ev]))
  {
    if ev.Update? {
      FadingAfterUpdate(s.w, left);
    } else {
      FadingAfterCleanup(s.w, ev.elapsed, ev.order, left);
    }
  }

  lemma {:induction false} FadingRun(s: Server, evs: seq<Event>, left: int)
    requires Fading(s, left) && LegalRun(s, evs)
    requires forall i :: 0 <= i < |evs| ==> evs[i].Update? || evs[i].Cleanup?
    ensures Run(s, evs).Running? && Fading(Run(s, evs).value, left - Elapsed(evs))
    decreases |evs|
  {
    if evs != [] {
      FadingStep(s, evs[0], left);
      FadingRun(Step(s, evs[0]).value, evs[1..], left - Elapsed([evs[0]]));
    }
  }

  /** A map with no keepers and no requests never stops, and is empty
      after the first Map::update that follows two minutes of cleanups. */
  lemma UnwatchedMapEmpties(s: Server, evs: seq<Event>)
    requires Inv(s) && !s.busy && LegalRun(s, evs)
    requires s.w.keepers == [] && forall i :: 0 <= i < |s.w.ops| ==> s.w.ops[i].Destroy?
    requires forall i :: 0 <= i < |evs| ==> evs[i].Update? || evs[i].Cleanup?
    ensures Run(s, evs).Running?
    ensures var t := Run(s, evs).value;
            t.busy && Elapsed(evs) >= 120000 ==>
              t.w.pool == map[] && t.w.cells == map[] && t.w.current == {} && t.w.stall == {} && t.w.links == {}
  {
    assert KeepersAre(s.w, s.w.keepers);
    assert Sight(s.w) == {};
    FadingRun(s, evs, 120000);
    var t := Run(s, evs).value;
    if t.busy && Elapsed(evs) >= 120000 {
      BusyIsCalm(t.w);
      assert forall c :: c !in t.w.pool;
      assert t.w.pool == map[];
      assert t.w.cells == map[];
      assert forall l :: l in t.w.links ==> (l.0, l.1) in t.w.links && l.0 in t.w.current;
    }
  }
}
