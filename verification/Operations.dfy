/** Each scheduled map operation keeps the invariants, and can only stop at the guard of Cluster::touch. */
module Operations {
  import opened Hex
  import opened World
  import opened Invariants

  /** Shared shape of the results below: the invariant again, or the guard. */
  ghost predicate KeepsCore(u: World, r: Outcome<World>, rest: seq<MapOp>) {
    match r
    case Running(v) => Core(v, rest) && Grown(u, v)
    case Stopped(f) => f == TouchedCooldown
  }

  lemma GetOrCreateKeepsCore(w: World, o: Coord, rest: seq<MapOp>)
    requires Core(w, rest)
    ensures KeepsCore(w, GetOrCreate(w, o), rest)
  {
    GetOrCreateKeepsCells(w, o, rest);
    var r := GetOrCreate(w, o);
    if r.Running? {
      GrownKeepsPeople(w, r.value);
      GrownKeepsQueue(w, r.value, rest);
    }
  }

  lemma {:induction false} EnsureCellsKeepsCore(w: World, os: seq<Coord>, rest: seq<MapOp>)
    requires Core(w, rest)
    ensures KeepsCore(w, EnsureCells(w, os), rest)
    ensures EnsureCells(w, os).Running? ==> forall o :: o in os ==> o in EnsureCells(w, os).value.cells
    decreases |os|
  {
    if os != [] {
      GetOrCreateKeepsCore(w, os[0], rest);
      var r := GetOrCreate(w, os[0]);
      if r.Running? {
        EnsureCellsKeepsCore(r.value, os[1..], rest);
        var s := EnsureCells(r.value, os[1..]);
        if s.Running? {
          GrownTransitive(w, r.value, s.value);
        }
      }
    }
  }

  lemma EnsureExcludingKeepsCore(w: World, c: CellId, exclude: Option<CellId>, rest: seq<MapOp>)
    requires Core(w, rest) && c in w.pool
    requires exclude.Some? ==>
               exclude.value in w.pool && Near(w.pool[c].at, w.pool[exclude.value].at)
               && w.pool[c].at != w.pool[exclude.value].at
    ensures KeepsCore(w, EnsureExcluding(w, c, exclude), rest)
  {
    if exclude.None? {
      EnsureCellsKeepsCore(w, Siblings(w.pool[c].at), rest);
    } else {
      DirectionIndexInverts(w.pool[c].at, w.pool[exclude.value].at);
      EnsureCellsKeepsCore(w, Ahead(w.pool[c].at, w.pool[exclude.value].at), rest);
    }
  }

  lemma CheckStallKeepsFlags(w: World, from: Option<CellId>, to: CellId, rest: seq<MapOp>)
    requires FlagsOk(w, rest) && to in w.pool && (from.Some? ==> from.value in w.pool)
    ensures CheckStall(w, from, to).Running? && FlagsOk(CheckStall(w, from, to).value, rest)
  {
  }

  lemma CheckStallGrows(w: World, from: Option<CellId>, to: CellId)
    requires to in w.pool && CheckStall(w, from, to).Running?
    ensures var v := CheckStall(w, from, to).value;
            && Grown(w, v) && (Allocates(w) ==> Allocates(v)) && (TableOk(w) ==> TableOk(v))
            && (LinksOk(w) ==> LinksOk(v))
  {
  }

  lemma CheckStallKeepsCells(w: World, from: Option<CellId>, to: CellId, rest: seq<MapOp>)
    requires CellsOk(w, rest) && to in w.pool
    requires from.Some? ==> from.value in w.pool
    ensures var r := CheckStall(w, from, to);
            r.Running? && CellsOk(r.value, rest) && Grown(w, r.value)
  {
    CheckStallKeepsFlags(w, from, to, rest);
    CheckStallGrows(w, from, to);
  }

  lemma CheckStallKeepsCore(w: World, from: Option<CellId>, to: CellId, rest: seq<MapOp>)
    requires Core(w, rest) && to in w.pool
    requires from.Some? ==> from.value in w.pool
    ensures var r := CheckStall(w, from, to);
            r.Running? && Core(r.value, rest) && Grown(w, r.value)
  {
    CheckStallKeepsCells(w, from, to, rest);
    var v := CheckStall(w, from, to).value;
    GrownKeepsPeople(w, v);
    GrownKeepsQueue(w, v, rest);
  }

  // ---------- ADD ----------

  lemma EnterKeepsCells(w: World, e: EntityId, c: CellId, rest: seq<MapOp>)
    requires CellsOk(w, rest) && c in w.pool
    ensures CellsOk(Enter(w, e, c), rest)
  {
  }

  lemma EnterKeepsUpdaters(w: World, e: EntityId, c: CellId)
    requires UpdatersOk(w) && c in w.pool
    requires e in w.updaters ==> e !in w.place
    ensures UpdatersOk(Enter(w, e, c))
  {
  }

  lemma EnterKeepsCounts(w: World, e: EntityId, c: CellId)
    requires CountsOk(w) && c in w.pool
    requires e in w.clients ==> e !in w.pool[c].entities
    ensures CountsOk(Enter(w, e, c))
  {
    var v := Enter(w, e, c);
    if e in w.clients {
      assert v.pool[c].entities * v.clients == w.pool[c].entities * w.clients + {e};
    } else {
      assert v.pool[c].entities * v.clients == w.pool[c].entities * w.clients;
    }
  }

  lemma {:induction false} KeepAllAppend(ks: seq<EntityId>, ops: seq<KeepOp>, op: KeepOp)
    requires KeepAll(ks, ops).Running?
    ensures KeepAll(ks, ops + [op]) == KeepStep(KeepAll(ks, ops).value, op)
    decreases |ops|
  {
    if ops == [] {
      var ks1 := KeepStep(ks, op);
      assert (ops + [op])[1..] == [];
    } else {
      assert (ops + [op])[1..] == ops[1..] + [op];
      KeepAllAppend(KeepStep(ks, ops[0]).value, ops[1..], op);
    }
  }

  /** A KEEP puts its entity behind all keepers; an UNKEEP takes out the first occurrence and leaves the others in
      their order. */
  lemma KeepersInOrder(ks: seq<EntityId>, ops: seq<KeepOp>, e: EntityId)
    requires KeepAll(ks, ops).Running?
    ensures KeepAll(ks, ops + [Keep(e)]) == Running(KeepAll(ks, ops).value + [e])
    ensures var now, r := KeepAll(ks, ops).value, KeepAll(ks, ops + [Unkeep(e)]);
            && (r.Running? <==> e in now)
            && forall i :: 0 <= i < |now| && now[i] == e && e !in now[..i] ==> r == Running(now[..i] + now[i + 1..])
  {
    KeepAllAppend(ks, ops, Keep(e));
    KeepAllAppend(ks, ops, Unkeep(e));
    var now := KeepAll(ks, ops).value;
    forall i | 0 <= i < |now| && now[i] == e && e !in now[..i]
      ensures Without(now, e) == now[..i] + now[i + 1..]
    {
      WithoutFirst(now, e, i);
    }
  }

  lemma {:induction false} WithoutFirst(ks: seq<EntityId>, e: EntityId, i: nat)
    requires i < |ks| && ks[i] == e && e !in ks[..i]
    ensures Without(ks, e) == ks[..i] + ks[i + 1..]
    decreases |ks|
  {
    if i > 0 {
      assert ks[..i][0] == ks[0] && forall k :: k in ks[1..][..i - 1] ==> k in ks[..i];
      WithoutFirst(ks[1..], e, i - 1);
      assert ks[1..][..i - 1] == ks[1..i] && ks[1..][i..] == ks[i + 1..];
      assert ks[..i] == [ks[0]] + ks[1..i];
    }
  }

  lemma {:induction false} WithoutIsTheRest(ks: seq<EntityId>, e: EntityId)
    requires Distinct(ks)
    ensures Distinct(Without(ks, e))
    ensures forall x :: x in Without(ks, e) <==> x in ks && x != e
  {
    if ks != [] {
      assert forall x :: x in ks <==> x == ks[0] || x in ks[1..];
      if ks[0] == e {
        assert e !in ks[1..];
      } else {
        WithoutIsTheRest(ks[1..], e);
        var t := Without(ks[1..], e);
        assert ks[0] !in t;
        assert Without(ks, e) == [ks[0]] + t;
      }
    }
  }

  lemma EnterKeepsKeepers(w: World, e: EntityId, c: CellId)
    requires KeepersOk(w) && c in w.pool && (e in w.updaters ==> e !in w.place)
    ensures KeepersOk(QueueKeep(Enter(w, e, c), Keep(e)))
  {
    if e in w.updaters {
      KeepAllAppend(w.keepers, w.keepOps, Keep(e));
      var ks := KeepAll(w.keepers, w.keepOps).value;
      assert e !in ks;
      assert KeepersAre(QueueKeep(Enter(w, e, c), Keep(e)), ks + [e]);
    }
  }

  lemma EnterKeepsQueue(w: World, e: EntityId, c: CellId, from: Option<CellId>, rest: seq<MapOp>)
    requires UpdatersOk(w) && c in w.pool
    requires var all := [Add(w.pool[c].at, e, from)] + rest; ParamsOk(w, all) && QueueAlternates(w, all)
    ensures ParamsOk(Enter(w, e, c), rest) && QueueAlternates(Enter(w, e, c), rest)
  {
    var op := Add(w.pool[c].at, e, from);
    var all := [op] + rest;
    var v := Enter(w, e, c);
    assert all[1..] == rest;
    forall i | 0 <= i < |rest|
      ensures OpOk(v, rest[i])
    {
      assert rest[i] == all[i + 1];
      assert OpOk(w, all[i + 1]);
    }
    forall i, j | 0 <= i < j < |rest| && rest[i].Destroy?
      ensures Pointee(rest[j]) != Some(rest[i].cell)
    {
      assert rest[i] == all[i + 1] && rest[j] == all[j + 1];
    }
    forall x | x in v.updaters
      ensures Alternates(rest, x, Standing(v, x))
    {
      assert Alternates(all, x, Standing(w, x));
      assert Standing(v, x) == After(op, x, Standing(w, x));
    }
  }

  lemma QueueKeepKeepsQueue(w: World, op: KeepOp, rest: seq<MapOp>)
    requires ParamsOk(w, rest) && QueueAlternates(w, rest)
    ensures ParamsOk(QueueKeep(w, op), rest) && QueueAlternates(QueueKeep(w, op), rest)
  {
    var v := QueueKeep(w, op);
    assert forall e :: Standing(v, e) == Standing(w, e);
    assert forall i :: 0 <= i < |rest| && OpOk(w, rest[i]) ==> OpOk(v, rest[i]);
  }

  lemma QueueKeepKeepsCells(w: World, op: KeepOp, rest: seq<MapOp>)
    requires CellsOk(w, rest)
    ensures CellsOk(QueueKeep(w, op), rest)
  {
  }

  lemma QueueKeepIsFramed(w: World, op: KeepOp, rest: seq<MapOp>)
    ensures CellsOk(w, rest) ==> CellsOk(QueueKeep(w, op), rest)
    ensures UpdatersOk(w) && CountsOk(w) ==> UpdatersOk(QueueKeep(w, op)) && CountsOk(QueueKeep(w, op))
    ensures ParamsOk(w, rest) && QueueAlternates(w, rest) ==>
              ParamsOk(QueueKeep(w, op), rest) && QueueAlternates(QueueKeep(w, op), rest)
  {
    if CellsOk(w, rest) {
      QueueKeepKeepsCells(w, op, rest);
    }
    if UpdatersOk(w) && CountsOk(w) {
      QueueKeepKeepsUpdaters(w, op);
      QueueKeepKeepsCounts(w, op);
    }
    if ParamsOk(w, rest) && QueueAlternates(w, rest) {
      QueueKeepKeepsQueue(w, op, rest);
    }
  }

  lemma DoomedTail(op: MapOp, rest: seq<MapOp>, c: CellId)
    ensures Doomed([op] + rest, c) <==> (op.Destroy? && op.cell == c) || Doomed(rest, c)
  {
    var all := [op] + rest;
    assert all[0] == op;
    if Doomed(rest, c) {
      var i :| 0 <= i < |rest| && rest[i].Destroy? && rest[i].cell == c;
      assert all[i + 1] == rest[i];
    }
    if Doomed(all, c) && !(op.Destroy? && op.cell == c) {
      var i :| 0 <= i < |all| && all[i].Destroy? && all[i].cell == c;
      assert rest[i - 1] == all[i];
    }
  }

  lemma FlagsWithoutHead(w: World, op: MapOp, rest: seq<MapOp>)
    requires FlagsOk(w, [op] + rest) && !op.Destroy?
    ensures FlagsOk(w, rest)
  {
    forall c | c in w.pool
      ensures w.pool[c].cooldown <==> Doomed(rest, c)
    {
      DoomedTail(op, rest, c);
    }
  }

  /** The fields that a scheduled operation leaves to others. */
  ghost predicate Untouched(u: World, v: World) {
    && v.alloc == u.alloc && v.updaters == u.updaters && v.clients == u.clients
    && v.ops == u.ops && v.keepers == u.keepers && v.previous == u.previous && v.bucketed == u.bucketed
    && u.links <= v.links
  }

  ghost predicate KeepsCoreOnly(u: World, r: Outcome<World>, rest: seq<MapOp>) {
    match r
    case Running(v) => Core(v, rest) && Untouched(u, v)
    case Stopped(f) => f == TouchedCooldown
  }

  /** An updater's ADD finds it nowhere. */
  lemma AddFindsRoom(w: World, o: Coord, e: EntityId, from: Option<CellId>, rest: seq<MapOp>)
    requires UpdatersOk(w) && QueueAlternates(w, [Add(o, e, from)] + rest) && e in w.updaters
    ensures e !in w.place
  {
    var op := Add(o, e, from);
    assert Alternates([op] + rest, e, Standing(w, e));
    assert Fits(op, e, Standing(w, e));
  }

  lemma QueueKeepKeepsUpdaters(w: World, op: KeepOp)
    requires UpdatersOk(w)
    ensures UpdatersOk(QueueKeep(w, op))
  {
    var v := QueueKeep(w, op);
    assert v.pool == w.pool && v.place == w.place && v.updaters == w.updaters;
  }

  lemma QueueKeepKeepsCounts(w: World, op: KeepOp)
    requires CountsOk(w)
    ensures CountsOk(QueueKeep(w, op))
  {
    var v := QueueKeep(w, op);
    assert v.pool == w.pool && v.clients == w.clients && v.updaters == w.updaters;
  }

  lemma EnteredUpdaters(w: World, e: EntityId, c: CellId)
    requires UpdatersOk(w) && c in w.pool && (e in w.updaters ==> e !in w.place)
    ensures UpdatersOk(QueueKeep(Enter(w, e, c), Keep(e)))
  {
    EnterKeepsUpdaters(w, e, c);
    QueueKeepKeepsUpdaters(Enter(w, e, c), Keep(e));
  }

  lemma EnteredCounts(w: World, e: EntityId, c: CellId)
    requires UpdatersOk(w) && CountsOk(w) && c in w.pool && (e in w.updaters ==> e !in w.place)
    ensures CountsOk(QueueKeep(Enter(w, e, c), Keep(e)))
  {
    EnterKeepsCounts(w, e, c);
    QueueKeepKeepsCounts(Enter(w, e, c), Keep(e));
  }

  lemma EnteredPeople(w: World, e: EntityId, c: CellId)
    requires PeopleOk(w) && c in w.pool && (e in w.updaters ==> e !in w.place)
    ensures PeopleOk(QueueKeep(Enter(w, e, c), Keep(e)))
  {
    EnteredUpdaters(w, e, c);
    EnteredCounts(w, e, c);
    EnterKeepsKeepers(w, e, c);
  }

  lemma PlaceEntity(w: World, o: Coord, e: EntityId, from: Option<CellId>, rest: seq<MapOp>)
    requires Core(w, [Add(o, e, from)] + rest) && o in w.cells
    ensures w.cells[o] in w.pool && w.pool[w.cells[o]].at == o
    ensures var v := QueueKeep(Enter(w, e, w.cells[o]), Keep(e)); Core(v, rest) && Untouched(w, v)
  {
    var c := w.cells[o];
    FlagsWithoutHead(w, Add(o, e, from), rest);
    if e in w.updaters {
      AddFindsRoom(w, o, e, from, rest);
    }
    EnterKeepsCells(w, e, c, rest);
    EnteredPeople(w, e, c);
    EnterKeepsQueue(w, e, c, from, rest);
    QueueKeepIsFramed(Enter(w, e, c), Keep(e), rest);
  }

  /** An ADD creates the cell (`w1`), places the entity in it, and from then on only grows the world. */
  ghost predicate AddedThrough(w: World, w1: World, o: Coord, e: EntityId, v: World) {
    && o in w1.cells && w1.cells[o] in w1.pool && w1.pool[w1.cells[o]].at == o
    && UpdatersOk(w1) && Grown(w, w1)
    && var u := QueueKeep(Enter(w1, e, w1.cells[o]), Keep(e)); UpdatersOk(u) && Grown(u, v)
  }

  lemma ArriveKeepsCore(w: World, c: CellId, from: Option<CellId>, rest: seq<MapOp>)
    requires Core(w, rest) && c in w.pool
    requires from.Some? ==>
               from.value in w.pool && Near(w.pool[c].at, w.pool[from.value].at) && w.pool[c].at != w.pool[from.value].at
    ensures KeepsCore(w, Arrive(w, c, from), rest)
  {
    EnsureExcludingKeepsCore(w, c, from, rest);
    var r := EnsureExcluding(w, c, from);
    if r.Running? {
      CheckStallKeepsCore(r.value, from, c, rest);
      GrownTransitive(w, r.value, CheckStall(r.value, from, c).value);
    }
  }

  lemma SettleKeepsCore(w: World, c: CellId, e: EntityId, from: Option<CellId>, rest: seq<MapOp>)
    requires Core(w, rest) && c in w.pool
    requires from.Some? ==>
               from.value in w.pool && Near(w.pool[c].at, w.pool[from.value].at) && w.pool[c].at != w.pool[from.value].at
    ensures KeepsCore(w, Settle(w, c, e, from), rest)
  {
    EnsureCellsKeepsCore(w, Siblings(w.pool[c].at), rest);
    var r := EnsureSiblings(w, c, e);
    if r.Running? {
      ArriveKeepsCore(r.value, c, from, rest);
      var s := Arrive(r.value, c, from);
      if s.Running? {
        GrownTransitive(w, r.value, s.value);
      }
    }
  }

  predicate Beside(w: World, c: CellId, from: Option<CellId>) {
    from.Some? ==>
      && c in w.pool && from.value in w.pool
      && Near(w.pool[c].at, w.pool[from.value].at) && w.pool[c].at != w.pool[from.value].at
  }

  lemma AddIsBeside(w: World, w1: World, o: Coord, e: EntityId, from: Option<CellId>)
    requires OpOk(w, Add(o, e, from)) && Grown(w, w1) && o in w1.cells && w1.cells[o] in w1.pool && TableOk(w1)
    ensures Beside(QueueKeep(Enter(w1, e, w1.cells[o]), Keep(e)), w1.cells[o], from)
  {
  }

  /** An ADD once its cell is there. */
  lemma AddToCell(w: World, w1: World, o: Coord, e: EntityId, from: Option<CellId>, rest: seq<MapOp>)
    requires OpOk(w, Add(o, e, from)) && Grown(w, w1) && Core(w1, [Add(o, e, from)] + rest) && o in w1.cells
    ensures w1.cells[o] in w1.pool && w1.pool[w1.cells[o]].at == o
    ensures var v := QueueKeep(Enter(w1, e, w1.cells[o]), Keep(e));
            Untouched(w1, v) && UpdatersOk(v) && KeepsCore(v, Settle(v, w1.cells[o], e, from), rest)
  {
    assert w1.cells[o] in w1.pool by { assert TableOk(w1); }
    PlaceEntity(w1, o, e, from, rest);
    AddIsBeside(w, w1, o, e, from);
    SettleKeepsCore(QueueKeep(Enter(w1, e, w1.cells[o]), Keep(e)), w1.cells[o], e, from, rest);
  }

  lemma ExecAddKeepsCore(w: World, o: Coord, e: EntityId, from: Option<CellId>, rest: seq<MapOp>) returns (w1: World)
    requires Core(w, [Add(o, e, from)] + rest)
    ensures KeepsCoreOnly(w, ExecAdd(w, o, e, from), rest)
    ensures ExecAdd(w, o, e, from).Running? ==> AddedThrough(w, w1, o, e, ExecAdd(w, o, e, from).value)
  {
    w1 := w;
    var all := [Add(o, e, from)] + rest;
    assert OpOk(w, all[0]);
    GetOrCreateKeepsCore(w, o, all);
    var r1 := GetOrCreate(w, o);
    if r1.Running? {
      w1 := r1.value;
      AddToCell(w, w1, o, e, from, rest);
    }
  }

  // ---------- REMOVE ----------

  lemma LeaveKeepsCells(w: World, e: EntityId, c: CellId, rest: seq<MapOp>)
    requires CellsOk(w, rest) && c in w.pool
    ensures CellsOk(Leave(w, e, c), rest)
  {
  }

  lemma LeaveKeepsUpdaters(w: World, e: EntityId, c: CellId)
    requires UpdatersOk(w) && c in w.pool
    requires e in w.updaters ==> e in w.place && w.place[e] == c
    ensures UpdatersOk(Leave(w, e, c))
  {
  }

  lemma LeaveKeepsCounts(w: World, e: EntityId, c: CellId)
    requires CountsOk(w) && c in w.pool
    requires e in w.clients ==> e in w.pool[c].entities
    ensures CountsOk(Leave(w, e, c))
  {
    var v := Leave(w, e, c);
    if e in w.clients {
      assert e in w.pool[c].entities * w.clients;
      assert v.pool[c].entities * v.clients == w.pool[c].entities * w.clients - {e};
    } else {
      assert v.pool[c].entities * v.clients == w.pool[c].entities * w.clients;
    }
  }

  lemma LeaveKeepsKeepers(w: World, e: EntityId, c: CellId)
    requires KeepersOk(w) && c in w.pool && (e in w.updaters ==> e in w.place)
    ensures KeepersOk(QueueKeep(Leave(w, e, c), Unkeep(e)))
  {
    if e in w.updaters {
      KeepAllAppend(w.keepers, w.keepOps, Unkeep(e));
      var ks := KeepAll(w.keepers, w.keepOps).value;
      WithoutIsTheRest(ks, e);
      assert e in ks;
      assert KeepersAre(QueueKeep(Leave(w, e, c), Unkeep(e)), Without(ks, e));
    }
  }

  lemma LeaveKeepsQueue(w: World, e: EntityId, c: CellId, to: Option<CellId>, rest: seq<MapOp>)
    requires UpdatersOk(w) && c in w.pool
    requires var all := [Remove(w.pool[c].at, e, to)] + rest; ParamsOk(w, all) && QueueAlternates(w, all)
    ensures ParamsOk(Leave(w, e, c), rest) && QueueAlternates(Leave(w, e, c), rest)
  {
    var op := Remove(w.pool[c].at, e, to);
    var all := [op] + rest;
    var v := Leave(w, e, c);
    assert all[1..] == rest;
    forall i | 0 <= i < |rest|
      ensures OpOk(v, rest[i])
    {
      assert rest[i] == all[i + 1];
      assert OpOk(w, all[i + 1]);
    }
    forall i, j | 0 <= i < j < |rest| && rest[i].Destroy?
      ensures Pointee(rest[j]) != Some(rest[i].cell)
    {
      assert rest[i] == all[i + 1] && rest[j] == all[j + 1];
    }
    forall x | x in v.updaters
      ensures Alternates(rest, x, Standing(v, x))
    {
      assert Alternates(all, x, Standing(w, x));
      assert Standing(v, x) == After(op, x, Standing(w, x));
    }
  }

  lemma RemoveEntity(w: World, o: Coord, e: EntityId, to: Option<CellId>, rest: seq<MapOp>)
    requires Core(w, [Remove(o, e, to)] + rest) && o in w.cells
    ensures var v := QueueKeep(Leave(w, e, w.cells[o]), Unkeep(e)); Core(v, rest) && Untouched(w, v)
  {
    var op, c := Remove(o, e, to), w.cells[o];
    var all := [op] + rest;
    FlagsWithoutHead(w, op, rest);
    if e in w.updaters {
      assert Alternates(all, e, Standing(w, e));
      assert Fits(op, e, Standing(w, e));
    }
    LeaveKeepsCells(w, e, c, rest);
    LeaveKeepsUpdaters(w, e, c);
    LeaveKeepsCounts(w, e, c);
    LeaveKeepsKeepers(w, e, c);
    LeaveKeepsQueue(w, e, c, to, rest);
    QueueKeepIsFramed(Leave(w, e, c), Unkeep(e), rest);
  }

  /** A REMOVE that finds no cell at its offset does nothing, and no updater's REMOVE is one of those. */
  lemma SkippedRemove(w: World, o: Coord, e: EntityId, to: Option<CellId>, rest: seq<MapOp>)
    requires Core(w, [Remove(o, e, to)] + rest) && o !in w.cells
    ensures e !in w.updaters && Core(w, rest)
  {
    var op := Remove(o, e, to);
    var all := [op] + rest;
    FlagsWithoutHead(w, op, rest);
    assert all[1..] == rest;
    assert e in w.updaters ==> Alternates(all, e, Standing(w, e));
    forall i | 0 <= i < |rest|
      ensures OpOk(w, rest[i])
    {
      assert rest[i] == all[i + 1];
    }
    forall i, j | 0 <= i < j < |rest| && rest[i].Destroy?
      ensures Pointee(rest[j]) != Some(rest[i].cell)
    {
      assert rest[i] == all[i + 1] && rest[j] == all[j + 1];
    }
    forall x | x in w.updaters
      ensures Alternates(rest, x, Standing(w, x))
    {
      assert Alternates(all, x, Standing(w, x));
    }
  }

  lemma RemoveIsBeside(w: World, o: Coord, e: EntityId, to: Option<CellId>)
    requires OpOk(w, Remove(o, e, to)) && o in w.cells && TableOk(w)
    ensures w.cells[o] in w.pool && Beside(QueueKeep(Leave(w, e, w.cells[o]), Unkeep(e)), w.cells[o], to)
  {
  }

  lemma ExecRemoveKeepsCore(w: World, o: Coord, e: EntityId, to: Option<CellId>, rest: seq<MapOp>)
    requires Core(w, [Remove(o, e, to)] + rest)
    ensures KeepsCoreOnly(w, ExecRemove(w, o, e, to), rest)
    ensures ExecRemove(w, o, e, to).Running? && o in w.cells ==>
              w.cells[o] in w.pool && Grown(QueueKeep(Leave(w, e, w.cells[o]), Unkeep(e)), ExecRemove(w, o, e, to).value)
  {
    var all := [Remove(o, e, to)] + rest;
    assert all[0] == Remove(o, e, to) && OpOk(w, all[0]);
    if o !in w.cells {
      SkippedRemove(w, o, e, to, rest);
    } else {
      RemoveEntity(w, o, e, to, rest);
      RemoveIsBeside(w, o, e, to);
      EnsureExcludingKeepsCore(QueueKeep(Leave(w, e, w.cells[o]), Unkeep(e)), w.cells[o], to, rest);
    }
  }

  // ---------- DESTROY ----------

  lemma DestroyKeepsCells(w: World, o: Coord, c: CellId, rest: seq<MapOp>)
    requires CellsOk(w, [Destroy(o, c)] + rest) && c in w.pool && w.pool[c].at == o && !Doomed(rest, c)
    ensures ExecDestroy(w, o, c).Running? && CellsOk(ExecDestroy(w, o, c).value, rest)
  {
    forall d
      ensures Doomed([Destroy(o, c)] + rest, d) <==> d == c || Doomed(rest, d)
    {
      DoomedTail(Destroy(o, c), rest, d);
    }
  }

  ghost predicate Vacant(w: World, c: CellId) {
    forall e :: e in w.updaters && e in w.place ==> w.place[e] != c
  }

  lemma DestroyKeepsUpdaters(w: World, o: Coord, c: CellId)
    requires UpdatersOk(w) && c in w.pool && Vacant(w, c)
    ensures UpdatersOk(ExecDestroy(w, o, c).value)
  {
  }

  lemma DestroyKeepsCounts(w: World, o: Coord, c: CellId)
    requires CountsOk(w) && c in w.pool
    ensures CountsOk(ExecDestroy(w, o, c).value)
  {
  }

  lemma DestroyKeepsPeople(w: World, o: Coord, c: CellId)
    requires PeopleOk(w) && c in w.pool && Vacant(w, c)
    ensures PeopleOk(ExecDestroy(w, o, c).value)
  {
    DestroyKeepsUpdaters(w, o, c);
    DestroyKeepsCounts(w, o, c);
  }

  lemma DestroyKeepsQueue(w: World, o: Coord, c: CellId, rest: seq<MapOp>)
    requires UpdatersOk(w) && c in w.pool && Vacant(w, c)
    requires var all := [Destroy(o, c)] + rest; ParamsOk(w, all) && QueueAlternates(w, all)
    ensures var v := ExecDestroy(w, o, c).value; ParamsOk(v, rest) && QueueAlternates(v, rest)
  {
    var op := Destroy(o, c);
    var all := [op] + rest;
    var v := ExecDestroy(w, o, c).value;
    assert all[1..] == rest && all[0] == op;
    forall i | 0 <= i < |rest|
      ensures OpOk(v, rest[i])
    {
      assert rest[i] == all[i + 1];
      assert OpOk(w, all[i + 1]);
    }
    forall i, j | 0 <= i < j < |rest| && rest[i].Destroy?
      ensures Pointee(rest[j]) != Some(rest[i].cell)
    {
      assert rest[i] == all[i + 1] && rest[j] == all[j + 1];
    }
    forall x | x in v.updaters
      ensures Alternates(rest, x, Standing(v, x))
    {
      assert Alternates(all, x, Standing(w, x));
      assert Standing(v, x) == Standing(w, x);
    }
  }

  lemma DestroyedIsDoomed(w: World, o: Coord, c: CellId, rest: seq<MapOp>)
    requires CellsOk(w, [Destroy(o, c)] + rest) && ParamsOk(w, [Destroy(o, c)] + rest)
    ensures c in w.pool && w.pool[c].at == o && w.pool[c].cooldown && !Doomed(rest, c)
  {
    var all := [Destroy(o, c)] + rest;
    assert all[0] == Destroy(o, c) && OpOk(w, all[0]);
    DoomedTail(Destroy(o, c), rest, c);
    assert w.pool[c].cooldown;
    forall i | 0 <= i < |rest| && rest[i].Destroy?
      ensures rest[i].cell != c
    {
      assert all[i + 1] == rest[i] && Pointee(all[i + 1]) == Some(rest[i].cell);
    }
  }

  /** Since nobody is left standing on it, the cell holds no updater. */
  lemma DestroyedIsVacant(w: World, o: Coord, c: CellId)
    requires UpdatersOk(w) && Vacated(w, [Destroy(o, c)]) && c in w.pool && w.pool[c].at == o
    ensures Vacant(w, c)
  {
    forall e | e in w.updaters && e in w.place
      ensures w.place[e] != c
    {
      assert Leaves([Destroy(o, c)], e, Standing(w, e));
    }
  }

  /** DESTROY frees a live cell that is in no set of the cluster, and erases that cell's own map entry. */
  lemma ExecDestroyKeepsCore(w: World, o: Coord, c: CellId, rest: seq<MapOp>)
    requires Core(w, [Destroy(o, c)] + rest) && Vacated(w, [Destroy(o, c)])
    ensures c in w.pool && w.pool[c].at == o && w.cells[o] == c
    ensures c !in w.current && c !in w.stall && (forall d :: (c, d) !in w.links && (d, c) !in w.links)
    ensures !Doomed(rest, c)
    ensures var r := ExecDestroy(w, o, c);
            r.Running? && Core(r.value, rest) && Untouched(w, r.value)
            && o !in r.value.cells && c !in r.value.pool
            && (forall d :: d in w.pool && d != c ==> d in r.value.pool && r.value.pool[d] == w.pool[d])
            && (forall x :: x in w.cells && x != o ==> x in r.value.cells && r.value.cells[x] == w.cells[x])
  {
    DestroyedIsDoomed(w, o, c, rest);
    DestroyedIsVacant(w, o, c);
    DestroyKeepsCells(w, o, c, rest);
    DestroyKeepsPeople(w, o, c);
    DestroyKeepsQueue(w, o, c, rest);
  }

  // ---------- The whole queue ----------

  /** Where the updaters stand follows the queue. */
  ghost predicate Tracks(w: World, op: MapOp, v: World) {
    forall e :: e in w.updaters ==> Standing(v, e) == After(op, e, Standing(w, e))
  }

  lemma GrownStands(u: World, v: World)
    requires UpdatersOk(u) && Grown(u, v)
    ensures forall e :: e in u.updaters ==> Standing(v, e) == Standing(u, e)
  {
  }

  lemma AddTracks(w: World, w1: World, o: Coord, e: EntityId, from: Option<CellId>, v: World)
    requires UpdatersOk(w) && AddedThrough(w, w1, o, e, v)
    ensures Tracks(w, Add(o, e, from), v)
  {
    GrownStands(w, w1);
    GrownStands(QueueKeep(Enter(w1, e, w1.cells[o]), Keep(e)), v);
  }

  lemma ExecAddTracks(w: World, o: Coord, e: EntityId, from: Option<CellId>, rest: seq<MapOp>)
    requires Core(w, [Add(o, e, from)] + rest) && ExecAdd(w, o, e, from).Running?
    ensures Tracks(w, Add(o, e, from), ExecAdd(w, o, e, from).value)
  {
    var w1 := ExecAddKeepsCore(w, o, e, from, rest);
    AddTracks(w, w1, o, e, from, ExecAdd(w, o, e, from).value);
  }

  lemma LeavingTracks(w: World, o: Coord, e: EntityId, to: Option<CellId>)
    requires TableOk(w) && UpdatersOk(w) && o in w.cells && w.cells[o] in w.pool
    ensures Tracks(w, Remove(o, e, to), QueueKeep(Leave(w, e, w.cells[o]), Unkeep(e)))
  {
  }

  lemma LeaveTracks(w: World, o: Coord, e: EntityId, to: Option<CellId>, v: World)
    requires TableOk(w) && UpdatersOk(w) && o in w.cells && w.cells[o] in w.pool
    requires UpdatersOk(QueueKeep(Leave(w, e, w.cells[o]), Unkeep(e)))
    requires Grown(QueueKeep(Leave(w, e, w.cells[o]), Unkeep(e)), v)
    ensures Tracks(w, Remove(o, e, to), v)
  {
    LeavingTracks(w, o, e, to);
    GrownStands(QueueKeep(Leave(w, e, w.cells[o]), Unkeep(e)), v);
  }

  lemma ExecRemoveTracks(w: World, o: Coord, e: EntityId, to: Option<CellId>, rest: seq<MapOp>)
    requires Core(w, [Remove(o, e, to)] + rest) && ExecRemove(w, o, e, to).Running?
    ensures Tracks(w, Remove(o, e, to), ExecRemove(w, o, e, to).value)
  {
    if o !in w.cells {
      SkippedRemove(w, o, e, to, rest);
    } else {
      ExecRemoveKeepsCore(w, o, e, to, rest);
      assert UpdatersOk(QueueKeep(Leave(w, e, w.cells[o]), Unkeep(e))) by { RemoveEntity(w, o, e, to, rest); }
      LeaveTracks(w, o, e, to, ExecRemove(w, o, e, to).value);
    }
  }

  lemma ExecDestroyTracks(w: World, o: Coord, c: CellId)
    requires UpdatersOk(w) && c in w.pool && Vacant(w, c)
    ensures Tracks(w, Destroy(o, c), ExecDestroy(w, o, c).value)
  {
  }

  lemma ExecTracks(w: World, op: MapOp, rest: seq<MapOp>)
    requires Core(w, [op] + rest) && Vacated(w, [op]) && Exec(w, op).Running?
    ensures Tracks(w, op, Exec(w, op).value)
  {
    match op
    case Add(o, e, from) => ExecAddTracks(w, o, e, from, rest);
    case Remove(o, e, to) => ExecRemoveTracks(w, o, e, to, rest);
    case Destroy(o, c) =>
      DestroyedIsDoomed(w, o, c, rest);
      DestroyedIsVacant(w, o, c);
      ExecDestroyTracks(w, o, c);
  }

  /** One operation, if it is not the DESTROY of a cell under an updater. */
  lemma ExecKeepsCoreOnce(w: World, op: MapOp, rest: seq<MapOp>)
    requires Core(w, [op] + rest) && Vacated(w, [op])
    ensures KeepsCoreOnly(w, Exec(w, op), rest)
    ensures Exec(w, op).Running? ==> Tracks(w, op, Exec(w, op).value)
  {
    match op {
      case Add(o, e, from) => var _ := ExecAddKeepsCore(w, o, e, from, rest);
      case Remove(o, e, to) => ExecRemoveKeepsCore(w, o, e, to, rest);
      case Destroy(o, c) => ExecDestroyKeepsCore(w, o, c, rest);
    }
    if Exec(w, op).Running? {
      ExecTracks(w, op, rest);
    }
  }

  lemma VacatedNow(w: World, op: MapOp, rest: seq<MapOp>)
    requires Vacated(w, [op] + rest)
    ensures Vacated(w, [op])
  {
    forall e | e in w.updaters
      ensures Leaves([op], e, Standing(w, e))
    {
      assert Leaves([op] + rest, e, Standing(w, e)) && ([op] + rest)[0] == op;
    }
  }

  lemma StillVacated(w: World, op: MapOp, rest: seq<MapOp>, v: World)
    requires Vacated(w, [op] + rest) && Tracks(w, op, v) && v.updaters == w.updaters
    ensures Vacated(v, rest)
  {
    var all := [op] + rest;
    assert all[0] == op && all[1..] == rest;
    forall e | e in v.updaters
      ensures Leaves(rest, e, Standing(v, e))
    {
      assert Leaves(all, e, Standing(w, e));
    }
  }

  lemma ExecKeepsCore(w: World, op: MapOp, rest: seq<MapOp>)
    requires Core(w, [op] + rest) && Vacated(w, [op] + rest)
    ensures KeepsCoreOnly(w, Exec(w, op), rest)
    ensures Exec(w, op).Running? ==> Vacated(Exec(w, op).value, rest)
  {
    VacatedNow(w, op, rest);
    ExecKeepsCoreOnce(w, op, rest);
    if Exec(w, op).Running? {
      StillVacated(w, op, rest, Exec(w, op).value);
    }
  }

  lemma OneExecuted(w: World, op: MapOp, rest: seq<MapOp>) returns (v: World)
    requires Core(w, [op] + rest) && Vacated(w, [op] + rest) && Exec(w, op).Running?
    ensures Exec(w, op).value == v && Core(v, rest) && Vacated(v, rest)
  {
    ExecKeepsCore(w, op, rest);
    v := Exec(w, op).value;
  }

  lemma ExecAllStep(w: World, ops: seq<MapOp>)
    requires ops != []
    ensures ExecAll(w, ops) == var r := Exec(w, ops[0]); if r.Running? then ExecAll(r.value, ops[1..]) else r
  {
  }

  lemma {:induction false} ExecAllKeepsCore(w: World, ops: seq<MapOp>)
    requires Core(w, ops) && Vacated(w, ops)
    ensures KeepsCoreOnly(w, ExecAll(w, ops), [])
    decreases |ops|
  {
    if ops != [] {
      assert [ops[0]] + ops[1..] == ops;
      ExecKeepsCore(w, ops[0], ops[1..]);
      var r := Exec(w, ops[0]);
      if r.Running? {
        ExecAllKeepsCore(r.value, ops[1..]);
      }
    }
  }
}
