/** Map::cleanup leads from a busy world to an idle one, Map::update from an idle one to a busy one. */
module TickProofs {
  import opened Hex
  import opened World
  import opened Invariants
  import opened Ticks

  // ---------- Map::cleanup ----------

  /** What is known when processStallCells starts: `seen` are the cells around the keepers. */
  ghost predicate Sorted(w: World, elapsed: nat, seen: set<CellId>, v: World) {
    && Calm(w) && seen <= w.pool.Keys && Regrouped(w, elapsed, seen, v)
    && (forall c :: c in seen ==> !Due(w, c, elapsed))
  }

  lemma ExpiredIsDue(w: World, elapsed: nat, seen: set<CellId>, v: World)
    requires Sorted(w, elapsed, seen, v)
    ensures forall c :: c in Expired(v) <==> Due(w, c, elapsed)
    ensures forall c :: c in v.pool && v.pool[c].cooldown <==> c in Expired(v)
  {
  }

  /** What processStallCells adds to the graph: every cell that is not on cooldown becomes a vertex. */
  lemma StallReachesTheRest(w: World, elapsed: nat, seen: set<CellId>, v: World)
    requires Sorted(w, elapsed, seen, v)
    ensures forall c :: c in v.current + StallReach(v) <==> c in v.pool && !v.pool[c].cooldown
  {
    forall c | c in v.pool && !v.pool[c].cooldown && c !in seen
      ensures c in StallReach(v)
    {
      assert c in v.stall && c in Ball(v, c);
    }
  }

  lemma ProcessedTombs(w: World, elapsed: nat, seen: set<CellId>, v: World, order: seq<CellId>)
    requires Sorted(w, elapsed, seen, v) && Enumerates(order, Expired(v))
    requires forall i :: 0 <= i < |w.ops| ==> !w.ops[i].Destroy?
    ensures forall c :: Doomed(w.ops + Destroys(v, order), c) <==> c in Expired(v)
  {
    var ops := w.ops + Destroys(v, order);
    forall c
      ensures Doomed(ops, c) <==> c in Expired(v)
    {
      if c in Expired(v) {
        assert c in order;
        var i :| 0 <= i < |order| && order[i] == c;
        assert ops[|w.ops| + i] == Destroy(v.pool[c].at, c);
      }
      if Doomed(ops, c) {
        var i :| 0 <= i < |ops| && ops[i].Destroy? && ops[i].cell == c;
        assert i >= |w.ops|;
        assert order[i - |w.ops|] == c;
      }
    }
  }

  lemma FlagsOfFates(w: World, elapsed: nat, seen: set<CellId>, x: World, ops: seq<MapOp>)
    requires Calm(w) && x.pool == Fates(w, seen, elapsed)
    requires forall c :: c in seen ==> c in w.pool && !Due(w, c, elapsed)
    requires forall c :: c in w.pool && w.pool[c].registered ==> 0 < w.pool[c].remaining <= STALL_TIME
    requires forall c :: Doomed(ops, c) <==> Due(w, c, elapsed)
    requires forall c :: c in x.current <==> c in x.pool && !x.pool[c].cooldown
    requires forall c :: c in x.stall <==> c in w.pool && c !in seen && !Due(w, c, elapsed)
    ensures FlagsOk(x, ops)
  {
    forall c | c in x.pool
      ensures x.pool[c].cooldown <==> Due(w, c, elapsed)
      ensures x.pool[c].registered <==> c in x.stall
      ensures x.pool[c].registered ==> !x.pool[c].cooldown && 0 < x.pool[c].remaining <= STALL_TIME
    {
      assert x.pool[c] == Fate(w.pool[c], c in seen, elapsed);
    }
  }

  lemma ProcessedFlags(w: World, elapsed: nat, seen: set<CellId>, v: World, order: seq<CellId>)
    requires Sorted(w, elapsed, seen, v) && Enumerates(order, Expired(v))
    requires forall c :: Doomed(w.ops + Destroys(v, order), c) <==> c in Expired(v)
    requires forall c :: c in w.pool && w.pool[c].registered ==> 0 < w.pool[c].remaining <= STALL_TIME
    ensures ProcessStall(v, order).Running?
    ensures var x := ProcessStall(v, order).value; FlagsOk(x, x.ops)
  {
    var x := ProcessStall(v, order).value;
    ExpiredIsDue(w, elapsed, seen, v);
    StallReachesTheRest(w, elapsed, seen, v);
    assert x.current == v.current + StallReach(v);
    assert x.stall == (w.pool.Keys - seen) - Expired(v);
    FlagsOfFates(w, elapsed, seen, x, x.ops);
  }

  ghost predicate LinkIn(x: World, current: set<CellId>, a: CellId, b: CellId) {
    a in current && b in current && a != b && a in x.pool && b in x.pool && Near(x.pool[a].at, x.pool[b].at)
  }

  lemma CentreLink(w: World, elapsed: nat, seen: set<CellId>, v: World, a: CellId, b: CellId)
    requires Sorted(w, elapsed, seen, v) && LinksOfCentres(w, v.links) && (a, b) in v.links
    requires forall c, n :: UpdaterIn(w, c) && c in w.pool && n in Ball(w, c) ==> n in seen
    ensures LinkIn(v, v.current, a, b)
  {
    assert a in Ball(w, a) && b in Ball(w, a);
    NearIsDistanceOne(w.pool[a].at, w.pool[b].at);
  }

  lemma StallLink(v: World, a: CellId, b: CellId)
    requires (a, b) in StallSpokes(v)
    ensures LinkIn(v, StallReach(v), a, b)
  {
    assert a in Ball(v, a) && a in StallReach(v) && b in StallReach(v);
    NearIsDistanceOne(v.pool[a].at, v.pool[b].at);
  }

  lemma ProcessedLinks(w: World, elapsed: nat, seen: set<CellId>, v: World, order: seq<CellId>)
    requires Sorted(w, elapsed, seen, v) && Enumerates(order, Expired(v))
    requires LinksOfCentres(w, v.links)
    requires forall c, n :: UpdaterIn(w, c) && c in w.pool && n in Ball(w, c) ==> n in seen
    ensures ProcessStall(v, order).Running?
    ensures LinksOk(ProcessStall(v, order).value)
  {
    var x := ProcessStall(v, order).value;
    forall a, b | (a, b) in x.links
      ensures LinkIn(x, x.current, a, b)
    {
      if (a, b) in v.links {
        CentreLink(w, elapsed, seen, v, a, b);
      } else {
        StallLink(v, a, b);
      }
    }
  }

  lemma CentreWire(w: World, elapsed: nat, seen: set<CellId>, v: World, order: seq<CellId>, c: CellId, n: CellId)
    requires Sorted(w, elapsed, seen, v) && Enumerates(order, Expired(v)) && LinksOfCentres(w, v.links)
    requires forall a, b :: UpdaterIn(w, a) && a in w.pool && b in Ball(w, a) ==> b in seen
    requires ProcessStall(v, order).Running?
    ensures (c, n) in v.links ==> Wire(ProcessStall(v, order).value, c, n)
    ensures Wire(ProcessStall(v, order).value, c, n) && UpdaterIn(w, c) ==> (c, n) in v.links
  {
    var x := ProcessStall(v, order).value;
    assert UpdaterIn(x, c) <==> UpdaterIn(w, c);
    if (c, n) in v.links {
      CentreLink(w, elapsed, seen, v, c, n);
      NearIsDistanceOne(v.pool[c].at, v.pool[n].at);
    }
  }

  lemma StallWire(v: World, order: seq<CellId>, c: CellId, n: CellId)
    requires Enumerates(order, Expired(v)) && ProcessStall(v, order).Running?
    requires forall d :: d in v.current + StallReach(v) <==> d in v.pool && !v.pool[d].cooldown
    ensures var x := ProcessStall(v, order).value; (c, n) in StallSpokes(v) <==> Wire(x, c, n) && c in x.stall
  {
    var x := ProcessStall(v, order).value;
    assert x.stall == v.stall - Expired(v) && x.current == v.current + StallReach(v);
    assert (c, n) in StallSpokes(v) <==>
      c in v.stall && c in v.pool && !v.pool[c].cooldown && n in Ball(v, c) && n != c && !v.pool[n].cooldown;
  }

  lemma ProcessedWires(w: World, elapsed: nat, seen: set<CellId>, v: World, order: seq<CellId>)
    requires Sorted(w, elapsed, seen, v) && Enumerates(order, Expired(v)) && LinksOfCentres(w, v.links)
    requires forall a, b :: UpdaterIn(w, a) && a in w.pool && b in Ball(w, a) ==> b in seen
    ensures ProcessStall(v, order).Running?
    ensures Wired(ProcessStall(v, order).value)
  {
    var x := ProcessStall(v, order).value;
    StallReachesTheRest(w, elapsed, seen, v);
    forall c: CellId, n: CellId
      ensures (c, n) in x.links <==> Wire(x, c, n)
    {
      CentreWire(w, elapsed, seen, v, order, c, n);
      StallWire(v, order, c, n);
      assert UpdaterIn(x, c) <==> UpdaterIn(w, c);
    }
  }

  lemma {:induction false} AlternatesAppendDestroys(ops: seq<MapOp>, tombs: seq<MapOp>, e: EntityId, at: Option<Coord>)
    requires Alternates(ops, e, at)
    requires forall i :: 0 <= i < |tombs| ==> tombs[i].Destroy?
    ensures Alternates(ops + tombs, e, at)
    decreases |ops| + |tombs|
  {
    if ops != [] {
      assert (ops + tombs)[1..] == ops[1..] + tombs;
      AlternatesAppendDestroys(ops[1..], tombs, e, After(ops[0], e, at));
    } else if tombs != [] {
      assert ops + tombs == tombs;
      assert [] + tombs[1..] == tombs[1..];
      AlternatesAppendDestroys([], tombs[1..], e, at);
    }
  }

  lemma ProcessedParams(w: World, x: World, tombs: seq<MapOp>, order: seq<CellId>)
    requires ParamsOk(w, w.ops)
    requires forall i :: 0 <= i < |w.ops| ==> !w.ops[i].Destroy?
    requires x.pool.Keys == w.pool.Keys && forall c :: c in w.pool ==> x.pool[c].at == w.pool[c].at
    requires forall c :: c in order ==> c in x.pool
    requires tombs == Destroys(x, order) && Distinct(order)
    ensures ParamsOk(x, w.ops + tombs)
  {
    var ops := w.ops + tombs;
    forall i | 0 <= i < |ops|
      ensures OpOk(x, ops[i])
    {
      if i < |w.ops| {
        assert OpOk(w, w.ops[i]);
      } else {
        assert order[i - |w.ops|] in order;
      }
    }
    forall i, j | 0 <= i < j < |ops| && ops[i].Destroy?
      ensures Pointee(ops[j]) != Some(ops[i].cell)
    {
      assert i >= |w.ops|;
      assert ops[i] == tombs[i - |w.ops|] && ops[j] == tombs[j - |w.ops|];
    }
  }

  lemma ProcessedQueue(w: World, x: World, tombs: seq<MapOp>)
    requires QueueAlternates(w, w.ops) && Anchored(w)
    requires x.pool.Keys == w.pool.Keys && forall c :: c in w.pool ==> x.pool[c].at == w.pool[c].at
    requires x.updaters == w.updaters && x.place == w.place && x.cells == w.cells && x.ops == w.ops + tombs
    requires forall i :: 0 <= i < |tombs| ==> tombs[i].Destroy?
    ensures QueueAlternates(x, x.ops) && Anchored(x)
  {
    forall e | e in x.updaters
      ensures Alternates(x.ops, e, Standing(x, e))
    {
      assert Standing(x, e) == Standing(w, e);
      AlternatesAppendDestroys(w.ops, tombs, e, Standing(w, e));
    }
    assert forall k :: 0 <= k < |tombs| ==> x.ops[|w.ops| + k] == tombs[k];
    assert forall i :: |w.ops| <= i < |x.ops| ==> x.ops[i] == tombs[i - |w.ops|];
  }

  ghost predicate SameEntities(w: World, x: World) {
    && x.pool.Keys == w.pool.Keys && x.place == w.place && x.updaters == w.updaters && x.clients == w.clients
    && (forall c :: c in w.pool ==>
          x.pool[c].entities == w.pool[c].entities && x.pool[c].clientsCount == w.pool[c].clientsCount)
  }

  lemma SameEntitiesKeepUpdaters(w: World, x: World)
    requires UpdatersOk(w) && SameEntities(w, x)
    ensures UpdatersOk(x)
  {
    forall c, e | c in x.pool && e in x.pool[c].entities && e in x.updaters
      ensures e in x.place && x.place[e] == c
    {
      assert c in w.pool && e in w.pool[c].entities;
    }
  }

  lemma SameEntitiesKeepCounts(w: World, x: World)
    requires CountsOk(w) && SameEntities(w, x)
    ensures CountsOk(x)
  {
    forall c | c in x.pool
      ensures x.pool[c].clientsCount == |x.pool[c].entities * x.clients|
    {
      assert x.pool[c].entities * x.clients == w.pool[c].entities * w.clients;
    }
  }

  lemma SameEntitiesKeepPeople(w: World, x: World)
    requires UpdatersOk(w) && CountsOk(w) && SameEntities(w, x)
    ensures UpdatersOk(x) && CountsOk(x)
  {
    SameEntitiesKeepUpdaters(w, x);
    SameEntitiesKeepCounts(w, x);
  }

  lemma ProcessedEntitiesStay(w: World, elapsed: nat, seen: set<CellId>, v: World, order: seq<CellId>)
    requires Regrouped(w, elapsed, seen, v) && Enumerates(order, Expired(v)) && ProcessStall(v, order).Running?
    ensures var x := ProcessStall(v, order).value;
            && x.pool.Keys == w.pool.Keys && x.place == w.place && x.updaters == w.updaters && x.clients == w.clients
            && x.keepers == v.keepers && x.keepOps == []
            && forall c :: c in w.pool ==>
                 x.pool[c].entities == w.pool[c].entities && x.pool[c].clientsCount == w.pool[c].clientsCount
  {
    var x := ProcessStall(v, order).value;
    forall c | c in w.pool
      ensures x.pool[c].entities == w.pool[c].entities && x.pool[c].clientsCount == w.pool[c].clientsCount
    {
      assert x.pool[c] == Fate(w.pool[c], c in seen, elapsed);
    }
  }

  lemma ProcessedPeople(w: World, elapsed: nat, seen: set<CellId>, v: World, order: seq<CellId>)
    requires Sorted(w, elapsed, seen, v) && Enumerates(order, Expired(v))
    requires UpdatersOk(w) && CountsOk(w) && KeepersAre(w, v.keepers)
    ensures ProcessStall(v, order).Running?
    ensures PeopleOk(ProcessStall(v, order).value)
  {
    assert v.stall <= v.pool.Keys;
    ProcessedEntitiesStay(w, elapsed, seen, v, order);
    var x := ProcessStall(v, order).value;
    SameEntitiesKeepPeople(w, x);
    assert KeepersAre(x, x.keepers);
  }

  lemma SightUnchanged(w: World, x: World)
    requires x.pool.Keys == w.pool.Keys && forall c :: c in w.pool ==> x.pool[c].at == w.pool[c].at
    requires x.updaters == w.updaters && x.place == w.place
    ensures Sight(x) == Sight(w)
  {
    assert forall c, e :: SeenBy(x, c, e) <==> SeenBy(w, c, e);
    forall c
      ensures c in Sight(x) <==> c in Sight(w)
    {
      if c in Sight(w) {
        var e :| SeenBy(w, c, e);
        assert SeenBy(x, c, e);
      }
      if c in Sight(x) {
        var e :| SeenBy(x, c, e);
        assert SeenBy(w, c, e);
      }
    }
  }

  lemma SightOfUpdaters(w: World)
    requires UpdatersOk(w)
    ensures forall e :: e in w.updaters && e in w.place ==> w.place[e] in Sight(w)
    ensures forall c, n :: UpdaterIn(w, c) && c in w.pool && n in Ball(w, c) ==> n in Sight(w)
  {
    forall e | e in w.updaters && e in w.place
      ensures w.place[e] in Sight(w)
    {
      assert SeenBy(w, w.place[e], e);
    }
    forall c, n | UpdaterIn(w, c) && c in w.pool && n in Ball(w, c)
      ensures n in Sight(w)
    {
      var e :| e in w.updaters && e in w.place && w.place[e] == c;
      assert SeenBy(w, n, e);
    }
  }

  lemma IdleAssembled(w: World, elapsed: nat, v: World, x: World)
    requires Sorted(w, elapsed, Sight(w), v)
    requires x.pool == v.pool && x.stall == v.stall - Expired(v) && Sight(x) == Sight(w)
    requires x.keepOps == [] && x.bucketed == {}
    requires Core(x, x.ops) && Anchored(x) && Wired(x)
    ensures IdleOk(x)
  {
    ExpiredIsDue(w, elapsed, Sight(w), v);
  }

  lemma TableUnchanged(w: World, x: World)
    requires TableOk(w) && x.cells == w.cells
    requires x.pool.Keys == w.pool.Keys && forall c :: c in w.pool ==> x.pool[c].at == w.pool[c].at
    ensures TableOk(x)
  {
  }

  /** The main result about Map::cleanup. It stops iff a cell in sight of an updater runs out in this tick,
      and only at the guard; otherwise the next world is idle, every cell has met its fate, and exactly the
      cells that ran out are queued for destruction, behind what was queued before. */
  lemma MapCleanupKeeps(w: World, elapsed: nat, order: seq<CellId>)
    requires BusyOk(w)
    requires var r := CleanupAndRegroup(w, elapsed); r.Running? ==> Enumerates(order, Expired(r.value))
    ensures !GuardHolds(w, elapsed) ==> MapCleanup(w, elapsed, order) == Stopped(TouchedCooldown)
    ensures GuardHolds(w, elapsed) ==>
              var r := MapCleanup(w, elapsed, order);
              && r.Running? && IdleOk(r.value)
              && r.value.pool == Fates(w, Sight(w), elapsed)
              && (forall c :: c in order <==> Due(w, c, elapsed))
              && r.value.ops == w.ops + Destroys(w, order)
              && SameGround(w, r.value)
  {
    RegroupClosed(w, elapsed);
    if GuardHolds(w, elapsed) {
      BusyIsCalm(w);
      var v := CleanupAndRegroup(w, elapsed).value;
      assert Sorted(w, elapsed, Sight(w), v);
      ProcessedGround(w, elapsed, Sight(w), v, order);
      MapCleanupFromSorted(w, elapsed, v, order);
    }
  }

  /** What a cleanup leaves of `w`, whatever it does to the flags of the cells. */
  ghost predicate SameGround(w: World, x: World) {
    && x.pool.Keys == w.pool.Keys && (forall c :: c in w.pool ==> x.pool[c].at == w.pool[c].at)
    && x.cells == w.cells && x.place == w.place && x.alloc == w.alloc
    && x.updaters == w.updaters && x.clients == w.clients
  }

  lemma RegroupedGround(w: World, elapsed: nat, seen: set<CellId>, v: World)
    requires Regrouped(w, elapsed, seen, v)
    ensures SameGround(w, v) && v.pool == Fates(w, seen, elapsed)
    ensures v.stall == w.pool.Keys - seen && v.keepOps == [] && v.bucketed == {} && v.ops == w.ops
  {
  }

  lemma ProcessedGround(w: World, elapsed: nat, seen: set<CellId>, v: World, order: seq<CellId>)
    requires Regrouped(w, elapsed, seen, v) && Enumerates(order, Expired(v))
    ensures var r := ProcessStall(v, order);
            && r.Running? && SameGround(w, r.value) && r.value.pool == Fates(w, seen, elapsed)
            && r.value.ops == w.ops + Destroys(v, order)
            && r.value.stall == v.stall - Expired(v) && r.value.keepOps == [] && r.value.bucketed == {}
    ensures (forall c :: c in order ==> c in w.pool) && Destroys(v, order) == Destroys(w, order)
  {
    RegroupedGround(w, elapsed, seen, v);
    assert forall c :: c in order ==> c in v.pool;
  }

  lemma ProcessedCells(w: World, elapsed: nat, v: World, order: seq<CellId>)
    requires BusyOk(w) && Sorted(w, elapsed, Sight(w), v) && Enumerates(order, Expired(v))
    requires LinksOfCentres(w, v.links)
    ensures var r := ProcessStall(v, order); r.Running? && FlagsOk(r.value, r.value.ops) && LinksOk(r.value)
  {
    SightOfUpdaters(w);
    ProcessedTombs(w, elapsed, Sight(w), v, order);
    ProcessedFlags(w, elapsed, Sight(w), v, order);
    ProcessedLinks(w, elapsed, Sight(w), v, order);
  }

  lemma ProcessedRest(w: World, x: World, tombs: seq<MapOp>, order: seq<CellId>)
    requires BusyOk(w) && SameGround(w, x)
    requires (forall c :: c in order ==> c in w.pool) && Distinct(order)
    requires tombs == Destroys(w, order) && x.ops == w.ops + tombs
    ensures Allocates(x) && TableOk(x) && ParamsOk(x, x.ops) && QueueAlternates(x, x.ops) && Anchored(x)
  {
    assert Allocates(x) && TableOk(x) by { TableUnchanged(w, x); }
    assert ParamsOk(x, x.ops) by {
      assert tombs == Destroys(x, order);
      ProcessedParams(w, x, tombs, order);
    }
    assert QueueAlternates(x, x.ops) && Anchored(x) by { ProcessedQueue(w, x, tombs); }
  }

  lemma ProcessedEntities(w: World, elapsed: nat, v: World, order: seq<CellId>)
    requires BusyOk(w) && Sorted(w, elapsed, Sight(w), v) && Enumerates(order, Expired(v))
    requires KeepersAre(w, v.keepers) && LinksOfCentres(w, v.links)
    ensures var r := ProcessStall(v, order); r.Running? && PeopleOk(r.value) && Wired(r.value)
  {
    SightOfUpdaters(w);
    ProcessedWires(w, elapsed, Sight(w), v, order);
    ProcessedPeople(w, elapsed, Sight(w), v, order);
  }

  lemma MapCleanupFromSorted(w: World, elapsed: nat, v: World, order: seq<CellId>)
    requires BusyOk(w) && Sorted(w, elapsed, Sight(w), v) && Enumerates(order, Expired(v))
    requires KeepersAre(w, v.keepers) && LinksOfCentres(w, v.links)
    ensures forall c :: c in order <==> Due(w, c, elapsed)
    ensures var r := ProcessStall(v, order); r.Running? && IdleOk(r.value)
  {
    var x := ProcessStall(v, order).value;
    ExpiredIsDue(w, elapsed, Sight(w), v);
    assert forall c :: c in order <==> c in Expired(v);
    ProcessedGround(w, elapsed, Sight(w), v, order);
    ProcessedCells(w, elapsed, v, order);
    ProcessedEntities(w, elapsed, v, order);
    ProcessedRest(w, x, Destroys(w, order), order);
    SightUnchanged(w, x);
    IdleAssembled(w, elapsed, v, x);
  }
}
