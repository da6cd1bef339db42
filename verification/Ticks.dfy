/** The two halves of a tick in closed form, and the invariant of each half. */
module Ticks {
  import opened Hex
  import opened World
  import opened Invariants

  // ---------- Touching the cells around the keepers ----------

  ghost function TouchAll(w: World, cs: seq<CellId>): Outcome<World>
    decreases |cs|
  {
    if cs == [] then Running(w)
    else
      var w1 :- TouchWatched(w, cs[0]);
      TouchAll(w1, cs[1..])
  }

  /** entity->cell() of every keeper */
  ghost function Centres(w: World, ks: seq<EntityId>): seq<CellId>
    requires forall e :: e in ks ==> e in w.place
  {
    seq(|ks|, i requires 0 <= i < |ks| => w.place[ks[i]])
  }

  lemma {:induction false} TouchKeepersIsTouchAll(w: World, ks: seq<EntityId>)
    requires forall e :: e in ks ==> e in w.place
    ensures TouchKeepers(w, ks) == TouchAll(w, Centres(w, ks))
    decreases |ks|
  {
    if ks != [] {
      var cs := Centres(w, ks);
      assert ks[0] in ks && cs[0] == w.place[ks[0]];
      var r := TouchWatched(w, cs[0]);
      if r.Running? {
        assert r.value.place == w.place;
        assert forall e :: e in ks[1..] ==> e in ks;
        TouchKeepersIsTouchAll(r.value, ks[1..]);
        assert cs[1..] == Centres(r.value, ks[1..]);
      }
    }
  }

  ghost function Covered(w: World, cs: seq<CellId>): set<CellId> {
    set n | n in w.pool && exists c :: c in cs && c in w.pool && Near(w.pool[n].at, w.pool[c].at)
  }

  ghost function SpokesOf(w: World, cs: seq<CellId>): set<(CellId, CellId)> {
    set c, n | c in cs && c in w.pool && n in Ball(w, c) && n != c :: (c, n)
  }

  lemma WatchTwice(w: World, s: set<CellId>, l: set<(CellId, CellId)>, t: set<CellId>, m: set<(CellId, CellId)>)
    ensures Watch(Watch(w, s, l), t, m) == Watch(w, s + t, l + m)
  {
    var u := Watch(w, s, l);
    var v := Watch(u, t, m);
    var x := Watch(w, s + t, l + m);
    assert v.current == x.current;
    assert v.links == x.links;
    assert v.stall == x.stall;
    assert v.pool == x.pool;
  }

  lemma CoveredSplits(w: World, s: set<CellId>, l: set<(CellId, CellId)>, cs: seq<CellId>)
    requires cs != [] && cs[0] in w.pool
    ensures Covered(w, cs) == Ball(w, cs[0]) + Covered(Watch(w, s, l), cs[1..])
    ensures SpokesOf(w, cs) == Spokes(w, cs[0]) + SpokesOf(Watch(w, s, l), cs[1..])
  {
    var u := Watch(w, s, l);
    assert forall c :: c in cs <==> c == cs[0] || c in cs[1..];
    assert forall c :: c in w.pool ==> Ball(u, c) == Ball(w, c);
  }

  ghost predicate Blocked(w: World, s: set<CellId>) {
    exists n :: n in s && n in w.pool && w.pool[n].cooldown
  }

  ghost predicate Enlisted(w: World) {
    forall c :: c in w.pool && w.pool[c].registered ==> c in w.stall
  }

  lemma TouchWatchedIsWatch(w: World, c: CellId)
    requires c in w.pool && Enlisted(w)
    ensures TouchWatched(w, c) ==
            if Blocked(w, Ball(w, c)) then Stopped(TouchedCooldown) else Running(Watch(w, Ball(w, c), Spokes(w, c)))
    ensures Enlisted(Watch(w, Ball(w, c), Spokes(w, c)))
  {
    assert forall n :: n in Ball(w, c) ==> n in w.pool;
  }

  lemma BlockedSplits(w: World, s: set<CellId>, l: set<(CellId, CellId)>, t: set<CellId>)
    ensures Blocked(w, s + t) <==> Blocked(w, s) || Blocked(Watch(w, s, l), t)
  {
    var u := Watch(w, s, l);
    if Blocked(w, t) {
      var n :| n in t && n in w.pool && w.pool[n].cooldown;
      assert n in u.pool && u.pool[n].cooldown;
      assert n in s + t;
    }
  }

  /** Touching a list of centres stops iff one of their balls holds a cell on cooldown;
      otherwise the order and the overlaps of the balls do not matter. */
  lemma {:induction false} TouchAllIsWatch(w: World, cs: seq<CellId>)
    requires forall c :: c in cs ==> c in w.pool
    requires Enlisted(w)
    ensures Blocked(w, Covered(w, cs)) ==> TouchAll(w, cs) == Stopped(TouchedCooldown)
    ensures !Blocked(w, Covered(w, cs)) ==> TouchAll(w, cs) == Running(Watch(w, Covered(w, cs), SpokesOf(w, cs)))
    decreases |cs|
  {
    if cs == [] {
      assert Covered(w, cs) == {} && SpokesOf(w, cs) == {};
      assert Watch(w, {}, {}).pool == w.pool;
      assert Watch(w, {}, {}) == w;
    } else {
      var b, l := Ball(w, cs[0]), Spokes(w, cs[0]);
      var u := Watch(w, b, l);
      TouchWatchedIsWatch(w, cs[0]);
      CoveredSplits(w, b, l, cs);
      BlockedSplits(w, b, l, Covered(u, cs[1..]));
      WatchTwice(w, b, l, Covered(u, cs[1..]), SpokesOf(u, cs[1..]));
      if !Blocked(w, b) {
        TouchAllIsWatch(u, cs[1..]);
      }
    }
  }

  // ---------- The invariants of the two halves ----------

  /** A cell within distance 1 of an updater that is in the map. */
  ghost predicate InSight(w: World, c: CellId) {
    c in w.pool && exists e :: SeenBy(w, c, e)
  }

  ghost predicate SeenBy(w: World, c: CellId, e: EntityId) {
    && c in w.pool && e in w.updaters && e in w.place && w.place[e] in w.pool
    && Near(w.pool[c].at, w.pool[w.place[e]].at)
  }

  /** The pending ADD of an updater that moves starts from the cell it still occupies. */
  ghost predicate Anchored(w: World) {
    forall i :: 0 <= i < |w.ops| && w.ops[i].Add? && w.ops[i].who in w.updaters && w.ops[i].from.Some? ==>
      w.ops[i].who in w.place && w.place[w.ops[i].who] == w.ops[i].from.value && w.ops[i].at in w.cells
  }

  /** Between Map::update and Map::cleanup. */
  ghost predicate BusyOk(w: World) {
    && Core(w, w.ops) && Anchored(w)
    && (forall i :: 0 <= i < |w.ops| ==> !w.ops[i].Destroy?)
    && (forall c :: c in w.pool && w.pool[c].registered ==> c in w.bucketed)
    && w.bucketed <= w.pool.Keys
  }

  /** touchWithNeighbours had `c` as its centre, and connected it to `n`. */
  ghost predicate Wire(w: World, c: CellId, n: CellId) {
    && c in w.current && n in w.current && c in w.pool && n in w.pool
    && c != n && Near(w.pool[n].at, w.pool[c].at) && (UpdaterIn(w, c) || c in w.stall)
  }

  /** The edges of the graph are exactly those from the cell of an updater, or from a stalled cell, to each of its
      neighbours that are not on cooldown. */
  ghost predicate Wired(w: World) {
    forall c: CellId, n: CellId :: (c, n) in w.links <==> Wire(w, c, n)
  }

  /** Between Map::cleanup and the next Map::update: a cell that is not doomed
      counts down iff no updater has it in sight. */
  ghost predicate IdleOk(w: World) {
    && Core(w, w.ops) && Anchored(w)
    && w.keepOps == [] && w.bucketed == {}
    && (forall c :: c in Sight(w) ==> !w.pool[c].cooldown)
    && (forall c :: c in w.pool && !w.pool[c].cooldown ==> (c in w.stall <==> c !in Sight(w)))
    && Wired(w)
  }

  // ---------- Map::cleanup ----------

  /** The record of a cell after a whole Map::cleanup. */
  function Fate(c: Cell, inSight: bool, elapsed: nat): Cell {
    if inSight then CountDown(c, elapsed).(registered := false)
    else if !c.registered then c.(registered := true, cooldown := false, remaining := STALL_TIME)
    else if elapsed < c.remaining then c.(remaining := c.remaining - elapsed)
    else c.(registered := false, cooldown := true)
  }

  ghost predicate Due(w: World, c: CellId, elapsed: nat) {
    c in w.pool && w.pool[c].registered && w.pool[c].remaining <= elapsed
  }

  /** Nothing is on cooldown, and _stallCells holds exactly the registered cells. */
  ghost predicate Calm(w: World) {
    && (forall c :: c in w.pool ==> !w.pool[c].cooldown && (w.pool[c].registered <==> c in w.stall))
    && w.stall <= w.pool.Keys
  }

  lemma BusyIsCalm(w: World)
    requires BusyOk(w)
    ensures Calm(w) && w.current == w.pool.Keys
  {
  }

  lemma NothingLeft(w: World, elapsed: nat)
    requires LinksOk(w) && w.current == {} && w.pool.Keys == {} && w.bucketed <= w.pool.Keys
    ensures w.links == {} && w.bucketed == {} && w.pool == (map c | c in w.pool :: CountDown(w.pool[c], elapsed))
  {
    assert forall l :: l in w.links ==> (l.0, l.1) in w.links && l.0 in w.current;
  }

  lemma CleanupCloses(w: World, elapsed: nat)
    requires w.current == w.pool.Keys && w.bucketed <= w.pool.Keys && LinksOk(w)
    requires forall c :: c in w.pool && w.pool[c].registered ==> c in w.bucketed
    ensures var counted := map c | c in w.pool :: CountDown(w.pool[c], elapsed);
            ClusterCleanup(w, elapsed) == Running(w.(pool := counted, bucketed := {}, links := {}, current := {},
                                              previous := w.pool.Keys))
  {
    var counted := map c | c in w.pool :: CountDown(w.pool[c], elapsed);
    if w.current == {} {
      NothingLeft(w, elapsed);
    }
    assert ClusterCleanup(w, elapsed).value.pool == counted;
  }

  lemma CleanupClosed(w: World, elapsed: nat)
    requires BusyOk(w)
    ensures var counted := map c | c in w.pool :: CountDown(w.pool[c], elapsed);
            ClusterCleanup(w, elapsed) == Running(w.(pool := counted, bucketed := {}, links := {}, current := {},
                                              previous := w.pool.Keys))
  {
    assert w.current == w.pool.Keys by { BusyIsCalm(w); }
    assert LinksOk(w);
    CleanupCloses(w, elapsed);
  }

  /** Cluster::runScheduledOperations after its own queue: the centres touched are the updaters' cells. */
  lemma CentresAreUpdaterCells(w: World)
    requires UpdatersOk(w) && KeepersOk(w)
    ensures var ks := KeepAll(w.keepers, w.keepOps).value;
            (forall e :: e in ks ==> e in w.place) && UpdaterCells(w, Centres(w, ks))
  {
    var ks := KeepAll(w.keepers, w.keepOps).value;
    assert KeepersAre(w, ks);
    var cs := Centres(w, ks);
    forall c
      ensures c in cs <==> UpdaterIn(w, c)
    {
      if c in cs {
        var i :| 0 <= i < |cs| && cs[i] == c;
        assert ks[i] in ks;
      }
      if e :| e in w.updaters && e in w.place && w.place[e] == c {
        assert e in ks;
        var i :| 0 <= i < |ks| && ks[i] == e;
        assert cs[i] == c;
      }
    }
  }

  ghost predicate UpdaterCells(w: World, cs: seq<CellId>) {
    forall c :: c in cs <==> UpdaterIn(w, c)
  }

  lemma CoveredIsSight(w: World, cs: seq<CellId>)
    requires UpdatersOk(w) && UpdaterCells(w, cs)
    ensures Covered(w, cs) == Sight(w)
  {
    forall n
      ensures n in Covered(w, cs) <==> n in Sight(w)
    {
      if n in Covered(w, cs) {
        var c :| c in cs && c in w.pool && Near(w.pool[n].at, w.pool[c].at);
        var e :| e in w.updaters && e in w.place && w.place[e] == c;
        assert SeenBy(w, n, e);
      }
      if n in Sight(w) {
        var e :| SeenBy(w, n, e);
        assert UpdaterIn(w, w.place[e]);
        assert w.place[e] in cs;
      }
    }
  }

  ghost function Sight(w: World): set<CellId> {
    set c | c in w.pool && InSight(w, c)
  }

  ghost function Fates(w: World, seen: set<CellId>, elapsed: nat): map<CellId, Cell> {
    map c | c in w.pool :: Fate(w.pool[c], c in seen, elapsed)
  }

  /** The world once the keepers' surroundings are touched and the lost cells are registered. */
  ghost predicate Regrouped(w: World, elapsed: nat, seen: set<CellId>, v: World) {
    v == w.(pool := Fates(w, seen, elapsed), current := seen, previous := w.pool.Keys, stall := w.pool.Keys - seen,
            bucketed := {}, links := v.links, keepers := v.keepers, keepOps := [])
  }

  /** The edges made by touching the updaters' cells. */
  ghost predicate LinksOfCentres(w: World, links: set<(CellId, CellId)>) {
    forall c, n :: (c, n) in links <==> UpdaterIn(w, c) && c in w.pool && n in Ball(w, c) && n != c
  }

  ghost predicate UpdaterIn(w: World, c: CellId) {
    exists e :: e in w.updaters && e in w.place && w.place[e] == c
  }

  /** Map::cleanup stops iff a cell in sight of an updater runs out in this very tick. */
  ghost predicate GuardHolds(w: World, elapsed: nat) {
    forall c :: c in Sight(w) ==> !Due(w, c, elapsed)
  }

  ghost function TouchAndEnlist(w: World, cs: seq<CellId>): Outcome<World> {
    var w1 :- TouchAll(w, cs);
    Enlist(w1)
  }

  /** Once the queue of keepers is drained, the centres are the updaters' cells and cover what they see. */
  lemma RegroupIsTouching(w: World, w1: World, cs: seq<CellId>)
    requires UpdatersOk(w) && KeepersOk(w)
    requires w1.place == w.place && w1.keepers == w.keepers && w1.keepOps == w.keepOps
    requires var ks := KeepAll(w.keepers, w.keepOps).value;
             (forall e :: e in ks ==> e in w.place) && cs == Centres(w, ks)
    ensures var w2 := w1.(keepers := KeepAll(w.keepers, w.keepOps).value, keepOps := []);
            Regroup(w1) == TouchAndEnlist(w2, cs)
  {
    var ks := KeepAll(w.keepers, w.keepOps).value;
    var w2 := w1.(keepers := ks, keepOps := []);
    assert Centres(w2, ks) == cs;
    TouchKeepersIsTouchAll(w2, ks);
  }

  /** The world and the list of centres with which the touching starts. */
  ghost predicate ReadyToTouch(w: World, elapsed: nat, w2: World, cs: seq<CellId>) {
    && Counted(w, elapsed, w2) && UpdaterCells(w, cs) && (forall c :: c in cs ==> c in w.pool)
    && w2 == w.(pool := w2.pool, bucketed := {}, links := {}, current := {}, previous := w.pool.Keys,
                keepers := w2.keepers, keepOps := [])
    && KeepersAre(w, w2.keepers)
  }

  lemma RegroupStarts(w: World, elapsed: nat) returns (w2: World, cs: seq<CellId>)
    requires BusyOk(w)
    ensures ReadyToTouch(w, elapsed, w2, cs)
    ensures CleanupAndRegroup(w, elapsed) == TouchAndEnlist(w2, cs)
  {
    CleanupClosed(w, elapsed);
    assert UpdatersOk(w) && KeepersOk(w);
    CentresAreUpdaterCells(w);
    var w1 := ClusterCleanup(w, elapsed).value;
    var ks := KeepAll(w.keepers, w.keepOps).value;
    cs := Centres(w, ks);
    w2 := w1.(keepers := ks, keepOps := []);
    RegroupIsTouching(w, w1, cs);
    assert CleanupAndRegroup(w, elapsed) == Regroup(w1);
  }

  lemma EnlistedIsRegrouped(w: World, elapsed: nat, w2: World, cs: seq<CellId>)
    requires Calm(w) && ReadyToTouch(w, elapsed, w2, cs) && Sight(w) <= w.pool.Keys && GuardHolds(w, elapsed)
    ensures var r := Enlist(Watch(w2, Sight(w), SpokesOf(w2, cs)));
            r.Running? && Regrouped(w, elapsed, Sight(w), r.value)
            && KeepersAre(w, r.value.keepers) && LinksOfCentres(w, r.value.links)
  {
    EnlistPointwise(w, elapsed, Sight(w), w2, SpokesOf(w2, cs));
    SpokesOfUpdaters(w, w2, cs);
  }

  lemma RegroupClosed(w: World, elapsed: nat)
    requires BusyOk(w)
    ensures !GuardHolds(w, elapsed) ==> CleanupAndRegroup(w, elapsed) == Stopped(TouchedCooldown)
    ensures GuardHolds(w, elapsed) ==>
              var r := CleanupAndRegroup(w, elapsed);
              r.Running? && Regrouped(w, elapsed, Sight(w), r.value)
              && KeepersAre(w, r.value.keepers) && LinksOfCentres(w, r.value.links)
  {
    var w2, cs := RegroupStarts(w, elapsed);
    BusyIsCalm(w);
    CoveredIsSight(w, cs);
    TouchCentres(w, elapsed, w2, cs);
    if GuardHolds(w, elapsed) {
      EnlistedIsRegrouped(w, elapsed, w2, cs);
    }
  }

  /** The world when the keepers' cells start to be touched. */
  ghost predicate Counted(w: World, elapsed: nat, w2: World) {
    && w2.pool == (map c | c in w.pool :: CountDown(w.pool[c], elapsed))
    && w2.stall == w.stall && w2.current == {} && w2.previous == w.pool.Keys && w2.links == {}
  }

  lemma TouchCentres(w: World, elapsed: nat, w2: World, cs: seq<CellId>)
    requires Calm(w) && Counted(w, elapsed, w2) && UpdaterCells(w, cs) && Covered(w, cs) == Sight(w)
    requires forall c :: c in cs ==> c in w.pool
    ensures !GuardHolds(w, elapsed) ==> TouchAll(w2, cs) == Stopped(TouchedCooldown)
    ensures GuardHolds(w, elapsed) ==> TouchAll(w2, cs) == Running(Watch(w2, Sight(w), SpokesOf(w2, cs)))
  {
    assert Covered(w2, cs) == Covered(w, cs);
    TouchAllIsWatch(w2, cs);
    forall c | c in w.pool
      ensures w2.pool[c].cooldown <==> Due(w, c, elapsed)
    {
    }
  }

  lemma SpokesOfUpdaters(w: World, w2: World, cs: seq<CellId>)
    requires UpdaterCells(w, cs)
    requires w2.pool.Keys == w.pool.Keys && forall c :: c in w.pool ==> w2.pool[c].at == w.pool[c].at
    ensures LinksOfCentres(w, SpokesOf(w2, cs))
  {
    assert forall c :: c in w.pool ==> Ball(w2, c) == Ball(w, c);
  }

  lemma EnlistPointwise(w: World, elapsed: nat, seen: set<CellId>, w2: World, l: set<(CellId, CellId)>)
    requires Calm(w) && seen <= w.pool.Keys && Counted(w, elapsed, w2)
    requires forall c :: c in seen ==> !Due(w, c, elapsed)
    ensures var r := Enlist(Watch(w2, seen, l));
            && r.Running?
            && r.value == w2.(pool := Fates(w, seen, elapsed), stall := w.pool.Keys - seen, current := seen, links := l)
  {
    var w3 := Watch(w2, seen, l);
    var v := Enlist(w3).value;
    assert w3.current == seen && w3.links == l;
    assert v.stall == w.pool.Keys - seen;
    forall c | c in w.pool
      ensures v.pool[c] == Fate(w.pool[c], c in seen, elapsed)
    {
    }
    assert v.pool == Fates(w, seen, elapsed);
  }
}
