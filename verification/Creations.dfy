/** Which cells an operation creates, when that stops at the guard of Cluster::touch, and what it does to the
    graph and to the countdowns around. */
module Creations {
  import opened Hex
  import opened World
  import opened Invariants
  import opened Operations
  import opened Components

  // ---------- Creating a set of cells ----------

  /** One of the offsets that has no cell yet is within distance 1 of `at`. */
  ghost predicate Touches(w: World, xs: set<Coord>, at: Coord) {
    exists x :: x in xs && x !in w.cells && Near(x, at)
  }

  /** A cell on cooldown is in the way of creating the cells of `xs`. */
  ghost predicate Bars(w: World, xs: set<Coord>) {
    exists d :: d in w.pool && w.pool[d].cooldown && Touches(w, xs, w.pool[d].at)
  }

  /** `v` is `w` with the absent cells of `xs` created: they take the cells around them out of their countdown. */
  ghost predicate Creates(w: World, xs: set<Coord>, v: World) {
    && v.cells.Keys == w.cells.Keys + xs
    && (forall c :: c in w.pool ==>
          && c in v.pool && v.pool[c].at == w.pool[c].at && v.pool[c].cooldown == w.pool[c].cooldown
          && (v.pool[c].registered <==> w.pool[c].registered && !Touches(w, xs, w.pool[c].at)))
    && (forall c :: c in v.pool && c !in w.pool ==> !v.pool[c].cooldown && !v.pool[c].registered)
  }

  lemma TouchesBoth(w: World, xs: set<Coord>, v: World, ys: set<Coord>, at: Coord)
    requires v.cells.Keys == w.cells.Keys + xs
    ensures Touches(w, xs + ys, at) <==> Touches(w, xs, at) || Touches(v, ys, at)
  {
    if Touches(v, ys, at) {
      var y :| y in ys && y !in v.cells && Near(y, at);
      assert y in xs + ys && y !in w.cells;
    }
    if Touches(w, xs + ys, at) && !Touches(w, xs, at) {
      var y :| y in xs + ys && y !in w.cells && Near(y, at);
      assert y !in xs;
      assert y !in v.cells;
    }
  }

  lemma CreatesBoth(w: World, xs: set<Coord>, v: World, ys: set<Coord>, z: World)
    requires Creates(w, xs, v) && Creates(v, ys, z)
    ensures Creates(w, xs + ys, z)
  {
    forall c | c in w.pool
      ensures Touches(w, xs + ys, w.pool[c].at) <==> Touches(w, xs, w.pool[c].at) || Touches(v, ys, w.pool[c].at)
    {
      TouchesBoth(w, xs, v, ys, w.pool[c].at);
    }
  }

  lemma BarsBoth(w: World, xs: set<Coord>, v: World, ys: set<Coord>)
    requires Creates(w, xs, v) && !Bars(w, xs)
    ensures Bars(w, xs + ys) <==> Bars(v, ys)
  {
    forall d | d in w.pool
      ensures Touches(w, xs + ys, w.pool[d].at) <==> Touches(w, xs, w.pool[d].at) || Touches(v, ys, w.pool[d].at)
    {
      TouchesBoth(w, xs, v, ys, w.pool[d].at);
    }
    if Bars(v, ys) {
      var d :| d in v.pool && v.pool[d].cooldown && Touches(v, ys, v.pool[d].at);
      assert d in w.pool && Touches(w, xs + ys, w.pool[d].at);
    }
    if Bars(w, xs + ys) {
      var d :| d in w.pool && w.pool[d].cooldown && Touches(w, xs + ys, w.pool[d].at);
      assert d in v.pool && Touches(v, ys, v.pool[d].at);
    }
  }

  /** The graph of `v` keeps that of `u`: no edge more between the cells of `u`, and every cell that is new among
      the vertices is joined to all its neighbours. */
  ghost predicate Extends(u: World, v: World) {
    && u.current <= v.current && u.links <= v.links
    && (forall c :: c in u.current ==> c in u.pool && c in v.pool && v.pool[c].at == u.pool[c].at)
    && (forall a, b :: (a, b) in v.links && a in u.current && b in u.current ==> (a, b) in u.links)
    && (forall a, b :: a in v.current && b in v.current && (a !in u.current || b !in u.current) ==> Meets(v, a, b))
  }

  /** Adjacent cells are joined by an edge. */
  ghost predicate Meets(v: World, a: CellId, b: CellId) {
    a in v.pool && b in v.pool && a != b && Near(v.pool[a].at, v.pool[b].at) ==> Adjacent(v.links, a, b)
  }

  lemma ExtendsBoth(u: World, v: World, x: World)
    requires Extends(u, v) && Extends(v, x)
    ensures Extends(u, x)
  {
    forall a, b | a in x.current && b in x.current && (a !in u.current || b !in u.current)
      ensures Meets(x, a, b)
    {
      if a in v.current && b in v.current {
        assert Meets(v, a, b);
      }
    }
  }

  lemma ExtendsItself(u: World, v: World)
    requires u.current <= u.pool.Keys && v.current == u.current && v.links == u.links
    requires forall c :: c in u.current ==> c in v.pool && v.pool[c].at == u.pool[c].at
    ensures Extends(u, v)
  {
  }

  // ---------- getOrCreate ----------

  lemma BallIsNear(w: World, o: Coord)
    requires Allocates(w) && o !in w.cells
    ensures var id, u := w.alloc(w.births, w.pool.Keys), Created(w, o);
            forall c :: c in w.pool ==> (c in Ball(u, id) <==> Touches(w, {o}, w.pool[c].at))
  {
    var id, u := w.alloc(w.births, w.pool.Keys), Created(w, o);
    forall c | c in w.pool
      ensures c in Ball(u, id) <==> Touches(w, {o}, w.pool[c].at)
    {
      NearIsDistanceOne(o, w.pool[c].at);
      assert Touches(w, {o}, w.pool[c].at) <==> o in {o} && o !in w.cells && Near(o, w.pool[c].at);
    }
  }

  lemma CreatedOne(w: World, o: Coord, rest: seq<MapOp>)
    requires CellsOk(w, rest) && o !in w.cells
    ensures var id := w.alloc(w.births, w.pool.Keys);
            var u := Created(w, o);
            Creates(w, {o}, Watch(u, Ball(u, id), Spokes(u, id)))
  {
    BallIsNear(w, o);
    WatchCreates(w, o);
  }

  lemma WatchCreates(w: World, o: Coord)
    requires Allocates(w) && o !in w.cells
    requires var id, u := w.alloc(w.births, w.pool.Keys), Created(w, o);
             forall c :: c in w.pool ==> (c in Ball(u, id) <==> Touches(w, {o}, w.pool[c].at))
    ensures var id, u := w.alloc(w.births, w.pool.Keys), Created(w, o);
            Creates(w, {o}, Watch(u, Ball(u, id), Spokes(u, id)))
  {
    assert Created(w, o).cells.Keys == w.cells.Keys + {o};
  }

  lemma CreatedExtends(w: World, o: Coord, rest: seq<MapOp>)
    requires CellsOk(w, rest) && o !in w.cells
    requires var u := Created(w, o); TouchWatched(u, w.alloc(w.births, w.pool.Keys)).Running?
    ensures var id := w.alloc(w.births, w.pool.Keys);
            var u := Created(w, o);
            Extends(w, Watch(u, Ball(u, id), Spokes(u, id)))
  {
    var id := w.alloc(w.births, w.pool.Keys);
    var u := Created(w, o);
    var v := Watch(u, Ball(u, id), Spokes(u, id));
    assert forall c :: c in v.current <==> c in w.current || c == id;
    forall a, b | a in v.current && b in v.current && (a !in w.current || b !in w.current)
      ensures Meets(v, a, b)
    {
      assert a == id || b == id;
      if Near(v.pool[a].at, v.pool[b].at) && a != b {
        NearIsDistanceOne(v.pool[a].at, v.pool[b].at);
        assert (id, if a == id then b else a) in Spokes(u, id);
      }
    }
  }

  /** Creating a cell stops iff a live neighbour is on cooldown; otherwise it takes the neighbours out of their
      countdown and is joined to each of them. */
  lemma CreationStopsIff(w: World, o: Coord, rest: seq<MapOp>)
    requires CellsOk(w, rest) && ParamsOk(w, rest)
    ensures GetOrCreate(w, o).Stopped? <==> Bars(w, {o})
    ensures var r := GetOrCreate(w, o); r.Running? ==> Creates(w, {o}, r.value) && Extends(w, r.value)
  {
    if o in w.cells {
      assert w.cells.Keys + {o} == w.cells.Keys;
      assert forall at :: !Touches(w, {o}, at);
      ExtendsItself(w, w);
    } else {
      BarredIff(w, o, rest);
      CreatedOne(w, o, rest);
      if GetOrCreate(w, o).Running? {
        CreatedExtends(w, o, rest);
      }
    }
  }

  lemma BallIsTouched(w: World, o: Coord, rest: seq<MapOp>)
    requires CellsOk(w, rest) && o !in w.cells
    ensures var id, u := w.alloc(w.births, w.pool.Keys), Created(w, o);
            Bars(w, {o}) <==> exists n :: n in Ball(u, id) && u.pool[n].cooldown
  {
    var id, u := w.alloc(w.births, w.pool.Keys), Created(w, o);
    forall c | c in w.pool
      ensures c in Ball(u, id) <==> Touches(w, {o}, w.pool[c].at)
    {
      NearIsDistanceOne(o, w.pool[c].at);
      assert Touches(w, {o}, w.pool[c].at) <==> o in {o} && o !in w.cells && Near(o, w.pool[c].at);
    }
    if Bars(w, {o}) {
      var d :| d in w.pool && w.pool[d].cooldown && Touches(w, {o}, w.pool[d].at);
      assert d in Ball(u, id) && u.pool[d].cooldown;
    }
    if n :| n in Ball(u, id) && u.pool[n].cooldown {
      assert n in w.pool && w.pool[n].cooldown;
    }
  }

  lemma BarredIff(w: World, o: Coord, rest: seq<MapOp>)
    requires CellsOk(w, rest) && ParamsOk(w, rest) && o !in w.cells
    ensures GetOrCreate(w, o).Stopped? <==> Bars(w, {o})
  {
    GetOrCreateKeepsCells(w, o, rest);
    BallIsTouched(w, o, rest);
  }

  // ---------- The cells of one operation ----------

  /** A step of the code that creates the cells of `xs`, and nothing else that matters here. */
  ghost predicate JustCreates(w: World, xs: set<Coord>, r: Outcome<World>) {
    && (r.Stopped? <==> Bars(w, xs))
    && (r.Running? ==> Creates(w, xs, r.value) && Extends(w, r.value))
  }

  lemma JustCreatesBoth(w: World, xs: set<Coord>, v: World, ys: set<Coord>, r: Outcome<World>)
    requires Creates(w, xs, v) && Extends(w, v) && !Bars(w, xs) && JustCreates(v, ys, r)
    ensures JustCreates(w, xs + ys, r)
  {
    BarsBoth(w, xs, v, ys);
    if r.Running? {
      CreatesBoth(w, xs, v, ys, r.value);
      ExtendsBoth(w, v, r.value);
    }
  }

  lemma CreatesNothing(w: World, v: World)
    requires v.cells == w.cells && v.pool.Keys == w.pool.Keys && v.current == w.current && v.links == w.links
    requires w.current <= w.pool.Keys
    requires forall c :: c in w.pool ==>
               && v.pool[c].at == w.pool[c].at && v.pool[c].cooldown == w.pool[c].cooldown
               && v.pool[c].registered == w.pool[c].registered
    ensures Creates(w, {}, v) && Extends(w, v) && !Bars(w, {})
  {
    assert w.cells.Keys + {} == w.cells.Keys;
    assert forall at :: !Touches(w, {}, at);
    ExtendsItself(w, v);
  }

  lemma {:induction false} EnsureCellsCreates(w: World, os: seq<Coord>, rest: seq<MapOp>)
    requires Core(w, rest)
    ensures JustCreates(w, SetOf(os), EnsureCells(w, os))
    decreases |os|
  {
    if os == [] {
      assert SetOf(os) == {};
      CreatesNothing(w, w);
    } else {
      var r := GetOrCreate(w, os[0]);
      assert SetOf(os) == {os[0]} + SetOf(os[1..]);
      GetOrCreateKeepsCore(w, os[0], rest);
      CreationStopsIff(w, os[0], rest);
      if r.Running? {
        EnsureCellsCreates(r.value, os[1..], rest);
        JustCreatesBoth(w, {os[0]}, r.value, SetOf(os[1..]), EnsureCells(w, os));
      } else {
        BarsMore(w, {os[0]}, SetOf(os[1..]));
      }
    }
  }

  lemma BarsMore(w: World, xs: set<Coord>, ys: set<Coord>)
    requires Bars(w, xs)
    ensures Bars(w, xs + ys)
  {
    var d :| d in w.pool && w.pool[d].cooldown && Touches(w, xs, w.pool[d].at);
    var x :| x in xs && x !in w.cells && Near(x, w.pool[d].at);
    assert x in xs + ys;
    assert Touches(w, xs + ys, w.pool[d].at);
  }

  /** The offsets of getCellsExcluding(cell, exclude) other than the cell's own. */
  function Around(o: Coord, exclude: Option<Coord>): set<Coord> {
    set x | x in Siblings(o) && (exclude.None? || !Near(x, exclude.value))
  }

  /** Where a cell that an operation points to is. */
  function PlaceOf(w: World, c: Option<CellId>): Option<Coord> {
    if c.Some? && c.value in w.pool then Some(w.pool[c.value].at) else None
  }

  lemma ExcludingCreates(w: World, c: CellId, exclude: Option<CellId>, rest: seq<MapOp>)
    requires Core(w, rest) && c in w.pool && Beside(w, c, exclude)
    ensures JustCreates(w, Around(w.pool[c].at, PlaceOf(w, exclude)), EnsureExcluding(w, c, exclude))
  {
    var o := w.pool[c].at;
    if exclude.None? {
      assert SetOf(Siblings(o)) == Around(o, None);
      EnsureCellsCreates(w, Siblings(o), rest);
    } else {
      var x := w.pool[exclude.value].at;
      AheadIsTheDifference(o, x);
      DirectionIndexInverts(o, x);
      forall y
        ensures y in Ahead(o, x) <==> y in Siblings(o) && !Near(y, x)
      {
        SiblingsAreTheRing(o, y);
      }
      assert SetOf(Ahead(o, x)) == Around(o, Some(x));
      EnsureCellsCreates(w, Ahead(o, x), rest);
    }
  }

  /** The siblings that an updater's ADD creates. */
  function Circle(w: World, o: Coord, e: EntityId): set<Coord> {
    if e in w.updaters then SetOf(Siblings(o)) else {}
  }

  lemma SiblingsCreates(w: World, c: CellId, e: EntityId, rest: seq<MapOp>)
    requires Core(w, rest) && c in w.pool
    ensures JustCreates(w, Circle(w, w.pool[c].at, e), EnsureSiblings(w, c, e))
  {
    if e in w.updaters {
      EnsureCellsCreates(w, Siblings(w.pool[c].at), rest);
    } else {
      CreatesNothing(w, w);
    }
  }

  /** What checkStall does: nothing to the graph, and the target is un-stalled iff `from` is not stalled. */
  ghost predicate Unstalls(v: World, from: Option<CellId>) {
    from.Some? && from.value in v.pool && !v.pool[from.value].registered && !v.pool[from.value].cooldown
  }

  /** `v` is `w` with the cells of `xs` created, and then `target` un-stalled if the entity comes from a cell that
      is not stalled. */
  ghost predicate Arrives(w: World, xs: set<Coord>, target: CellId, from: Option<CellId>, v: World) {
    && v.cells.Keys == w.cells.Keys + xs
    && (forall c :: c in w.pool ==>
          && c in v.pool && v.pool[c].at == w.pool[c].at && v.pool[c].cooldown == w.pool[c].cooldown
          && (v.pool[c].registered <==>
                w.pool[c].registered && !Touches(w, xs, w.pool[c].at) && !(c == target && Unstalls(v, from))))
    && (forall c :: c in v.pool && c !in w.pool ==> !v.pool[c].cooldown && !v.pool[c].registered)
  }

  lemma CheckStallKeepsGraph(u: World, target: CellId, from: Option<CellId>)
    requires u.current <= u.pool.Keys && target in u.pool && CheckStall(u, from, target).Running?
    ensures Extends(u, CheckStall(u, from, target).value)
  {
    ExtendsItself(u, CheckStall(u, from, target).value);
  }

  lemma CheckStallFlags(w: World, xs: set<Coord>, u: World, target: CellId, from: Option<CellId>)
    requires Creates(w, xs, u) && target in u.pool && Beside(u, target, from)
    requires u.pool[target].registered ==> !u.pool[target].cooldown
    requires CheckStall(u, from, target).Running?
    ensures Arrives(w, xs, target, from, CheckStall(u, from, target).value)
  {
  }

  lemma CheckStallArrives(w: World, xs: set<Coord>, u: World, target: CellId, from: Option<CellId>, rest: seq<MapOp>)
    requires Creates(w, xs, u) && CellsOk(u, rest) && target in u.pool && Beside(u, target, from)
    ensures var r := CheckStall(u, from, target);
            r.Running? && Arrives(w, xs, target, from, r.value) && Extends(u, r.value)
  {
    assert CheckStall(u, from, target).Running? by { CheckStallKeepsCells(u, from, target, rest); }
    assert u.pool[target].registered ==> !u.pool[target].cooldown by { assert FlagsOk(u, rest); }
    CheckStallFlags(w, xs, u, target, from);
    CurrentIsLive(u, rest);
    CheckStallKeepsGraph(u, target, from);
  }

  /** An ADD once the entity is in its cell. */
  lemma SettleCreates(w: World, c: CellId, e: EntityId, from: Option<CellId>, rest: seq<MapOp>)
    requires Core(w, rest) && c in w.pool && Beside(w, c, from)
    ensures var o := w.pool[c].at;
            var xs := Circle(w, o, e) + Around(o, PlaceOf(w, from));
            var r := Settle(w, c, e, from);
            (r.Stopped? <==> Bars(w, xs)) && (r.Running? ==> Arrives(w, xs, c, from, r.value) && Extends(w, r.value))
  {
    var o := w.pool[c].at;
    var xs, ys := Circle(w, o, e), Around(o, PlaceOf(w, from));
    SiblingsCreates(w, c, e, rest);
    EnsureCellsKeepsCore(w, Siblings(o), rest);
    var r := EnsureSiblings(w, c, e);
    if r.Running? {
      var u := r.value;
      ExcludingCreates(u, c, from, rest);
      EnsureExcludingKeepsCore(u, c, from, rest);
      var s := EnsureExcluding(u, c, from);
      JustCreatesBoth(w, xs, u, ys, s);
      if s.Running? {
        CheckStallArrives(w, xs + ys, s.value, c, from, rest);
        ExtendsBoth(w, s.value, CheckStall(s.value, from, c).value);
      }
    } else {
      BarsMore(w, xs, ys);
    }
  }

  // ---------- One operation ----------

  /** The offsets that an operation makes sure have a cell, when those in `known` have one: an ADD its own, the
      siblings for an updater, and what onAdded reaches; a REMOVE what onRemoved reaches, if its cell is there. */
  function Named(w: World, known: set<Coord>, op: MapOp): set<Coord> {
    match op
    case Add(o, e, from) => {o} + (Circle(w, o, e) + Around(o, PlaceOf(w, from)))
    case Remove(o, _, to) => if o in known then Around(o, PlaceOf(w, to)) else {}
    case Destroy(_, _) => {}
  }

  function Next(w: World, known: set<Coord>, op: MapOp): set<Coord> {
    if op.Destroy? then known - {op.at} else known + Named(w, known, op)
  }

  /** What an operation does to the cells that were there: which of them it takes out of their countdown. */
  ghost predicate Fares(w: World, op: MapOp, v: World) {
    && v.cells.Keys == Next(w, w.cells.Keys, op)
    && (forall c :: c in w.pool && c in v.pool ==>
          && v.pool[c].at == w.pool[c].at && v.pool[c].cooldown == w.pool[c].cooldown
          && (v.pool[c].registered <==>
                && w.pool[c].registered && !Touches(w, Named(w, w.cells.Keys, op), w.pool[c].at)
                && !Unstalled(w, op, v, c)))
  }

  /** The ADD of an entity that comes from a cell that is not stalled. */
  ghost predicate Unstalled(w: World, op: MapOp, v: World, c: CellId)
    requires c in w.pool
  {
    op.Add? && op.at == w.pool[c].at && Unstalls(v, op.from)
  }

  lemma ArrivesAfter(w: World, xs: set<Coord>, u: World, ys: set<Coord>, target: CellId, from: Option<CellId>, v: World)
    requires Creates(w, xs, u) && Arrives(u, ys, target, from, v)
    ensures Arrives(w, xs + ys, target, from, v)
  {
    forall c | c in w.pool
      ensures Touches(w, xs + ys, w.pool[c].at) <==> Touches(w, xs, w.pool[c].at) || Touches(u, ys, w.pool[c].at)
    {
      TouchesBoth(w, xs, u, ys, w.pool[c].at);
    }
  }

  lemma PlaceFaresOn(w: World, u: World, c: Option<CellId>)
    requires c.Some? ==> c.value in w.pool && c.value in u.pool && u.pool[c.value].at == w.pool[c.value].at
    ensures PlaceOf(u, c) == PlaceOf(w, c)
  {
  }

  /** The world in which an ADD has put the entity in its cell `c`. */
  ghost predicate Entering(w: World, m: World, o: Coord, e: EntityId, from: Option<CellId>, c: CellId,
                           rest: seq<MapOp>)
  {
    && Core(m, rest) && c in m.pool && m.pool[c].at == o && Beside(m, c, from)
    && Creates(w, {o}, m) && Extends(w, m) && m.updaters == w.updaters && PlaceOf(m, from) == PlaceOf(w, from)
  }

  lemma CurrentIsLive(w: World, rest: seq<MapOp>)
    requires FlagsOk(w, rest)
    ensures w.current <= w.pool.Keys
  {
  }

  lemma EnterCreatesNothing(w: World, e: EntityId, c: CellId)
    requires c in w.pool && w.current <= w.pool.Keys
    ensures var v := QueueKeep(Enter(w, e, c), Keep(e)); Creates(w, {}, v) && Extends(w, v)
    ensures var v := QueueKeep(Leave(w, e, c), Unkeep(e)); Creates(w, {}, v) && Extends(w, v)
    ensures !Bars(w, {})
  {
    CreatesNothing(w, QueueKeep(Enter(w, e, c), Keep(e)));
    CreatesNothing(w, QueueKeep(Leave(w, e, c), Unkeep(e)));
  }

  lemma CreatesThenFrames(w: World, xs: set<Coord>, u: World, m: World)
    requires Creates(w, xs, u) && Extends(w, u) && Creates(u, {}, m) && Extends(u, m)
    ensures Creates(w, xs, m) && Extends(w, m)
  {
    CreatesBoth(w, xs, u, {}, m);
    assert xs + {} == xs;
    ExtendsBoth(w, u, m);
  }

  lemma EntersCell(w: World, u: World, o: Coord, e: EntityId, from: Option<CellId>, rest: seq<MapOp>)
    requires OpOk(w, Add(o, e, from)) && Creates(w, {o}, u) && Extends(w, u) && Grown(w, u)
    requires Core(u, [Add(o, e, from)] + rest) && o in u.cells
    ensures u.cells[o] in u.pool
    ensures Entering(w, QueueKeep(Enter(u, e, u.cells[o]), Keep(e)), o, e, from, u.cells[o], rest)
  {
    var c := u.cells[o];
    assert c in u.pool && u.pool[c].at == o && Core(QueueKeep(Enter(u, e, c), Keep(e)), rest) by {
      PlaceEntity(u, o, e, from, rest);
    }
    EnteredBeside(w, u, o, e, from, c);
    assert u.current <= u.pool.Keys by { CurrentIsLive(u, [Add(o, e, from)] + rest); }
    EnterCreatesNothing(u, e, c);
    CreatesThenFrames(w, {o}, u, QueueKeep(Enter(u, e, c), Keep(e)));
  }

  lemma EnteredBeside(w: World, u: World, o: Coord, e: EntityId, from: Option<CellId>, c: CellId)
    requires OpOk(w, Add(o, e, from)) && Grown(w, u) && c in u.pool && u.pool[c].at == o
    ensures var m := QueueKeep(Enter(u, e, c), Keep(e));
            && Beside(m, c, from) && c in m.pool && m.pool[c].at == o
            && m.updaters == w.updaters && PlaceOf(m, from) == PlaceOf(w, from)
  {
  }

  /** An ADD whose cell is there. */
  lemma AddInCell(w: World, m: World, o: Coord, e: EntityId, from: Option<CellId>, c: CellId, rest: seq<MapOp>)
    requires Entering(w, m, o, e, from, c, rest) && !Bars(w, {o})
    ensures var r := Settle(m, c, e, from);
            var xs := Named(w, w.cells.Keys, Add(o, e, from));
            (r.Stopped? <==> Bars(w, xs)) && (r.Running? ==> Arrives(w, xs, c, from, r.value) && Extends(w, r.value))
  {
    SettleCreates(m, c, e, from, rest);
    var ys := Circle(w, o, e) + Around(o, PlaceOf(w, from));
    BarsBoth(w, {o}, m, ys);
    var r := Settle(m, c, e, from);
    if r.Running? {
      ArrivesAfter(w, {o}, m, ys, c, from, r.value);
      ExtendsBoth(w, m, r.value);
    }
  }

  lemma AddCreates(w: World, o: Coord, e: EntityId, from: Option<CellId>, rest: seq<MapOp>)
    requires Core(w, [Add(o, e, from)] + rest)
    ensures var op := Add(o, e, from);
            var r := ExecAdd(w, o, e, from);
            && (r.Stopped? <==> Bars(w, Named(w, w.cells.Keys, op)))
            && (r.Running? ==> Fares(w, op, r.value) && Extends(w, r.value))
  {
    var op, all := Add(o, e, from), [Add(o, e, from)] + rest;
    assert all[0] == op && OpOk(w, all[0]);
    CreationStopsIff(w, o, all);
    GetOrCreateKeepsCore(w, o, all);
    var r1 := GetOrCreate(w, o);
    if r1.Running? {
      var u := r1.value;
      EntersCell(w, u, o, e, from, rest);
      AddInCell(w, QueueKeep(Enter(u, e, u.cells[o]), Keep(e)), o, e, from, u.cells[o], rest);
      if ExecAdd(w, o, e, from).Running? {
        AddFares(w, o, e, from, u.cells[o], ExecAdd(w, o, e, from).value);
      }
    } else {
      BarsMore(w, {o}, Circle(w, o, e) + Around(o, PlaceOf(w, from)));
    }
  }

  lemma AddFares(w: World, o: Coord, e: EntityId, from: Option<CellId>, c: CellId, v: World)
    requires Arrives(w, Named(w, w.cells.Keys, Add(o, e, from)), c, from, v) && TableOk(w)
    requires c in w.pool ==> w.pool[c].at == o
    requires o in w.cells ==> c == w.cells[o]
    ensures Fares(w, Add(o, e, from), v)
  {
  }

  lemma JustCreatesAfterNothing(w: World, m: World, xs: set<Coord>, r: Outcome<World>)
    requires Creates(w, {}, m) && Extends(w, m) && !Bars(w, {}) && JustCreates(m, xs, r)
    ensures JustCreates(w, xs, r)
  {
    JustCreatesBoth(w, {}, m, xs, r);
    assert {} + xs == xs;
  }

  lemma RemoveInCell(w: World, m: World, o: Coord, c: CellId, to: Option<CellId>, rest: seq<MapOp>)
    requires Core(m, rest) && c in m.pool && m.pool[c].at == o && Beside(m, c, to) && PlaceOf(m, to) == PlaceOf(w, to)
    requires Creates(w, {}, m) && Extends(w, m) && !Bars(w, {})
    ensures JustCreates(w, Around(o, PlaceOf(w, to)), EnsureExcluding(m, c, to))
  {
    var xs := Around(o, PlaceOf(w, to));
    var r := EnsureExcluding(m, c, to);
    assert JustCreates(m, xs, r) by { ExcludingCreates(m, c, to, rest); }
    JustCreatesAfterNothing(w, m, xs, r);
  }

  lemma LeftBeside(w: World, o: Coord, e: EntityId, to: Option<CellId>, c: CellId)
    requires OpOk(w, Remove(o, e, to)) && c in w.pool && w.pool[c].at == o
    ensures var m := QueueKeep(Leave(w, e, c), Unkeep(e));
            Beside(m, c, to) && c in m.pool && m.pool[c].at == o && PlaceOf(m, to) == PlaceOf(w, to)
  {
  }

  lemma RemoveFromCell(w: World, o: Coord, e: EntityId, to: Option<CellId>, rest: seq<MapOp>)
    requires Core(w, [Remove(o, e, to)] + rest) && OpOk(w, Remove(o, e, to)) && o in w.cells
    ensures JustCreates(w, Around(o, PlaceOf(w, to)), ExecRemove(w, o, e, to))
  {
    var c := w.cells[o];
    var m := QueueKeep(Leave(w, e, c), Unkeep(e));
    assert c in w.pool && w.pool[c].at == o by { assert TableOk(w); }
    assert Core(m, rest) by { RemoveEntity(w, o, e, to, rest); }
    LeftBeside(w, o, e, to, c);
    assert w.current <= w.pool.Keys by { CurrentIsLive(w, [Remove(o, e, to)] + rest); }
    EnterCreatesNothing(w, e, c);
    RemoveInCell(w, m, o, c, to, rest);
  }

  lemma RemoveCreates(w: World, o: Coord, e: EntityId, to: Option<CellId>, rest: seq<MapOp>)
    requires Core(w, [Remove(o, e, to)] + rest)
    ensures var op := Remove(o, e, to);
            var r := ExecRemove(w, o, e, to);
            && (r.Stopped? <==> Bars(w, Named(w, w.cells.Keys, op)))
            && (r.Running? ==> Fares(w, op, r.value) && Extends(w, r.value))
  {
    var op, all := Remove(o, e, to), [Remove(o, e, to)] + rest;
    assert all[0] == op && OpOk(w, all[0]);
    if o in w.cells {
      RemoveFromCell(w, o, e, to, rest);
    } else {
      CreatesNothing(w, w);
    }
  }

  lemma DestroyFares(w: World, o: Coord, c: CellId)
    requires TableOk(w) && w.current <= w.pool.Keys && c in w.pool && w.pool[c].at == o && c !in w.current
    ensures Fares(w, Destroy(o, c), ExecDestroy(w, o, c).value) && Extends(w, ExecDestroy(w, o, c).value)
    ensures !Bars(w, {})
  {
    var v := ExecDestroy(w, o, c).value;
    assert forall at :: !Touches(w, {}, at);
    assert v.cells.Keys == w.cells.Keys - {o};
    ExtendsItself(w, v);
  }

  lemma DestroyCreates(w: World, o: Coord, c: CellId, rest: seq<MapOp>)
    requires Core(w, [Destroy(o, c)] + rest)
    ensures var r := ExecDestroy(w, o, c); r.Running? && Fares(w, Destroy(o, c), r.value) && Extends(w, r.value)
    ensures !Bars(w, {})
  {
    DestroyedIsDoomed(w, o, c, rest);
    CurrentIsLive(w, [Destroy(o, c)] + rest);
    DestroyFares(w, o, c);
  }

  /** An operation stops iff a cell on cooldown is in the way of one that it names and that is not there;
      otherwise it creates those cells, and joins each to its neighbours. */
  lemma ExecCreates(w: World, op: MapOp, rest: seq<MapOp>)
    requires Core(w, [op] + rest) && Vacated(w, [op] + rest)
    ensures Exec(w, op).Stopped? <==> Bars(w, Named(w, w.cells.Keys, op))
    ensures Exec(w, op).Running? ==> Fares(w, op, Exec(w, op).value) && Extends(w, Exec(w, op).value)
  {
    match op
    case Add(o, e, from) => AddCreates(w, o, e, from, rest);
    case Remove(o, e, to) => RemoveCreates(w, o, e, to, rest);
    case Destroy(o, c) => DestroyCreates(w, o, c, rest);
  }

  // ---------- The whole queue ----------

  lemma {:induction false} ExecAllExtends(w: World, ops: seq<MapOp>)
    requires Core(w, ops) && Vacated(w, ops) && ExecAll(w, ops).Running?
    ensures Extends(w, ExecAll(w, ops).value)
    decreases |ops|
  {
    if ops == [] {
      ExtendsItself(w, w);
    } else {
      assert ops == [ops[0]] + ops[1..];
      ExecAllStep(w, ops);
      var v := OneExecuted(w, ops[0], ops[1..]);
      assert Extends(w, v) by { ExecCreates(w, ops[0], ops[1..]); }
      ExecAllExtends(v, ops[1..]);
      ExtendsBoth(w, v, ExecAll(v, ops[1..]).value);
    }
  }

  /** The offsets that have a cell when the first i operations of a queue are done. */
  function KnownAt(w: World, ops: seq<MapOp>, i: nat): set<Coord>
    requires i <= |ops|
  {
    if i == 0 then w.cells.Keys else Next(w, KnownAt(w, ops, i - 1), ops[i - 1])
  }

  /** The operation at position i names an offset that has no cell, next to a cell whose DESTROY is still behind. */
  ghost predicate Collides(w: World, ops: seq<MapOp>, i: nat)
    requires i < |ops|
  {
    exists x, j :: i < j < |ops| && ops[j].Destroy? && x in Named(w, KnownAt(w, ops, i), ops[i])
                   && x !in KnownAt(w, ops, i) && Near(x, ops[j].at)
  }

  /** `u` is the world at position i of the queue, as far as the cells it names are concerned. */
  ghost predicate Reaches(w: World, ops: seq<MapOp>, i: nat, u: World)
    requires i <= |ops|
  {
    && Core(u, ops[i..]) && Vacated(u, ops[i..])
    && u.cells.Keys == KnownAt(w, ops, i) && u.updaters == w.updaters
    && forall k :: i <= k < |ops| ==> PlaceOf(u, Pointee(ops[k])) == PlaceOf(w, Pointee(ops[k]))
  }

  lemma NamedThere(w: World, u: World, known: set<Coord>, op: MapOp)
    requires u.updaters == w.updaters && PlaceOf(u, Pointee(op)) == PlaceOf(w, Pointee(op))
    ensures Named(u, known, op) == Named(w, known, op)
  {
    match op
    case Add(o, e, from) => assert Circle(u, o, e) == Circle(w, o, e);
    case Remove(_, _, _) =>
    case Destroy(_, _) =>
  }

  lemma CollisionBars(w: World, ops: seq<MapOp>, i: nat, u: World)
    requires i < |ops| && Reaches(w, ops, i, u) && Collides(w, ops, i)
    ensures Bars(u, Named(u, u.cells.Keys, ops[i]))
  {
    var rest := ops[i..];
    var xs := Named(u, u.cells.Keys, ops[i]);
    NamedThere(w, u, u.cells.Keys, ops[i]);
    var x, j :| i < j < |ops| && ops[j].Destroy? && x in xs && x !in KnownAt(w, ops, i) && Near(x, ops[j].at);
    assert rest[j - i] == ops[j] && OpOk(u, rest[j - i]);
    var d := ops[j].cell;
    assert Doomed(rest, d);
    assert Touches(u, xs, u.pool[d].at);
  }

  lemma BarredCollides(w: World, ops: seq<MapOp>, i: nat, u: World)
    requires i < |ops| && Reaches(w, ops, i, u) && Bars(u, Named(u, u.cells.Keys, ops[i]))
    ensures Collides(w, ops, i)
  {
    var rest := ops[i..];
    var xs := Named(u, u.cells.Keys, ops[i]);
    NamedThere(w, u, u.cells.Keys, ops[i]);
    var d :| d in u.pool && u.pool[d].cooldown && Touches(u, xs, u.pool[d].at);
    assert Doomed(rest, d);
    var k :| 0 <= k < |rest| && rest[k].Destroy? && rest[k].cell == d;
    assert rest[k] == ops[i + k] && OpOk(u, rest[k]);
    var x :| x in xs && x !in u.cells && Near(x, u.pool[d].at);
    assert k != 0;
  }

  lemma ReachesNext(w: World, ops: seq<MapOp>, i: nat, u: World)
    requires i < |ops| && Reaches(w, ops, i, u) && Exec(u, ops[i]).Running?
    ensures Reaches(w, ops, i + 1, Exec(u, ops[i]).value)
  {
    var op, rest, v := ops[i], ops[i + 1..], Exec(u, ops[i]).value;
    assert ops[i..] == [op] + rest;
    ExecKeepsCore(u, op, rest);
    ExecCreates(u, op, rest);
    NamedThere(w, u, u.cells.Keys, op);
    forall k | i + 1 <= k < |ops|
      ensures PlaceOf(v, Pointee(ops[k])) == PlaceOf(w, Pointee(ops[k]))
    {
      assert ops[k] == rest[k - i - 1] && OpOk(v, rest[k - i - 1]);
      assert ops[k] == ops[i..][k - i] && OpOk(u, ops[i..][k - i]);
      PlaceFaresOn(u, v, Pointee(ops[k]));
    }
  }

  /** The queue stops iff one of its operations collides with a DESTROY behind it. */
  lemma {:induction false} ExecAllStopsIff(w: World, ops: seq<MapOp>, i: nat, u: World)
    requires i <= |ops| && Reaches(w, ops, i, u)
    ensures ExecAll(u, ops[i..]).Stopped? <==> exists k :: i <= k < |ops| && Collides(w, ops, k)
    decreases |ops| - i
  {
    if i < |ops| {
      OneStopsIff(w, ops, i, u);
      if Exec(u, ops[i]).Running? {
        var v := Exec(u, ops[i]).value;
        ReachesNext(w, ops, i, u);
        ExecAllStopsIff(w, ops, i + 1, v);
      }
    }
  }

  lemma OneStopsIff(w: World, ops: seq<MapOp>, i: nat, u: World)
    requires i < |ops| && Reaches(w, ops, i, u)
    ensures Exec(u, ops[i]).Stopped? <==> Collides(w, ops, i)
    ensures ExecAll(u, ops[i..])
         == var r := Exec(u, ops[i]); if r.Running? then ExecAll(r.value, ops[i + 1..]) else r
  {
    var rest := ops[i..];
    assert rest[0] == ops[i] && rest[1..] == ops[i + 1..];
    assert rest == [ops[i]] + ops[i + 1..];
    if Collides(w, ops, i) {
      CollisionBars(w, ops, i, u);
    }
    if Bars(u, Named(u, u.cells.Keys, ops[i])) {
      BarredCollides(w, ops, i, u);
    }
    ExecCreates(u, ops[i], ops[i + 1..]);
  }
}
