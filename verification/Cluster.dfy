/** The class Cluster: its sets and its graph are updated in place, cell by cell and edge by edge,
    and each method is proved against the description of the whole step in World. */
module Clusters {
  import opened Hex
  import opened World
  import opened Ticks
  import opened MapFields
  import opened Rings
  import opened Components

  /** The effect of stall touches of `s`, and of the edges `l` they connect. */
  ghost function StallTouch(w: World, s: set<CellId>, l: set<(CellId, CellId)>): World {
    w.(current := w.current + s, links := w.links + l)
  }

  /** The edges of the graph, by cell instead of by vertex number. */
  ghost function LinksOf(vertices: map<CellId, int>, edges: seq<(int, int)>): set<(CellId, CellId)> {
    set a, b | a in vertices && b in vertices && (vertices[a], vertices[b]) in edges :: (a, b)
  }

  /** The vertices are numbered one-to-one from 0 up to the size of the graph. */
  ghost predicate NumberedBy(vertices: map<CellId, int>, size: nat, edges: seq<(int, int)>) {
    && size == |vertices| && Within(edges, size)
    && (forall a :: a in vertices ==> 0 <= vertices[a] < size)
    && (forall i :: 0 <= i < size ==> i in vertices.Values)
    && (forall a, b :: a in vertices && b in vertices && vertices[a] == vertices[b] ==> a == b)
  }

  ghost predicate Linked(vertices: map<CellId, int>, edges: seq<(int, int)>, a: CellId, b: CellId) {
    a in vertices && b in vertices && (vertices[a], vertices[b]) in edges
  }

  lemma LinksAreLinked(vertices: map<CellId, int>, edges: seq<(int, int)>)
    ensures forall a: CellId, b: CellId :: (a, b) in LinksOf(vertices, edges) <==> Linked(vertices, edges, a, b)
  {
  }

  lemma NewVertexLinks(vertices: map<CellId, int>, size: nat, edges: seq<(int, int)>, c: CellId)
    requires Within(edges, size) && c !in vertices
    ensures LinksOf(vertices[c := size], edges) == LinksOf(vertices, edges)
  {
    var v := vertices[c := size];
    forall a: CellId, b: CellId
      ensures Linked(v, edges, a, b) == Linked(vertices, edges, a, b)
    {
      if a in v && b in v && (v[a], v[b]) in edges {
        assert (v[a], v[b]).0 < size && (v[a], v[b]).1 < size;
      }
    }
    LinksAreLinked(v, edges);
    LinksAreLinked(vertices, edges);
    forall l
      ensures l in LinksOf(v, edges) <==> l in LinksOf(vertices, edges)
    {
      assert l == (l.0, l.1);
      assert Linked(v, edges, l.0, l.1) == Linked(vertices, edges, l.0, l.1);
    }
  }

  lemma NewVertex(vertices: map<CellId, int>, size: nat, edges: seq<(int, int)>, c: CellId)
    requires NumberedBy(vertices, size, edges) && c !in vertices
    ensures NumberedBy(vertices[c := size], size + 1, edges)
  {
    var v := vertices[c := size];
    assert |v| == |vertices| + 1;
    forall i | 0 <= i < size + 1
      ensures i in v.Values
    {
      if i == size {
        assert v[c] == size;
      } else {
        assert i in vertices.Values;
        var a :| a in vertices && vertices[a] == i;
        assert v[a] == i;
      }
    }
  }

  lemma NewEdge(vertices: map<CellId, int>, size: nat, edges: seq<(int, int)>, a: CellId, b: CellId)
    requires NumberedBy(vertices, size, edges) && a in vertices && b in vertices
    ensures NumberedBy(vertices, size, edges + [(vertices[a], vertices[b])])
  {
  }

  lemma NewEdgeLinks(vertices: map<CellId, int>, edges: seq<(int, int)>, a: CellId, b: CellId)
    requires a in vertices && b in vertices
    requires forall x, y :: x in vertices && y in vertices && vertices[x] == vertices[y] ==> x == y
    ensures LinksOf(vertices, edges + [(vertices[a], vertices[b])]) == LinksOf(vertices, edges) + {(a, b)}
  {
    var more := edges + [(vertices[a], vertices[b])];
    assert forall e :: e in more <==> e in edges || e == (vertices[a], vertices[b]);
    LinksAreLinked(vertices, edges);
    LinksAreLinked(vertices, more);
    forall l
      ensures l in LinksOf(vertices, more) <==> l in LinksOf(vertices, edges) + {(a, b)}
    {
      assert l == (l.0, l.1);
      assert Linked(vertices, more, l.0, l.1) <==> Linked(vertices, edges, l.0, l.1) || (l.0 == a && l.1 == b);
    }
  }

  /** Buckets beyond the last component are empty, and no cell is in two buckets, or in one twice. */
  ghost predicate SortedInto(buckets: map<int, seq<CellId>>, n: nat) {
    && (forall k :: k in buckets && buckets[k] != [] ==> 0 <= k < n)
    && (forall k :: k in buckets ==> Distinct(buckets[k]))
    && (forall j, k, c :: j in buckets && k in buckets && c in buckets[j] && c in buckets[k] ==> j == k)
  }

  ghost function CellsOf(buckets: map<int, seq<CellId>>): set<CellId> {
    set k, c | k in buckets && c in buckets[k] :: c
  }

  /** A registered cell is in _stallCells, and never on cooldown as well. */
  ghost predicate FlagsAgree(w: World) {
    forall c :: c in w.pool && w.pool[c].registered ==> c in w.stall && !w.pool[c].cooldown
  }

  class Cluster {
    const grid: MapData

    var verticesBuffer1: set<CellId>
    var verticesBuffer2: set<CellId>
    var currentIsFirst: bool
    var stallCells: set<CellId>
    var vertices: map<CellId, int>
    var graphSize: nat
    var edges: seq<(int, int)>
    var keepers: seq<EntityId>
    var scheduled: seq<KeepOp>
    var cellsByCluster: map<int, seq<CellId>>
    var numComponents: nat

    /** *_currentCells */
    function Current(): set<CellId>
      reads this
    {
      if currentIsFirst then verticesBuffer1 else verticesBuffer2
    }

    /** *_oldCells */
    function Previous(): set<CellId>
      reads this
    {
      if currentIsFirst then verticesBuffer2 else verticesBuffer1
    }

    ghost function Snapshot(): World
      reads this, grid
    {
      World(grid.alloc, grid.births, grid.updaters, grid.clients, grid.pool, grid.cells, grid.place, grid.ops,
            scheduled, keepers, Current(), Previous(), stallCells, CellsOf(cellsByCluster), LinksOf(vertices, edges))
    }

    ghost predicate Valid()
      reads this, grid
    {
      && grid.Valid()
      && vertices.Keys == Current() && NumberedBy(vertices, graphSize, edges)
      && SortedInto(cellsByCluster, numComponents)
      && FlagsAgree(Snapshot())
    }

    constructor (grid: MapData)
      requires grid.Valid() && grid.pool == map[]
      ensures Valid() && this.grid == grid
      ensures Snapshot() == EmptyWorld(grid.alloc, grid.updaters, grid.clients).(births := grid.births,
                cells := grid.cells, place := grid.place, ops := grid.ops)
    {
      this.grid := grid;
      verticesBuffer1, verticesBuffer2, currentIsFirst := {}, {}, true;
      stallCells, vertices, graphSize, edges := {}, map[], 0, [];
      keepers, scheduled := [], [];
      cellsByCluster, numComponents := map[], 0;
    }

    // ---------- touch ----------

    /** _currentCells->insert(cell) and boost::add_vertex: the edges stay as they are. */
    method AddVertex(c: CellId)
      requires Valid() && c !in Current()
      modifies this
      ensures Valid() && Snapshot() == old(Snapshot()).(current := old(Current()) + {c})
    {
      NewVertex(vertices, graphSize, edges, c);
      NewVertexLinks(vertices, graphSize, edges, c);
      ghost var w := Snapshot();
      if currentIsFirst {
        verticesBuffer1 := verticesBuffer1 + {c};
      } else {
        verticesBuffer2 := verticesBuffer2 + {c};
      }
      vertices := vertices[c := graphSize];
      graphSize := graphSize + 1;
      assert Snapshot() == w.(current := w.current + {c});
    }

    /** The insertion half of touch: whether the cell may be connected. */
    method Insert(c: CellId) returns (result: bool)
      requires Valid() && c in grid.pool
      modifies this
      ensures Valid() && (result <==> !grid.pool[c].cooldown)
      ensures Snapshot() == StallTouch(old(Snapshot()), if grid.pool[c].cooldown then {} else {c}, {})
    {
      result := !grid.pool[c].cooldown;
      StallTouchOne(Snapshot(), c);
      if result && c !in Current() {
        AddVertex(c);
      }
    }

    /** Cluster::touch. The only way to fail is its LOG_ASSERT. */
    method Touch(c: CellId, isStall: bool) returns (fault: Option<Fault>, result: bool)
      requires Valid() && c in grid.pool
      modifies this, grid
      ensures !isStall && old(grid.pool[c].cooldown) ==> fault == Some(TouchedCooldown)
      ensures isStall || !old(grid.pool[c].cooldown) ==>
                fault == None && Valid() && (result <==> !old(grid.pool[c].cooldown))
      ensures !isStall && !old(grid.pool[c].cooldown) ==> Snapshot() == Watch(old(Snapshot()), {c}, {})
      ensures isStall ==>
                Snapshot() == StallTouch(old(Snapshot()), if old(grid.pool[c].cooldown) then {} else {c}, {})
    {
      ghost var w := Snapshot();
      fault, result := None, false;
      if !isStall && grid.pool[c].cooldown {
        return Some(TouchedCooldown), false;
      }
      result := Insert(c);
      if !isStall {
        Unregister(c);
        assert Watch(w, {c}, {}) == Snapshot() by {
          WatchOne(w, c);
        }
      }
    }

    /** The second half of touch, for a cell that is not on cooldown. */
    method Unregister(c: CellId)
      requires Valid() && c in grid.pool && !grid.pool[c].cooldown
      modifies this, grid
      ensures Valid()
      ensures Snapshot() == old(Snapshot()).(
                pool := old(grid.pool)[c := old(grid.pool)[c].(registered := false)],
                stall := old(stallCells) - (if old(grid.pool)[c].registered then {c} else {}))
    {
      ghost var w := Snapshot();
      if grid.pool[c].registered || grid.pool[c].cooldown {
        grid.pool := grid.pool[c := grid.pool[c].(registered := false, cooldown := false)];
        stallCells := stallCells - {c};
      } else {
        assert w.pool[c := w.pool[c].(registered := false)] == w.pool;
      }
    }

    /** Cluster::connect. Its two LOG_ASSERTs are the precondition. */
    method Connect(a: CellId, b: CellId)
      requires Valid() && a in vertices && b in vertices
      modifies this
      ensures Valid() && vertices == old(vertices)
      ensures Snapshot() == old(Snapshot()).(links := old(Snapshot()).links + {(a, b)})
    {
      NewEdge(vertices, graphSize, edges, a, b);
      NewEdgeLinks(vertices, edges, a, b);
      edges := edges + [(vertices[a], vertices[b])];
    }

    // ---------- touchWithNeighbours ----------

    /** cell->inRadius(1): the live cells of the closed ball. */
    method Surroundings(c: CellId) returns (ring: seq<Option<CellId>>)
      requires Valid() && c in grid.pool
      ensures forall n :: Some(n) in ring <==> n in Ball(Snapshot(), c)
    {
      ring := InRadius(grid.cells, grid.pool[c].at, 1);
      ghost var offsets :| LookedUp(grid.cells, offsets, ring) && IsBall(grid.pool[c].at, 1, offsets);
      ghost var w := Snapshot();
      forall n
        ensures Some(n) in ring <==> n in Ball(w, c)
      {
        if n in Ball(w, c) {
          NearIsDistanceOne(w.pool[n].at, w.pool[c].at);
          assert w.pool[n].at in offsets;
          var i :| 0 <= i < |offsets| && offsets[i] == w.pool[n].at;
          assert ring[i] == Some(n);
        }
        if Some(n) in ring {
          var i :| 0 <= i < |ring| && ring[i] == Some(n);
          assert offsets[i] in offsets;
          NearIsDistanceOne(offsets[i], w.pool[c].at);
        }
      }
    }

    /** One step of the loop over the surroundings: touch, then connect. */
    method TouchAndConnect(c: CellId, n: CellId, ghost w: World, ghost s: set<CellId>, ghost l: set<(CellId, CellId)>)
      returns (fault: Option<Fault>)
      requires Valid() && Snapshot() == Watch(w, s, l) && c in s && n in w.pool
      modifies this, grid
      ensures w.pool[n].cooldown ==> fault == Some(TouchedCooldown)
      ensures !w.pool[n].cooldown ==> fault == None && Valid() && Snapshot() == Watch(w, s + {n}, l + {(c, n)})
    {
      var connectable;
      fault, connectable := Touch(n, false);
      if fault == None {
        WatchVertex(w, s, l, n);
        assert c in Current() && n in Current();
        Connect(c, n);
        WatchMore(w, s + {n}, l, (c, n));
      }
    }

    /** The body of that loop. */
    method TouchNext(c: CellId, found: Option<CellId>, ghost w: World, ghost before: seq<Option<CellId>>)
      returns (fault: Option<Fault>)
      requires Valid() && Snapshot() == Watch(w, TouchedBy(w, c, before), SpokesTo(w, c, before))
      requires c in w.pool && !w.pool[c].cooldown && (found.Some? ==> found.value in w.pool)
      modifies this, grid
      ensures found.Some? && w.pool[found.value].cooldown ==> fault == Some(TouchedCooldown)
      ensures !(found.Some? && w.pool[found.value].cooldown) ==>
                fault == None && Valid()
                && Snapshot() == Watch(w, TouchedBy(w, c, before + [found]), SpokesTo(w, c, before + [found]))
    {
      TouchedStep(w, c, before, found);
      fault := None;
      if found.Some? && found.value != c {
        fault := TouchAndConnect(c, found.value, w, TouchedBy(w, c, before), SpokesTo(w, c, before));
      }
    }

    ghost predicate TouchedUpTo(w: World, c: CellId, ring: seq<Option<CellId>>, i: nat)
      reads this, grid
    {
      && Valid() && i <= |ring| && (forall n :: Some(n) in ring ==> n in w.pool)
      && Snapshot() == Watch(w, TouchedBy(w, c, ring[..i]), SpokesTo(w, c, ring[..i]))
      && !CooldownIn(w, ring[..i])
    }

    method TouchAt(c: CellId, ring: seq<Option<CellId>>, i: nat, ghost w: World) returns (fault: Option<Fault>)
      requires TouchedUpTo(w, c, ring, i) && i < |ring| && c in w.pool && !w.pool[c].cooldown
      modifies this, grid
      ensures fault.Some? ==> fault.value == TouchedCooldown && CooldownIn(w, ring)
      ensures fault.None? ==> TouchedUpTo(w, c, ring, i + 1)
    {
      NextFound(w, ring, i);
      fault := TouchNext(c, ring[i], w, ring[..i]);
    }

    lemma TouchedFromStart(w: World, c: CellId, ring: seq<Option<CellId>>)
      requires Valid() && Snapshot() == Watch(w, {c}, {})
      requires forall n :: Some(n) in ring ==> n in w.pool
      ensures TouchedUpTo(w, c, ring, 0)
    {
      TouchedNone(w, c);
    }

    lemma TouchedToEnd(w: World, c: CellId, ring: seq<Option<CellId>>)
      requires TouchedUpTo(w, c, ring, |ring|)
      ensures Snapshot() == Watch(w, TouchedBy(w, c, ring), SpokesTo(w, c, ring)) && !CooldownIn(w, ring)
    {
      assert ring[..|ring|] == ring;
    }

    /** The loop of touchWithNeighbours(cell, false), after the centre is touched. */
    method TouchRing(c: CellId, ring: seq<Option<CellId>>, ghost w: World) returns (fault: Option<Fault>)
      requires Valid() && Snapshot() == Watch(w, {c}, {})
      requires c in w.pool && !w.pool[c].cooldown && forall n :: Some(n) in ring ==> n in w.pool
      modifies this, grid
      ensures fault == if CooldownIn(w, ring) then Some(TouchedCooldown) else None
      ensures fault == None ==> Valid() && Snapshot() == Watch(w, TouchedBy(w, c, ring), SpokesTo(w, c, ring))
    {
      fault := None;
      TouchedFromStart(w, c, ring);
      var i := 0;
      while fault.None? && i < |ring|
        invariant i <= |ring|
        invariant fault.None? ==> TouchedUpTo(w, c, ring, i)
        invariant fault.Some? ==> fault.value == TouchedCooldown && CooldownIn(w, ring)
      {
        fault := TouchAt(c, ring, i, w);
        i := i + 1;
      }
      if fault.None? {
        TouchedToEnd(w, c, ring);
      }
    }

    /** touchWithNeighbours(cell, false) stops iff a cell of the ball is on cooldown. */
    method TouchWithNeighbours(c: CellId) returns (fault: Option<Fault>)
      requires Valid()
      modifies this, grid
      ensures match TouchWatched(old(Snapshot()), c)
              case Running(v) => fault == None && Valid() && Snapshot() == v
              case Stopped(f) => fault == Some(f)
    {
      ghost var w := Snapshot();
      if c !in grid.pool {
        return Some(Dangling);
      }
      TouchWatchedIsWatch(w, c);
      var first;
      fault, first := Touch(c, false);
      assert c in Ball(w, c);
      if fault == None {
        BallUnderWatch(w, {c}, {}, c);
        var ring := Surroundings(c);
        fault := TouchRing(c, ring, w);
        TouchedAll(w, c, ring);
      }
    }

    // ---------- touchWithNeighbours for a stall cell ----------

    /** touch(neighbour, true), then connect unless the neighbour is on cooldown. */
    method StallAndConnect(c: CellId, n: CellId, ghost w: World, ghost s: set<CellId>, ghost l: set<(CellId, CellId)>)
      requires Valid() && Snapshot() == StallTouch(w, s, l) && c in s && n in w.pool
      modifies this, grid
      ensures Valid()
      ensures Snapshot() == if w.pool[n].cooldown then StallTouch(w, s, l) else StallTouch(w, s + {n}, l + {(c, n)})
    {
      var fault, connectable := Touch(n, true);
      StallTouchMore(w, s, l, if w.pool[n].cooldown then {} else {n}, {});
      if connectable {
        assert c in Current() && n in Current();
        Connect(c, n);
        StallTouchMore(w, s + {n}, l, {}, {(c, n)});
      }
    }

    /** One step of the loop over the surroundings. */
    method StallNext(c: CellId, found: Option<CellId>, ghost w: World, ghost before: seq<Option<CellId>>)
      requires Valid() && Snapshot() == StallTouch(w, StalledBy(w, c, before), StallSpokesTo(w, c, before))
      requires c in w.pool && (found.Some? ==> found.value in w.pool)
      modifies this, grid
      ensures Valid()
      ensures Snapshot() == StallTouch(w, StalledBy(w, c, before + [found]), StallSpokesTo(w, c, before + [found]))
    {
      StalledStep(w, c, before, found);
      if found.Some? && found.value != c {
        StallAndConnect(c, found.value, w, StalledBy(w, c, before), StallSpokesTo(w, c, before));
      }
    }

    ghost predicate StalledUpTo(w: World, c: CellId, ring: seq<Option<CellId>>, i: nat)
      reads this, grid
    {
      && Valid() && i <= |ring| && c in w.pool && (forall n :: Some(n) in ring ==> n in w.pool)
      && Snapshot() == StallTouch(w, StalledBy(w, c, ring[..i]), StallSpokesTo(w, c, ring[..i]))
    }

    method StallAt(c: CellId, ring: seq<Option<CellId>>, i: nat, ghost w: World)
      requires StalledUpTo(w, c, ring, i) && i < |ring|
      modifies this, grid
      ensures StalledUpTo(w, c, ring, i + 1)
    {
      NextFound(w, ring, i);
      StallNext(c, ring[i], w, ring[..i]);
    }

    lemma StalledFromStart(w: World, c: CellId, ring: seq<Option<CellId>>)
      requires Valid() && Snapshot() == StallTouch(w, {c}, {})
      requires c in w.pool && forall n :: Some(n) in ring ==> n in w.pool
      ensures StalledUpTo(w, c, ring, 0)
    {
      StalledNone(w, c);
    }

    lemma StalledToEnd(w: World, c: CellId, ring: seq<Option<CellId>>)
      requires StalledUpTo(w, c, ring, |ring|)
      ensures Snapshot() == StallTouch(w, StalledBy(w, c, ring), StallSpokesTo(w, c, ring))
    {
      assert ring[..|ring|] == ring;
    }

    /** The loop of touchWithNeighbours(cell, true), after the centre is touched. */
    method StallRing(c: CellId, ring: seq<Option<CellId>>, ghost w: World)
      requires Valid() && Snapshot() == StallTouch(w, {c}, {})
      requires c in w.pool && forall n :: Some(n) in ring ==> n in w.pool
      modifies this, grid
      ensures Valid() && Snapshot() == StallTouch(w, StalledBy(w, c, ring), StallSpokesTo(w, c, ring))
    {
      StalledFromStart(w, c, ring);
      var i := 0;
      while i < |ring|
        invariant i <= |ring| && StalledUpTo(w, c, ring, i)
      {
        StallAt(c, ring, i, w);
        i := i + 1;
      }
      StalledToEnd(w, c, ring);
    }

    /** touchWithNeighbours(cell, true) never stops: it skips the cells on cooldown. */
    method TouchStall(c: CellId) returns (inserted: bool)
      requires Valid() && c in grid.pool
      modifies this, grid
      ensures Valid() && (inserted <==> !old(grid.pool[c].cooldown))
      ensures inserted ==>
                Snapshot() == StallTouch(old(Snapshot()), OpenBall(old(Snapshot()), c), OpenSpokes(old(Snapshot()), c))
      ensures !inserted ==> Snapshot() == old(Snapshot())
    {
      ghost var w := Snapshot();
      var fault;
      fault, inserted := Touch(c, true);
      if inserted {
        var ring := Surroundings(c);
        assert forall n :: n in Ball(Snapshot(), c) <==> n in Ball(w, c);
        StallRing(c, ring, w);
        StalledAll(w, c, ring);
      } else {
        StallTouchNothing(w);
      }
    }

    // ---------- checkStall, add, remove ----------

    /** Cluster::checkStall */
    method CheckStallOf(from: Option<CellId>, to: CellId) returns (fault: Option<Fault>)
      requires Valid() && to in grid.pool
      modifies this, grid
      ensures match CheckStall(old(Snapshot()), from, to)
              case Running(v) => fault == None && Valid() && Snapshot() == v
              case Stopped(f) => fault == Some(f)
      ensures fault == None ==>
                && to in grid.pool
                && (grid.pool[to].registered <==>
                      old(grid.pool)[to].registered
                      && (from.Some? && from.value in old(grid.pool) && !old(grid.pool)[to].cooldown ==>
                            old(grid.pool)[from.value].registered || old(grid.pool)[from.value].cooldown))
    {
      fault := None;
      if from.None? || !grid.pool[to].registered || grid.pool[to].cooldown {
        return;
      }
      if from.value !in grid.pool {
        return Some(Dangling);
      }
      if !grid.pool[from.value].registered && !grid.pool[from.value].cooldown {
        grid.pool := grid.pool[to := grid.pool[to].(registered := false, cooldown := false)];
        stallCells := stallCells - {to};
      }
    }

    /** Cluster::add and Cluster::remove */
    method Schedule(op: KeepOp)
      requires Valid()
      modifies this
      ensures Valid() && Snapshot() == QueueKeep(old(Snapshot()), op)
    {
      if op.who in grid.updaters {
        scheduled := scheduled + [op];
      }
    }

    // ---------- runScheduledOperations ----------

    /** The KEEP and UNKEEP queue, in order. */
    method DrainKeepers() returns (fault: Option<Fault>)
      requires Valid()
      modifies this
      ensures match KeepAll(old(keepers), old(scheduled))
              case Running(ks) =>
                fault == None && Valid() && Snapshot() == old(Snapshot()).(keepers := ks, keepOps := [])
              case Stopped(f) => fault == Some(f)
    {
      fault := None;
      ghost var w := Snapshot();
      while scheduled != []
        invariant Valid() && fault == None
        invariant Snapshot() == w.(keepers := keepers, keepOps := scheduled)
        invariant KeepAll(keepers, scheduled) == KeepAll(old(keepers), old(scheduled))
        decreases |scheduled|
      {
        var op := scheduled[0];
        scheduled := scheduled[1..];
        match op
        case Keep(e) =>
          keepers := keepers + [e];
        case Unkeep(e) =>
          if e !in keepers {
            return Some(EraseMissing);
          }
          keepers := Without(keepers, e);
      }
    }

    /** The loop that flags the surroundings of every keeper. */
    method TouchKeeperCells() returns (fault: Option<Fault>)
      requires Valid()
      modifies this, grid
      ensures match TouchKeepers(old(Snapshot()), old(keepers))
              case Running(v) => fault == None && Valid() && Snapshot() == v
              case Stopped(f) => fault == Some(f)
    {
      fault := None;
      var rest := keepers;
      while rest != []
        invariant Valid() && fault == None
        invariant TouchKeepers(Snapshot(), rest) == TouchKeepers(old(Snapshot()), old(keepers))
        decreases |rest|
      {
        var e := rest[0];
        rest := rest[1..];
        if e !in grid.place {
          return Some(Dangling);
        }
        fault := TouchWithNeighbours(grid.place[e]);
        if fault.Some? {
          return;
        }
      }
    }

    /** One candidate of _oldCells. */
    method EnlistNext(c: CellId, ghost w: World, ghost done: set<CellId>) returns (fault: Option<Fault>)
      requires Valid() && Snapshot() == EnlistPart(w, done) && c !in done
      modifies this, grid
      ensures c !in w.current && c !in w.stall && c !in w.pool ==> fault == Some(Dangling)
      ensures c in w.current || c in w.stall || c in w.pool ==>
                fault == None && Valid() && Snapshot() == EnlistPart(w, done + {c})
    {
      fault := None;
      EnlistStep(w, done, c);
      if c !in Current() && c !in stallCells {
        stallCells := stallCells + {c};
        if c !in grid.pool {
          return Some(Dangling);
        }
        grid.pool := grid.pool[c := grid.pool[c].(registered := true, cooldown := false, remaining := STALL_TIME)];
      }
    }

    ghost predicate EnlistedUpTo(w: World, done: set<CellId>)
      reads this, grid
    {
      Valid() && Snapshot() == EnlistPart(w, done) && done - w.current - w.stall <= w.pool.Keys
    }

    lemma EnlistFromStart(w: World)
      requires Valid() && w == Snapshot()
      ensures EnlistedUpTo(w, {})
    {
      EnlistNone(w);
    }

    /** One turn of the loop over _oldCells. */
    method EnlistAt(c: CellId, ghost w: World, ghost done: set<CellId>) returns (fault: Option<Fault>)
      requires EnlistedUpTo(w, done) && c in w.previous - done
      modifies this, grid
      ensures fault.None? ==> EnlistedUpTo(w, done + {c})
      ensures fault.Some? ==> fault.value == Dangling && !(w.previous - w.current - w.stall <= w.pool.Keys)
    {
      fault := EnlistNext(c, w, done);
      assert fault.Some? ==> c in w.previous - w.current - w.stall;
    }

    /** The loop over _oldCells: what nobody touched starts, or continues, its countdown. */
    method EnlistLost() returns (fault: Option<Fault>)
      requires Valid()
      modifies this, grid
      ensures match Enlist(old(Snapshot()))
              case Running(v) => fault == None && Valid() && Snapshot() == v
              case Stopped(f) => fault == Some(f)
      ensures fault == None ==>
                forall c :: c in stallCells && c !in old(stallCells) ==>
                  && c in grid.pool && grid.pool[c].registered && !grid.pool[c].cooldown
                  && grid.pool[c].remaining == 120000
    {
      fault := None;
      ghost var w := Snapshot();
      var todo := Previous();
      ghost var done: set<CellId> := {};
      EnlistFromStart(w);
      while fault.None? && todo != {}
        invariant done + todo == w.previous && done !! todo
        invariant fault.None? ==> EnlistedUpTo(w, done)
        invariant fault.Some? ==> fault.value == Dangling && !(w.previous - w.current - w.stall <= w.pool.Keys)
        decreases todo
      {
        var c :| c in todo;
        fault := EnlistAt(c, w, done);
        MoveOne(todo, done, w.previous, c);
        todo, done := todo - {c}, done + {c};
      }
      if fault.None? {
        assert done == w.previous;
        EnlistAll(w);
      }
    }

    // ---------- processStallCells ----------

    /** One stall cell: updated once more, or handed to Map::destroyCell and erased. */
    method ProcessNext(c: CellId, ghost w: World, ghost done: set<CellId>, ghost order: seq<CellId>)
      returns (ghost order': seq<CellId>)
      requires Valid() && c in w.stall && c !in done && c in w.pool
      requires ExpiredAmong(w, done, order) && Snapshot() == StallPart(w, done, order)
      modifies this, grid
      ensures Valid()
      ensures ExpiredAmong(w, done + {c}, order') && Snapshot() == StallPart(w, done + {c}, order')
    {
      StallPartStep(w, done, order, c);
      order' := order;
      if !grid.pool[c].cooldown {
        var _ := TouchStall(c);
      } else {
        order' := order + [c];
        grid.ops := grid.ops + [Destroy(grid.pool[c].at, c)];
        stallCells := stallCells - {c};
      }
    }

    /** Cluster::processStallCells; `order` is the order in which the expired cells were met. */
    method ProcessStallCells() returns (fault: Option<Fault>, ghost order: seq<CellId>)
      requires Valid()
      modifies this, grid
      ensures fault == if old(stallCells) <= old(grid.pool).Keys then None else Some(Dangling)
      ensures fault == None ==>
                && Valid() && Enumerates(order, Expired(old(Snapshot())))
                && ProcessStall(old(Snapshot()), order) == Running(Snapshot())
    {
      ghost var w := Snapshot();
      fault, order := None, [];
      var todo := stallCells;
      ghost var done: set<CellId> := {};
      StallPartNone(w);
      while todo != {}
        invariant Valid() && fault == None && done + todo == w.stall && done !! todo && done <= w.pool.Keys
        invariant ExpiredAmong(w, done, order) && Snapshot() == StallPart(w, done, order)
        decreases todo
      {
        var c :| c in todo;
        if c !in grid.pool {
          return Some(Dangling), order;
        }
        order := ProcessNext(c, w, done, order);
        MoveOne(todo, done, w.stall, c);
        todo, done := todo - {c}, done + {c};
      }
      assert done == w.stall;
      StallPartAll(w, order);
    }

    /** Cluster::runScheduledOperations: the keeper queue, the keepers' surroundings, the lost cells and
        the stall cells. */
    method RunScheduledOperations() returns (fault: Option<Fault>, ghost order: seq<CellId>)
      requires Valid()
      modifies this, grid
      ensures match Regroup(old(Snapshot()))
              case Running(v) => fault == if v.stall <= v.pool.Keys then None else Some(Dangling)
              case Stopped(f) => fault == Some(f)
      ensures fault == None ==>
                && Valid() && Enumerates(order, Expired(Regroup(old(Snapshot())).value))
                && ProcessStall(Regroup(old(Snapshot())).value, order) == Running(Snapshot())
    {
      order := [];
      fault := DrainKeepers();
      if fault == None {
        fault := TouchKeeperCells();
        if fault == None {
          fault := EnlistLost();
          if fault == None {
            fault, order := ProcessStallCells();
          }
        }
      }
    }

    // ---------- cleanup ----------

    /** One cell of a bucket: its countdown. */
    method CountDownCell(c: CellId, elapsed: nat, ghost w: World, ghost done: set<CellId>)
      requires Valid() && c in w.pool && c !in done && Snapshot() == CountedPart(w, elapsed, done)
      modifies grid
      ensures Valid() && Snapshot() == CountedPart(w, elapsed, done + {c})
    {
      ghost var v := CountedPart(w, elapsed, done);
      assert c in v.pool && v.pool[c] == w.pool[c];
      var cell := grid.pool[c];
      if cell.registered {
        if elapsed < cell.remaining {
          cell := cell.(remaining := cell.remaining - elapsed);
        } else {
          cell := cell.(cooldown := true, registered := false);
        }
      }
      assert cell == CountDown(w.pool[c], elapsed);
      SetCell(c, cell);
      CountedStep(w, elapsed, done, c);
    }

    /** A write to the flags of one cell. */
    method SetCell(c: CellId, cell: Cell)
      requires Valid() && c in grid.pool && cell.at == grid.pool[c].at
      requires cell.registered ==> c in stallCells && !cell.cooldown
      modifies grid
      ensures Valid() && Snapshot() == old(Snapshot()).(pool := old(grid.pool)[c := cell])
    {
      grid.pool := grid.pool[c := cell];
    }

    /** The cells of bucket `k`, in order. */
    method CountDownBucket(k: int, elapsed: nat, ghost w: World) returns (fault: Option<Fault>)
      requires Valid() && k in cellsByCluster && Snapshot() == CountedPart(w, elapsed, CellsBelow(cellsByCluster, k))
      modifies grid
      ensures fault == if SetOf(cellsByCluster[k]) <= w.pool.Keys then None else Some(Dangling)
      ensures fault == None ==> Valid() && Snapshot() == CountedPart(w, elapsed, CellsBelow(cellsByCluster, k + 1))
    {
      fault := None;
      var cells := cellsByCluster[k];
      ghost var done := CellsBelow(cellsByCluster, k);
      assert done + SetOf([]) == done;
      var i := 0;
      while i < |cells|
        invariant 0 <= i <= |cells| && Valid() && fault == None
        invariant done == CellsBelow(cellsByCluster, k) + SetOf(cells[..i])
        invariant Snapshot() == CountedPart(w, elapsed, done)
        invariant SetOf(cells[..i]) <= w.pool.Keys
      {
        if cells[i] !in grid.pool {
          assert cells[i] in SetOf(cells);
          return Some(Dangling);
        }
        NextInBucket(cellsByCluster, numComponents, k, i);
        CountDownCell(cells[i], elapsed, w, done);
        done := done + {cells[i]};
        i := i + 1;
      }
      assert cells[..i] == cells;
      BelowNext(cellsByCluster, k);
    }

    /** The countdown of every bucket. */
    method CountDownAll(elapsed: nat) returns (fault: Option<Fault>)
      requires Valid()
      modifies grid
      ensures fault == if old(CellsOf(cellsByCluster)) <= old(grid.pool).Keys then None else Some(Dangling)
      ensures fault == None ==>
                Valid() && Snapshot() == CountedPart(old(Snapshot()), elapsed, CellsOf(cellsByCluster))
    {
      fault := None;
      ghost var w := Snapshot();
      CountedNone(w, elapsed);
      NoneBelow(cellsByCluster, numComponents);
      var cid := 0;
      while cid < numComponents
        invariant 0 <= cid <= numComponents && Valid() && fault == None
        invariant Snapshot() == CountedPart(w, elapsed, CellsBelow(cellsByCluster, cid))
        invariant CellsBelow(cellsByCluster, cid) <= w.pool.Keys
      {
        fault := CountDownFrom(cid, elapsed, w);
        if fault.Some? {
          return;
        }
        cid := cid + 1;
      }
      AllBelow(cellsByCluster, numComponents);
    }

    /** Bucket `cid`, if there is one. */
    method CountDownFrom(cid: int, elapsed: nat, ghost w: World) returns (fault: Option<Fault>)
      requires Valid() && Snapshot() == CountedPart(w, elapsed, CellsBelow(cellsByCluster, cid))
      requires CellsBelow(cellsByCluster, cid) <= w.pool.Keys
      modifies grid
      ensures fault.Some? ==> fault == Some(Dangling) && !(CellsOf(cellsByCluster) <= w.pool.Keys)
      ensures fault == None ==>
                && Valid() && Snapshot() == CountedPart(w, elapsed, CellsBelow(cellsByCluster, cid + 1))
                && CellsBelow(cellsByCluster, cid + 1) <= w.pool.Keys
    {
      fault := None;
      BelowSkips(cellsByCluster, cid);
      if cid in cellsByCluster {
        BelowNext(cellsByCluster, cid);
        BucketIsInside(cellsByCluster, cid);
        fault := CountDownBucket(cid, elapsed, w);
      }
    }

    /** _graph = {}, _vertices.clear(), and the buckets. */
    method ClearGraph()
      requires Valid()
      modifies this`edges, this`graphSize, this`vertices, this`cellsByCluster, this`numComponents
      ensures vertices == map[] && edges == [] && graphSize == 0
      ensures SortedInto(cellsByCluster, numComponents) && CellsOf(cellsByCluster) == {} && numComponents == 0
    {
      edges, graphSize, vertices := [], 0, map[];
      ClearBuckets();
    }

    method ClearBuckets()
      requires SortedInto(cellsByCluster, numComponents)
      modifies this`cellsByCluster, this`numComponents
      ensures SortedInto(cellsByCluster, numComponents) && CellsOf(cellsByCluster) == {} && numComponents == 0
    {
      var cid := 0;
      while cid < numComponents
        invariant 0 <= cid <= numComponents
        invariant forall k :: k in cellsByCluster && cellsByCluster[k] != [] ==> cid <= k < numComponents
      {
        cellsByCluster := cellsByCluster[cid := []];
        cid := cid + 1;
      }
      numComponents := 0;
      assert forall k :: k in cellsByCluster ==> cellsByCluster[k] == [];
    }

    /** The exchange of the two buffers; what was _oldCells is emptied, and becomes _currentCells. */
    method SwapBuffers()
      requires vertices == map[]
      modifies this`currentIsFirst, this`verticesBuffer1, this`verticesBuffer2
      ensures Previous() == old(Current()) && Current() == {}
    {
      currentIsFirst := !currentIsFirst;
      if currentIsFirst {
        verticesBuffer1 := {};
      } else {
        verticesBuffer2 := {};
      }
    }

    /** Cluster::cleanup */
    method Cleanup(elapsed: nat) returns (fault: Option<Fault>)
      requires Valid()
      modifies this, grid
      ensures match ClusterCleanup(old(Snapshot()), elapsed)
              case Running(v) => fault == None && Valid() && Snapshot() == v
              case Stopped(f) => fault == Some(f)
    {
      fault := None;
      ghost var w := Snapshot();
      if vertices != map[] {
        CurrentIsSome(vertices);
        fault := CountDownAll(elapsed);
        if fault == None {
          assert Snapshot() == CountedPart(w, elapsed, w.bucketed);
          ClearGraph();
          SwapBuffers();
          EmptyGraph();
          assert Snapshot() == ClusterCleanup(w, elapsed).value;
        }
      } else {
        assert Current() == {};
        SwapBuffers();
        assert Snapshot() == w.(previous := w.current, current := {});
      }
    }

    // ---------- update ----------

    /** The loop that orders the cells by component. */
    method FillBuckets(component: seq<int>)
      requires CellsOf(cellsByCluster) == {}
      requires forall c :: c in vertices ==> 0 <= vertices[c] < |component|
      modifies this`cellsByCluster
      ensures Filled(cellsByCluster, vertices, component, vertices.Keys)
    {
      var todo := vertices.Keys;
      ghost var done: set<CellId> := {};
      EmptyFilled(cellsByCluster, vertices, component);
      while todo != {}
        invariant done + todo == vertices.Keys && done !! todo
        invariant Filled(cellsByCluster, vertices, component, done)
        decreases todo
      {
        var c :| c in todo;
        var cid := component[vertices[c]];
        FillOne(cellsByCluster, vertices, component, done, c);
        cellsByCluster := cellsByCluster[cid := Bucket(cid) + [c]];
        MoveOne(todo, done, vertices.Keys, c);
        todo, done := todo - {c}, done + {c};
      }
      assert done == vertices.Keys;
    }

    function Bucket(k: int): seq<CellId>
      reads this
    {
      BucketIn(cellsByCluster, k)
    }

    /** The grouping step of update. */
    method Group()
      requires NumberedBy(vertices, graphSize, edges) && CellsOf(cellsByCluster) == {}
      modifies this`numComponents, this`cellsByCluster
      ensures SortedInto(cellsByCluster, numComponents) && CellsOf(cellsByCluster) == vertices.Keys
      ensures forall a, b :: a in vertices && b in vertices ==>
                (SameBucket(cellsByCluster, a, b) <==> Connected(LinksOf(vertices, edges), a, b))
    {
      var component;
      numComponents, component := ConnectedComponents(graphSize, edges);
      FillBuckets(component);
      FilledIsSorted(cellsByCluster, vertices, component, numComponents);
      FilledIsPartition(cellsByCluster, vertices, edges, graphSize, component);
    }

    /** Cluster::update, which runs after cleanup has emptied the buckets: every vertex lands in exactly
        one bucket, two of them in the same one iff the graph connects them. */
    method Update()
      requires Valid() && CellsOf(cellsByCluster) == {}
      modifies this
      ensures Valid() && Snapshot() == old(Snapshot()).(bucketed := old(Current()))
      ensures Current() == old(Current()) && LinksOf(vertices, edges) == old(LinksOf(vertices, edges))
      ensures forall a, b :: a in Current() && b in Current() ==>
                (SameBucket(cellsByCluster, a, b) <==> Connected(LinksOf(vertices, edges), a, b))
    {
      if vertices != map[] {
        Group();
      } else {
        assert Current() == {};
      }
    }
  }

  lemma MoveOne(todo: set<CellId>, done: set<CellId>, all: set<CellId>, c: CellId)
    requires done + todo == all && done !! todo && c in todo
    ensures (done + {c}) + (todo - {c}) == all && (done + {c}) !! (todo - {c})
  {
  }

  ghost function StalledBy(w: World, c: CellId, ring: seq<Option<CellId>>): set<CellId> {
    {c} + (set n | n in w.pool && Some(n) in ring && !w.pool[n].cooldown)
  }

  ghost function StallSpokesTo(w: World, c: CellId, ring: seq<Option<CellId>>): set<(CellId, CellId)> {
    set n | n in w.pool && Some(n) in ring && n != c && !w.pool[n].cooldown :: (c, n)
  }

  /** The part of the ball of `c` that is not on cooldown. */
  ghost function OpenBall(w: World, c: CellId): set<CellId>
    requires c in w.pool
  {
    set n | n in Ball(w, c) && !w.pool[n].cooldown
  }

  ghost function OpenSpokes(w: World, c: CellId): set<(CellId, CellId)>
    requires c in w.pool
  {
    set n | n in Ball(w, c) && n != c && !w.pool[n].cooldown :: (c, n)
  }

  lemma StalledNone(w: World, c: CellId)
    ensures StalledBy(w, c, []) == {c} && StallSpokesTo(w, c, []) == {}
  {
  }

  lemma StalledStep(w: World, c: CellId, before: seq<Option<CellId>>, found: Option<CellId>)
    requires c in w.pool && (found.Some? ==> found.value in w.pool)
    ensures var more := found.Some? && found.value != c && !w.pool[found.value].cooldown;
            && StalledBy(w, c, before + [found]) == StalledBy(w, c, before) + (if more then {found.value} else {})
            && StallSpokesTo(w, c, before + [found]) ==
               StallSpokesTo(w, c, before) + (if more then {(c, found.value)} else {})
  {
    assert forall n :: Some(n) in before + [found] <==> Some(n) in before || Some(n) == found;
  }

  lemma StalledAll(w: World, c: CellId, ring: seq<Option<CellId>>)
    requires c in w.pool && !w.pool[c].cooldown && forall n :: Some(n) in ring <==> n in Ball(w, c)
    ensures StalledBy(w, c, ring) == OpenBall(w, c) && StallSpokesTo(w, c, ring) == OpenSpokes(w, c)
  {
  }

  lemma StallTouchNothing(w: World)
    ensures StallTouch(w, {}, {}) == w
  {
    assert w.current + {} == w.current && w.links + {} == w.links;
  }

  lemma StallTouchOne(w: World, c: CellId)
    ensures StallTouch(w, {}, {}) == w && StallTouch(w, {c}, {}) == w.(current := w.current + {c})
    ensures c in w.current ==> StallTouch(w, {c}, {}) == w
  {
    assert w.links + {} == w.links && w.current + {} == w.current;
    assert c in w.current ==> w.current + {c} == w.current;
  }

  lemma StallTouchMore(w: World, s: set<CellId>, l: set<(CellId, CellId)>, t: set<CellId>, m: set<(CellId, CellId)>)
    ensures StallTouch(StallTouch(w, s, l), t, m) == StallTouch(w, s + t, l + m)
    ensures s + {} == s && l + {} == l
  {
    assert w.current + s + t == w.current + (s + t);
    assert w.links + l + m == w.links + (l + m);
  }

  lemma TouchedNone(w: World, c: CellId)
    ensures TouchedBy(w, c, []) == {c} && SpokesTo(w, c, []) == {}
  {
  }

  /** The centre and the neighbours found so far. */
  ghost function TouchedBy(w: World, c: CellId, ring: seq<Option<CellId>>): set<CellId> {
    {c} + (set n | n in w.pool && Some(n) in ring)
  }

  ghost function SpokesTo(w: World, c: CellId, ring: seq<Option<CellId>>): set<(CellId, CellId)> {
    set n | n in w.pool && Some(n) in ring && n != c :: (c, n)
  }

  ghost predicate CooldownIn(w: World, ring: seq<Option<CellId>>) {
    exists n :: Some(n) in ring && n in w.pool && w.pool[n].cooldown
  }

  lemma NextFound(w: World, ring: seq<Option<CellId>>, i: int)
    requires 0 <= i < |ring| && forall n :: Some(n) in ring ==> n in w.pool
    ensures ring[..i + 1] == ring[..i] + [ring[i]]
    ensures ring[i].Some? ==> ring[i].value in w.pool
    ensures CooldownIn(w, ring[..i + 1]) <==>
              CooldownIn(w, ring[..i]) || (ring[i].Some? && w.pool[ring[i].value].cooldown)
    ensures ring[i].Some? && w.pool[ring[i].value].cooldown ==> CooldownIn(w, ring)
  {
    var more := ring[..i + 1];
    assert more == ring[..i] + [ring[i]];
    assert ring[i].Some? ==> Some(ring[i].value) in ring;
    assert forall n :: Some(n) in more <==> Some(n) in ring[..i] || Some(n) == ring[i];
  }

  lemma TouchedStep(w: World, c: CellId, before: seq<Option<CellId>>, found: Option<CellId>)
    requires c in w.pool && (found.Some? ==> found.value in w.pool)
    ensures TouchedBy(w, c, before + [found]) ==
            TouchedBy(w, c, before) + (if found.Some? && found.value != c then {found.value} else {})
    ensures SpokesTo(w, c, before + [found]) ==
            SpokesTo(w, c, before) + (if found.Some? && found.value != c then {(c, found.value)} else {})
  {
    assert forall n :: Some(n) in before + [found] <==> Some(n) in before || Some(n) == found;
  }

  lemma TouchedAll(w: World, c: CellId, ring: seq<Option<CellId>>)
    requires c in w.pool && forall n :: Some(n) in ring <==> n in Ball(w, c)
    ensures TouchedBy(w, c, ring) == Ball(w, c) && SpokesTo(w, c, ring) == Spokes(w, c)
  {
  }

  lemma BallUnderWatch(w: World, s: set<CellId>, l: set<(CellId, CellId)>, c: CellId)
    requires c in w.pool
    ensures Ball(Watch(w, s, l), c) == Ball(w, c)
  {
  }

  lemma WatchVertex(w: World, s: set<CellId>, l: set<(CellId, CellId)>, n: CellId)
    ensures Watch(Watch(w, s, l), {n}, {}) == Watch(w, s + {n}, l)
  {
    WatchTwice(w, s, l, {n}, {});
    assert l + {} == l;
  }

  lemma WatchMore(w: World, s: set<CellId>, l: set<(CellId, CellId)>, e: (CellId, CellId))
    ensures Watch(w, s, l).(links := Watch(w, s, l).links + {e}) == Watch(w, s, l + {e})
  {
    assert w.links + l + {e} == w.links + (l + {e});
  }

  lemma WatchOne(w: World, c: CellId)
    requires c in w.pool
    ensures Watch(w, {c}, {}) ==
            w.(current := w.current + {c}, pool := w.pool[c := w.pool[c].(registered := false)],
               stall := w.stall - (if w.pool[c].registered then {c} else {}))
  {
    var v := Watch(w, {c}, {});
    assert v.pool == w.pool[c := w.pool[c].(registered := false)];
    assert v.stall == w.stall - (if w.pool[c].registered then {c} else {});
    assert v.links == w.links;
  }

  /** _oldCells with only the candidates `done` looked at. */
  ghost function EnlistPart(w: World, done: set<CellId>): World {
    var lost := done - w.current - w.stall;
    w.(stall := w.stall + lost,
       pool := map c | c in w.pool ::
         if c in lost then w.pool[c].(registered := true, cooldown := false, remaining := STALL_TIME) else w.pool[c])
  }

  lemma EnlistNone(w: World)
    ensures EnlistPart(w, {}) == w
  {
    var v := EnlistPart(w, {});
    assert v.pool == w.pool && v.stall == w.stall;
  }

  lemma EnlistStep(w: World, done: set<CellId>, c: CellId)
    requires c !in done
    ensures c in w.current || c in w.stall ==> EnlistPart(w, done + {c}) == EnlistPart(w, done)
    ensures c !in w.current && c !in w.stall && c in w.pool ==>
              var v := EnlistPart(w, done);
              && c in v.pool && c !in v.stall
              && EnlistPart(w, done + {c}) ==
                 v.(stall := v.stall + {c},
                    pool := v.pool[c := v.pool[c].(registered := true, cooldown := false, remaining := STALL_TIME)])
  {
    var u, v := EnlistPart(w, done), EnlistPart(w, done + {c});
    if c in w.current || c in w.stall {
      assert done + {c} - w.current - w.stall == done - w.current - w.stall;
    } else if c in w.pool {
      assert v.stall == u.stall + {c};
      assert v.pool == u.pool[c := u.pool[c].(registered := true, cooldown := false, remaining := STALL_TIME)];
    }
  }

  lemma EnlistAll(w: World)
    requires w.previous - w.current - w.stall <= w.pool.Keys
    ensures Enlist(w) == Running(EnlistPart(w, w.previous))
  {
  }

  /** The stall cells `done` processed, the expired ones in the order `order`. */
  ghost predicate ExpiredAmong(w: World, done: set<CellId>, order: seq<CellId>) {
    Enumerates(order, set c | c in done && c in w.pool && w.pool[c].cooldown)
  }

  ghost function ReachOf(w: World, done: set<CellId>): set<CellId> {
    set c, n | c in done && c in w.pool && !w.pool[c].cooldown && n in Ball(w, c) && !w.pool[n].cooldown :: n
  }

  ghost function SpokesFrom(w: World, done: set<CellId>): set<(CellId, CellId)> {
    set c, n | c in done && c in w.pool && !w.pool[c].cooldown && n in Ball(w, c) && n != c && !w.pool[n].cooldown
    :: (c, n)
  }

  ghost function StallPart(w: World, done: set<CellId>, order: seq<CellId>): World
    requires forall c :: c in order ==> c in w.pool
  {
    w.(current := w.current + ReachOf(w, done),
       links := w.links + SpokesFrom(w, done),
       ops := w.ops + Destroys(w, order),
       stall := w.stall - (set c | c in order))
  }

  lemma StallPartNone(w: World)
    ensures ExpiredAmong(w, {}, []) && StallPart(w, {}, []) == w
  {
    assert ReachOf(w, {}) == {} && SpokesFrom(w, {}) == {};
    var v := StallPart(w, {}, []);
    assert v.current == w.current && v.links == w.links && v.ops == w.ops && v.stall == w.stall;
  }

  lemma StallPartStep(w: World, done: set<CellId>, order: seq<CellId>, c: CellId)
    requires c !in done && c in w.pool && ExpiredAmong(w, done, order)
    ensures !w.pool[c].cooldown ==>
              && ExpiredAmong(w, done + {c}, order)
              && StallPart(w, done + {c}, order) ==
                 StallTouch(StallPart(w, done, order), OpenBall(w, c), OpenSpokes(w, c))
              && OpenBall(StallPart(w, done, order), c) == OpenBall(w, c)
              && OpenSpokes(StallPart(w, done, order), c) == OpenSpokes(w, c)
    ensures w.pool[c].cooldown ==>
              && ExpiredAmong(w, done + {c}, order + [c])
              && var v := StallPart(w, done, order);
                 StallPart(w, done + {c}, order + [c]) ==
                 v.(ops := v.ops + [Destroy(w.pool[c].at, c)], stall := v.stall - {c})
  {
    if !w.pool[c].cooldown {
      StallPartTouch(w, done, order, c);
    } else {
      StallPartDestroy(w, done, order, c);
    }
  }

  lemma StallPartTouch(w: World, done: set<CellId>, order: seq<CellId>, c: CellId)
    requires c !in done && c in w.pool && ExpiredAmong(w, done, order) && !w.pool[c].cooldown
    ensures ExpiredAmong(w, done + {c}, order)
    ensures StallPart(w, done + {c}, order) == StallTouch(StallPart(w, done, order), OpenBall(w, c), OpenSpokes(w, c))
    ensures OpenBall(StallPart(w, done, order), c) == OpenBall(w, c)
    ensures OpenSpokes(StallPart(w, done, order), c) == OpenSpokes(w, c)
  {
    assert Ball(StallPart(w, done, order), c) == Ball(w, c);
    assert ReachOf(w, done + {c}) == ReachOf(w, done) + OpenBall(w, c);
    assert SpokesFrom(w, done + {c}) == SpokesFrom(w, done) + OpenSpokes(w, c);
    assert w.current + ReachOf(w, done) + OpenBall(w, c) == w.current + (ReachOf(w, done) + OpenBall(w, c));
    assert w.links + SpokesFrom(w, done) + OpenSpokes(w, c) == w.links + (SpokesFrom(w, done) + OpenSpokes(w, c));
  }

  lemma StallPartDestroy(w: World, done: set<CellId>, order: seq<CellId>, c: CellId)
    requires c !in done && c in w.pool && ExpiredAmong(w, done, order) && w.pool[c].cooldown
    ensures ExpiredAmong(w, done + {c}, order + [c])
    ensures var v := StallPart(w, done, order);
            StallPart(w, done + {c}, order + [c]) ==
            v.(ops := v.ops + [Destroy(w.pool[c].at, c)], stall := v.stall - {c})
  {
    var more := order + [c];
    assert c !in order;
    assert forall x :: x in more <==> x in order || x == c;
    assert Enumerates(more, set x | x in done + {c} && x in w.pool && w.pool[x].cooldown);
    assert ReachOf(w, done + {c}) == ReachOf(w, done);
    assert SpokesFrom(w, done + {c}) == SpokesFrom(w, done);
    assert Destroys(w, more) == Destroys(w, order) + [Destroy(w.pool[c].at, c)];
    assert w.ops + Destroys(w, more) == w.ops + Destroys(w, order) + [Destroy(w.pool[c].at, c)];
    assert w.stall - (set x | x in more) == w.stall - (set x | x in order) - {c};
  }

  lemma StallPartAll(w: World, order: seq<CellId>)
    requires w.stall <= w.pool.Keys && ExpiredAmong(w, w.stall, order)
    ensures Enumerates(order, Expired(w))
    ensures ProcessStall(w, order) == Running(StallPart(w, w.stall, order))
  {
    assert (set c | c in w.stall && c in w.pool && w.pool[c].cooldown) == Expired(w);
    assert ReachOf(w, w.stall) == StallReach(w) && SpokesFrom(w, w.stall) == StallSpokes(w);
    assert forall c :: c in order <==> c in Expired(w);
    assert (set c | c in order) == Expired(w);
    var v := StallPart(w, w.stall, order);
    assert v == w.(current := w.current + StallReach(w), links := w.links + StallSpokes(w),
                   ops := w.ops + Destroys(w, order), stall := w.stall - Expired(w));
  }

  /** The countdown applied to the cells `done`. */
  ghost function CountedPart(w: World, elapsed: nat, done: set<CellId>): World {
    w.(pool := map c | c in w.pool :: if c in done then CountDown(w.pool[c], elapsed) else w.pool[c])
  }

  lemma CountedStep(w: World, elapsed: nat, done: set<CellId>, c: CellId)
    requires c in w.pool && c !in done
    ensures var v := CountedPart(w, elapsed, done);
            && c in v.pool && v.pool[c] == w.pool[c]
            && CountedPart(w, elapsed, done + {c}) == v.(pool := v.pool[c := CountDown(w.pool[c], elapsed)])
  {
    var v := CountedPart(w, elapsed, done);
    assert CountedPart(w, elapsed, done + {c}).pool == v.pool[c := CountDown(w.pool[c], elapsed)];
  }

  /** The cells of the buckets before `k`. */
  ghost function CellsBelow(buckets: map<int, seq<CellId>>, k: int): set<CellId> {
    set j, c | j in buckets && j < k && c in buckets[j] :: c
  }

  lemma BelowNext(buckets: map<int, seq<CellId>>, k: int)
    requires k in buckets
    ensures CellsBelow(buckets, k + 1) == CellsBelow(buckets, k) + SetOf(buckets[k])
  {
  }

  lemma NextInBucket(buckets: map<int, seq<CellId>>, n: nat, k: int, i: int)
    requires SortedInto(buckets, n) && k in buckets && 0 <= i < |buckets[k]|
    ensures var done := CellsBelow(buckets, k) + SetOf(buckets[k][..i]);
            && buckets[k][i] !in done
            && done + {buckets[k][i]} == CellsBelow(buckets, k) + SetOf(buckets[k][..i + 1])
  {
    assert buckets[k][..i + 1] == buckets[k][..i] + [buckets[k][i]];
  }

  lemma CurrentIsSome(vertices: map<CellId, int>)
    requires vertices != map[]
    ensures vertices.Keys != {}
  {
  }

  lemma EmptyGraph()
    ensures NumberedBy(map[], 0, []) && LinksOf(map[], []) == {}
  {
  }

  lemma CountedNone(w: World, elapsed: nat)
    ensures CountedPart(w, elapsed, {}) == w
  {
    assert CountedPart(w, elapsed, {}).pool == w.pool;
  }

  lemma NoneBelow(buckets: map<int, seq<CellId>>, n: nat)
    requires SortedInto(buckets, n)
    ensures CellsBelow(buckets, 0) == {}
  {
    assert forall j :: j in buckets && j < 0 ==> buckets[j] == [];
  }

  lemma BelowSkips(buckets: map<int, seq<CellId>>, k: int)
    ensures k !in buckets ==> CellsBelow(buckets, k + 1) == CellsBelow(buckets, k)
  {
  }

  lemma BucketIsInside(buckets: map<int, seq<CellId>>, k: int)
    requires k in buckets
    ensures SetOf(buckets[k]) <= CellsOf(buckets)
  {
  }

  lemma AllBelow(buckets: map<int, seq<CellId>>, n: nat)
    requires SortedInto(buckets, n)
    ensures CellsBelow(buckets, n) == CellsOf(buckets)
  {
    forall j, c | j in buckets && c in buckets[j]
      ensures j < n
    {
      assert buckets[j] != [];
    }
  }

  function BucketIn(buckets: map<int, seq<CellId>>, k: int): seq<CellId> {
    if k in buckets then buckets[k] else []
  }

  /** The cells `done` are in the bucket of their vertex's component, once, and nowhere else. */
  ghost predicate Filled(buckets: map<int, seq<CellId>>, vertices: map<CellId, int>, component: seq<int>,
                         done: set<CellId>)
    requires forall c :: c in vertices ==> 0 <= vertices[c] < |component|
  {
    && done <= vertices.Keys
    && (forall k, c :: k in buckets && c in buckets[k] ==> c in done && component[vertices[c]] == k)
    && (forall c :: c in done ==> component[vertices[c]] in buckets && c in buckets[component[vertices[c]]])
    && (forall k :: k in buckets ==> Distinct(buckets[k]))
  }

  lemma EmptyFilled(buckets: map<int, seq<CellId>>, vertices: map<CellId, int>, component: seq<int>)
    requires forall c :: c in vertices ==> 0 <= vertices[c] < |component|
    requires CellsOf(buckets) == {}
    ensures Filled(buckets, vertices, component, {})
  {
    forall j | j in buckets
      ensures buckets[j] == []
    {
      BucketIsInside(buckets, j);
      SetOfSome(buckets[j]);
    }
  }

  lemma SetOfSome(cells: seq<CellId>)
    ensures cells != [] ==> SetOf(cells) != {}
  {
    if cells != [] {
      assert cells[0] in SetOf(cells);
    }
  }

  lemma FillOne(buckets: map<int, seq<CellId>>, vertices: map<CellId, int>, component: seq<int>, done: set<CellId>,
                c: CellId)
    requires forall c :: c in vertices ==> 0 <= vertices[c] < |component|
    requires Filled(buckets, vertices, component, done) && c in vertices && c !in done
    ensures var k := component[vertices[c]];
            Filled(buckets[k := BucketIn(buckets, k) + [c]], vertices, component, done + {c})
  {
    var k := component[vertices[c]];
    var b := BucketIn(buckets, k);
    assert c !in b;
    assert forall x :: x in b + [c] <==> x in b || x == c;
    assert Distinct(b + [c]);
  }

  lemma FilledIsSorted(buckets: map<int, seq<CellId>>, vertices: map<CellId, int>, component: seq<int>, k: nat)
    requires forall c :: c in vertices ==> 0 <= vertices[c] < |component|
    requires Filled(buckets, vertices, component, vertices.Keys)
    requires forall v :: 0 <= v < |component| ==> 0 <= component[v] < k
    ensures SortedInto(buckets, k)
  {
    forall j | j in buckets && buckets[j] != []
      ensures 0 <= j < k
    {
      var c := buckets[j][0];
      assert c in buckets[j];
      assert component[vertices[c]] == j;
    }
    forall i, j, c | i in buckets && j in buckets && c in buckets[i] && c in buckets[j]
      ensures i == j
    {
      assert component[vertices[c]] == i;
    }
  }

  ghost predicate SameBucket(buckets: map<int, seq<CellId>>, a: CellId, b: CellId) {
    exists k :: k in buckets && a in buckets[k] && b in buckets[k]
  }

  lemma BucketsAreComponents(buckets: map<int, seq<CellId>>, vertices: map<CellId, int>, component: seq<int>)
    requires forall c :: c in vertices ==> 0 <= vertices[c] < |component|
    requires Filled(buckets, vertices, component, vertices.Keys)
    ensures CellsOf(buckets) == vertices.Keys
    ensures forall a, b :: a in vertices && b in vertices ==>
              (SameBucket(buckets, a, b) <==> component[vertices[a]] == component[vertices[b]])
  {
    forall a, b | a in vertices && b in vertices
      ensures SameBucket(buckets, a, b) <==> component[vertices[a]] == component[vertices[b]]
    {
    }
  }

  lemma FilledIsPartition(buckets: map<int, seq<CellId>>, vertices: map<CellId, int>, edges: seq<(int, int)>, n: nat,
                          component: seq<int>)
    requires NumberedBy(vertices, n, edges) && |component| == n
    requires Filled(buckets, vertices, component, vertices.Keys)
    requires forall u, v :: 0 <= u < n && 0 <= v < n ==>
               (component[u] == component[v] <==> Connected(EdgeSet(edges), u, v))
    ensures CellsOf(buckets) == vertices.Keys
    ensures forall a, b :: a in vertices && b in vertices ==>
              (SameBucket(buckets, a, b) <==> Connected(LinksOf(vertices, edges), a, b))
  {
    BucketsAreComponents(buckets, vertices, component);
    forall a, b | a in vertices && b in vertices
      ensures Connected(EdgeSet(edges), vertices[a], vertices[b]) <==> Connected(LinksOf(vertices, edges), a, b)
    {
      NumbersConnect(vertices, edges, n, a, b);
    }
  }

  lemma NumbersConnect(vertices: map<CellId, int>, edges: seq<(int, int)>, n: nat, a: CellId, b: CellId)
    requires NumberedBy(vertices, n, edges) && a in vertices && b in vertices
    ensures Connected(EdgeSet(edges), vertices[a], vertices[b]) <==> Connected(LinksOf(vertices, edges), a, b)
  {
    LinksAreLinked(vertices, edges);
    if Connected(LinksOf(vertices, edges), a, b) {
      ConnectedUnderRenaming(LinksOf(vertices, edges), EdgeSet(edges), vertices, a, b);
    }
    if Connected(EdgeSet(edges), vertices[a], vertices[b]) {
      var cellOf := map c | c in vertices :: vertices[c] := c;
      forall x: int, y: int | (x, y) in EdgeSet(edges)
        ensures x in cellOf && y in cellOf && (cellOf[x], cellOf[y]) in LinksOf(vertices, edges)
      {
        assert x in vertices.Values && y in vertices.Values;
        assert Linked(vertices, edges, cellOf[x], cellOf[y]);
      }
      ConnectedUnderRenaming(EdgeSet(edges), LinksOf(vertices, edges), cellOf, vertices[a], vertices[b]);
    }
  }
}
