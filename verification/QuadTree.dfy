/** The quadtree as a value: insertion, where it puts each entity, and what it keeps. */
module QuadTrees {

  /** x0, y0, x1, y1: the four components of the vec4 of an entity, and of a node's bounds. */
  datatype Rect = Rect(x: real, y: real, z: real, w: real)

  /** An entity and the rectangle its bounding box has while the tree is built. */
  datatype Item = Item(id: nat, rect: Rect)

  /** The template parameters MaxEntities and MaxDepth. */
  datatype Limits = Limits(maxEntities: nat, maxDepth: nat)

  datatype Tree = Node(depth: nat, bounds: Rect, entities: seq<Item>, children: seq<Tree>)

  function MidX(b: Rect): real { b.x + (b.z - b.x) / 2.0 }

  function MidY(b: Rect): real { b.y + (b.w - b.y) / 2.0 }

  /** The quadrant of `b` into which `r` fits completely, or -1. */
  function GetIndex(b: Rect, r: Rect): (i: int)
    ensures -1 <= i < 4
  {
    var top := r.y < MidY(b) && r.y + (r.w - r.y) < MidY(b);
    var bottom := r.y > MidY(b);
    if r.x < MidX(b) && r.x + (r.z - r.x) < MidX(b) then
      if top then 1 else if bottom then 2 else -1
    else if r.x > MidX(b) then
      if top then 0 else if bottom then 3 else -1
    else -1
  }

  /** Which quadrant that is: 0 and 3 are right of the vertical midline, 0 and 1 above the horizontal one, towards
      smaller y; and -1 means that the rectangle touches or crosses a midline. */
  lemma GetIndexIsQuadrant(b: Rect, r: Rect)
    requires r.x <= r.z && r.y <= r.w
    ensures var midX, midY := (b.x + b.z) / 2.0, (b.y + b.w) / 2.0;
            && (GetIndex(b, r) == 0 <==> r.x > midX && r.w < midY)
            && (GetIndex(b, r) == 1 <==> r.z < midX && r.w < midY)
            && (GetIndex(b, r) == 2 <==> r.z < midX && r.y > midY)
            && (GetIndex(b, r) == 3 <==> r.x > midX && r.y > midY)
            && (GetIndex(b, r) == -1 <==> r.x <= midX <= r.z || r.y <= midY <= r.w)
  {
    assert MidX(b) == (b.x + b.z) / 2.0 && MidY(b) == (b.y + b.w) / 2.0;
  }

  /** A conversion to int truncates toward zero. */
  function Truncate(x: real): real {
    if x >= 0.0 then x.Floor as real else -((-x).Floor as real)
  }

  /** The four children; the code passes the width and height of the quadrant where bounds hold x1 and y1. */
  function Split(depth: nat, b: Rect): (r: seq<Tree>)
    ensures |r| == 4
    ensures forall c :: c in r ==> c.depth == depth + 1 && c.entities == [] && c.children == []
  {
    var width, height := Truncate((b.z - b.x) / 2.0), Truncate((b.w - b.y) / 2.0);
    var x, y := Truncate(b.x), Truncate(b.y);
    [Node(depth + 1, Rect(x + width, y, width, height), [], []),
     Node(depth + 1, Rect(x, y, width, height), [], []),
     Node(depth + 1, Rect(x, y + height, width, height), [], []),
     Node(depth + 1, Rect(x + width, y + height, width, height), [], [])]
  }

  lemma TruncateTowardZero(x: real)
    ensures x >= 0.0 ==> Truncate(x) <= x < Truncate(x) + 1.0
    ensures x <= 0.0 ==> Truncate(x) - 1.0 < x <= Truncate(x)
  {
  }

  /** Where the children lie: child 1 at the truncated corner of `b`, child 0 to its right, child 2 below it, child 3
      diagonally; and each of them has the truncated half width and height of `b` where its own far corner belongs. */
  lemma SplitCorners(depth: nat, b: Rect)
    ensures var r := Split(depth, b);
            var width, height := Truncate((b.z - b.x) / 2.0), Truncate((b.w - b.y) / 2.0);
            && (r[1].bounds.x, r[1].bounds.y) == (Truncate(b.x), Truncate(b.y))
            && (r[0].bounds.x, r[0].bounds.y) == (Truncate(b.x) + width, Truncate(b.y))
            && (r[2].bounds.x, r[2].bounds.y) == (Truncate(b.x), Truncate(b.y) + height)
            && (r[3].bounds.x, r[3].bounds.y) == (Truncate(b.x) + width, Truncate(b.y) + height)
            && (forall i :: 0 <= i < 4 ==> (r[i].bounds.z, r[i].bounds.w) == (width, height))
  {
  }

  /** Four children or none, each one deeper than its parent, down to MaxDepth. */
  predicate Shaped(limits: Limits, t: Tree) {
    && t.depth <= limits.maxDepth
    && (t.children == [] || (|t.children| == 4 && t.depth < limits.maxDepth))
    && forall i :: 0 <= i < |t.children| ==> t.children[i].depth == t.depth + 1 && Shaped(limits, t.children[i])
  }

  /** QuadTree::insert */
  function Insert(limits: Limits, t: Tree, e: Item): (r: Tree)
    requires Shaped(limits, t)
    ensures Shaped(limits, r) && r.depth == t.depth && r.bounds == t.bounds
    decreases limits.maxDepth - t.depth, |t.entities| + 2
  {
    if t.children != [] && GetIndex(t.bounds, e.rect) != -1 then Hand(limits, t, e)
    else
      var t1 := t.(entities := t.entities + [e]);
      if |t1.entities| > limits.maxEntities && t.depth < limits.maxDepth then
        Spread(limits, t1.(entities := [], children := if t.children == [] then Split(t.depth, t.bounds) else t.children),
               t1.entities)
      else t1
  }

  /** The entity goes down to the child it fits in. */
  function Hand(limits: Limits, t: Tree, e: Item): (r: Tree)
    requires Shaped(limits, t) && |t.children| == 4 && GetIndex(t.bounds, e.rect) != -1
    ensures Shaped(limits, r) && r.depth == t.depth && r.bounds == t.bounds && |r.children| == 4
    decreases limits.maxDepth - t.depth, 0
  {
    var i := GetIndex(t.bounds, e.rect);
    t.(children := t.children[i := Insert(limits, t.children[i], e)])
  }

  /** The loop over a node's list: every entity that fits in a child leaves for it. */
  function Spread(limits: Limits, t: Tree, pending: seq<Item>): (r: Tree)
    requires Shaped(limits, t) && |t.children| == 4
    ensures Shaped(limits, r) && r.depth == t.depth && r.bounds == t.bounds && |r.children| == 4
    decreases limits.maxDepth - t.depth, |pending|
  {
    if pending == [] then t
    else if GetIndex(t.bounds, pending[0].rect) == -1 then
      Spread(limits, t.(entities := t.entities + [pending[0]]), pending[1..])
    else Spread(limits, Hand(limits, t, pending[0]), pending[1..])
  }

  /** QuadTree::clear empties every list and keeps the nodes. */
  function Clear(t: Tree): Tree {
    Node(t.depth, t.bounds, [],
         seq(|t.children|, i requires 0 <= i < |t.children| => Clear(t.children[i])))
  }

  // ---------- What is stored ----------

  function Contents(t: Tree): multiset<Item> {
    if |t.children| == 4 then
      multiset(t.entities)
      + Contents(t.children[0]) + Contents(t.children[1]) + Contents(t.children[2]) + Contents(t.children[3])
    else multiset(t.entities)
  }

  lemma ContentsOfUpdated(t: Tree, i: int, c: Tree, e: Item)
    requires |t.children| == 4 && 0 <= i < 4 && Contents(c) == Contents(t.children[i]) + multiset{e}
    ensures Contents(t.(children := t.children[i := c])) == Contents(t) + multiset{e}
  {
  }

  lemma HandAddsOne(limits: Limits, t: Tree, e: Item)
    requires Shaped(limits, t) && |t.children| == 4 && GetIndex(t.bounds, e.rect) != -1
    ensures Contents(Hand(limits, t, e)) == Contents(t) + multiset{e}
    decreases limits.maxDepth - t.depth, 0
  {
    var i := GetIndex(t.bounds, e.rect);
    InsertAddsOne(limits, t.children[i], e);
    ContentsOfUpdated(t, i, Insert(limits, t.children[i], e), e);
  }

  lemma {:induction false} SpreadAdds(limits: Limits, t: Tree, pending: seq<Item>)
    requires Shaped(limits, t) && |t.children| == 4
    ensures Contents(Spread(limits, t, pending)) == Contents(t) + multiset(pending)
    decreases limits.maxDepth - t.depth, |pending|
  {
    if pending != [] {
      var e := pending[0];
      assert pending == [e] + pending[1..];
      if GetIndex(t.bounds, e.rect) == -1 {
        SpreadAdds(limits, t.(entities := t.entities + [e]), pending[1..]);
      } else {
        HandAddsOne(limits, t, e);
        SpreadAdds(limits, Hand(limits, t, e), pending[1..]);
      }
    }
  }

  lemma SplitIsEmpty(t: Tree)
    requires t.children == []
    ensures Contents(t.(entities := [], children := Split(t.depth, t.bounds))) == multiset{}
  {
    var r := Split(t.depth, t.bounds);
    assert forall c :: c in r ==> Contents(c) == multiset{};
  }

  lemma NoOwn(t: Tree)
    ensures Contents(t) == Contents(t.(entities := [])) + multiset(t.entities)
  {
  }

  lemma OneMore(t: Tree, e: Item)
    ensures Contents(t.(entities := t.entities + [e])) == Contents(t) + multiset{e}
  {
    NoOwn(t);
    NoOwn(t.(entities := t.entities + [e]));
  }

  lemma SpreadAll(limits: Limits, t: Tree, e: Item)
    requires Shaped(limits, t) && t.depth < limits.maxDepth
    ensures var t1 := t.(entities := [], children := if t.children == [] then Split(t.depth, t.bounds) else t.children);
            Contents(Spread(limits, t1, t.entities + [e])) == Contents(t) + multiset{e}
    decreases limits.maxDepth - t.depth, |t.entities| + 2
  {
    var t1 := t.(entities := [], children := if t.children == [] then Split(t.depth, t.bounds) else t.children);
    NoOwn(t);
    assert Contents(t1) == Contents(t.(entities := [])) by {
      if t.children == [] {
        SplitIsEmpty(t);
      }
    }
    SpreadAdds(limits, t1, t.entities + [e]);
  }

  /** Insertion adds exactly one occurrence of the entity, and loses none. */
  lemma {:induction false} InsertAddsOne(limits: Limits, t: Tree, e: Item)
    requires Shaped(limits, t)
    ensures Contents(Insert(limits, t, e)) == Contents(t) + multiset{e}
    decreases limits.maxDepth - t.depth, |t.entities| + 3
  {
    if t.children != [] && GetIndex(t.bounds, e.rect) != -1 {
      HandAddsOne(limits, t, e);
    } else if |t.entities| + 1 > limits.maxEntities && t.depth < limits.maxDepth {
      SpreadAll(limits, t, e);
    } else {
      OneMore(t, e);
    }
  }

  // ---------- When a leaf splits ----------

  ghost predicate SameBounds(a: seq<Tree>, b: seq<Tree>) {
    |a| == |b| && forall i :: 0 <= i < |a| ==> a[i].bounds == b[i].bounds
  }

  lemma {:induction false} SpreadKeepsBounds(limits: Limits, t: Tree, pending: seq<Item>)
    requires Shaped(limits, t) && |t.children| == 4
    ensures SameBounds(Spread(limits, t, pending).children, t.children)
    decreases |pending|
  {
    if pending != [] {
      if GetIndex(t.bounds, pending[0].rect) == -1 {
        SpreadKeepsBounds(limits, t.(entities := t.entities + [pending[0]]), pending[1..]);
      } else {
        SpreadKeepsBounds(limits, Hand(limits, t, pending[0]), pending[1..]);
      }
    }
  }

  /** A leaf takes one entity more until it holds MaxEntities, or for ever at MaxDepth; then it splits into the four
      children of `Split`. */
  lemma LeafSplitsIff(limits: Limits, t: Tree, e: Item)
    requires Shaped(limits, t) && t.children == []
    ensures var r := Insert(limits, t, e);
            if |t.entities| < limits.maxEntities || t.depth == limits.maxDepth
            then r == t.(entities := t.entities + [e])
            else SameBounds(r.children, Split(t.depth, t.bounds))
  {
    if |t.entities| >= limits.maxEntities && t.depth < limits.maxDepth {
      SpreadKeepsBounds(limits, t.(entities := [], children := Split(t.depth, t.bounds)), t.entities + [e]);
    }
  }

  lemma {:induction false} ClearIsEmpty(limits: Limits, t: Tree)
    requires Shaped(limits, t)
    ensures Contents(Clear(t)) == multiset{} && Shaped(limits, Clear(t)) && Clear(t).depth == t.depth
    decreases t
  {
    forall i | 0 <= i < |t.children|
      ensures Contents(Clear(t).children[i]) == multiset{}
      ensures Shaped(limits, Clear(t).children[i]) && Clear(t).children[i].depth == t.depth + 1
    {
      ClearIsEmpty(limits, t.children[i]);
    }
  }

  // ---------- Where it is stored ----------

  /** Below MaxDepth a node is a leaf with at most MaxEntities, or keeps only what fits in none of its children.
      What is under a child fits in that quadrant. */
  predicate Placed(limits: Limits, t: Tree) {
    && (t.children == [] && t.depth < limits.maxDepth ==> |t.entities| <= limits.maxEntities)
    && (t.children != [] ==> forall e :: e in t.entities ==> GetIndex(t.bounds, e.rect) == -1)
    && forall i :: 0 <= i < |t.children| ==> Placed(limits, t.children[i]) && Under(t.bounds, i, t.children[i])
  }

  predicate Under(b: Rect, i: int, c: Tree) {
    forall e :: e in Contents(c) ==> GetIndex(b, e.rect) == i
  }

  lemma UnderOneMore(b: Rect, i: int, c: Tree, d: Tree, e: Item)
    requires Under(b, i, c) && Contents(d) == Contents(c) + multiset{e} && GetIndex(b, e.rect) == i
    ensures Under(b, i, d)
  {
  }

  lemma ReplacedChild(limits: Limits, t: Tree, i: nat, c: Tree)
    requires Placed(limits, t) && i < |t.children| && Placed(limits, c) && Under(t.bounds, i, c)
    ensures Placed(limits, t.(children := t.children[i := c]))
  {
  }

  lemma HandKeepsPlaces(limits: Limits, t: Tree, e: Item)
    requires Shaped(limits, t) && Placed(limits, t) && |t.children| == 4 && GetIndex(t.bounds, e.rect) != -1
    ensures Placed(limits, Hand(limits, t, e))
    decreases limits.maxDepth - t.depth, 0
  {
    var i := GetIndex(t.bounds, e.rect);
    var c := Insert(limits, t.children[i], e);
    InsertKeepsPlaces(limits, t.children[i], e);
    InsertAddsOne(limits, t.children[i], e);
    UnderOneMore(t.bounds, i, t.children[i], c, e);
    ReplacedChild(limits, t, i, c);
  }

  lemma {:induction false} SpreadKeepsPlaces(limits: Limits, t: Tree, pending: seq<Item>)
    requires Shaped(limits, t) && Placed(limits, t) && |t.children| == 4
    ensures Placed(limits, Spread(limits, t, pending))
    decreases limits.maxDepth - t.depth, |pending|
  {
    if pending != [] {
      if GetIndex(t.bounds, pending[0].rect) == -1 {
        SpreadKeepsPlaces(limits, t.(entities := t.entities + [pending[0]]), pending[1..]);
      } else {
        HandKeepsPlaces(limits, t, pending[0]);
        SpreadKeepsPlaces(limits, Hand(limits, t, pending[0]), pending[1..]);
      }
    }
  }

  lemma EmptiedIsPlaced(limits: Limits, t: Tree)
    requires Shaped(limits, t) && Placed(limits, t) && t.depth < limits.maxDepth
    ensures var t1 := t.(entities := [], children := if t.children == [] then Split(t.depth, t.bounds) else t.children);
            Shaped(limits, t1) && Placed(limits, t1) && |t1.children| == 4
  {
    if t.children == [] {
      forall c | c in Split(t.depth, t.bounds)
        ensures Shaped(limits, c) && Placed(limits, c) && Contents(c) == multiset{}
      {
      }
    }
  }

  lemma {:induction false} InsertKeepsPlaces(limits: Limits, t: Tree, e: Item)
    requires Shaped(limits, t) && Placed(limits, t)
    ensures Placed(limits, Insert(limits, t, e))
    decreases limits.maxDepth - t.depth, |t.entities| + 2
  {
    if t.children != [] && GetIndex(t.bounds, e.rect) != -1 {
      HandKeepsPlaces(limits, t, e);
    } else if |t.entities| + 1 > limits.maxEntities && t.depth < limits.maxDepth {
      EmptiedIsPlaced(limits, t);
      var t1 := t.(entities := [], children := if t.children == [] then Split(t.depth, t.bounds) else t.children);
      SpreadKeepsPlaces(limits, t1, t.entities + [e]);
    }
  }

  lemma {:induction false} ClearKeepsPlaces(limits: Limits, t: Tree)
    requires Shaped(limits, t)
    ensures Placed(limits, Clear(t))
    decreases t
  {
    forall i | 0 <= i < |t.children|
      ensures Placed(limits, Clear(t).children[i]) && Under(t.bounds, i, Clear(t).children[i])
    {
      ClearKeepsPlaces(limits, t.children[i]);
      ClearIsEmpty(limits, t.children[i]);
    }
  }

  /** The list a search for the rectangle ends at: down the quadrants it fits in, to a leaf or a node it straddles. */
  function Destination(t: Tree, r: Rect): seq<Item> {
    if |t.children| != 4 || GetIndex(t.bounds, r) == -1 then t.entities
    else Destination(t.children[GetIndex(t.bounds, r)], r)
  }

  lemma ElsewhereAbsent(b: Rect, j: int, c: Tree, e: Item)
    requires Under(b, j, c) && GetIndex(b, e.rect) != j
    ensures Contents(c)[e] == 0
  {
  }

  lemma OwnAbsent(t: Tree, e: Item)
    requires (forall f :: f in t.entities ==> GetIndex(t.bounds, f.rect) == -1) && GetIndex(t.bounds, e.rect) != -1
    ensures multiset(t.entities)[e] == 0
  {
    assert e !in t.entities;
  }

  lemma ContentsAt(t: Tree, e: Item)
    requires |t.children| == 4
    ensures Contents(t)[e] == multiset(t.entities)[e] + Contents(t.children[0])[e] + Contents(t.children[1])[e]
                              + Contents(t.children[2])[e] + Contents(t.children[3])[e]
  {
  }

  /** An entity is stored once per insertion, and only in the one list its rectangle leads to. */
  lemma {:induction false} StoredAtDestination(limits: Limits, t: Tree, e: Item)
    requires Shaped(limits, t) && Placed(limits, t)
    ensures Contents(t)[e] == multiset(Destination(t, e.rect))[e]
    decreases t
  {
    if t.children != [] {
      var i := GetIndex(t.bounds, e.rect);
      forall j | 0 <= j < 4 && j != i
        ensures Contents(t.children[j])[e] == 0
      {
        ElsewhereAbsent(t.bounds, j, t.children[j], e);
      }
      ContentsAt(t, e);
      if i != -1 {
        OwnAbsent(t, e);
        StoredAtDestination(limits, t.children[i], e);
      }
    }
  }

  predicate Apart(a: Rect, b: Rect) {
    a.z < b.x || b.z < a.x || a.w < b.y || b.w < a.y
  }

  /** Entities under different children of one node have disjoint rectangles. */
  lemma ChildrenAreApart(limits: Limits, t: Tree, i: int, j: int, e: Item, f: Item)
    requires Placed(limits, t) && 0 <= i < |t.children| && 0 <= j < |t.children| && i != j
    requires e in Contents(t.children[i]) && f in Contents(t.children[j])
    ensures Apart(e.rect, f.rect)
  {
    assert Under(t.bounds, i, t.children[i]) && Under(t.bounds, j, t.children[j]);
  }

  function InsertAll(limits: Limits, t: Tree, items: seq<Item>): (r: Tree)
    requires Shaped(limits, t)
    ensures Shaped(limits, r)
    decreases |items|
  {
    if items == [] then t
    else Insert(limits, InsertAll(limits, t, items[..|items| - 1]), items[|items| - 1])
  }

  lemma OneInsertStores(limits: Limits, u: Tree, last: Item)
    requires Shaped(limits, u) && Placed(limits, u)
    ensures Contents(Insert(limits, u, last)) == Contents(u) + multiset{last} && Placed(limits, Insert(limits, u, last))
  {
    InsertAddsOne(limits, u, last);
    InsertKeepsPlaces(limits, u, last);
  }

  lemma LastItem(items: seq<Item>)
    requires items != []
    ensures multiset(items) == multiset(items[..|items| - 1]) + multiset{items[|items| - 1]}
  {
    assert items == items[..|items| - 1] + [items[|items| - 1]];
  }

  lemma {:induction false} InsertAllStores(limits: Limits, t: Tree, items: seq<Item>)
    requires Shaped(limits, t) && Placed(limits, t)
    ensures Contents(InsertAll(limits, t, items)) == Contents(t) + multiset(items)
    ensures Placed(limits, InsertAll(limits, t, items))
    decreases |items|
  {
    if items != [] {
      var most, last := items[..|items| - 1], items[|items| - 1];
      InsertAllStores(limits, t, most);
      OneInsertStores(limits, InsertAll(limits, t, most), last);
      LastItem(items);
    }
  }

  /** A tick's rebuild: clearing a tree and inserting a list stores exactly that list, each entity in its place. */
  lemma RebuildStoresExactly(limits: Limits, t: Tree, items: seq<Item>)
    requires Shaped(limits, t)
    ensures Shaped(limits, Clear(t))
    ensures var r := InsertAll(limits, Clear(t), items); Contents(r) == multiset(items) && Placed(limits, r)
  {
    ClearIsEmpty(limits, t);
    ClearKeepsPlaces(limits, t);
    InsertAllStores(limits, Clear(t), items);
  }
}
