/** The nodes of the quadtree in the heap, changed in place; each operation is the one on the tree they form. */
module QuadTreeNodes {
  import opened QuadTrees

  /** The loop passes an entity that fits in no child. */
  lemma SpreadStep(limits: Limits, t: Tree, it: nat)
    requires Shaped(limits, t) && |t.children| == 4 && it < |t.entities| && GetIndex(t.bounds, t.entities[it].rect) == -1
    ensures Spread(limits, t.(entities := t.entities[..it]), t.entities[it..])
         == Spread(limits, t.(entities := t.entities[..it + 1]), t.entities[it + 1..])
  {
    assert t.entities[it..][1..] == t.entities[it + 1..];
    assert t.entities[..it] + [t.entities[it]] == t.entities[..it + 1];
  }

  class QuadTree {
    const limits: Limits
    const depth: nat
    const bounds: Rect
    var nodes: seq<QuadTree>
    var entities: seq<Item>
    ghost var Repr: set<object>
    ghost var tree: Tree

    ghost predicate Valid()
      reads this, Repr
      decreases Repr
    {
      && this in Repr
      && tree.depth == depth && tree.bounds == bounds && tree.entities == entities && |tree.children| == |nodes|
      && Shaped(limits, tree)
      && (forall i :: 0 <= i < |nodes| ==>
            && nodes[i] in Repr && nodes[i].Repr < Repr && this !in nodes[i].Repr
            && nodes[i].limits == limits && nodes[i].Valid() && nodes[i].tree == tree.children[i])
      && (forall i, j :: 0 <= i < j < |nodes| ==> nodes[i].Repr !! nodes[j].Repr)
    }

    constructor (limits: Limits, depth: nat, bounds: Rect)
      requires depth <= limits.maxDepth
      ensures Valid() && fresh(Repr) && this.limits == limits && this.depth == depth && this.bounds == bounds
      ensures nodes == [] && Repr == {this} && tree == Node(depth, bounds, [], [])
    {
      this.limits, this.depth, this.bounds := limits, depth, bounds;
      nodes, entities := [], [];
      Repr, tree := {this}, Node(depth, bounds, [], []);
    }

    method Split()
      requires Valid() && nodes == [] && depth < limits.maxDepth
      modifies this
      ensures Valid() && fresh(Repr - old(Repr)) && entities == old(entities) && |nodes| == 4
      ensures tree == old(tree).(children := QuadTrees.Split(depth, bounds))
    {
      var children := Quadrants();
      Adopt(children);
    }

    method TwoLeaves(first: Rect, second: Rect) returns (a: QuadTree, b: QuadTree)
      requires depth < limits.maxDepth
      ensures a != b && fresh({a, b}) && a.Valid() && b.Valid() && a.Repr == {a} && b.Repr == {b}
      ensures a.limits == b.limits == limits && a.depth == b.depth == depth + 1
      ensures a.tree == Node(depth + 1, first, [], []) && b.tree == Node(depth + 1, second, [], [])
    {
      a := new QuadTree(limits, depth + 1, first);
      b := new QuadTree(limits, depth + 1, second);
    }

    method Quadrants() returns (r: seq<QuadTree>)
      requires depth < limits.maxDepth
      ensures |r| == 4 && r[0] != r[1] && r[0] != r[2] && r[0] != r[3] && r[1] != r[2] && r[1] != r[3] && r[2] != r[3]
      ensures forall i :: 0 <= i < 4 ==>
                fresh(r[i]) && r[i].Valid() && r[i].Repr == {r[i]} && r[i].limits == limits && r[i].depth == depth + 1
      ensures [r[0].tree, r[1].tree, r[2].tree, r[3].tree] == QuadTrees.Split(depth, bounds)
    {
      var width, height := Truncate((bounds.z - bounds.x) / 2.0), Truncate((bounds.w - bounds.y) / 2.0);
      var x, y := Truncate(bounds.x), Truncate(bounds.y);
      var a, b := TwoLeaves(Rect(x + width, y, width, height), Rect(x, y, width, height));
      var c, d := TwoLeaves(Rect(x, y + height, width, height), Rect(x + width, y + height, width, height));
      r := [a, b, c, d];
    }

    /** A leaf takes fresh nodes as its children. */
    method Adopt(children: seq<QuadTree>)
      requires Valid() && nodes == [] && depth < limits.maxDepth && |children| == 4
      requires forall i :: 0 <= i < 4 ==>
                 && children[i].Valid() && children[i].Repr !! Repr && children[i].limits == limits
                 && children[i].depth == depth + 1
      requires forall i, j :: 0 <= i < j < 4 ==> children[i].Repr !! children[j].Repr
      modifies this
      ensures Valid() && nodes == children && entities == old(entities)
      ensures Repr == old(Repr) + children[0].Repr + children[1].Repr + children[2].Repr + children[3].Repr
      ensures tree == old(tree).(children := [children[0].tree, children[1].tree, children[2].tree, children[3].tree])
    {
      nodes := children;
      Repr := Repr + children[0].Repr + children[1].Repr + children[2].Repr + children[3].Repr;
      tree := tree.(children := [children[0].tree, children[1].tree, children[2].tree, children[3].tree]);
      assert forall i :: 0 <= i < 4 ==> this in Repr - children[i].Repr;
    }

    /** _nodes[index]->insert(entity), before the ghost fields of this node follow. */
    method HandTo(i: nat, e: Item)
      requires Valid() && i < |nodes|
      modifies nodes[i].Repr
      ensures forall j :: 0 <= j < |nodes| ==> nodes[j].Valid() && (j != i ==> nodes[j].tree == old(nodes[j].tree))
      ensures fresh(nodes[i].Repr - old(nodes[i].Repr)) && this !in nodes[i].Repr
      ensures forall j :: 0 <= j < |nodes| && j != i ==>
                nodes[j].Repr == old(nodes[j].Repr) && nodes[j].Repr !! nodes[i].Repr
      ensures nodes[i].tree == QuadTrees.Insert(limits, old(nodes[i].tree), e)
      decreases limits.maxDepth - depth, 0
    {
      assert forall j :: 0 <= j < |nodes| && j != i ==> nodes[j].Repr !! nodes[i].Repr;
      nodes[i].Insert(e);
    }

    /** _nodes[index]->insert(entity) */
    method Hand(e: Item)
      requires Valid() && |nodes| == 4 && GetIndex(bounds, e.rect) != -1
      modifies Repr
      ensures Valid() && fresh(Repr - old(Repr)) && entities == old(entities) && |nodes| == 4
      ensures tree == QuadTrees.Hand(limits, old(tree), e)
      decreases limits.maxDepth - depth, 1
    {
      var i := GetIndex(bounds, e.rect);
      ghost var t := QuadTrees.Hand(limits, tree, e);
      HandTo(i, e);
      Repr := Repr + nodes[i].Repr;
      tree := t;
    }

    method Insert(e: Item)
      requires Valid()
      modifies Repr
      ensures Valid() && fresh(Repr - old(Repr))
      ensures tree == QuadTrees.Insert(limits, old(tree), e)
      decreases limits.maxDepth - depth, 4
    {
      if nodes != [] {
        if GetIndex(bounds, e.rect) != -1 {
          Hand(e);
          return;
        }
      }
      entities, tree := entities + [e], tree.(entities := tree.entities + [e]);
      if |entities| > limits.maxEntities && depth < limits.maxDepth {
        if nodes == [] {
          Split();
        }
        SpreadEntities();
      }
    }

    /** The loop over the list of a node with children. */
    method SpreadEntities()
      requires Valid() && |nodes| == 4
      modifies Repr
      ensures Valid() && fresh(Repr - old(Repr))
      ensures tree == Spread(limits, old(tree).(entities := []), old(entities))
      decreases limits.maxDepth - depth, 3
    {
      var it := 0;
      while it < |entities|
        invariant Valid() && fresh(Repr - old(Repr)) && |nodes| == 4 && 0 <= it <= |entities|
        invariant Spread(limits, tree.(entities := entities[..it]), entities[it..])
               == Spread(limits, old(tree).(entities := []), old(entities))
        decreases |entities| - it
      {
        var e := entities[it];
        if GetIndex(bounds, e.rect) != -1 {
          HandOver(it);
        } else {
          SpreadStep(limits, tree, it);
          it := it + 1;
        }
      }
    }

    method HandOver(it: nat)
      requires Valid() && |nodes| == 4 && it < |entities| && GetIndex(bounds, entities[it].rect) != -1
      modifies Repr
      ensures Valid() && fresh(Repr - old(Repr)) && |nodes| == 4
      ensures entities == old(entities[..it]) + old(entities[it + 1..])
      ensures Spread(limits, tree.(entities := entities[..it]), entities[it..])
           == Spread(limits, old(tree).(entities := old(entities)[..it]), old(entities)[it..])
      decreases limits.maxDepth - depth, 2
    {
      Hand(entities[it]);
      entities := entities[..it] + entities[it + 1..];
      tree := tree.(entities := entities);
    }

    method Clear()
      requires Valid()
      modifies Repr
      ensures Valid() && Repr == old(Repr) && nodes == old(nodes)
      ensures tree == QuadTrees.Clear(old(tree))
      decreases limits.maxDepth - depth
    {
      entities, tree := [], tree.(entities := []);
      for i := 0 to |nodes|
        invariant Valid() && Repr == old(Repr) && nodes == old(nodes) && entities == []
        invariant forall j :: 0 <= j < i ==> tree.children[j] == QuadTrees.Clear(old(tree).children[j])
        invariant forall j :: i <= j < |nodes| ==> tree.children[j] == old(tree).children[j]
      {
        ClearNode(i);
      }
    }

    method ClearNode(i: nat)
      requires Valid() && i < |nodes|
      modifies Repr
      ensures Valid() && Repr == old(Repr) && nodes == old(nodes) && entities == old(entities)
      ensures tree == old(tree).(children := old(tree).children[i := QuadTrees.Clear(old(tree).children[i])])
      decreases limits.maxDepth - depth, 0
    {
      assert forall j :: 0 <= j < |nodes| && j != i ==> nodes[j].Repr !! nodes[i].Repr;
      nodes[i].Clear();
      tree := tree.(children := tree.children[i := nodes[i].tree]);
    }
  }
}
