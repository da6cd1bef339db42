/** Connected components of an undirected graph, as Cluster::update asks boost for them. */
module Components {

  ghost predicate Adjacent<T>(links: set<(T, T)>, a: T, b: T) {
    (a, b) in links || (b, a) in links
  }

  ghost predicate IsPath<T>(links: set<(T, T)>, p: seq<T>) {
    p != [] && forall i :: 0 < i < |p| ==> Adjacent(links, p[i - 1], p[i])
  }

  ghost predicate Joins<T>(links: set<(T, T)>, p: seq<T>, a: T, b: T) {
    IsPath(links, p) && p[0] == a && p[|p| - 1] == b
  }

  ghost predicate Connected<T(!new)>(links: set<(T, T)>, a: T, b: T) {
    exists p :: Joins(links, p, a, b)
  }

  lemma ConnectedToItself<T(!new)>(links: set<(T, T)>, a: T)
    ensures Connected(links, a, a)
  {
    assert Joins(links, [a], a, a);
  }

  lemma AdjacentConnected<T(!new)>(links: set<(T, T)>, a: T, b: T)
    requires Adjacent(links, a, b)
    ensures Connected(links, a, b)
  {
    assert Joins(links, [a, b], a, b);
  }

  lemma ConnectedSymmetric<T(!new)>(links: set<(T, T)>, a: T, b: T)
    requires Connected(links, a, b)
    ensures Connected(links, b, a)
  {
    var p :| Joins(links, p, a, b);
    var q := seq(|p|, i requires 0 <= i < |p| => p[|p| - 1 - i]);
    forall i | 0 < i < |q|
      ensures Adjacent(links, q[i - 1], q[i])
    {
      assert Adjacent(links, p[|p| - 1 - i], p[|p| - i]);
    }
    assert Joins(links, q, b, a);
  }

  lemma ConnectedTransitive<T(!new)>(links: set<(T, T)>, a: T, b: T, c: T)
    requires Connected(links, a, b) && Connected(links, b, c)
    ensures Connected(links, a, c)
  {
    var p :| Joins(links, p, a, b);
    var q :| Joins(links, q, b, c);
    var r := p + q[1..];
    forall i | 0 < i < |r|
      ensures Adjacent(links, r[i - 1], r[i])
    {
      if i >= |p| {
        assert r[i] == q[i - |p| + 1] && r[i - 1] == q[i - |p|];
      }
    }
    assert Joins(links, r, a, c);
  }

  /** A relabelling that is one-to-one on the ends of the edges neither joins nor separates anything. */
  lemma ConnectedUnderRenaming<T(!new), U(!new)>(links: set<(T, T)>, others: set<(U, U)>,
                                                        name: map<T, U>, a: T, b: T)
    requires a in name && b in name
    requires forall x, y :: (x, y) in links ==> x in name && y in name
    requires forall x, y :: (x, y) in links ==> (name[x], name[y]) in others
    requires Connected(links, a, b)
    ensures Connected(others, name[a], name[b])
  {
    var p :| Joins(links, p, a, b);
    forall i | 0 <= i < |p|
      ensures p[i] in name
    {
      if i > 0 {
        assert Adjacent(links, p[i - 1], p[i]);
      }
    }
    var q := seq(|p|, i requires 0 <= i < |p| => name[p[i]]);
    forall i | 0 < i < |q|
      ensures Adjacent(others, q[i - 1], q[i])
    {
      assert Adjacent(links, p[i - 1], p[i]);
    }
    assert Joins(others, q, name[a], name[b]);
  }

  // ---------- Labelling ----------

  function EdgeSet(edges: seq<(int, int)>): set<(int, int)> {
    set e | e in edges
  }

  ghost predicate Within(edges: seq<(int, int)>, n: nat) {
    forall e :: e in edges ==> 0 <= e.0 < n && 0 <= e.1 < n
  }

  /** Labels agree across every edge. */
  ghost predicate ClosedLabels(edges: seq<(int, int)>, tag: seq<int>) {
    forall e :: e in edges ==> 0 <= e.0 < |tag| && 0 <= e.1 < |tag| && tag[e.0] == tag[e.1]
  }

  /** Labels that agree across every edge agree along every path. */
  lemma {:induction false} LabelsAlongPath(edges: seq<(int, int)>, tag: seq<int>, p: seq<int>, i: nat)
    requires ClosedLabels(edges, tag) && IsPath(EdgeSet(edges), p) && i < |p| && 0 <= p[0] < |tag|
    ensures 0 <= p[i] < |tag| && tag[p[i]] == tag[p[0]]
    decreases i
  {
    if i > 0 {
      LabelsAlongPath(edges, tag, p, i - 1);
      assert Adjacent(EdgeSet(edges), p[i - 1], p[i]);
      assert (p[i - 1], p[i]) in edges || (p[i], p[i - 1]) in edges;
    }
  }

  lemma ConnectedSameLabel(edges: seq<(int, int)>, tag: seq<int>, u: int, v: int)
    requires ClosedLabels(edges, tag) && 0 <= u < |tag| && Connected(EdgeSet(edges), u, v)
    ensures 0 <= v < |tag| && tag[u] == tag[v]
  {
    var p :| Joins(EdgeSet(edges), p, u, v);
    LabelsAlongPath(edges, tag, p, |p| - 1);
  }

  /** What the labels found so far mean: -1 is "not reached yet". */
  ghost predicate Sound(edges: seq<(int, int)>, tag: seq<int>, k: int) {
    && (forall v :: 0 <= v < |tag| ==> -1 <= tag[v] < k)
    && (forall u, v :: 0 <= u < |tag| && 0 <= v < |tag| && tag[u] == tag[v] != -1 ==>
          Connected(EdgeSet(edges), u, v))
  }

  /** The tag of an end of an edge reaches the other end, unless it still waits on the stack. */
  ghost predicate Spread(edges: seq<(int, int)>, tag: seq<int>, stack: seq<int>) {
    forall e :: e in edges && 0 <= e.0 < |tag| && 0 <= e.1 < |tag| ==>
      && (tag[e.0] != -1 && e.0 !in stack ==> tag[e.1] == tag[e.0])
      && (tag[e.1] != -1 && e.1 !in stack ==> tag[e.0] == tag[e.1])
  }

  ghost predicate UsesAll(tag: seq<int>, k: int) {
    forall c :: 0 <= c < k ==> c in tag
  }

  /** Everything reached so far carries its root's label, earlier components are complete. */
  ghost predicate Flooding(edges: seq<(int, int)>, before: seq<int>, root: nat, k: nat, tag: seq<int>,
                           stack: seq<int>)
  {
    && |tag| == |before| && root < |tag| && tag[root] == k
    && (forall v :: 0 <= v < |tag| && before[v] != -1 ==> tag[v] == before[v])
    && (forall v :: 0 <= v < |tag| && before[v] == -1 ==> tag[v] == -1 || tag[v] == k)
    && (forall v :: 0 <= v < |tag| && tag[v] == k ==> Connected(EdgeSet(edges), root, v))
    && (forall v :: v in stack ==> 0 <= v < |tag| && tag[v] == k)
    && Spread(edges, tag, stack)
  }

  lemma FloodEdge(edges: seq<(int, int)>, before: seq<int>, root: nat, k: nat, tag: seq<int>, stack: seq<int>,
                  u: int, v: int)
    requires Flooding(edges, before, root, k, tag, stack) && u in stack
    requires (u, v) in edges || (v, u) in edges
    requires 0 <= v < |tag| && tag[v] == -1
    ensures Flooding(edges, before, root, k, tag[v := k], stack + [v])
  {
    AdjacentConnected(EdgeSet(edges), u, v);
    ConnectedTransitive(EdgeSet(edges), root, u, v);
    var t := tag[v := k];
    forall e | e in edges && 0 <= e.0 < |t| && 0 <= e.1 < |t|
      ensures t[e.0] != -1 && e.0 !in stack + [v] ==> t[e.1] == t[e.0]
      ensures t[e.1] != -1 && e.1 !in stack + [v] ==> t[e.0] == t[e.1]
    {
    }
  }

  /** The neighbours of `u` across the first `i` edges carry the label k. */
  ghost predicate Explored(edges: seq<(int, int)>, tag: seq<int>, u: int, k: nat, i: int)
    requires 0 <= i <= |edges|
  {
    forall j :: 0 <= j < i ==>
      && (edges[j].0 == u ==> 0 <= edges[j].1 < |tag| && tag[edges[j].1] == k)
      && (edges[j].1 == u ==> 0 <= edges[j].0 < |tag| && tag[edges[j].0] == k)
  }

  function Unreached(tag: seq<int>): set<int> {
    set v | 0 <= v < |tag| && tag[v] == -1
  }

  lemma ReachOne(tag: seq<int>, v: int, k: nat)
    requires 0 <= v < |tag| && tag[v] == -1
    ensures Unreached(tag[v := k]) < Unreached(tag)
  {
    assert v in Unreached(tag) && v !in Unreached(tag[v := k]);
  }

  lemma DropExplored(edges: seq<(int, int)>, before: seq<int>, root: nat, k: nat, tag: seq<int>, rest: seq<int>, u: int)
    requires Flooding(edges, before, root, k, tag, rest + [u]) && Explored(edges, tag, u, k, |edges|)
    ensures Flooding(edges, before, root, k, tag, rest)
  {
    assert forall x :: x in rest + [u] <==> x in rest || x == u;
    forall e | e in edges && 0 <= e.0 < |tag| && 0 <= e.1 < |tag|
      ensures tag[e.0] != -1 && e.0 !in rest ==> tag[e.1] == tag[e.0]
      ensures tag[e.1] != -1 && e.1 !in rest ==> tag[e.0] == tag[e.1]
    {
      var j :| 0 <= j < |edges| && edges[j] == e;
    }
  }

  /** One vertex popped from the stack: its unreached neighbours are labelled and pushed. */
  method Visit(edges: seq<(int, int)>, ghost before: seq<int>, ghost root: nat, k: nat, start: seq<int>,
               below: seq<int>, u: int)
    returns (tag: seq<int>, stack: seq<int>)
    requires Within(edges, |start|) && Flooding(edges, before, root, k, start, below + [u])
    ensures Flooding(edges, before, root, k, tag, stack)
    ensures Unreached(tag) < Unreached(start) || (tag == start && stack == below)
  {
    tag, stack := start, below;
    var i := 0;
    while i < |edges|
      invariant 0 <= i <= |edges| && |tag| == |start|
      invariant Flooding(edges, before, root, k, tag, stack + [u])
      invariant Explored(edges, tag, u, k, i)
      invariant Unreached(tag) < Unreached(start) || (tag == start && stack == below)
    {
      var e := edges[i];
      assert e in edges && u in stack + [u];
      if e.0 == u && tag[e.1] == -1 {
        tag, stack := Reach(edges, before, root, k, tag, stack, u, e.1);
      } else if e.1 == u && tag[e.0] == -1 {
        tag, stack := Reach(edges, before, root, k, tag, stack, u, e.0);
      }
      i := i + 1;
    }
    DropExplored(edges, before, root, k, tag, stack, u);
  }

  method Reach(ghost edges: seq<(int, int)>, ghost before: seq<int>, ghost root: nat, k: nat, tag: seq<int>,
               stack: seq<int>, ghost u: int, v: int)
    returns (tag': seq<int>, stack': seq<int>)
    requires Flooding(edges, before, root, k, tag, stack + [u])
    requires (u, v) in edges || (v, u) in edges
    requires 0 <= v < |tag| && tag[v] == -1
    ensures tag' == tag[v := k] && stack' == stack + [v]
    ensures Flooding(edges, before, root, k, tag', stack' + [u])
    ensures Unreached(tag') < Unreached(tag)
  {
    tag', stack' := tag[v := k], stack + [v];
    assert u in stack + [u];
    FloodEdge(edges, before, root, k, tag, stack + [u], u, v);
    assert forall x :: x in stack' + [u] <==> x in stack + [u] + [v];
    ReachOne(tag, v, k);
  }

  /** A depth-first visit from an unreached vertex. */
  method Flood(edges: seq<(int, int)>, before: seq<int>, root: nat, k: nat) returns (tag: seq<int>)
    requires Within(edges, |before|) && root < |before| && before[root] == -1
    requires Sound(edges, before, k) && Spread(edges, before, [])
    ensures Flooding(edges, before, root, k, tag, [])
  {
    tag := before[root := k];
    var stack: seq<int> := [root];
    ConnectedToItself<int>(EdgeSet(edges), root);
    while stack != []
      invariant Flooding(edges, before, root, k, tag, stack)
      decreases Unreached(tag), |stack|
    {
      var u, below := stack[|stack| - 1], stack[..|stack| - 1];
      assert stack == below + [u];
      tag, stack := Visit(edges, before, root, k, tag, below, u);
    }
  }

  lemma FloodKeepsSound(edges: seq<(int, int)>, before: seq<int>, root: nat, k: nat, tag: seq<int>)
    requires Sound(edges, before, k) && UsesAll(before, k) && Flooding(edges, before, root, k, tag, [])
    requires before[root] == -1
    ensures Sound(edges, tag, k + 1) && UsesAll(tag, k + 1) && Spread(edges, tag, [])
  {
    forall u, v | 0 <= u < |tag| && 0 <= v < |tag| && tag[u] == tag[v] != -1
      ensures Connected(EdgeSet(edges), u, v)
    {
      if tag[u] == k {
        ConnectedSymmetric(EdgeSet(edges), root, u);
        ConnectedTransitive(EdgeSet(edges), u, root, v);
      }
    }
    forall c | 0 <= c < k + 1
      ensures c in tag
    {
      if c == k {
        assert tag[root] == k;
      } else {
        assert c in before;
        var v :| 0 <= v < |before| && before[v] == c;
        assert tag[v] == c;
      }
    }
  }

  /** boost::connected_components: vertices get the same label iff a path joins them,
      and the labels are exactly 0..k. */
  method ConnectedComponents(n: nat, edges: seq<(int, int)>) returns (k: nat, component: seq<int>)
    requires Within(edges, n)
    ensures |component| == n && UsesAll(component, k)
    ensures forall v :: 0 <= v < n ==> 0 <= component[v] < k
    ensures forall u, v :: 0 <= u < n && 0 <= v < n ==>
              (component[u] == component[v] <==> Connected(EdgeSet(edges), u, v))
  {
    component := seq(n, _ => -1);
    k := 0;
    var v := 0;
    while v < n
      invariant 0 <= v <= n && |component| == n
      invariant forall u :: 0 <= u < v ==> component[u] != -1
      invariant Sound(edges, component, k) && Spread(edges, component, []) && UsesAll(component, k)
    {
      if component[v] == -1 {
        var tag := Flood(edges, component, v, k);
        FloodKeepsSound(edges, component, v, k, tag);
        component, k := tag, k + 1;
      }
      v := v + 1;
    }
    assert ClosedLabels(edges, component);
    forall u, v | 0 <= u < n && 0 <= v < n && Connected(EdgeSet(edges), u, v)
      ensures component[u] == component[v]
    {
      ConnectedSameLabel(edges, component, u, v);
    }
  }
}
