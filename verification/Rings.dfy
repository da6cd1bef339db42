/** Cell::ring and Cell::inRadius: walks over the grid that look every visited offset up in the map. */
module Rings {
  import opened Hex
  import opened World

  function Lookup<C>(cells: map<Coord, C>, o: Coord): Option<C> {
    if o in cells then Some(cells[o]) else None
  }

  /** `found` is what the map holds at each of the `offsets`. */
  predicate LookedUp<C(==)>(cells: map<Coord, C>, offsets: seq<Coord>, found: seq<Option<C>>) {
    |found| == |offsets| && forall i :: 0 <= i < |offsets| ==> found[i] == Lookup(cells, offsets[i])
  }

  // ---------- inRadius ----------

  lemma DistanceAtMost(o: Coord, c: Coord, k: int)
    ensures Distance(o, c) <= k <==>
              -k <= o.q - c.q <= k && -k <= o.r - c.r <= k && -k <= (o.q - c.q) + (o.r - c.r) <= k
  {
  }

  /** The number of offsets in the rows before `dx`. */
  function RowsBefore(radius: int, dx: int): nat
    requires -radius <= dx <= radius + 1
    decreases dx + radius
  {
    if dx == -radius then 0 else RowsBefore(radius, dx - 1) + (2 * radius + 1 - Abs(dx - 1))
  }

  /** One row more, left of the centre column: d columns are done, and the next row starts the sum p. */
  lemma RowLeft(d: int, p: int)
    ensures d * p == (d - 1) * (p - 1) + d + p - 1
  {
  }

  lemma RowRight(dx: int)
    ensures dx * (dx - 1) == (dx - 1) * (dx - 2) + 2 * (dx - 1)
  {
  }

  lemma {:induction false} RowsBeforeCentre(radius: int, dx: int)
    requires -radius <= dx <= 0
    ensures 2 * RowsBefore(radius, dx) == (dx + radius) * (3 * radius + 1 + dx)
    decreases dx + radius
  {
    if dx > -radius {
      RowsBeforeCentre(radius, dx - 1);
      RowLeft(dx + radius, 3 * radius + 1 + dx);
    }
  }

  lemma Columns(radius: int, dx: int)
    ensures 2 * dx * (2 * radius + 1) == 2 * (dx - 1) * (2 * radius + 1) + 2 * (2 * radius + 1)
  {
  }

  lemma {:induction false} RowsBeforeClosed(radius: int, dx: int)
    requires 0 <= dx <= radius + 1 && 0 <= radius
    ensures 2 * RowsBefore(radius, dx) == radius * (3 * radius + 1) + 2 * dx * (2 * radius + 1) - dx * (dx - 1)
    decreases dx + radius
  {
    if dx == 0 {
      RowsBeforeCentre(radius, 0);
    } else {
      RowsBeforeClosed(radius, dx - 1);
      RowRight(dx);
      Columns(radius, dx);
    }
  }

  /** The offsets at distance at most `k` from `c` in the rows before `dx`, and up to `dy` in row `dx`. */
  predicate Visited(o: Coord, c: Coord, k: int, dx: int, dy: int) {
    var q, r := o.q - c.q, o.r - c.r;
    -k <= q <= k && -k <= r <= k && -k <= q + r <= k && (q < dx || (q == dx && r < dy))
  }

  ghost predicate Collected<C>(cells: map<Coord, C>, c: Coord, k: int, dx: int, dy: int, results: seq<Option<C>>,
                               offsets: seq<Coord>)
  {
    && LookedUp(cells, offsets, results) && Distinct(offsets)
    && (forall o :: o in offsets <==> Visited(o, c, k, dx, dy))
  }

  lemma CollectOne<C>(cells: map<Coord, C>, c: Coord, k: int, dx: int, dy: int, results: seq<Option<C>>,
                      offsets: seq<Coord>)
    requires Collected(cells, c, k, dx, dy, results, offsets)
    requires -k <= dx <= k && -k <= dy <= k && -k <= dx + dy <= k
    ensures var o := Coord(dx + c.q, dy + c.r);
            Collected(cells, c, k, dx, dy + 1, results + [Lookup(cells, o)], offsets + [o])
  {
    var o := Coord(dx + c.q, dy + c.r);
    assert !Visited(o, c, k, dx, dy);
    assert o !in offsets;
    forall x
      ensures x in offsets + [o] <==> Visited(x, c, k, dx, dy + 1)
    {
      assert x in offsets + [o] <==> x in offsets || x == o;
    }
  }

  lemma RowStarts(c: Coord, k: int, dx: int, dy: int)
    requires dy == Max(-k, -dx - k)
    ensures forall o :: Visited(o, c, k, dx, -k) == Visited(o, c, k, dx, dy)
  {
  }

  lemma RowEnds(c: Coord, k: int, dx: int, rmin: int)
    requires rmin == Min(k, -dx + k)
    ensures forall o {:trigger Visited(o, c, k, dx + 1, -k)} ::
              Visited(o, c, k, dx + 1, -k) == Visited(o, c, k, dx, rmin + 1)
  {
  }

  lemma AllRows(radius: int)
    requires 0 <= radius
    ensures RowsBefore(radius, radius + 1) == 3 * radius * (radius + 1) + 1 <= radius * radius * 6 + 1
  {
    RowsBeforeClosed(radius, radius + 1);
  }

  lemma AllVisited<C>(cells: map<Coord, C>, center: Coord, radius: int, results: seq<Option<C>>, offsets: seq<Coord>)
    requires Collected(cells, center, radius, radius + 1, -radius, results, offsets)
    ensures forall o :: o in offsets <==> Distance(o, center) <= radius
  {
    forall o
      ensures o in offsets <==> Distance(o, center) <= radius
    {
      DistanceAtMost(o, center, radius);
    }
  }

  /** `offsets` are those at distance at most R from the centre, each once. */
  ghost predicate IsBall(center: Coord, radius: int, offsets: seq<Coord>) {
    Distinct(offsets) && forall o :: o in offsets <==> Distance(o, center) <= radius
  }

  /** Exactly the 3R(R+1)+1 offsets at distance at most R, each once, within the reserved capacity. */
  method InRadius<C>(cells: map<Coord, C>, center: Coord, radius: int) returns (results: seq<Option<C>>)
    requires 0 <= radius
    ensures exists offsets :: LookedUp(cells, offsets, results) && IsBall(center, radius, offsets)
    ensures |results| == 3 * radius * (radius + 1) + 1 <= radius * radius * 6 + 1
  {
    ghost var offsets: seq<Coord>;
    results, offsets := [], [];
    var dx := -radius;
    while dx <= radius
      invariant -radius <= dx <= radius + 1
      invariant |results| == RowsBefore(radius, dx)
      invariant Collected(cells, center, radius, dx, -radius, results, offsets)
    {
      var rmin := Min(radius, -dx + radius);
      var dy := Max(-radius, -dx - radius);
      RowStarts(center, radius, dx, dy);
      results, offsets := Row(cells, center, radius, dx, dy, rmin, results, offsets);
      RowEnds(center, radius, dx, rmin);
      dx := dx + 1;
    }
    AllRows(radius);
    AllVisited(cells, center, radius, results, offsets);
  }

  /** The inner loop: row `dx` from `first` to `last`. */
  method Row<C>(cells: map<Coord, C>, center: Coord, ghost radius: int, dx: int, first: int, last: int,
                found: seq<Option<C>>, ghost seen: seq<Coord>)
    returns (results: seq<Option<C>>, ghost offsets: seq<Coord>)
    requires -radius <= first <= last + 1 && last <= radius && -radius <= dx <= radius
    requires -radius <= dx + first && dx + last <= radius
    requires Collected(cells, center, radius, dx, first, found, seen)
    ensures Collected(cells, center, radius, dx, last + 1, results, offsets)
    ensures |results| == |found| + (last + 1 - first)
  {
    results, offsets := found, seen;
    var dy := first;
    while dy <= last
      invariant first <= dy <= last + 1
      invariant |results| == |found| + (dy - first)
      invariant Collected(cells, center, radius, dx, dy, results, offsets)
    {
      CollectOne(cells, center, radius, dx, dy, results, offsets);
      ghost var o := Coord(dx + center.q, dy + center.r);
      results := results + [Lookup(cells, Coord(dx + center.q, dy + center.r))];
      offsets := offsets + [o];
      dy := dy + 1;
    }
  }

  // ---------- ring ----------

  /** The offset visited in step `j` of side `i`: the corner DIRECTIONS[i + 4] * R, then j steps of DIRECTIONS[i]. */
  function RingAt(c: Coord, radius: int, i: int, j: int): Coord {
    match i
    case 0 => Coord(c.q - radius + j, c.r - j)
    case 1 => Coord(c.q + j, c.r - radius)
    case 2 => Coord(c.q + radius, c.r - radius + j)
    case 3 => Coord(c.q + radius - j, c.r + j)
    case 4 => Coord(c.q - j, c.r + radius)
    case _ => Coord(c.q - radius, c.r + radius - j)
  }

  lemma RingAtSteps(c: Coord, radius: int, i: int, j: int)
    requires 0 <= i < 6
    ensures RingAt(c, radius, i, j + 1) == Plus(RingAt(c, radius, i, j), DIRECTIONS[i])
    ensures RingAt(c, radius, i, radius) == RingAt(c, radius, (i + 1) % 6, 0)
  {
    if i == 0 {} else if i == 1 {} else if i == 2 {} else if i == 3 {} else if i == 4 {} else {}
  }

  /** The side on which the ring visits an offset, and the step on that side. */
  function SideOf(c: Coord, radius: int, o: Coord): int {
    var q, r := o.q - c.q, o.r - c.r;
    if -q - r == radius && q < 0 then 0
    else if r == -radius && -q - r > 0 then 1
    else if q == radius && r < 0 then 2
    else if q + r == radius && q > 0 then 3
    else if r == radius && -q - r < 0 then 4
    else 5
  }

  function StepOf(c: Coord, radius: int, o: Coord): int {
    var q, r := o.q - c.q, o.r - c.r;
    match SideOf(c, radius, o)
    case 0 => -r
    case 1 => q
    case 2 => r + radius
    case 3 => r
    case 4 => -q
    case _ => radius - r
  }

  /** The ring visits exactly the offsets at distance R, each at one step of one side. */
  lemma RingVisits(c: Coord, radius: int, o: Coord)
    requires 1 <= radius
    ensures Distance(o, c) == radius <==>
              var i, j := SideOf(c, radius, o), StepOf(c, radius, o); 0 <= j < radius && RingAt(c, radius, i, j) == o
  {
  }

  lemma RingVisitsOnce(c: Coord, radius: int, i: int, j: int)
    requires 0 <= i < 6 && 0 <= j < radius
    ensures var o := RingAt(c, radius, i, j); SideOf(c, radius, o) == i && StepOf(c, radius, o) == j
  {
  }

  /** On the ring, and visited before step `j` of side `i`. */
  ghost predicate Passed(o: Coord, c: Coord, radius: int, i: int, j: int) {
    var side, step := SideOf(c, radius, o), StepOf(c, radius, o);
    0 <= step < radius && RingAt(c, radius, side, step) == o && (side < i || (side == i && step < j))
  }

  lemma PassOne(c: Coord, radius: int, i: int, j: int, x: Coord)
    requires 0 <= i < 6 && 0 <= j < radius
    ensures Passed(x, c, radius, i, j + 1) <==> Passed(x, c, radius, i, j) || x == RingAt(c, radius, i, j)
    ensures !Passed(RingAt(c, radius, i, j), c, radius, i, j)
  {
    RingVisitsOnce(c, radius, i, j);
  }

  lemma PassCorner(c: Coord, radius: int, i: int, x: Coord)
    requires 0 <= i
    ensures Passed(x, c, radius, i, radius) <==> Passed(x, c, radius, i + 1, 0)
  {
  }

  /** Each offset is a neighbour of the one before it, the first being a neighbour of none. */
  ghost predicate Walk(offsets: seq<Coord>) {
    forall k :: 0 < k < |offsets| ==> Near(offsets[k - 1], offsets[k]) && offsets[k - 1] != offsets[k]
  }

  /** A walk along the ring that is about to visit `next`. */
  ghost predicate WalkTo(offsets: seq<Coord>, start: Coord, next: Coord) {
    && Walk(offsets)
    && (offsets == [] ==> next == start)
    && (offsets != [] ==>
          offsets[0] == start && Near(offsets[|offsets| - 1], next) && offsets[|offsets| - 1] != next)
  }

  lemma WalkOne(offsets: seq<Coord>, start: Coord, o: Coord, d: Coord)
    requires WalkTo(offsets, start, o) && d in DIRECTIONS
    ensures WalkTo(offsets + [o], start, Plus(o, d))
  {
  }

  ghost predicate Ringed(c: Coord, radius: int, i: int, j: int, offsets: seq<Coord>) {
    && Distinct(offsets) && WalkTo(offsets, RingAt(c, radius, 0, 0), RingAt(c, radius, i, j))
    && (forall o :: o in offsets <==> Passed(o, c, radius, i, j))
  }

  lemma RingOne(c: Coord, radius: int, i: int, j: int, offsets: seq<Coord>)
    requires 0 <= i < 6 && 0 <= j < radius && Ringed(c, radius, i, j, offsets)
    ensures Ringed(c, radius, i, j + 1, offsets + [RingAt(c, radius, i, j)])
  {
    var o := RingAt(c, radius, i, j);
    PassOne(c, radius, i, j, o);
    RingAtSteps(c, radius, i, j);
    WalkOne(offsets, RingAt(c, radius, 0, 0), o, DIRECTIONS[i]);
    forall x
      ensures x in offsets + [o] <==> Passed(x, c, radius, i, j + 1)
    {
      PassOne(c, radius, i, j, x);
      assert x in offsets + [o] <==> x in offsets || x == o;
    }
  }

  lemma TurnCorner(c: Coord, radius: int, i: int, offsets: seq<Coord>)
    requires 0 <= i < 5 && Ringed(c, radius, i, radius, offsets)
    ensures Ringed(c, radius, i + 1, 0, offsets)
  {
    RingAtSteps(c, radius, i, 0);
    forall x
      ensures Passed(x, c, radius, i, radius) <==> Passed(x, c, radius, i + 1, 0)
    {
      PassCorner(c, radius, i, x);
    }
  }

  lemma RingComplete(c: Coord, radius: int, offsets: seq<Coord>)
    requires 1 <= radius && Ringed(c, radius, 5, radius, offsets) && offsets != []
    ensures forall o :: o in offsets <==> Distance(o, c) == radius
    ensures Walk(offsets) && Near(offsets[|offsets| - 1], offsets[0]) && offsets[|offsets| - 1] != offsets[0]
  {
    RingAtSteps(c, radius, 5, 0);
    forall o
      ensures o in offsets <==> Distance(o, c) == radius
    {
      RingVisits(c, radius, o);
    }
  }

  /** The inner loop: the steps of side `i`. */
  method Side<C>(cells: map<Coord, C>, ghost center: Coord, radius: int, i: int, found: seq<Option<C>>,
                 ghost seen: seq<Coord>, q0: int, r0: int, cube0: Option<C>)
    returns (results: seq<Option<C>>, ghost offsets: seq<Coord>, q: int, r: int, cube: Option<C>)
    requires 0 <= i < 6 && 0 <= radius && LookedUp(cells, seen, found)
    requires Coord(q0, r0) == RingAt(center, radius, i, 0) && cube0 == Lookup(cells, Coord(q0, r0))
    requires Ringed(center, radius, i, 0, seen)
    ensures LookedUp(cells, offsets, results) && |offsets| == |seen| + radius
    ensures Coord(q, r) == RingAt(center, radius, i, radius) && cube == Lookup(cells, Coord(q, r))
    ensures Ringed(center, radius, i, radius, offsets)
  {
    results, offsets, q, r, cube := found, seen, q0, r0, cube0;
    var j := 0;
    while j < radius
      invariant 0 <= j <= radius && |offsets| == |seen| + j && LookedUp(cells, offsets, results)
      invariant Coord(q, r) == RingAt(center, radius, i, j) && cube == Lookup(cells, Coord(q, r))
      invariant Ringed(center, radius, i, j, offsets)
    {
      RingOne(center, radius, i, j, offsets);
      RingAtSteps(center, radius, i, j);
      results := results + [cube];
      offsets := offsets + [Coord(q, r)];
      q := q + DIRECTIONS[i].q;
      r := r + DIRECTIONS[i].r;
      cube := Lookup(cells, Coord(q, r));
      j := j + 1;
    }
  }

  /** `offsets` are the 6R at distance R from the centre, each once, as a closed walk of steps between neighbours. */
  ghost predicate IsRing(center: Coord, radius: int, offsets: seq<Coord>)
    requires 1 <= radius
  {
    && Distinct(offsets) && |offsets| == radius * 6 && (forall o :: o in offsets <==> Distance(o, center) == radius)
    && Walk(offsets) && Near(offsets[|offsets| - 1], offsets[0]) && offsets[|offsets| - 1] != offsets[0]
  }

  method Ring<C>(cells: map<Coord, C>, center: Coord, radius: int) returns (results: seq<Option<C>>)
    requires 1 <= radius
    ensures exists offsets :: LookedUp(cells, offsets, results) && IsRing(center, radius, offsets)
  {
    ghost var offsets: seq<Coord>;
    results, offsets := [], [];
    var q := center.q + DIRECTIONS[4].q * radius;
    var r := center.r + DIRECTIONS[4].r * radius;
    var cube := Lookup(cells, Coord(q, r));
    var i := 0;
    while i < 6
      invariant 0 <= i <= 6 && |offsets| == i * radius && LookedUp(cells, offsets, results)
      invariant Coord(q, r) == RingAt(center, radius, i % 6, 0) && cube == Lookup(cells, Coord(q, r))
      invariant i < 6 ==> Ringed(center, radius, i, 0, offsets)
      invariant i == 6 ==> Ringed(center, radius, 5, radius, offsets)
    {
      results, offsets, q, r, cube := Side(cells, center, radius, i, results, offsets, q, r, cube);
      RingAtSteps(center, radius, i, 0);
      if i < 5 {
        TurnCorner(center, radius, i, offsets);
      }
      i := i + 1;
    }
    RingComplete(center, radius, offsets);
  }
}
