/** RectBoundingBox: four vertices turned in place, and the normals and bounds cached under a dirty flag. */
module BoundingBoxes {
  import opened Plane

  function Turned(p: Point, c: real, s: real): Point {
    Point(p.x * c - p.y * s, p.x * s + p.y * c)
  }

  function TurnedAll(vs: seq<Point>, c: real, s: real): (r: seq<Point>)
    ensures |r| == |vs|
  {
    seq(|vs|, i requires 0 <= i < |vs| => Turned(vs[i], c, s))
  }

  function Placed(vs: seq<Point>, position: Point): (r: seq<Point>)
    ensures |r| == |vs|
  {
    seq(|vs|, i requires 0 <= i < |vs| => Plus(vs[i], position))
  }

  /** The normal of the edge from p to q. */
  function NormalOf(p: Point, q: Point): Point {
    Point(-(p.y - q.y), p.x - q.x)
  }

  function NormalsOf(vs: seq<Point>): (r: seq<Point>)
    requires |vs| == 4
    ensures |r| == 2
  {
    [NormalOf(vs[0], vs[1]), NormalOf(vs[1], vs[2])]
  }

  predicate Covers(vs: seq<Point>, low: Point, high: Point) {
    forall i :: 0 <= i < |vs| ==> low.x <= vs[i].x <= high.x && low.y <= vs[i].y <= high.y
  }

  predicate HasX(vs: seq<Point>, x: real) { exists i :: 0 <= i < |vs| && vs[i].x == x }

  predicate HasY(vs: seq<Point>, y: real) { exists i :: 0 <= i < |vs| && vs[i].y == y }

  /** `low` and `high` are the corners of the smallest axis-parallel rectangle around the vertices. */
  predicate IsBounds(vs: seq<Point>, low: Point, high: Point) {
    Covers(vs, low, high) && HasX(vs, low.x) && HasY(vs, low.y) && HasX(vs, high.x) && HasY(vs, high.y)
  }

  // ---------- Shapes ----------

  /** A parallelogram with some area, its vertices in order around it. */
  predicate IsParallelogram(vs: seq<Point>) {
    && |vs| == 4
    && Minus(vs[0], vs[1]) == Minus(vs[3], vs[2])
    && Cross(Minus(vs[0], vs[1]), Minus(vs[2], vs[1])) != 0.0
  }

  predicate IsRectangle(vs: seq<Point>) {
    && |vs| == 4
    && Minus(vs[0], vs[1]) == Minus(vs[3], vs[2])
    && Dot(Minus(vs[0], vs[1]), Minus(vs[2], vs[1])) == 0.0
    && vs[0] != vs[1] && vs[2] != vs[1]
  }

  lemma PositiveTimes(x: real, y: real)
    requires x > 0.0 && y > 0.0
    ensures Times(x, y) > 0.0
  {
  }

  lemma SquareNotNegative(x: real)
    ensures Times(x, x) >= 0.0 && (x != 0.0 ==> Times(x, x) > 0.0)
  {
    if x > 0.0 {
      PositiveTimes(x, x);
    } else if x < 0.0 {
      PositiveTimes(-x, -x);
      assert Times(-x, -x) == Times(x, x);
    }
  }

  lemma DotIsTimes(p: Point, q: Point)
    ensures Dot(p, q) == Times(p.x, q.x) + Times(p.y, q.y)
  {
  }

  lemma SquarePositive(p: Point)
    requires p.x != 0.0 || p.y != 0.0
    ensures Dot(p, p) > 0.0
  {
    DotIsTimes(p, p);
    SquareNotNegative(p.x);
    SquareNotNegative(p.y);
  }

  lemma Lagrange(p: Point, q: Point)
    ensures Times(Dot(p, p), Dot(q, q)) == Times(Dot(p, q), Dot(p, q)) + Times(Cross(p, q), Cross(p, q))
  {
  }

  lemma RectangleIsParallelogram(vs: seq<Point>)
    requires IsRectangle(vs)
    ensures IsParallelogram(vs)
  {
    var e, f := Minus(vs[0], vs[1]), Minus(vs[2], vs[1]);
    SquarePositive(e);
    SquarePositive(f);
    Lagrange(e, f);
    assert Times(Dot(e, e), Dot(f, f)) > 0.0;
  }

  /** The vector from the origin turns by the angle with cosine c and sine s, counterclockwise. */
  lemma TurnedByAngle(p: Point, c: real, s: real)
    ensures var q := Turned(p, c, s);
            && Dot(p, q) == c * Dot(p, p) && Cross(p, q) == s * Dot(p, p)
            && (c * c + s * s == 1.0 ==> Dot(q, q) == Dot(p, p))
            && (p == Point(1.0, 0.0) ==> q == Point(c, s)) && (p == Point(0.0, 1.0) ==> q == Point(-s, c))
  {
    TurnedDot(p, p, c, s);
  }

  /** The normal is the edge, from q to p, turned by a quarter, counterclockwise. */
  lemma NormalIsQuarterTurn(p: Point, q: Point)
    ensures NormalOf(p, q) == Turned(Minus(p, q), 0.0, 1.0)
    ensures Dot(Minus(p, q), NormalOf(p, q)) == 0.0
    ensures Cross(Minus(p, q), NormalOf(p, q)) == Dot(Minus(p, q), Minus(p, q))
  {
  }

  lemma TurnedDot(p: Point, q: Point, c: real, s: real)
    ensures Dot(Turned(p, c, s), Turned(q, c, s)) == Times(c * c + s * s, Dot(p, q))
  {
  }

  lemma EveryVertexTurns(vs: seq<Point>, us: seq<Point>, c: real, s: real)
    requires |us| == |vs| && forall i :: 0 <= i < |vs| ==> us[i] == Turned(vs[i], c, s)
    ensures forall i :: 0 <= i < |vs| ==>
              var p, q := vs[i], us[i];
              && Dot(p, q) == c * Dot(p, p) && Cross(p, q) == s * Dot(p, p)
              && (c * c + s * s == 1.0 ==> Dot(q, q) == Dot(p, p))
              && (p == Point(1.0, 0.0) ==> q == Point(c, s))
  {
    forall i | 0 <= i < |vs|
      ensures var p, q := vs[i], us[i];
              && Dot(p, q) == c * Dot(p, p) && Cross(p, q) == s * Dot(p, p)
              && (c * c + s * s == 1.0 ==> Dot(q, q) == Dot(p, p))
              && (p == Point(1.0, 0.0) ==> q == Point(c, s))
    {
      TurnedByAngle(vs[i], c, s);
    }
  }

  lemma TurnedMinus(p: Point, q: Point, c: real, s: real)
    ensures Minus(Turned(p, c, s), Turned(q, c, s)) == Turned(Minus(p, q), c, s)
  {
  }

  lemma TurnedBack(p: Point, c: real, s: real)
    requires c * c + s * s == 1.0
    ensures Turned(Turned(p, c, s), c, -s) == p
  {
    assert Turned(Turned(p, c, s), c, -s).x == p.x * (c * c + s * s);
    assert Turned(Turned(p, c, s), c, -s).y == p.y * (c * c + s * s);
  }

  /** Turning keeps the inner products of the differences of vertices. */
  lemma TurnedPair(p: Point, q: Point, u: Point, v: Point, c: real, s: real)
    requires c * c + s * s == 1.0
    ensures Dot(Minus(Turned(p, c, s), Turned(q, c, s)), Minus(Turned(u, c, s), Turned(v, c, s)))
            == Dot(Minus(p, q), Minus(u, v))
  {
    TurnedMinus(p, q, c, s);
    TurnedMinus(u, v, c, s);
    TurnedDot(Minus(p, q), Minus(u, v), c, s);
  }

  /** Turning by an angle with cosine c and sine s keeps a rectangle a rectangle. */
  lemma TurnedRectangle(vs: seq<Point>, c: real, s: real)
    requires IsRectangle(vs) && c * c + s * s == 1.0
    ensures IsRectangle(TurnedAll(vs, c, s))
  {
    TurnedMinus(vs[0], vs[1], c, s);
    TurnedMinus(vs[3], vs[2], c, s);
    TurnedPair(vs[0], vs[1], vs[2], vs[1], c, s);
    TurnedBack(vs[0], c, s);
    TurnedBack(vs[1], c, s);
    TurnedBack(vs[2], c, s);
  }

  /** Turning keeps every distance between vertices. */
  lemma TurnedDistances(vs: seq<Point>, c: real, s: real, i: nat, j: nat)
    requires c * c + s * s == 1.0 && i < |vs| && j < |vs|
    ensures var r := TurnedAll(vs, c, s);
            Dot(Minus(r[i], r[j]), Minus(r[i], r[j])) == Dot(Minus(vs[i], vs[j]), Minus(vs[i], vs[j]))
  {
    TurnedPair(vs[i], vs[j], vs[i], vs[j], c, s);
  }

  lemma PlacedKeepsShape(vs: seq<Point>, position: Point)
    requires |vs| == 4
    ensures NormalsOf(Placed(vs, position)) == NormalsOf(vs)
    ensures IsParallelogram(Placed(vs, position)) <==> IsParallelogram(vs)
  {
    var r := Placed(vs, position);
    assert Minus(r[0], r[1]) == Minus(vs[0], vs[1]);
    assert Minus(r[2], r[1]) == Minus(vs[2], vs[1]);
    assert Minus(r[3], r[2]) == Minus(vs[3], vs[2]);
  }

  // ---------- Bounds ----------

  lemma CoversOneMore(vs: seq<Point>, v: Point, low: Point, high: Point, low1: Point, high1: Point)
    requires Covers(vs, low, high)
    requires low1.x <= low.x && low1.y <= low.y && high1.x >= high.x && high1.y >= high.y
    requires low1.x <= v.x <= high1.x && low1.y <= v.y <= high1.y
    ensures Covers(vs + [v], low1, high1)
  {
  }

  lemma HasOneMoreX(vs: seq<Point>, v: Point, x: real, x1: real)
    requires HasX(vs, x) && (x1 == x || x1 == v.x)
    ensures HasX(vs + [v], x1)
  {
    var i :| 0 <= i < |vs| && vs[i].x == x;
    assert (vs + [v])[i].x == x && (vs + [v])[|vs|] == v;
  }

  lemma HasOneMoreY(vs: seq<Point>, v: Point, y: real, y1: real)
    requires HasY(vs, y) && (y1 == y || y1 == v.y)
    ensures HasY(vs + [v], y1)
  {
    var i :| 0 <= i < |vs| && vs[i].y == y;
    assert (vs + [v])[i].y == y && (vs + [v])[|vs|] == v;
  }

  lemma PlacedHas(vs: seq<Point>, position: Point, x: real, y: real)
    ensures HasX(vs, x) ==> HasX(Placed(vs, position), x + position.x)
    ensures HasY(vs, y) ==> HasY(Placed(vs, position), y + position.y)
  {
    if HasX(vs, x) {
      var i :| 0 <= i < |vs| && vs[i].x == x;
      assert Placed(vs, position)[i].x == x + position.x;
    }
    if HasY(vs, y) {
      var i :| 0 <= i < |vs| && vs[i].y == y;
      assert Placed(vs, position)[i].y == y + position.y;
    }
  }

  lemma PlacedBounds(vs: seq<Point>, position: Point, low: Point, high: Point)
    requires IsBounds(vs, low, high)
    ensures IsBounds(Placed(vs, position), Plus(low, position), Plus(high, position))
  {
    PlacedHas(vs, position, low.x, low.y);
    PlacedHas(vs, position, high.x, high.y);
  }

  // ---------- The class ----------

  class RectBoundingBox {
    var position: Point
    var vertices: seq<Point>
    var normals: seq<Point>
    var min: Point
    var max: Point
    var recalcNormals: bool

    ghost predicate Valid()
      reads this
    {
      |vertices| == 4 && |normals| == 2
    }

    /** The caches are either marked stale or right. False until the first Rotate. */
    ghost predicate Settled()
      requires Valid()
      reads this
    {
      !recalcNormals ==> normals == NormalsOf(vertices) && IsBounds(vertices, min, max)
    }

    ghost function Shape(): (r: seq<Point>)
      requires Valid()
      reads this
      ensures |r| == 4
    {
      Placed(vertices, position)
    }

    /** The constructor leaves the two normals and the bounds without a meaningful value, and the flag down. */
    constructor (position: Point, vertices: seq<Point>)
      requires |vertices| == 4
      ensures Valid() && !recalcNormals && this.position == position && this.vertices == vertices
    {
      var unset0, unset1: Point := *, *;
      this.position, this.vertices, this.normals, this.recalcNormals := position, vertices, [unset0, unset1], false;
    }

    /** Every vertex turns around the origin by the angle with cosine c and sine s, counterclockwise. */
    method Rotate(c: real, s: real)
      requires Valid()
      modifies this`vertices, this`recalcNormals
      ensures Valid() && Settled() && recalcNormals
      ensures vertices == TurnedAll(old(vertices), c, s)
      ensures forall i :: 0 <= i < 4 ==>
                var p, q := old(vertices)[i], vertices[i];
                && Dot(p, q) == c * Dot(p, p) && Cross(p, q) == s * Dot(p, p)
                && (c * c + s * s == 1.0 ==> Dot(q, q) == Dot(p, p))
                && (p == Point(1.0, 0.0) ==> q == Point(c, s))
    {
      for i := 0 to |vertices|
        invariant |vertices| == 4
        invariant forall j :: 0 <= j < i ==> vertices[j] == Turned(old(vertices)[j], c, s)
        invariant forall j :: i <= j < 4 ==> vertices[j] == old(vertices)[j]
      {
        vertices := vertices[i := Turned(vertices[i], c, s)];
      }
      recalcNormals := true;
      EveryVertexTurns(old(vertices), vertices, c, s);
    }

    method Normals() returns (r: seq<Point>)
      requires Valid()
      modifies this`normals, this`min, this`max, this`recalcNormals
      ensures Valid() && r == normals && !recalcNormals
      ensures old(recalcNormals) ==> normals == NormalsOf(vertices) && IsBounds(vertices, min, max)
      ensures !old(recalcNormals) ==> normals == old(normals) && min == old(min) && max == old(max)
      ensures old(Settled()) ==> Settled()
    {
      if recalcNormals {
        min, max := vertices[0], vertices[0];
        for i := 0 to 4
          invariant |normals| == 2
          invariant 0 < i ==> normals[0] == NormalOf(vertices[0], vertices[1])
          invariant 1 < i ==> normals[1] == NormalOf(vertices[1], vertices[2])
          invariant IsBounds(vertices[..Count(i)], min, max)
        {
          if i < 2 {
            normals := normals[i := NormalOf(vertices[i], vertices[i + 1])];
          }
          if i > 0 {
            Widen(vertices[i], vertices[..i]);
            assert vertices[..i + 1] == vertices[..i] + [vertices[i]];
          }
        }
        assert vertices[..4] == vertices;
        recalcNormals := false;
      }
      r := normals;
    }

    /** How many vertices the bounds cover before step i: the first one is there from the start. */
    static function Count(i: nat): nat { if i == 0 then 1 else i }

    /** One step of the loop in Normals: the bounds come to cover one more vertex. */
    method Widen(v: Point, ghost seen: seq<Point>)
      requires |seen| > 0 && IsBounds(seen, min, max)
      modifies this`min, this`max
      ensures IsBounds(seen + [v], min, max)
    {
      if v.x < min.x {
        min := Point(v.x, min.y);
      } else if v.x > max.x {
        max := Point(v.x, max.y);
      }
      if v.y < min.y {
        min := Point(min.x, v.y);
      } else if v.y > max.y {
        max := Point(max.x, v.y);
      }
      CoversOneMore(seen, v, old(min), old(max), min, max);
      HasOneMoreX(seen, v, old(min.x), min.x);
      HasOneMoreX(seen, v, old(max.x), max.x);
      HasOneMoreY(seen, v, old(min.y), min.y);
      HasOneMoreY(seen, v, old(max.y), max.y);
    }

    /** asRect. Once the box has been turned this is the smallest axis-parallel rectangle around it, as
        (x0, y0, x1, y1); before that it is made of whatever the cached bounds are. */
    method AsRect() returns (x0: real, y0: real, x1: real, y1: real)
      requires Valid()
      modifies this`normals, this`min, this`max, this`recalcNormals
      ensures Valid() && !recalcNormals
      ensures Point(x0, y0) == Plus(min, position) && Point(x1, y1) == Plus(max, position)
      ensures !old(recalcNormals) ==> min == old(min) && max == old(max)
      ensures old(Settled()) ==> Settled() && IsBounds(Shape(), Point(x0, y0), Point(x1, y1))
    {
      var pos := position;
      var _ := Normals();
      x0, y0, x1, y1 := min.x + pos.x, min.y + pos.y, max.x + pos.x, max.y + pos.y;
      if old(Settled()) {
        PlacedBounds(vertices, pos, min, max);
      }
    }
  }
}
