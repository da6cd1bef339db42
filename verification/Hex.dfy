/** Axial hexagon coordinates of the map (offset.hpp), and the two neighbourhood lists of map.cpp. */
module Hex {

  datatype Coord = Coord(q: int, r: int) {
    /** The third cube coordinate. */
    function S(): int { -q - r }
  }

  function Abs(x: int): nat { if x < 0 then -x else x }

  function Max(x: int, y: int): int { if x < y then y else x }

  function Min(x: int, y: int): int { if x < y then x else y }

  function Distance(a: Coord, b: Coord): nat {
    Max(Max(Abs(a.q - b.q), Abs(a.r - b.r)), Abs(a.S() - b.S()))
  }

  function Plus(a: Coord, b: Coord): Coord { Coord(a.q + b.q, a.r + b.r) }

  function Minus(a: Coord, b: Coord): Coord { Coord(a.q - b.q, a.r - b.r) }

  function Scale(a: Coord, k: int): Coord { Coord(k * a.q, k * a.r) }

  const MAX_DIR_IDX := 6

  const DIRECTIONS := [Coord(1, -1), Coord(1, 0), Coord(0, 1), Coord(-1, 1), Coord(-1, 0), Coord(0, -1)]

  function DirectionIndex(d: Coord): int {
    if d == Coord(1, -1) then 0
    else if d == Coord(1, 0) then 1
    else if d == Coord(0, 1) then 2
    else if d == Coord(-1, 1) then 3
    else if d == Coord(-1, 0) then 4
    else if d == Coord(0, -1) then 5
    else -1
  }

  /** Distance at most 1, without the case splits of Distance: the closed ball N[b] contains a. */
  predicate Near(a: Coord, b: Coord) {
    -1 <= a.q - b.q <= 1 && -1 <= a.r - b.r <= 1 && -1 <= a.S() - b.S() <= 1
  }

  lemma NearIsDistanceOne(a: Coord, b: Coord)
    ensures Near(a, b) <==> Distance(a, b) <= 1
    ensures Near(a, b) <==> Near(b, a)
    ensures Distance(a, b) == 0 <==> a == b
  {
  }

  lemma DirectionIndexInverts(a: Coord, b: Coord)
    ensures DirectionIndex(Minus(a, b)) == -1 <==> !(Near(a, b) && a != b)
    ensures var i := DirectionIndex(Minus(a, b)); i != -1 ==> 0 <= i < MAX_DIR_IDX && a == Plus(b, DIRECTIONS[i])
  {
  }

  /** The six cells of createSiblings and getSiblings, in the order of the source. */
  function Siblings(c: Coord): seq<Coord> {
    [Coord(c.q, c.r - 1), Coord(c.q + 1, c.r - 1), Coord(c.q + 1, c.r),
     Coord(c.q, c.r + 1), Coord(c.q - 1, c.r + 1), Coord(c.q - 1, c.r)]
  }

  lemma SiblingsAreTheRing(c: Coord, o: Coord)
    ensures o in Siblings(c) <==> Near(o, c) && o != c
  {
    var s := Siblings(c);
    assert o in s <==> o == s[0] || o == s[1] || o == s[2] || o == s[3] || o == s[4] || o == s[5];
  }

  /** The three cells that getCellsExcluding(cell, exclude) names when `exclude` is adjacent. */
  function Ahead(c: Coord, x: Coord): (cells: seq<Coord>)
    requires DirectionIndex(Minus(c, x)) != -1
  {
    var d := Minus(c, x);
    var idx := DirectionIndex(d);
    var i := if idx == 0 then MAX_DIR_IDX - 1 else idx - 1;
    var j := (idx + 1) % MAX_DIR_IDX;
    [Plus(c, d), Plus(c, DIRECTIONS[i]), Plus(c, DIRECTIONS[j])]
  }

  /** N[c] without N[x], each cell once. */
  lemma AheadIsTheDifference(c: Coord, x: Coord)
    requires Near(c, x) && c != x
    ensures DirectionIndex(Minus(c, x)) != -1
    ensures var a := Ahead(c, x); |a| == 3 && a[0] != a[1] && a[0] != a[2] && a[1] != a[2]
    ensures forall o :: o in Ahead(c, x) <==> Near(o, c) && !Near(o, x)
  {
    DirectionIndexInverts(c, x);
    var a := Ahead(c, x);
    forall o
      ensures o in a <==> Near(o, c) && !Near(o, x)
    {
      AheadPointwise(c, x, o);
      assert o in a <==> o == a[0] || o == a[1] || o == a[2];
    }
  }

  lemma AheadPointwise(c: Coord, x: Coord, o: Coord)
    requires DirectionIndex(Minus(c, x)) != -1
    ensures var a := Ahead(c, x); |a| == 3 && a[0] != a[1] && a[0] != a[2] && a[1] != a[2]
    ensures var a := Ahead(c, x);
            (o == a[0] || o == a[1] || o == a[2]) <==> Near(o, c) && !Near(o, x)
  {
    var i := DirectionIndex(Minus(c, x));
    if i == 0 {} else if i == 1 {} else if i == 2 {} else if i == 3 {} else if i == 4 {} else {}
  }
}
