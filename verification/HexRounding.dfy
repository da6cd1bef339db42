/** offsetOf and Offset::center over the reals: a point falls into the cell whose centre is nearest.
    `w` stands for sqrt(3): the positive real with w * w == 3. */
module HexRounding {
  import opened Hex
  import opened Plane

  const CELL_SIZE: real := 80.0
  /** The radius Cell::Cell gives its RadialQuadTree, cellSize_x + 10. */
  const QUADTREE_RADIUS: real := 90.0

  predicate IsRoot3(w: real) { w > 0.0 && w * w == 3.0 }

  /** round(): the nearest integer, halves away from zero. */
  function Round(x: real): int {
    if x >= 0.0 then (x + 0.5).Floor else -((-x + 0.5).Floor)
  }

  lemma RoundIsNear(x: real)
    ensures -0.5 <= Round(x) as real - x <= 0.5
  {
  }

  lemma RoundsHalvesAway(i: int)
    requires i >= 0
    ensures Round(i as real + 0.5) == i + 1 && Round(-(i as real) - 0.5) == -i - 1
  {
  }

  function AbsR(x: real): real { if x < 0.0 then -x else x }

  function Center(c: Coord, w: real): Point {
    Point(CELL_SIZE * 3.0 / 2.0 * c.q as real, CELL_SIZE * w * (c.r as real + c.q as real / 2.0))
  }

  /** The fractional coordinates that offsetOf computes for a point. */
  function FractionalQ(p: Point): real { p.x * 2.0 / 3.0 / CELL_SIZE }

  function FractionalR(p: Point, w: real): real { (-p.x / 3.0 + w / 3.0 * p.y) / CELL_SIZE }

  /** The coordinate with the largest rounding error is recomputed from the other two. */
  function Repair(q: real, r: real, qi: int, ri: int, si: int): Coord {
    var dq, dr, ds := AbsR(qi as real - q), AbsR(ri as real - r), AbsR(si as real - (-q - r));
    if dq > dr && dq > ds then Coord(-ri - si, ri)
    else if dr > ds then Coord(qi, -qi - si)
    else Coord(qi, ri)
  }

  function RoundCube(q: real, r: real): Coord {
    Repair(q, r, Round(q), Round(r), Round(-q - r))
  }

  function OffsetOf(p: Point, w: real): Coord {
    RoundCube(FractionalQ(p), FractionalR(p, w))
  }

  function DistanceSquared(a: Point, b: Point): real {
    (a.x - b.x) * (a.x - b.x) + (a.y - b.y) * (a.y - b.y)
  }

  // ---------- Where the centres lie ----------

  /** The centre of the first cell is the origin; a step in q leads 120 to the right and 40 sqrt(3) up, a step in r
      leads 80 sqrt(3) up. */
  lemma CentresAreALattice(c: Coord, w: real)
    ensures Center(Coord(0, 0), w) == Point(0.0, 0.0)
    ensures Center(Hex.Plus(c, Coord(1, 0)), w) == Plane.Plus(Center(c, w), Point(120.0, 40.0 * w))
    ensures Center(Hex.Plus(c, Coord(0, 1)), w) == Plane.Plus(Center(c, w), Point(0.0, 80.0 * w))
  {
  }

  // ---------- The hexagon around a cell ----------

  /** How far the fractional point (q, r) is from the cell `c`, in each cube coordinate. */
  function Dq(c: Coord, q: real): real { q - c.q as real }

  function Dr(c: Coord, r: real): real { r - c.r as real }

  /** The hexagonal cell in cube coordinates: no two of the three differences are more than 1 apart. */
  predicate InHexagon(a: real, b: real) {
    var c := -a - b;
    -1.0 <= a - b <= 1.0 && -1.0 <= b - c <= 1.0 && -1.0 <= c - a <= 1.0
  }

  /** Three rounding errors that add up to a whole number: taking it from the largest gives the hexagon. */
  lemma FixLargest(a: real, b: real, c: real, t: int)
    requires -0.5 <= a <= 0.5 && -0.5 <= b <= 0.5 && -0.5 <= c <= 0.5 && a + b + c == -(t as real)
    ensures AbsR(a) > AbsR(b) && AbsR(a) > AbsR(c) ==> InHexagon(a + t as real, b)
    ensures !(AbsR(a) > AbsR(b) && AbsR(a) > AbsR(c)) && AbsR(b) > AbsR(c) ==> InHexagon(a, b + t as real)
    ensures !(AbsR(a) > AbsR(b) && AbsR(a) > AbsR(c)) && AbsR(b) <= AbsR(c) ==> InHexagon(a, b)
  {
    assert -1 <= t <= 1;
    if t == 0 {
    } else if t == 1 {
      assert a <= 0.0 && b <= 0.0 && c <= 0.0;
    } else {
      assert a >= 0.0 && b >= 0.0 && c >= 0.0;
    }
  }

  lemma RepairedHexagon(q: real, r: real, qi: int, ri: int, si: int)
    requires -0.5 <= qi as real - q <= 0.5 && -0.5 <= ri as real - r <= 0.5 && -0.5 <= si as real - (-q - r) <= 0.5
    ensures var o := Repair(q, r, qi, ri, si); InHexagon(Dq(o, q), Dr(o, r))
  {
    var a, b, c := q - qi as real, r - ri as real, (-q - r) - si as real;
    var t := qi + ri + si;
    assert t as real == qi as real + ri as real + si as real;
    FixLargest(a, b, c, t);
    assert AbsR(qi as real - q) == AbsR(a) && AbsR(ri as real - r) == AbsR(b) && AbsR(si as real - (-q - r)) == AbsR(c);
  }

  /** Rounding lands in a cell whose hexagon holds the point. */
  lemma RoundingLandsInHexagon(q: real, r: real)
    ensures var c := RoundCube(q, r); InHexagon(Dq(c, q), Dr(c, r))
  {
    RoundIsNear(q);
    RoundIsNear(r);
    RoundIsNear(-q - r);
    RepairedHexagon(q, r, Round(q), Round(r), Round(-q - r));
  }

  // ---------- Distances ----------

  /** Squared length in cube coordinates: what a squared distance is, in units of 3/2 CELL_SIZE^2. */
  function Cube(a: real, b: real): real { a * a + b * b + (a + b) * (a + b) }

  lemma DistanceIsCube(p: Point, c: Coord, w: real)
    requires IsRoot3(w)
    ensures DistanceSquared(p, Center(c, w)) ==
            1.5 * CELL_SIZE * CELL_SIZE * Cube(Dq(c, FractionalQ(p)), Dr(c, FractionalR(p, w)))
  {
    var a, b := Dq(c, FractionalQ(p)), Dr(c, FractionalR(p, w));
    var center := Center(c, w);
    assert p.x - center.x == CELL_SIZE * 1.5 * a;
    var y := b + a / 2.0;
    assert p.y - center.y == CELL_SIZE * w * y by {
      assert w * p.y / 3.0 == CELL_SIZE * (FractionalR(p, w) + FractionalQ(p) / 2.0);
      assert w * (w * p.y / 3.0) == p.y;
    }
    assert (CELL_SIZE * w * y) * (CELL_SIZE * w * y) == CELL_SIZE * CELL_SIZE * (w * w) * (y * y);
  }

  lemma SquareAtLeast(i: int, x: real)
    requires i >= 0 && x == i as real
    ensures x * x >= x
  {
    if i > 0 {
      assert (x - 1.0) * x >= 0.0;
    }
  }

  lemma NonNegative(x: real, y: real)
    requires x >= 0.0 && y >= 0.0
    ensures x * y >= 0.0
  {
  }

  /** i steps towards a neighbour at slope f <= 1 and j steps towards the next one around, at slope g <= 1. */
  lemma StepsCostMore(i: int, j: int, x: real, y: real, f: real, g: real)
    requires i >= 0 && j >= 0 && x == i as real && y == j as real && f <= 1.0 && g <= 1.0
    ensures 2.0 * (x * x + x * y + y * y) - 2.0 * (x * f) - 2.0 * (y * g) >= 0.0
  {
    SquareAtLeast(i, x);
    SquareAtLeast(j, y);
    NonNegative(x, y);
    NonNegative(x, 1.0 - f);
    NonNegative(y, 1.0 - g);
    assert x * (1.0 - f) == x - x * f && y * (1.0 - g) == y - y * g;
  }

  /** Moving by i steps of one direction and j of the next, out of the hexagon's own cell. */
  lemma SectorIsFarther(a: real, b: real, i: int, j: int)
    requires InHexagon(a, b) && i >= 0 && j >= 0
    ensures var x, y := i as real, j as real;
            && Cube(a - (x + y), b + x) >= Cube(a, b) && Cube(a + (x + y), b - x) >= Cube(a, b)
            && Cube(a - x, b - y) >= Cube(a, b) && Cube(a + x, b + y) >= Cube(a, b)
            && Cube(a + y, b - (x + y)) >= Cube(a, b) && Cube(a - y, b + (x + y)) >= Cube(a, b)
  {
    var x, y, c := i as real, j as real, -a - b;
    StepsCostMore(i, j, x, y, a - b, a - c);
    StepsCostMore(i, j, x, y, b - a, c - a);
    StepsCostMore(i, j, x, y, a - c, b - c);
    StepsCostMore(i, j, x, y, c - a, c - b);
    StepsCostMore(i, j, x, y, b - c, b - a);
    StepsCostMore(i, j, x, y, c - b, a - b);
    CubeShift(a, b, x + y, -x);
    CubeShift(a, b, -x - y, x);
    CubeShift(a, b, x, y);
    CubeShift(a, b, -x, -y);
    CubeShift(a, b, -y, x + y);
    CubeShift(a, b, y, -x - y);
  }

  lemma CubeShift(a: real, b: real, u: real, v: real)
    ensures Cube(a - u, b - v) - Cube(a, b) ==
            2.0 * (u * u + u * v + v * v) - 2.0 * (u * (2.0 * a + b)) - 2.0 * (v * (a + 2.0 * b))
  {
  }

  /** Every lattice vector lies in one of the six sectors. */
  lemma NearestInCube(a: real, b: real, m: int, n: int)
    requires InHexagon(a, b)
    ensures Cube(a - m as real, b - n as real) >= Cube(a, b)
  {
    if m >= 0 && n >= 0 {
      SectorIsFarther(a, b, m, n);
    } else if m <= 0 && n <= 0 {
      SectorIsFarther(a, b, -m, -n);
    } else if m > 0 && m + n >= 0 {
      SectorIsFarther(a, b, -n, m + n);
    } else if m > 0 {
      SectorIsFarther(a, b, -m - n, m);
    } else if m + n >= 0 {
      SectorIsFarther(a, b, m + n, -m);
    } else {
      SectorIsFarther(a, b, n, -m - n);
    }
  }

  /** offsetOf is a nearest cell: no other centre, among all of them, is closer to the point. */
  lemma OffsetOfIsNearest(p: Point, w: real, other: Coord)
    requires IsRoot3(w)
    ensures DistanceSquared(p, Center(OffsetOf(p, w), w)) <= DistanceSquared(p, Center(other, w))
  {
    var o := OffsetOf(p, w);
    var q, r := FractionalQ(p), FractionalR(p, w);
    RoundingLandsInHexagon(q, r);
    NearestInCube(Dq(o, q), Dr(o, r), other.q - o.q, other.r - o.r);
    assert Dq(other, q) == Dq(o, q) - (other.q - o.q) as real;
    assert Dr(other, r) == Dr(o, r) - (other.r - o.r) as real;
    DistanceIsCube(p, o, w);
    DistanceIsCube(p, other, w);
  }

  lemma HexagonIsSmall(a: real, b: real)
    requires InHexagon(a, b)
    ensures Cube(a, b) <= 2.0 / 3.0
  {
    var c := -a - b;
    var x, y := a - b, b - c;
    assert 3.0 * Cube(a, b) == x * x + y * y + (x + y) * (x + y);
    UnitDifferences(x, y);
  }

  lemma UnitSum(p: real, q: real)
    requires p >= 0.0 && q >= 0.0 && p + q <= 1.0
    ensures p * p + q * q + (p + q) * (p + q) <= 2.0
  {
    var t := p + q;
    NonNegative(1.0 - t, 1.0 + t);
    assert (1.0 - t) * (1.0 + t) == 1.0 - t * t;
    NonNegative(p, q);
    assert t * t == p * p + 2.0 * (p * q) + q * q;
  }

  lemma UnitDifferences(x: real, y: real)
    requires -1.0 <= x <= 1.0 && -1.0 <= y <= 1.0 && -1.0 <= x + y <= 1.0
    ensures x * x + y * y + (x + y) * (x + y) <= 2.0
  {
    var z := -x - y;
    if x >= 0.0 && y >= 0.0 {
      UnitSum(x, y);
    } else if x <= 0.0 && y <= 0.0 {
      UnitSum(-x, -y);
    } else if x >= 0.0 && z >= 0.0 {
      UnitSum(x, z);
    } else if x <= 0.0 && z <= 0.0 {
      UnitSum(-x, -z);
    } else if y >= 0.0 {
      UnitSum(y, z);
    } else {
      UnitSum(-y, -z);
    }
  }

  /** RadialQuadTree::contains */
  predicate InQuadTree(p: Point, centre: Point) {
    DistanceSquared(p, centre) <= QUADTREE_RADIUS * QUADTREE_RADIUS
  }

  /** A point is within the cell size, 80, of the centre of its cell, so the quadtree of its cell contains it. */
  lemma PointIsInItsCell(p: Point, w: real)
    requires IsRoot3(w)
    ensures DistanceSquared(p, Center(OffsetOf(p, w), w)) <= 6400.0
    ensures InQuadTree(p, Center(OffsetOf(p, w), w))
  {
    var o := OffsetOf(p, w);
    RoundingLandsInHexagon(FractionalQ(p), FractionalR(p, w));
    HexagonIsSmall(Dq(o, FractionalQ(p)), Dr(o, FractionalR(p, w)));
    DistanceIsCube(p, o, w);
  }

  /** A point farther from a centre is refused by the quadtree of that cell. */
  lemma FarIsRefused(p: Point, centre: Point)
    requires DistanceSquared(p, centre) > 90.0 * 90.0
    ensures !InQuadTree(p, centre)
  {
  }

  lemma CubeOfInteger(a: real, m: int)
    requires a == m as real
    ensures m != 0 ==> a * a >= 1.0
    ensures m >= 2 || m <= -2 ==> a * a >= 4.0
  {
    if m >= 1 {
      NonNegative(a - 1.0, a + 1.0);
      assert (a - 1.0) * (a + 1.0) == a * a - 1.0;
    } else if m <= -1 {
      NonNegative(-a - 1.0, -a + 1.0);
      assert (-a - 1.0) * (-a + 1.0) == a * a - 1.0;
    }
    if m >= 2 {
      NonNegative(a - 2.0, a + 2.0);
      assert (a - 2.0) * (a + 2.0) == a * a - 4.0;
    } else if m <= -2 {
      NonNegative(-a - 2.0, -a + 2.0);
      assert (-a - 2.0) * (-a + 2.0) == a * a - 4.0;
    }
  }

  /** Among the lattice vectors other than 0 the six neighbours are the shortest, and the only ones of their length. */
  lemma NeighboursAreShortest(m: int, n: int)
    requires m != 0 || n != 0
    ensures Cube(m as real, n as real) >= 2.0
    ensures Cube(m as real, n as real) == 2.0 <==> -1 <= m <= 1 && -1 <= n <= 1 && -1 <= m + n <= 1
  {
    var a, b := m as real, n as real;
    assert a + b == (m + n) as real;
    CubeOfInteger(a, m);
    CubeOfInteger(b, n);
    CubeOfInteger(a + b, m + n);
  }

  lemma CentresApart(a: Coord, b: Coord, w: real)
    requires IsRoot3(w)
    ensures DistanceSquared(Center(a, w), Center(b, w)) == 9600.0 * Cube((a.q - b.q) as real, (a.r - b.r) as real)
  {
    DistanceIsCube(Center(a, w), b, w);
    CentreIsExact(a, w);
  }

  /** The centres of two cells are adjacent iff they are 80 sqrt(3) apart, and no two cells are nearer. */
  lemma AdjacentCentres(a: Coord, b: Coord, w: real)
    requires IsRoot3(w) && a != b
    ensures DistanceSquared(Center(a, w), Center(b, w)) >= (80.0 * w) * (80.0 * w)
    ensures Near(a, b) <==> DistanceSquared(Center(a, w), Center(b, w)) == (80.0 * w) * (80.0 * w)
  {
    CentresApart(a, b, w);
    NeighboursAreShortest(a.q - b.q, a.r - b.r);
    assert (80.0 * w) * (80.0 * w) == 6400.0 * (w * w);
  }

  lemma Parallelogram(x: real, y: real)
    ensures (x - y) * (x - y) <= 2.0 * (x * x) + 2.0 * (y * y)
  {
    var z := x + y;
    if z >= 0.0 {
      NonNegative(z, z);
    } else {
      NonNegative(-z, -z);
    }
    assert (x - y) * (x - y) + z * z == 2.0 * (x * x) + 2.0 * (y * y);
  }

  /** From a to b it is not far by way of p. */
  lemma ByWayOf(a: Point, b: Point, p: Point)
    ensures DistanceSquared(a, b) <= 2.0 * DistanceSquared(p, a) + 2.0 * DistanceSquared(p, b)
  {
    Parallelogram(p.x - b.x, p.x - a.x);
    Parallelogram(p.y - b.y, p.y - a.y);
  }

  /** A cell holds every point less than 40 sqrt(3) from its centre: the disc inside its hexagon. */
  lemma DiscIsInItsCell(p: Point, c: Coord, w: real)
    requires IsRoot3(w) && DistanceSquared(p, Center(c, w)) < (40.0 * w) * (40.0 * w)
    ensures OffsetOf(p, w) == c
  {
    var o := OffsetOf(p, w);
    assert (80.0 * w) * (80.0 * w) == 4.0 * ((40.0 * w) * (40.0 * w));
    if o != c {
      OffsetOfIsNearest(p, w, c);
      ByWayOf(Center(o, w), Center(c, w), p);
      AdjacentCentres(o, c, w);
    }
  }

  lemma RoundOfInteger(i: int)
    ensures Round(i as real) == i
  {
  }

  lemma CentreIsExact(c: Coord, w: real)
    requires IsRoot3(w)
    ensures FractionalQ(Center(c, w)) == c.q as real && FractionalR(Center(c, w), w) == c.r as real
  {
    var p := Center(c, w);
    var y := c.r as real + c.q as real / 2.0;
    assert w / 3.0 * p.y == w * w / 3.0 * CELL_SIZE * y;
  }

  /** The centre of a cell falls into that cell. */
  lemma OffsetOfCenter(c: Coord, w: real)
    requires IsRoot3(w)
    ensures OffsetOf(Center(c, w), w) == c
  {
    CentreIsExact(c, w);
    RoundOfInteger(c.q);
    RoundOfInteger(c.r);
    RoundOfInteger(-c.q - c.r);
    assert (-c.q - c.r) as real == -(c.q as real) - c.r as real;
  }

  // ---------- Steps shorter than a cell ----------

  /** A cube coordinate in the hexagon is at most 2/3 away. */
  lemma HexagonIsNarrow(a: real, b: real)
    requires InHexagon(a, b)
    ensures -2.0 / 3.0 <= a <= 2.0 / 3.0 && -2.0 / 3.0 <= b <= 2.0 / 3.0 && -2.0 / 3.0 <= a + b <= 2.0 / 3.0
  {
  }

  lemma CubeAtLeast(a: real, b: real)
    ensures Cube(a, b) >= 1.5 * (a * a)
  {
    var z := b + a / 2.0;
    assert z * z >= 0.0;
    assert z * z == b * b + a * b + a * a / 4.0;
  }

  lemma CubeSymmetric(a: real, b: real)
    ensures Cube(a, b) == Cube(b, a) == Cube(-a - b, b)
  {
  }

  lemma FarCoordinate(a: real)
    requires a >= 2.0 / 3.0 || a <= -2.0 / 3.0
    ensures 1.5 * (a * a) >= 2.0 / 3.0
  {
    if a >= 2.0 / 3.0 {
      assert (a - 2.0 / 3.0) * (a + 2.0 / 3.0) >= 0.0;
    } else {
      assert (-a - 2.0 / 3.0) * (-a + 2.0 / 3.0) >= 0.0;
    }
  }

  /** Points of two cells that are neither equal nor adjacent are at least a cell size apart. */
  lemma ApartInCube(a: real, b: real, c: real, d: real, m: int, n: int)
    requires InHexagon(a, b) && InHexagon(c, d)
    requires m >= 2 || m <= -2 || n >= 2 || n <= -2 || m + n >= 2 || m + n <= -2
    ensures Cube(a - c + m as real, b - d + n as real) >= 2.0 / 3.0
  {
    HexagonIsNarrow(a, b);
    HexagonIsNarrow(c, d);
    var x, y := a - c + m as real, b - d + n as real;
    if m >= 2 || m <= -2 {
      FarCoordinate(x);
      CubeAtLeast(x, y);
    } else if n >= 2 || n <= -2 {
      FarCoordinate(y);
      CubeAtLeast(y, x);
      CubeSymmetric(x, y);
    } else {
      assert (m + n) as real == m as real + n as real;
      FarCoordinate(-x - y);
      CubeAtLeast(-x - y, y);
      CubeSymmetric(x, y);
    }
  }

  lemma PointsDifferByCube(p: Point, p': Point, w: real)
    requires IsRoot3(w)
    ensures DistanceSquared(p, p') ==
            1.5 * CELL_SIZE * CELL_SIZE *
            Cube(FractionalQ(p) - FractionalQ(p'), FractionalR(p, w) - FractionalR(p', w))
  {
    var a, b := FractionalQ(p) - FractionalQ(p'), FractionalR(p, w) - FractionalR(p', w);
    assert p.x - p'.x == CELL_SIZE * 1.5 * a;
    var y := b + a / 2.0;
    assert CELL_SIZE * y == w / 3.0 * (p.y - p'.y);
    assert w * (CELL_SIZE * y) == p.y - p'.y;
    assert (p.y - p'.y) * (p.y - p'.y) == (w * w) * (CELL_SIZE * y) * (CELL_SIZE * y);
  }

  /** Two points less than a cell size apart fall into the same cell or into adjacent ones,
      so for such a step directionIdxs never returns -1. */
  lemma ShortStepsAreAdjacent(p: Point, p': Point, w: real)
    requires IsRoot3(w) && DistanceSquared(p, p') < 6400.0
    ensures var o, o' := OffsetOf(p, w), OffsetOf(p', w);
            Near(o, o') && (o != o' ==> DirectionIndex(Hex.Minus(o, o')) != -1)
  {
    var o, o' := OffsetOf(p, w), OffsetOf(p', w);
    var q, r, q', r' := FractionalQ(p), FractionalR(p, w), FractionalQ(p'), FractionalR(p', w);
    RoundingLandsInHexagon(q, r);
    RoundingLandsInHexagon(q', r');
    PointsDifferByCube(p, p', w);
    var m, n := o.q - o'.q, o.r - o'.r;
    assert q - q' == Dq(o, q) - Dq(o', q') + m as real;
    assert r - r' == Dr(o, r) - Dr(o', r') + n as real;
    if m >= 2 || m <= -2 || n >= 2 || n <= -2 || m + n >= 2 || m + n <= -2 {
      ApartInCube(Dq(o, q), Dr(o, r), Dq(o', q'), Dr(o', r'), m, n);
      assert false;
    }
    DirectionIndexInverts(o, o');
  }
}
