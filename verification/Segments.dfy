/** The segment-segment test of physics/methods.cpp over the reals. */
module Segments {
  import opened Plane

  /** Twice the signed area of the triangle a b c. */
  function Area(a: Point, b: Point, c: Point): real {
    (c.y - a.y) * (b.x - a.x) - (b.y - a.y) * (c.x - a.x)
  }

  predicate Ccw(a: Point, b: Point, c: Point) {
    (c.y - a.y) * (b.x - a.x) > (b.y - a.y) * (c.x - a.x)
  }

  predicate Intersects(a: Point, b: Point, c: Point, d: Point) {
    Ccw(a, c, d) != Ccw(b, c, d) && Ccw(a, b, c) != Ccw(a, b, d)
  }

  lemma CcwIsArea(a: Point, b: Point, c: Point)
    ensures Ccw(a, b, c) <==> Area(a, b, c) > 0.0
  {
  }

  lemma AreaRotates(a: Point, b: Point, c: Point)
    ensures Area(a, b, c) == Area(b, c, a)
  {
  }

  /** The result is the same when the two segments are swapped. */
  lemma IntersectsIsSymmetric(a: Point, b: Point, c: Point, d: Point)
    ensures Intersects(a, b, c, d) == Intersects(c, d, a, b)
  {
    AreaRotates(a, c, d);
    AreaRotates(b, c, d);
    AreaRotates(c, a, b);
    AreaRotates(d, a, b);
    CcwIsArea(a, c, d);
    CcwIsArea(c, d, a);
    CcwIsArea(b, c, d);
    CcwIsArea(c, d, b);
    CcwIsArea(a, b, c);
    CcwIsArea(c, a, b);
    CcwIsArea(a, b, d);
    CcwIsArea(d, a, b);
  }

  function Det(u: real, v: real, p: real, q: real): real { u * q - v * p }

  /** How the side of line c d changes from a to b; zero iff the segments are parallel. */
  function Slope(a: Point, b: Point, c: Point, d: Point): real {
    Det(b.x - a.x, b.y - a.y, d.x - c.x, d.y - c.y)
  }

  lemma SlopeIsDifference(a: Point, b: Point, c: Point, d: Point)
    ensures Area(c, d, a) - Area(c, d, b) == Slope(a, b, c, d)
    ensures Area(a, b, d) - Area(a, b, c) == Slope(a, b, c, d)
  {
  }

  /** The point at parameter s of the segment a b. */
  function At(a: Point, b: Point, s: real): Point {
    Point(a.x + s * (b.x - a.x), a.y + s * (b.y - a.y))
  }

  /** Two lines through the origin and through (e, f), with directions (u, v) and (p, q). */
  predicate Meets(u: real, v: real, p: real, q: real, e: real, f: real, s: real, t: real) {
    s * u - t * p == e && s * v - t * q == f
  }

  predicate Solves(u: real, v: real, p: real, q: real, e: real, f: real, s: real, t: real) {
    s * Det(u, v, p, q) == Det(e, f, p, q) && t * Det(u, v, p, q) == Det(e, f, u, v)
  }

  lemma Substitute(u: real, v: real, p: real, q: real, e: real, f: real, s: real, t: real)
    requires Meets(u, v, p, q, e, f, s, t)
    ensures Solves(u, v, p, q, e, f, s, t)
  {
    assert s * (u * q - v * p) == (s * u) * q - (s * v) * p;
    assert (s * u) * q == (e + t * p) * q && (s * v) * p == (f + t * q) * p;
    assert t * (u * q - v * p) == (t * q) * u - (t * p) * v;
    assert (t * q) * u == (s * v - f) * u && (t * p) * v == (s * u - e) * v;
  }

  lemma Eliminate(u: real, v: real, p: real, q: real, e: real, f: real, s: real, t: real)
    requires Det(u, v, p, q) != 0.0 && Solves(u, v, p, q, e, f, s, t)
    ensures Meets(u, v, p, q, e, f, s, t)
  {
    var k := Det(u, v, p, q);
    assert (s * u - t * p - e) * k == u * (s * k) - p * (t * k) - e * k;
    assert u * (s * k) == u * (e * q - f * p) && p * (t * k) == p * (e * v - f * u);
    ZeroProduct(s * u - t * p - e, k);
    assert (s * v - t * q - f) * k == v * (s * k) - q * (t * k) - f * k;
    assert v * (s * k) == v * (e * q - f * p) && q * (t * k) == q * (e * v - f * u);
    ZeroProduct(s * v - t * q - f, k);
  }

  /** s and t solve the equations of the crossing of line a b with line c d, by Cramer's rule. */
  predicate Crossing(a: Point, b: Point, c: Point, d: Point, s: real, t: real) {
    Solves(b.x - a.x, b.y - a.y, d.x - c.x, d.y - c.y, c.x - a.x, c.y - a.y, s, t)
  }

  lemma MeetInCoordinates(a: Point, b: Point, c: Point, d: Point, s: real, t: real)
    ensures At(a, b, s) == At(c, d, t) <==>
              Meets(b.x - a.x, b.y - a.y, d.x - c.x, d.y - c.y, c.x - a.x, c.y - a.y, s, t)
  {
  }

  lemma AreasInCoordinates(a: Point, b: Point, c: Point, d: Point)
    ensures Area(c, d, a) == Det(c.x - a.x, c.y - a.y, d.x - c.x, d.y - c.y)
    ensures -Area(a, b, c) == Det(c.x - a.x, c.y - a.y, b.x - a.x, b.y - a.y)
  {
  }

  /** Where the two lines cross, if they are not parallel. */
  lemma LinesMeet(a: Point, b: Point, c: Point, d: Point, s: real, t: real)
    requires Slope(a, b, c, d) != 0.0
    ensures At(a, b, s) == At(c, d, t) <==> Crossing(a, b, c, d, s, t)
  {
    MeetInCoordinates(a, b, c, d, s, t);
    if At(a, b, s) == At(c, d, t) {
      Substitute(b.x - a.x, b.y - a.y, d.x - c.x, d.y - c.y, c.x - a.x, c.y - a.y, s, t);
    }
    if Crossing(a, b, c, d, s, t) {
      Eliminate(b.x - a.x, b.y - a.y, d.x - c.x, d.y - c.y, c.x - a.x, c.y - a.y, s, t);
    }
  }

  /** The segments cross at parameters s and t, with the ties that the strict comparison in ccw decides:
      each segment is closed at one end and open at the other. */
  predicate CrossesAt(a: Point, b: Point, c: Point, d: Point, s: real, t: real) {
    && At(a, b, s) == At(c, d, t)
    && (if Slope(a, b, c, d) > 0.0 then 0.0 < s <= 1.0 && 0.0 <= t < 1.0 else 0.0 <= s < 1.0 && 0.0 < t <= 1.0)
  }

  lemma SignOfProduct(s: real, k: real)
    ensures k > 0.0 ==> (s * k > 0.0 <==> s > 0.0) && (s * k < 0.0 <==> s < 0.0)
    ensures k < 0.0 ==> (s * k > 0.0 <==> s < 0.0) && (s * k < 0.0 <==> s > 0.0)
  {
  }

  /** x == s * k and x - k lie on different sides of zero iff s is within the unit interval, one end open. */
  lemma FirstSide(s: real, k: real, x: real)
    requires k != 0.0 && s * k == x
    ensures (x > 0.0) != (x - k > 0.0) <==> if k > 0.0 then 0.0 < s <= 1.0 else 0.0 <= s < 1.0
  {
    SignOfProduct(s, k);
    SignOfProduct(s - 1.0, k);
    assert (s - 1.0) * k == x - k;
  }

  lemma SecondSide(t: real, k: real, y: real)
    requires k != 0.0 && t * k == -y
    ensures (y > 0.0) != (y + k > 0.0) <==> if k > 0.0 then 0.0 <= t < 1.0 else 0.0 < t <= 1.0
  {
    SignOfProduct(t, k);
    SignOfProduct(1.0 - t, k);
    assert (1.0 - t) * k == y + k;
  }

  lemma SidesDiffer(a: Point, b: Point, c: Point, d: Point, s: real, t: real)
    requires Slope(a, b, c, d) != 0.0 && Crossing(a, b, c, d, s, t)
    ensures Intersects(a, b, c, d) <==>
              if Slope(a, b, c, d) > 0.0 then 0.0 < s <= 1.0 && 0.0 <= t < 1.0 else 0.0 <= s < 1.0 && 0.0 < t <= 1.0
  {
    SlopeIsDifference(a, b, c, d);
    SignsOfSides(a, b, c, d);
    AreasInCoordinates(a, b, c, d);
    FirstSide(s, Det(b.x - a.x, b.y - a.y, d.x - c.x, d.y - c.y), Area(c, d, a));
    SecondSide(t, Det(b.x - a.x, b.y - a.y, d.x - c.x, d.y - c.y), Area(a, b, c));
  }

  lemma SignsOfSides(a: Point, b: Point, c: Point, d: Point)
    ensures Intersects(a, b, c, d) <==>
              (Area(c, d, a) > 0.0) != (Area(c, d, b) > 0.0) && (Area(a, b, c) > 0.0) != (Area(a, b, d) > 0.0)
  {
    AreaRotates(a, c, d);
    AreaRotates(b, c, d);
    CcwIsArea(a, c, d);
    CcwIsArea(b, c, d);
    CcwIsArea(a, b, c);
    CcwIsArea(a, b, d);
  }

  /** The common point found when the test says yes. */
  lemma CommonPoint(a: Point, b: Point, c: Point, d: Point) returns (s: real, t: real)
    requires Intersects(a, b, c, d)
    ensures Slope(a, b, c, d) != 0.0 && CrossesAt(a, b, c, d, s, t)
  {
    SlopeIsDifference(a, b, c, d);
    SignsOfSides(a, b, c, d);
    s, t := Cramer(b.x - a.x, b.y - a.y, d.x - c.x, d.y - c.y, c.x - a.x, c.y - a.y);
    LinesMeet(a, b, c, d, s, t);
    SidesDiffer(a, b, c, d, s, t);
  }

  lemma Cramer(u: real, v: real, p: real, q: real, e: real, f: real) returns (s: real, t: real)
    requires Det(u, v, p, q) != 0.0
    ensures Solves(u, v, p, q, e, f, s, t)
  {
    s, t := Det(e, f, p, q) / Det(u, v, p, q), Det(e, f, u, v) / Det(u, v, p, q);
    Quotient(Det(e, f, p, q), Det(u, v, p, q));
    Quotient(Det(e, f, u, v), Det(u, v, p, q));
  }

  /** Exactly when the test says yes: the segments are not parallel, and cross, up to the ties above. */
  lemma IntersectsIff(a: Point, b: Point, c: Point, d: Point)
    ensures Intersects(a, b, c, d) <==> Slope(a, b, c, d) != 0.0 && exists s, t :: CrossesAt(a, b, c, d, s, t)
  {
    if Intersects(a, b, c, d) {
      var s, t := CommonPoint(a, b, c, d);
    }
    if Slope(a, b, c, d) != 0.0 && exists s, t :: CrossesAt(a, b, c, d, s, t) {
      var s, t :| CrossesAt(a, b, c, d, s, t);
      LinesMeet(a, b, c, d, s, t);
      SidesDiffer(a, b, c, d, s, t);
    }
  }

  /** Every proper crossing, inside both segments, is found. */
  lemma ProperCrossingIsFound(a: Point, b: Point, c: Point, d: Point, s: real, t: real)
    requires At(a, b, s) == At(c, d, t) && 0.0 < s < 1.0 && 0.0 < t < 1.0 && Slope(a, b, c, d) != 0.0
    ensures Intersects(a, b, c, d)
  {
    assert CrossesAt(a, b, c, d, s, t);
    IntersectsIff(a, b, c, d);
  }

  /** Not every common point is found: a segment that ends on another is found from one side only. */
  lemma TouchingEndsDependOnTheSide()
    ensures Intersects(Point(0.0, 0.0), Point(0.0, 1.0), Point(-1.0, 0.0), Point(1.0, 0.0))
    ensures !Intersects(Point(0.0, 0.0), Point(0.0, -1.0), Point(-1.0, 0.0), Point(1.0, 0.0))
  {
    var a, c, d := Point(0.0, 0.0), Point(-1.0, 0.0), Point(1.0, 0.0);
    assert !Ccw(a, c, d) && Ccw(Point(0.0, 1.0), c, d) && !Ccw(Point(0.0, -1.0), c, d);
    assert Ccw(a, Point(0.0, 1.0), c) && !Ccw(a, Point(0.0, 1.0), d);
  }
}
