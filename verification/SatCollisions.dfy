/** SAT::collides on rectangles: the separating axis test answers whether the closed shapes share a point. */
module SatCollisions {
  import opened Plane
  import opened BoundingBoxes

  // ---------- Projections ----------

  /** The smallest value of the first n vertices along an axis. */
  function LowTo(axis: Point, vs: seq<Point>, n: nat): real
    requires 1 <= n <= |vs|
  {
    if n == 1 then Dot(axis, vs[0]) else Min(LowTo(axis, vs, n - 1), Dot(axis, vs[n - 1]))
  }

  function HighTo(axis: Point, vs: seq<Point>, n: nat): real
    requires 1 <= n <= |vs|
  {
    if n == 1 then Dot(axis, vs[0]) else Max(HighTo(axis, vs, n - 1), Dot(axis, vs[n - 1]))
  }

  function Low(axis: Point, vs: seq<Point>): real
    requires |vs| > 0
  {
    LowTo(axis, vs, |vs|)
  }

  function High(axis: Point, vs: seq<Point>): real
    requires |vs| > 0
  {
    HighTo(axis, vs, |vs|)
  }

  /** The lowest and highest values are those of two vertices, and every vertex is between. */
  lemma {:induction false} Extremes(axis: Point, vs: seq<Point>, n: nat) returns (i: nat, j: nat)
    requires 1 <= n <= |vs|
    ensures i < n && Dot(axis, vs[i]) == LowTo(axis, vs, n)
    ensures j < n && Dot(axis, vs[j]) == HighTo(axis, vs, n)
    ensures forall k :: 0 <= k < n ==> LowTo(axis, vs, n) <= Dot(axis, vs[k]) <= HighTo(axis, vs, n)
  {
    if n == 1 {
      i, j := 0, 0;
    } else {
      i, j := Extremes(axis, vs, n - 1);
      if Dot(axis, vs[n - 1]) < LowTo(axis, vs, n - 1) {
        i := n - 1;
      }
      if Dot(axis, vs[n - 1]) > HighTo(axis, vs, n - 1) {
        j := n - 1;
      }
    }
  }

  /** p is between the lowest and the highest vertex along the axis. */
  predicate InSlab(axis: Point, vs: seq<Point>, p: Point)
    requires |vs| > 0
  {
    Low(axis, vs) <= Dot(axis, p) <= High(axis, vs)
  }

  /** The two projections share a value. */
  predicate Overlap(axis: Point, us: seq<Point>, vs: seq<Point>)
    requires |us| > 0 && |vs| > 0
  {
    Min(High(axis, us), High(axis, vs)) - Max(Low(axis, us), Low(axis, vs)) >= 0.0
  }

  method Project(axis: Point, vertices: seq<Point>, position: Point) returns (min: real, max: real)
    requires |vertices| > 0
    ensures min == Low(axis, Placed(vertices, position)) && max == High(axis, Placed(vertices, position))
  {
    ghost var placed := Placed(vertices, position);
    min := Dot(axis, Plus(vertices[0], position));
    max := min;
    ghost var _, _ := Extremes(axis, placed, 1);
    for i := 1 to |vertices|
      invariant min == LowTo(axis, placed, i) && max == HighTo(axis, placed, i) && min <= max
    {
      var tmp := Dot(axis, Plus(vertices[i], position));
      if tmp < min {
        min := tmp;
      } else if tmp > max {
        max := tmp;
      }
    }
  }

  // ---------- Convex hulls ----------

  function Sum(weights: seq<real>, n: nat): real
    requires n <= |weights|
  {
    if n == 0 then 0.0 else Sum(weights, n - 1) + weights[n - 1]
  }

  function Mix(weights: seq<real>, vs: seq<Point>, n: nat): Point
    requires n <= |weights| && n <= |vs|
  {
    if n == 0 then Point(0.0, 0.0) else Plus(Mix(weights, vs, n - 1), Scale(weights[n - 1], vs[n - 1]))
  }

  predicate IsMix(p: Point, weights: seq<real>, vs: seq<Point>) {
    && |weights| == |vs|
    && (forall i :: 0 <= i < |weights| ==> weights[i] >= 0.0)
    && Sum(weights, |weights|) == 1.0
    && p == Mix(weights, vs, |vs|)
  }

  /** The closed convex hull of the vertices. */
  ghost predicate InHull(p: Point, vs: seq<Point>) {
    exists weights :: IsMix(p, weights, vs)
  }

  /** The closed shapes have a point in common. */
  ghost predicate Touch(us: seq<Point>, vs: seq<Point>) {
    exists p :: InHull(p, us) && InHull(p, vs)
  }

  lemma Between(k: real, lo: real, f: real, hi: real)
    requires k >= 0.0 && lo <= f <= hi
    ensures Times(k, lo) <= Times(k, f) <= Times(k, hi)
  {
    assert Times(k, f) - Times(k, lo) == k * (f - lo);
    assert Times(k, hi) - Times(k, f) == k * (hi - f);
  }

  lemma DotScaled(axis: Point, p: Point, k: real, q: Point)
    ensures Dot(axis, Plus(p, Scale(k, q))) == Dot(axis, p) + Times(k, Dot(axis, q))
  {
  }

  lemma TimesSum(x: real, y: real, k: real)
    ensures Times(x + y, k) == Times(x, k) + Times(y, k)
  {
  }

  lemma {:induction false} MixIsBetween(axis: Point, weights: seq<real>, vs: seq<Point>, n: nat, lo: real, hi: real)
    requires n <= |weights| == |vs|
    requires forall i :: 0 <= i < |weights| ==> weights[i] >= 0.0
    requires forall i :: 0 <= i < |vs| ==> lo <= Dot(axis, vs[i]) <= hi
    ensures Times(Sum(weights, n), lo) <= Dot(axis, Mix(weights, vs, n)) <= Times(Sum(weights, n), hi)
  {
    if n > 0 {
      MixIsBetween(axis, weights, vs, n - 1, lo, hi);
      DotScaled(axis, Mix(weights, vs, n - 1), weights[n - 1], vs[n - 1]);
      Between(weights[n - 1], lo, Dot(axis, vs[n - 1]), hi);
      TimesSum(Sum(weights, n - 1), weights[n - 1], lo);
      TimesSum(Sum(weights, n - 1), weights[n - 1], hi);
    }
  }

  /** The hull projects into the interval of the vertices, on any axis. */
  lemma HullInSlab(axis: Point, p: Point, vs: seq<Point>)
    requires |vs| > 0 && InHull(p, vs)
    ensures InSlab(axis, vs, p)
  {
    var weights :| IsMix(p, weights, vs);
    var i, j := Extremes(axis, vs, |vs|);
    MixIsBetween(axis, weights, vs, |vs|, Low(axis, vs), High(axis, vs));
    assert Times(1.0, Low(axis, vs)) == Low(axis, vs) && Times(1.0, High(axis, vs)) == High(axis, vs);
  }

  /** One axis that separates is enough, whatever the shapes and the axis: the hulls have no common point. */
  lemma SeparatedMeansApart(axis: Point, us: seq<Point>, vs: seq<Point>)
    requires |us| > 0 && |vs| > 0 && !Overlap(axis, us, vs)
    ensures !Touch(us, vs)
  {
    if Touch(us, vs) {
      var p :| InHull(p, us) && InHull(p, vs);
      HullInSlab(axis, p, us);
      HullInSlab(axis, p, vs);
      assert false;
    }
  }

  // ---------- From overlaps to a common point ----------

  function Along(p: Point, q: Point, t: real): Point { Plus(p, Scale(t, Minus(q, p))) }

  lemma DotAlong(axis: Point, p: Point, q: Point, t: real)
    ensures Dot(axis, Along(p, q, t)) == Dot(axis, p) + Times(t, Dot(axis, q) - Dot(axis, p))
  {
  }

  lemma Convex(t: real, a: real, b: real, lo: real, hi: real)
    requires 0.0 <= t <= 1.0 && lo <= a <= hi && lo <= b <= hi
    ensures lo <= a + Times(t, b - a) <= hi
  {
    Between(1.0 - t, lo, a, hi);
    Between(t, lo, b, hi);
    Complement(t, lo, lo);
    Complement(t, a, b);
    Complement(t, hi, hi);
  }

  lemma Complement(t: real, a: real, b: real)
    ensures Times(1.0 - t, a) + Times(t, b) == a + Times(t, b - a)
  {
  }

  lemma AlongInSlab(axis: Point, vs: seq<Point>, i: nat, j: nat, t: real)
    requires i < |vs| && j < |vs| && 0.0 <= t <= 1.0
    ensures InSlab(axis, vs, Along(vs[i], vs[j], t))
  {
    var _, _ := Extremes(axis, vs, |vs|);
    DotAlong(axis, vs[i], vs[j], t);
    Convex(t, Dot(axis, vs[i]), Dot(axis, vs[j]), Low(axis, vs), High(axis, vs));
  }

  lemma Fraction(x: real, y: real)
    requires 0.0 <= x <= y && y > 0.0
    ensures 0.0 <= x / y <= 1.0 && Times(x / y, y) == x
  {
  }

  /** Where two shapes overlap along an axis, one has a point in the slab of the other: a point of the segment
      from its lowest to its highest vertex, so it is in every slab of its own shape. */
  lemma OverlapPoint(axis: Point, us: seq<Point>, vs: seq<Point>, first: Point, second: Point) returns (p: Point)
    requires |us| > 0 && |vs| > 0 && Overlap(axis, us, vs)
    ensures InSlab(axis, us, p) && InSlab(first, vs, p) && InSlab(second, vs, p)
  {
    var i, j := Extremes(axis, vs, |vs|);
    var k, l := Extremes(axis, us, |us|);
    var t := 0.0;
    if Low(axis, vs) < Low(axis, us) {
      t := (Low(axis, us) - Low(axis, vs)) / (High(axis, vs) - Low(axis, vs));
      Fraction(Low(axis, us) - Low(axis, vs), High(axis, vs) - Low(axis, vs));
    }
    p := Along(vs[i], vs[j], t);
    DotAlong(axis, vs[i], vs[j], t);
    AlongInSlab(first, vs, i, j, t);
    AlongInSlab(second, vs, i, j, t);
  }

  /** An affine dependence of four points. */
  predicate Depend(a: Point, b: Point, c: Point, d: Point, ka: real, kb: real, kc: real, kd: real) {
    && ka + kb + kc + kd == 0.0
    && Times(ka, a.x) + Times(kb, b.x) + Times(kc, c.x) + Times(kd, d.x) == 0.0
    && Times(ka, a.y) + Times(kb, b.y) + Times(kc, c.y) + Times(kd, d.y) == 0.0
  }

  lemma Grassmann(u: Point, v: Point, w: Point)
    ensures Times(Cross(w, v), u.x) + Times(Cross(u, w), v.x) == Times(Cross(u, v), w.x)
    ensures Times(Cross(w, v), u.y) + Times(Cross(u, w), v.y) == Times(Cross(u, v), w.y)
  {
  }

  lemma Negated(k: real, x: real)
    ensures Times(-k, x) == -Times(k, x)
  {
  }

  lemma NoWeight(x: real)
    ensures Times(0.0, x) == 0.0
  {
  }

  lemma Parallel(u: Point, v: Point)
    requires Cross(u, v) == 0.0
    ensures Times(v.x, u.x) + Times(-u.x, v.x) == 0.0 && Times(v.x, u.y) + Times(-u.x, v.y) == 0.0
    ensures Times(v.y, u.x) + Times(-u.y, v.x) == 0.0 && Times(v.y, u.y) + Times(-u.y, v.y) == 0.0
  {
  }

  /** Three vectors of the plane are linearly dependent. */
  lemma Dependence(u: Point, v: Point, w: Point) returns (k: real, l: real, m: real)
    ensures k != 0.0 || l != 0.0 || m != 0.0
    ensures Times(k, u.x) + Times(l, v.x) + Times(m, w.x) == 0.0
    ensures Times(k, u.y) + Times(l, v.y) + Times(m, w.y) == 0.0
  {
    NoWeight(w.x);
    NoWeight(w.y);
    if Cross(u, v) != 0.0 {
      k, l, m := Cross(w, v), Cross(u, w), -Cross(u, v);
      Grassmann(u, v, w);
      Negated(Cross(u, v), w.x);
      Negated(Cross(u, v), w.y);
    } else if u.x != 0.0 || v.x != 0.0 {
      k, l, m := v.x, -u.x, 0.0;
      Parallel(u, v);
    } else if u.y != 0.0 || v.y != 0.0 {
      k, l, m := v.y, -u.y, 0.0;
      Parallel(u, v);
    } else {
      k, l, m := 1.0, 0.0, 0.0;
    }
  }

  lemma AffineDependence(a: Point, b: Point, c: Point, d: Point) returns (ka: real, kb: real, kc: real, kd: real)
    ensures Depend(a, b, c, d, ka, kb, kc, kd)
    ensures ka != 0.0 || kb != 0.0 || kc != 0.0 || kd != 0.0
  {
    kb, kc, kd := Dependence(Minus(b, a), Minus(c, a), Minus(d, a));
    ka := -kb - kc - kd;
    MomentsShift(a.x, b.x, c.x, d.x, kb, kc, kd);
    MomentsShift(a.y, b.y, c.y, d.y, kb, kc, kd);
  }

  lemma MomentsShift(a: real, b: real, c: real, d: real, kb: real, kc: real, kd: real)
    ensures Times(-kb - kc - kd, a) + Times(kb, b) + Times(kc, c) + Times(kd, d)
            == Times(kb, b - a) + Times(kc, c - a) + Times(kd, d - a)
  {
  }

  function Pos(k: real): real { if k > 0.0 then k else 0.0 }

  /** The part of a weighted sum with positive weights. */
  function Positive(ka: real, kb: real, kc: real, kd: real, a: real, b: real, c: real, d: real): real {
    Times(Pos(ka), a) + Times(Pos(kb), b) + Times(Pos(kc), c) + Times(Pos(kd), d)
  }

  /** p is the mean of the points with positive weight; by the dependence also of those with negative weight. */
  predicate IsRadonPoint(p: Point, a: Point, b: Point, c: Point, d: Point, ka: real, kb: real, kc: real, kd: real) {
    var total := Pos(ka) + Pos(kb) + Pos(kc) + Pos(kd);
    && total > 0.0
    && Times(total, p.x) == Positive(ka, kb, kc, kd, a.x, b.x, c.x, d.x)
    && Times(total, p.y) == Positive(ka, kb, kc, kd, a.y, b.y, c.y, d.y)
  }

  lemma Divide(x: real, k: real) returns (q: real)
    requires k > 0.0
    ensures Times(k, q) == x
  {
    q := x / k;
    Quotient(x, k);
  }

  lemma SomePositive(ka: real, kb: real, kc: real, kd: real)
    requires ka + kb + kc + kd == 0.0 && (ka != 0.0 || kb != 0.0 || kc != 0.0 || kd != 0.0)
    ensures Pos(ka) + Pos(kb) + Pos(kc) + Pos(kd) > 0.0
  {
  }

  lemma RadonPoint(a: Point, b: Point, c: Point, d: Point)
    returns (p: Point, ka: real, kb: real, kc: real, kd: real)
    ensures Depend(a, b, c, d, ka, kb, kc, kd) && IsRadonPoint(p, a, b, c, d, ka, kb, kc, kd)
  {
    ka, kb, kc, kd := AffineDependence(a, b, c, d);
    SomePositive(ka, kb, kc, kd);
    var total := Pos(ka) + Pos(kb) + Pos(kc) + Pos(kd);
    var x := Divide(Positive(ka, kb, kc, kd, a.x, b.x, c.x, d.x), total);
    var y := Divide(Positive(ka, kb, kc, kd, a.y, b.y, c.y, d.y), total);
    p := Point(x, y);
  }

  /** Three of the four values are between lo and hi; then so is the mean that avoids the fourth. */
  lemma PositiveIsBetween(ka: real, kb: real, kc: real, kd: real, a: real, b: real, c: real, d: real, lo: real, hi: real)
    requires lo <= a <= hi && lo <= b <= hi && lo <= c <= hi && kd <= 0.0
    ensures var total := Pos(ka) + Pos(kb) + Pos(kc) + Pos(kd);
            Times(total, lo) <= Positive(ka, kb, kc, kd, a, b, c, d) <= Times(total, hi)
  {
    Between(Pos(ka), lo, a, hi);
    Between(Pos(kb), lo, b, hi);
    Between(Pos(kc), lo, c, hi);
    assert Times(Pos(kd), d) == 0.0;
    FourTimes(Pos(ka), Pos(kb), Pos(kc), Pos(kd), lo);
    FourTimes(Pos(ka), Pos(kb), Pos(kc), Pos(kd), hi);
    assert Times(Pos(kd), lo) == 0.0 && Times(Pos(kd), hi) == 0.0;
  }

  lemma FourTimes(p: real, q: real, r: real, s: real, k: real)
    ensures Times(p + q + r + s, k) == Times(p, k) + Times(q, k) + Times(r, k) + Times(s, k)
  {
  }

  lemma Signs(k: real, f: real)
    ensures Pos(k) - Pos(-k) == k && Times(Pos(k), f) - Times(Pos(-k), f) == Times(k, f)
  {
  }

  lemma OtherSide(ka: real, kb: real, kc: real, kd: real, a: real, b: real, c: real, d: real)
    requires ka + kb + kc + kd == 0.0
    requires Times(ka, a) + Times(kb, b) + Times(kc, c) + Times(kd, d) == 0.0
    ensures Positive(ka, kb, kc, kd, a, b, c, d) == Positive(-ka, -kb, -kc, -kd, a, b, c, d)
    ensures Pos(ka) + Pos(kb) + Pos(kc) + Pos(kd) == Pos(-ka) + Pos(-kb) + Pos(-kc) + Pos(-kd)
  {
    Signs(ka, a);
    Signs(kb, b);
    Signs(kc, c);
    Signs(kd, d);
  }

  lemma DotTerms(axis: Point, ka: real, kb: real, kc: real, kd: real, a: Point, b: Point, c: Point, d: Point)
    ensures Times(ka, Dot(axis, a)) + Times(kb, Dot(axis, b)) + Times(kc, Dot(axis, c)) + Times(kd, Dot(axis, d))
            == Times(axis.x, Times(ka, a.x) + Times(kb, b.x) + Times(kc, c.x) + Times(kd, d.x))
             + Times(axis.y, Times(ka, a.y) + Times(kb, b.y) + Times(kc, c.y) + Times(kd, d.y))
  {
  }

  lemma DotTotal(axis: Point, total: real, p: Point)
    ensures Times(total, Dot(axis, p)) == Times(axis.x, Times(total, p.x)) + Times(axis.y, Times(total, p.y))
  {
  }

  lemma TimesIsStrict(total: real, x: real, y: real)
    requires total > 0.0
    ensures x < y ==> Times(total, x) < Times(total, y)
  {
  }

  lemma Cancel(total: real, lo: real, f: real, hi: real)
    requires total > 0.0 && Times(total, lo) <= Times(total, f) <= Times(total, hi)
    ensures lo <= f <= hi
  {
    TimesIsStrict(total, f, lo);
    TimesIsStrict(total, hi, f);
  }

  /** The Radon point of four points is in every slab that holds three of them. */
  lemma RadonPointInSlab(axis: Point, lo: real, hi: real, p: Point,
                         a: Point, b: Point, c: Point, d: Point, ka: real, kb: real, kc: real, kd: real)
    requires Depend(a, b, c, d, ka, kb, kc, kd) && IsRadonPoint(p, a, b, c, d, ka, kb, kc, kd)
    requires lo <= Dot(axis, a) <= hi && lo <= Dot(axis, b) <= hi && lo <= Dot(axis, c) <= hi
    ensures lo <= Dot(axis, p) <= hi
  {
    var fa, fb, fc, fd := Dot(axis, a), Dot(axis, b), Dot(axis, c), Dot(axis, d);
    var total := Pos(ka) + Pos(kb) + Pos(kc) + Pos(kd);
    DotTotal(axis, total, p);
    DotTerms(axis, Pos(ka), Pos(kb), Pos(kc), Pos(kd), a, b, c, d);
    assert Times(total, Dot(axis, p)) == Positive(ka, kb, kc, kd, fa, fb, fc, fd);
    if kd <= 0.0 {
      PositiveIsBetween(ka, kb, kc, kd, fa, fb, fc, fd, lo, hi);
    } else {
      DotTerms(axis, ka, kb, kc, kd, a, b, c, d);
      OtherSide(ka, kb, kc, kd, fa, fb, fc, fd);
      PositiveIsBetween(-ka, -kb, -kc, -kd, fa, fb, fc, fd, lo, hi);
    }
    Cancel(total, lo, Dot(axis, p), hi);
  }

  lemma Permuted(p: Point, a: Point, b: Point, c: Point, d: Point, ka: real, kb: real, kc: real, kd: real)
    requires Depend(a, b, c, d, ka, kb, kc, kd) && IsRadonPoint(p, a, b, c, d, ka, kb, kc, kd)
    ensures Depend(a, b, d, c, ka, kb, kd, kc) && IsRadonPoint(p, a, b, d, c, ka, kb, kd, kc)
    ensures Depend(c, d, a, b, kc, kd, ka, kb) && IsRadonPoint(p, c, d, a, b, kc, kd, ka, kb)
    ensures Depend(c, d, b, a, kc, kd, kb, ka) && IsRadonPoint(p, c, d, b, a, kc, kd, kb, ka)
  {
  }

  /** Four slabs in the plane, any three of which have a common point, have one in common. */
  lemma FourSlabs(us: seq<Point>, m: Point, n: Point, vs: seq<Point>, k: Point, l: Point,
                  a: Point, b: Point, c: Point, d: Point) returns (p: Point)
    requires |us| > 0 && |vs| > 0
    requires InSlab(m, us, a) && InSlab(n, us, a) && InSlab(k, vs, a)
    requires InSlab(m, us, b) && InSlab(n, us, b) && InSlab(l, vs, b)
    requires InSlab(k, vs, c) && InSlab(l, vs, c) && InSlab(m, us, c)
    requires InSlab(k, vs, d) && InSlab(l, vs, d) && InSlab(n, us, d)
    ensures InSlab(m, us, p) && InSlab(n, us, p) && InSlab(k, vs, p) && InSlab(l, vs, p)
  {
    var ka, kb, kc, kd;
    p, ka, kb, kc, kd := RadonPoint(a, b, c, d);
    Permuted(p, a, b, c, d, ka, kb, kc, kd);
    RadonPointInSlab(m, Low(m, us), High(m, us), p, a, b, c, d, ka, kb, kc, kd);
    RadonPointInSlab(n, Low(n, us), High(n, us), p, a, b, d, c, ka, kb, kd, kc);
    RadonPointInSlab(k, Low(k, vs), High(k, vs), p, c, d, a, b, kc, kd, ka, kb);
    RadonPointInSlab(l, Low(l, vs), High(l, vs), p, c, d, b, a, kc, kd, kb, ka);
  }

  // ---------- A parallelogram is its two slabs ----------

  lemma LowAndHighOfFour(axis: Point, vs: seq<Point>, x: real, y: real)
    requires |vs| == 4
    requires forall i :: 0 <= i < 4 ==> Dot(axis, vs[i]) == x || Dot(axis, vs[i]) == y
    ensures Min(x, y) <= Low(axis, vs) && High(axis, vs) <= Max(x, y)
  {
    var _, _ := Extremes(axis, vs, 4);
  }

  lemma Ratio(x: real, k: real)
    requires k != 0.0 && Min(0.0, k) <= x <= Max(0.0, k)
    ensures 0.0 <= x / k <= 1.0 && Times(x / k, k) == x
  {
    Quotient(x, k);
    if k > 0.0 {
      Cancel(k, 0.0, x / k, 1.0);
    } else {
      Cancel(-k, 0.0, x / k, 1.0);
    }
  }

  /** Along the normal of the edge 0-1 the vertices take two values, which differ by the area. */
  lemma FirstSlab(vs: seq<Point>, p: Point)
    requires IsParallelogram(vs) && InSlab(NormalsOf(vs)[0], vs, p)
    ensures var area := Cross(Minus(vs[0], vs[1]), Minus(vs[2], vs[1]));
            var x := Cross(Minus(vs[0], vs[1]), Minus(p, vs[1]));
            Min(0.0, area) <= x <= Max(0.0, area)
  {
    var axis := NormalsOf(vs)[0];
    var area := Cross(Minus(vs[0], vs[1]), Minus(vs[2], vs[1]));
    var base := Dot(axis, vs[1]);
    assert Dot(axis, vs[0]) == base;
    assert Dot(axis, vs[2]) == base + area;
    assert Dot(axis, vs[3]) == base + area by {
      assert Minus(vs[3], vs[2]) == Minus(vs[0], vs[1]);
      NormalIsNormal(vs[0], vs[1], vs[3], vs[2]);
    }
    LowAndHighOfFour(axis, vs, base, base + area);
    assert Dot(axis, p) == base + Cross(Minus(vs[0], vs[1]), Minus(p, vs[1]));
  }

  lemma NormalIsNormal(p: Point, q: Point, u: Point, v: Point)
    requires Minus(u, v) == Minus(p, q)
    ensures Dot(NormalOf(p, q), u) == Dot(NormalOf(p, q), v)
  {
    assert Dot(NormalOf(p, q), u) - Dot(NormalOf(p, q), v) == Dot(NormalOf(p, q), Minus(u, v));
    assert Dot(NormalOf(p, q), Minus(p, q)) == 0.0;
  }

  lemma SecondSlab(vs: seq<Point>, p: Point)
    requires IsParallelogram(vs) && InSlab(NormalsOf(vs)[1], vs, p)
    ensures var area := Cross(Minus(vs[0], vs[1]), Minus(vs[2], vs[1]));
            var x := Cross(Minus(p, vs[1]), Minus(vs[2], vs[1]));
            Min(0.0, area) <= x <= Max(0.0, area)
  {
    var axis := NormalsOf(vs)[1];
    var area := Cross(Minus(vs[0], vs[1]), Minus(vs[2], vs[1]));
    var base := Dot(axis, vs[1]);
    assert Dot(axis, vs[2]) == base;
    assert Dot(axis, vs[0]) == base + area;
    assert Dot(axis, vs[3]) == base + area by {
      assert Minus(vs[3], vs[0]) == Minus(vs[2], vs[1]);
      assert Minus(vs[0], vs[3]) == Minus(vs[1], vs[2]);
      NormalIsNormal(vs[1], vs[2], vs[0], vs[3]);
    }
    LowAndHighOfFour(axis, vs, base, base + area);
    assert Dot(axis, p) == base + Cross(Minus(p, vs[1]), Minus(vs[2], vs[1]));
  }

  lemma Coordinates(e: Point, f: Point, u: Point, s: real, t: real)
    requires Cross(e, f) != 0.0
    requires Times(s, Cross(e, f)) == Cross(u, f) && Times(t, Cross(e, f)) == Cross(e, u)
    ensures u == Plus(Scale(s, e), Scale(t, f))
  {
    var k := Cross(e, f);
    assert u.x * k == Cross(u, f) * e.x + Cross(e, u) * f.x;
    assert u.y * k == Cross(u, f) * e.y + Cross(e, u) * f.y;
    assert (u.x - (s * e.x + t * f.x)) * k == u.x * k - Times(s, k) * e.x - Times(t, k) * f.x;
    assert (u.y - (s * e.y + t * f.y)) * k == u.y * k - Times(s, k) * e.y - Times(t, k) * f.y;
    ZeroProduct(u.x - (s * e.x + t * f.x), k);
    ZeroProduct(u.y - (s * e.y + t * f.y), k);
  }

  lemma NotNegative(x: real, y: real)
    requires x >= 0.0 && y >= 0.0
    ensures x * y >= 0.0
  {
  }

  lemma Weights(s: real, t: real) returns (w: seq<real>)
    requires 0.0 <= s <= 1.0 && 0.0 <= t <= 1.0
    ensures |w| == 4 && w[0] >= 0.0 && w[1] >= 0.0 && w[2] >= 0.0 && w[3] >= 0.0
    ensures w[0] + w[1] + w[2] + w[3] == 1.0 && w[0] + w[3] == s && w[2] + w[3] == t
  {
    NotNegative(s, 1.0 - t);
    NotNegative(1.0 - s, 1.0 - t);
    NotNegative(1.0 - s, t);
    NotNegative(s, t);
    w := [s * (1.0 - t), (1.0 - s) * (1.0 - t), (1.0 - s) * t, s * t];
  }

  /** Mixing the corners v0, v1, v2 and v0 + v2 - v1. */
  lemma MixCorners(v0: real, v1: real, v2: real, w0: real, w1: real, w2: real, w3: real)
    requires w0 + w1 + w2 + w3 == 1.0
    ensures Times(w0, v0) + Times(w1, v1) + Times(w2, v2) + Times(w3, v0 + v2 - v1)
            == v1 + Times(w0 + w3, v0 - v1) + Times(w2 + w3, v2 - v1)
  {
    assert Times(w1, v1) == Times(1.0 - w0 - w2 - w3, v1);
  }

  /** A point in both slabs of a parallelogram is in the parallelogram. */
  lemma SlabsAreTheShape(vs: seq<Point>, p: Point)
    requires IsParallelogram(vs) && InSlab(NormalsOf(vs)[0], vs, p) && InSlab(NormalsOf(vs)[1], vs, p)
    ensures InHull(p, vs)
  {
    var e, f, u := Minus(vs[0], vs[1]), Minus(vs[2], vs[1]), Minus(p, vs[1]);
    FirstSlab(vs, p);
    SecondSlab(vs, p);
    var s, t := Cross(u, f) / Cross(e, f), Cross(e, u) / Cross(e, f);
    Ratio(Cross(u, f), Cross(e, f));
    Ratio(Cross(e, u), Cross(e, f));
    Coordinates(e, f, u, s, t);
    MixOfFour(vs, p, s, t);
  }

  lemma MixOfCorners(w: seq<real>, vs: seq<Point>, p: Point, s: real, t: real)
    requires |w| == 4 && w[0] + w[1] + w[2] + w[3] == 1.0 && w[0] + w[3] == s && w[2] + w[3] == t
    requires |vs| == 4 && Minus(vs[0], vs[1]) == Minus(vs[3], vs[2])
    requires p.x - vs[1].x == Times(s, vs[0].x - vs[1].x) + Times(t, vs[2].x - vs[1].x)
    requires p.y - vs[1].y == Times(s, vs[0].y - vs[1].y) + Times(t, vs[2].y - vs[1].y)
    ensures p == Mix(w, vs, 4)
  {
    MixOfFourIs(w, vs);
    MixCoordinate(vs[0].x, vs[1].x, vs[2].x, vs[3].x, p.x, w[0], w[1], w[2], w[3], s, t);
    MixCoordinate(vs[0].y, vs[1].y, vs[2].y, vs[3].y, p.y, w[0], w[1], w[2], w[3], s, t);
  }

  lemma CornerCoordinates(a: Point, b: Point, c: Point, p: Point, s: real, t: real)
    requires Minus(p, b) == Plus(Scale(s, Minus(a, b)), Scale(t, Minus(c, b)))
    ensures p.x - b.x == Times(s, a.x - b.x) + Times(t, c.x - b.x)
    ensures p.y - b.y == Times(s, a.y - b.y) + Times(t, c.y - b.y)
  {
  }

  lemma MixCoordinate(v0: real, v1: real, v2: real, v3: real, p: real,
                      w0: real, w1: real, w2: real, w3: real, s: real, t: real)
    requires w0 + w1 + w2 + w3 == 1.0 && w0 + w3 == s && w2 + w3 == t && v0 - v1 == v3 - v2
    requires p - v1 == Times(s, v0 - v1) + Times(t, v2 - v1)
    ensures p == Times(w0, v0) + Times(w1, v1) + Times(w2, v2) + Times(w3, v3)
  {
    assert v3 == v0 + v2 - v1;
    MixCorners(v0, v1, v2, w0, w1, w2, w3);
  }

  lemma WeighCorners(vs: seq<Point>, p: Point, s: real, t: real) returns (w: seq<real>)
    requires |vs| == 4 && Minus(vs[0], vs[1]) == Minus(vs[3], vs[2]) && 0.0 <= s <= 1.0 && 0.0 <= t <= 1.0
    requires p.x - vs[1].x == Times(s, vs[0].x - vs[1].x) + Times(t, vs[2].x - vs[1].x)
    requires p.y - vs[1].y == Times(s, vs[0].y - vs[1].y) + Times(t, vs[2].y - vs[1].y)
    ensures |w| == 4 && w[0] >= 0.0 && w[1] >= 0.0 && w[2] >= 0.0 && w[3] >= 0.0
    ensures w[0] + w[1] + w[2] + w[3] == 1.0 && p == Mix(w, vs, 4)
  {
    w := Weights(s, t);
    MixOfCorners(w, vs, p, s, t);
  }

  lemma MixIsInHull(p: Point, w: seq<real>, vs: seq<Point>)
    requires |w| == 4 && w[0] >= 0.0 && w[1] >= 0.0 && w[2] >= 0.0 && w[3] >= 0.0
    requires |vs| == 4 && w[0] + w[1] + w[2] + w[3] == 1.0 && p == Mix(w, vs, 4)
    ensures InHull(p, vs)
  {
    SumOfFour(w);
    assert IsMix(p, w, vs);
  }

  lemma MixOfFour(vs: seq<Point>, p: Point, s: real, t: real)
    requires IsParallelogram(vs) && 0.0 <= s <= 1.0 && 0.0 <= t <= 1.0
    requires Minus(p, vs[1]) == Plus(Scale(s, Minus(vs[0], vs[1])), Scale(t, Minus(vs[2], vs[1])))
    ensures InHull(p, vs)
  {
    CornerCoordinates(vs[0], vs[1], vs[2], p, s, t);
    var w := WeighCorners(vs, p, s, t);
    MixIsInHull(p, w, vs);
  }

  lemma SumOfFour(weights: seq<real>)
    requires |weights| == 4
    ensures Sum(weights, 4) == weights[0] + weights[1] + weights[2] + weights[3]
  {
    assert Sum(weights, 1) == weights[0];
    assert Sum(weights, 2) == weights[0] + weights[1];
  }

  lemma PlusScale(p: Point, k: real, q: Point)
    ensures Plus(p, Scale(k, q)) == Point(p.x + Times(k, q.x), p.y + Times(k, q.y))
  {
  }

  lemma MixOfFourIs(w: seq<real>, vs: seq<Point>)
    requires |w| == |vs| == 4
    ensures Mix(w, vs, 4).x == Times(w[0], vs[0].x) + Times(w[1], vs[1].x) + Times(w[2], vs[2].x) + Times(w[3], vs[3].x)
    ensures Mix(w, vs, 4).y == Times(w[0], vs[0].y) + Times(w[1], vs[1].y) + Times(w[2], vs[2].y) + Times(w[3], vs[3].y)
  {
    PlusScale(Mix(w, vs, 0), w[0], vs[0]);
    PlusScale(Mix(w, vs, 1), w[1], vs[1]);
    PlusScale(Mix(w, vs, 2), w[2], vs[2]);
    PlusScale(Mix(w, vs, 3), w[3], vs[3]);
    assert Mix(w, vs, 1) == Plus(Mix(w, vs, 0), Scale(w[0], vs[0]));
    assert Mix(w, vs, 2) == Plus(Mix(w, vs, 1), Scale(w[1], vs[1]));
    assert Mix(w, vs, 3) == Plus(Mix(w, vs, 2), Scale(w[2], vs[2]));
    assert Mix(w, vs, 4) == Plus(Mix(w, vs, 3), Scale(w[3], vs[3]));
  }

  // ---------- The test ----------

  predicate OverlapAll(axes: seq<Point>, us: seq<Point>, vs: seq<Point>)
    requires |us| > 0 && |vs| > 0
  {
    forall i :: 0 <= i < |axes| ==> Overlap(axes[i], us, vs)
  }

  /** The separating axis test is exact for parallelograms, rectangles among them: the projections on the four
      normals overlap iff the closed shapes share a point. */
  lemma SatIsExact(us: seq<Point>, vs: seq<Point>)
    requires IsParallelogram(us) && IsParallelogram(vs)
    ensures OverlapAll(NormalsOf(us), us, vs) && OverlapAll(NormalsOf(vs), us, vs) <==> Touch(us, vs)
  {
    var m, n, k, l := NormalsOf(us)[0], NormalsOf(us)[1], NormalsOf(vs)[0], NormalsOf(vs)[1];
    if OverlapAll(NormalsOf(us), us, vs) && OverlapAll(NormalsOf(vs), us, vs) {
      var c := OverlapPoint(m, us, vs, k, l);
      var d := OverlapPoint(n, us, vs, k, l);
      var a := OverlapPoint(k, vs, us, m, n);
      var b := OverlapPoint(l, vs, us, m, n);
      var p := FourSlabs(us, m, n, vs, k, l, a, b, c, d);
      SlabsAreTheShape(us, p);
      SlabsAreTheShape(vs, p);
    } else {
      var axis :| axis in NormalsOf(us) + NormalsOf(vs) && !Overlap(axis, us, vs);
      SeparatedMeansApart(axis, us, vs);
    }
  }

  /** SAT::collides(axes, a, b): false as soon as one axis separates. */
  method CollidesOn(axes: seq<Point>, a: RectBoundingBox, b: RectBoundingBox) returns (r: bool)
    requires a.Valid() && b.Valid()
    ensures r == OverlapAll(axes, a.Shape(), b.Shape())
    ensures !r ==> !Touch(a.Shape(), b.Shape())
  {
    for i := 0 to |axes|
      invariant forall j :: 0 <= j < i ==> Overlap(axes[j], a.Shape(), b.Shape())
    {
      var min1, max1 := Project(axes[i], a.vertices, a.position);
      var min2, max2 := Project(axes[i], b.vertices, b.position);
      if Min(max1, max2) - Max(min1, min2) < 0.0 {
        SeparatedMeansApart(axes[i], a.Shape(), b.Shape());
        return false;
      }
    }
    return true;
  }

  /** SAT::collides(a, b). A negative answer is right whatever the normals are; once both boxes have been turned
      it is exact. */
  method Collides(a: RectBoundingBox, b: RectBoundingBox) returns (r: bool)
    requires a.Valid() && b.Valid()
    modifies a`normals, a`min, a`max, a`recalcNormals, b`normals, b`min, b`max, b`recalcNormals
    ensures a.Valid() && b.Valid()
    ensures !r ==> !Touch(a.Shape(), b.Shape())
    ensures old(a.Settled() && b.Settled()) && IsParallelogram(a.vertices) && IsParallelogram(b.vertices) ==>
              (r <==> Touch(a.Shape(), b.Shape()))
  {
    var axes := a.Normals();
    r := CollidesOn(axes, a, b);
    if !r {
      return;
    }
    ghost var first := axes;
    axes := b.Normals();
    r := CollidesOn(axes, a, b);
    if old(a.Settled() && b.Settled()) && IsParallelogram(a.vertices) && IsParallelogram(b.vertices) {
      PlacedKeepsShape(a.vertices, a.position);
      PlacedKeepsShape(b.vertices, b.position);
      SatIsExact(a.Shape(), b.Shape());
    }
  }
}
