/** SegmentedBezier: a table of arc lengths along a cubic, and the binary search that inverts it. */
module ArcLength {
  import opened Plane

  /** The four terms of Bezier::calc, in one coordinate. */
  function Cubic(a: real, b: real, c: real, d: real, t: real): real {
    var u := 1.0 - t;
    u * u * u * a + 3.0 * (u * u) * t * b + 3.0 * u * (t * t) * c + t * t * t * d
  }

  /** Bezier::calc */
  function Calc(a: Point, b: Point, c: Point, d: Point, t: real): Point {
    Point(Cubic(a.x, b.x, c.x, d.x, t), Cubic(a.y, b.y, c.y, d.y, t))
  }

  /** The curve starts at a and ends at d. */
  lemma CalcEnds(a: Point, b: Point, c: Point, d: Point)
    ensures Calc(a, b, c, d, 0.0) == a && Calc(a, b, c, d, 1.0) == d
  {
  }

  function Blend(x: real, y: real, t: real): real { (1.0 - t) * x + t * y }

  function Between(p: Point, q: Point, t: real): Point { Point(Blend(p.x, q.x, t), Blend(p.y, q.y, t)) }

  lemma CubicInSteps(a: real, b: real, c: real, d: real, t: real)
    ensures Cubic(a, b, c, d, t)
            == Blend(Blend(Blend(a, b, t), Blend(b, c, t), t), Blend(Blend(b, c, t), Blend(c, d, t), t), t)
  {
    var u := 1.0 - t;
    var ab, bc, cd := u * a + t * b, u * b + t * c, u * c + t * d;
    assert Blend(ab, bc, t) == (u * u) * a + 2.0 * (u * t) * b + (t * t) * c;
    assert Blend(bc, cd, t) == (u * u) * b + 2.0 * (u * t) * c + (t * t) * d;
  }

  /** In between it is de Casteljau's construction: the control points are cut at t, thrice. */
  lemma CalcIsDeCasteljau(a: Point, b: Point, c: Point, d: Point, t: real)
    ensures var ab, bc, cd := Between(a, b, t), Between(b, c, t), Between(c, d, t);
            Calc(a, b, c, d, t) == Between(Between(ab, bc, t), Between(bc, cd, t), t)
  {
    CubicInSteps(a.x, b.x, c.x, d.x, t);
    CubicInSteps(a.y, b.y, c.y, d.y, t);
  }

  /** A table of cumulative lengths: it starts at 0 and never decreases. */
  predicate IsTable(segments: seq<real>) {
    |segments| >= 2 && segments[0] == 0.0 && forall i, j :: 0 <= i <= j < |segments| ==> segments[i] <= segments[j]
  }

  /** The piecewise linear arc length at parameter x in [0, |segments| - 1], in units of one segment. */
  function LengthAt(segments: seq<real>, x: real): real
    requires IsTable(segments) && 0.0 <= x <= (|segments| - 1) as real
  {
    var i := x.Floor;
    if i == |segments| - 1 then segments[i]
    else segments[i] + (x - i as real) * (segments[i + 1] - segments[i])
  }

  /** `low` is the first entry that reaches `target`. */
  predicate IsFirst(segments: seq<real>, target: real, low: int) {
    0 <= low < |segments| && segments[low] >= target && forall j :: 0 <= j < low ==> segments[j] < target
  }

  /** The first entry that reaches `target`: there is one, and only one. */
  function First(segments: seq<real>, target: real): (low: int)
    requires IsTable(segments) && target <= segments[|segments| - 1]
    ensures IsFirst(segments, target, low)
  {
    FirstFrom(segments, target, 0)
  }

  function FirstFrom(segments: seq<real>, target: real, i: nat): (low: int)
    requires i < |segments| && target <= segments[|segments| - 1] && forall j :: 0 <= j < i ==> segments[j] < target
    ensures IsFirst(segments, target, low)
    decreases |segments| - i
  {
    if segments[i] >= target then i else FirstFrom(segments, target, i + 1)
  }

  lemma OnlyFirst(segments: seq<real>, target: real, low: int)
    requires IsTable(segments) && IsFirst(segments, target, low)
    ensures target <= segments[|segments| - 1] && First(segments, target) == low
  {
    assert segments[low] <= segments[|segments| - 1];
    assert !(First(segments, target) < low) && !(low < First(segments, target));
  }

  /** The parameter, in segments, at which the table reaches `target` inside the segment that ends at `low`. */
  function Reached(segments: seq<real>, target: real, low: int): real
    requires IsTable(segments) && 0.0 <= target && IsFirst(segments, target, low)
  {
    if segments[low] == target then low as real
    else (low - 1) as real + (target - segments[low - 1]) / (segments[low] - segments[low - 1])
  }

  lemma FractionBounds(x: real, y: real)
    requires 0.0 < x <= y
    ensures 0.0 < x / y <= 1.0 && (x / y) * y == x && (x < y ==> x / y < 1.0)
  {
  }

  /** The interpolated length at the point found is the target: a right inverse of the arc length. */
  lemma ReachedIsInverse(segments: seq<real>, target: real, low: int)
    requires IsTable(segments) && 0.0 <= target && IsFirst(segments, target, low)
    ensures var x := Reached(segments, target, low);
            && 0.0 <= x <= low as real
            && (low > 0 ==> (low - 1) as real < x)
            && LengthAt(segments, x) == target
  {
    if segments[low] != target {
      var part, whole := target - segments[low - 1], segments[low] - segments[low - 1];
      FractionBounds(part, whole);
      var x := Reached(segments, target, low);
      assert x.Floor == low - 1;
    } else {
      assert (low as real).Floor == low;
    }
  }

  lemma PositiveProduct(x: real, y: real)
    ensures x >= 0.0 && y >= 0.0 ==> x * y >= 0.0
    ensures x > 0.0 && y > 0.0 ==> x * y > 0.0
  {
  }

  lemma TimesBounded(x: real, y: real)
    requires 0.0 <= x <= 1.0 && 0.0 <= y
    ensures 0.0 <= Times(x, y) <= y
  {
    PositiveProduct(x, y);
    PositiveProduct(1.0 - x, y);
    assert (1.0 - x) * y == y - x * y;
  }

  lemma TimesOrder(x: real, y: real, d: real)
    requires x < y && d > 0.0
    ensures Times(x, d) < Times(y, d)
  {
    PositiveProduct(y - x, d);
    assert (y - x) * d == y * d - x * d;
  }

  lemma TimesKeepsOrder(x: real, y: real, d: real)
    requires x <= y && d >= 0.0
    ensures Times(x, d) <= Times(y, d)
  {
    if x < y && d > 0.0 {
      TimesOrder(x, y, d);
    }
  }

  lemma Convex(x: real, y: real, f: real)
    requires x <= y && 0.0 <= f <= 1.0
    ensures x <= x + f * (y - x) <= y
  {
    TimesBounded(f, y - x);
  }

  lemma BeforeTheSegment(segments: seq<real>, i: int, y: real)
    requires IsTable(segments) && 0 <= i < |segments| - 1 && i as real <= y < (i + 1) as real
    ensures y <= (|segments| - 1) as real && LengthAt(segments, y) <= segments[i + 1]
  {
    assert y.Floor == i;
    Convex(segments[i], segments[i + 1], y - i as real);
  }

  lemma WithinTheSegment(segments: seq<real>, target: real, low: int, y: real)
    requires IsTable(segments) && 0.0 <= target && IsFirst(segments, target, low) && low > 0
    requires (low - 1) as real <= y < Reached(segments, target, low) <= low as real
    ensures LengthAt(segments, y) < target
  {
    var i, d := low - 1, segments[low] - segments[low - 1];
    assert y.Floor == i;
    LastStep(segments, target, low);
    TimesOrder(y - i as real, Reached(segments, target, low) - i as real, d);
    assert LengthAt(segments, y) == segments[i] + Times(y - i as real, d);
  }

  /** Everywhere before the point found the interpolated length is shorter. */
  lemma ReachedIsLeast(segments: seq<real>, target: real, low: int, y: real)
    requires IsTable(segments) && 0.0 <= target && IsFirst(segments, target, low)
    requires 0.0 <= y < Reached(segments, target, low)
    ensures y <= low as real && LengthAt(segments, y) < target
  {
    ReachedIsInverse(segments, target, low);
    if y.Floor + 1 < low {
      BeforeTheSegment(segments, y.Floor, y);
    } else {
      WithinTheSegment(segments, target, low, y);
    }
  }

  lemma LastStep(segments: seq<real>, target: real, low: int)
    requires IsTable(segments) && 0.0 <= target && IsFirst(segments, target, low) && low > 0
    ensures Times(Reached(segments, target, low) - (low - 1) as real, segments[low] - segments[low - 1])
            == target - segments[low - 1]
  {
    if segments[low] != target {
      FractionBounds(target - segments[low - 1], segments[low] - segments[low - 1]);
    }
  }

  /** `x`, in units of one segment, is the first point at which the interpolated length reaches `target`. */
  ghost predicate IsFirstPoint(segments: seq<real>, target: real, x: real) {
    && IsTable(segments) && 0.0 <= x <= (|segments| - 1) as real && LengthAt(segments, x) == target
    && forall y :: 0.0 <= y < x ==> LengthAt(segments, y) < target
  }

  lemma ReachedIsFirstPoint(segments: seq<real>, target: real, low: int)
    requires IsTable(segments) && 0.0 <= target && IsFirst(segments, target, low)
    ensures IsFirstPoint(segments, target, Reached(segments, target, low))
  {
    ReachedIsInverse(segments, target, low);
    forall y | 0.0 <= y < Reached(segments, target, low)
      ensures LengthAt(segments, y) < target
    {
      ReachedIsLeast(segments, target, low, y);
    }
  }

  lemma SharesInOrder(segments: seq<real>, t1: real, t2: real)
    requires IsTable(segments) && t1 <= t2
    ensures Times(t1, segments[|segments| - 1]) <= Times(t2, segments[|segments| - 1])
  {
    assert segments[|segments| - 1] >= segments[0];
    TimesKeepsOrder(t1, t2, segments[|segments| - 1]);
  }

  /** map is monotone: a larger t is found at a larger or equal point. */
  lemma MapIsMonotone(segments: seq<real>, t1: real, m1: real, t2: real, m2: real)
    requires IsTable(segments) && 0.0 <= t1 <= t2 <= 1.0
    requires IsFirstPoint(segments, Times(t1, segments[|segments| - 1]), Times(m1, (|segments| - 1) as real))
    requires IsFirstPoint(segments, Times(t2, segments[|segments| - 1]), Times(m2, (|segments| - 1) as real))
    ensures m1 <= m2
  {
    var total, n := segments[|segments| - 1], (|segments| - 1) as real;
    SharesInOrder(segments, t1, t2);
    FirstPointsInOrder(segments, Times(t1, total), Times(m1, n), Times(t2, total), Times(m2, n));
    TimesReflectsOrder(m1, m2, n);
  }

  lemma FirstPointsInOrder(segments: seq<real>, target1: real, x1: real, target2: real, x2: real)
    requires target1 <= target2 && IsFirstPoint(segments, target1, x1) && IsFirstPoint(segments, target2, x2)
    ensures x1 <= x2
  {
  }

  lemma TimesReflectsOrder(m1: real, m2: real, d: real)
    requires d > 0.0 && Times(m1, d) <= Times(m2, d)
    ensures m1 <= m2
  {
    if m2 < m1 {
      TimesOrder(m2, m1, d);
    }
  }

  /** i * (1.0f / len) */
  function Sample(len: nat, i: int): (t: real)
    requires len >= 1
  {
    i as real * (1.0 / len as real)
  }

  /** The samples go from 0 to 1 in equal steps. */
  lemma SampleIsShare(len: nat, i: int)
    requires len >= 1
    ensures Sample(len, i) == i as real / len as real && Sample(len, 0) == 0.0 && Sample(len, len) == 1.0
    ensures Sample(len, i) - Sample(len, i - 1) == 1.0 / len as real
  {
  }

  lemma FirstSample(len: nat)
    requires len >= 1
    ensures Sample(len, 0) == 0.0
  {
  }

  /** The arc length added between sample i - 1 and sample i of a curve. */
  function Chord(curve: real -> Point, distance: (Point, Point) -> real, len: nat, i: int): real
    requires len >= 1
  {
    distance(curve(Sample(len, i)), curve(Sample(len, i - 1)))
  }

  /** The loop of the constructor. `distance` stands for glm::distance, of which only its sign matters. */
  method FillTable(curve: real -> Point, distance: (Point, Point) -> real, len: nat)
    returns (segments: array<real>, length: real)
    requires len >= 1 && forall p, q :: distance(p, q) >= 0.0
    ensures fresh(segments) && segments.Length == len + 1 && IsTable(segments[..]) && length == segments[len]
    ensures forall i :: 1 <= i <= len ==> segments[i] == segments[i - 1] + Chord(curve, distance, len, i)
  {
    segments := new real[len + 1];
    length := 0.0;
    segments[0] := 0.0;
    var origin := curve(0.0);
    FirstSample(len);
    var i := 1;
    while i <= len
      invariant 1 <= i <= len + 1
      invariant segments[0] == 0.0 && length == segments[i - 1]
      invariant origin == curve(Sample(len, i - 1))
      invariant forall j, k :: 0 <= j <= k < i ==> segments[j] <= segments[k]
      invariant forall j :: 1 <= j < i ==> segments[j] == segments[j - 1] + Chord(curve, distance, len, j)
    {
      var p := curve(Sample(len, i));
      length := length + distance(p, origin);
      segments[i] := length;
      origin := p;
      i := i + 1;
    }
  }

  lemma ShareOfTotal(t: real, total: real)
    requires 0.0 <= t <= 1.0 && total >= 0.0
    ensures Times(t, total) == t * total && 0.0 <= Times(t, total) <= total
  {
    TimesBounded(t, total);
  }

  class SegmentedBezier {
    const len: nat
    const a: Point
    const b: Point
    const c: Point
    const d: Point
    var segments: array<real>
    var length: real

    ghost predicate Valid()
      reads this, segments
    {
      len >= 1 && segments.Length == len + 1 && IsTable(segments[..]) && length == segments[len]
    }

    constructor (a: Point, b: Point, c: Point, d: Point, len: nat, distance: (Point, Point) -> real)
      requires len >= 1 && forall p, q :: distance(p, q) >= 0.0
      ensures Valid() && fresh(segments) && this.len == len
      ensures this.a == a && this.b == b && this.c == c && this.d == d
      ensures forall i :: 1 <= i <= len ==>
                var t, s := i as real / len as real, (i - 1) as real / len as real;
                segments[i] == segments[i - 1] + distance(Calc(a, b, c, d, t), Calc(a, b, c, d, s))
    {
      this.a, this.b, this.c, this.d, this.len := a, b, c, d, len;
      var curve := t => Calc(a, b, c, d, t);
      var table, total := FillTable(curve, distance, len);
      segments, length := table, total;
      new;
      forall i | 1 <= i <= len
        ensures var t, s := i as real / len as real, (i - 1) as real / len as real;
                segments[i] == segments[i - 1] + distance(Calc(a, b, c, d, t), Calc(a, b, c, d, s))
      {
        SampleIsShare(len, i);
        SampleIsShare(len, i - 1);
        assert segments[i] == segments[i - 1] + Chord(curve, distance, len, i);
      }
    }

    /** The binary search: the last probe is the first entry that reaches the target, or the one before it. */
    method Search(targetLength: real) returns (index: int)
      requires Valid() && 0.0 <= targetLength <= segments[len]
      ensures var low := First(segments[..], targetLength); 0 <= index && low - 1 <= index <= low
    {
      var lo, hi := 0, len;
      index := 0;
      while lo < hi
        invariant 0 <= lo <= hi <= len && 0 <= index <= len
        invariant forall j :: 0 <= j < lo ==> segments[j] < targetLength
        invariant segments[hi] >= targetLength
        invariant (lo == 0 && hi == len) || index == lo - 1 || index == hi
      {
        index := lo + (hi - lo) / 2;
        if segments[index] < targetLength {
          lo := index + 1;
        } else {
          hi := index;
        }
      }
      OnlyFirst(segments[..], targetLength, lo);
    }

    /** SegmentedBezier::map stays in bounds, never divides by zero, and finds the first point where the
        interpolated arc length is t times the total, although it goes on from the last probe and not from `low`. */
    method Map(t: real) returns (m: real)
      requires Valid() && 0.0 <= t <= 1.0
      ensures 0.0 <= m <= 1.0 && 0.0 <= m * len as real <= len as real
      ensures LengthAt(segments[..], m * len as real) == t * segments[len]
      ensures forall y :: 0.0 <= y < m * len as real ==> LengthAt(segments[..], y) < t * segments[len]
    {
      assert segments[len] >= segments[0];
      ShareOfTotal(t, segments[len]);
      var targetLength := Times(t, segments[len]);
      m := MapLength(targetLength);
    }

    method MapLength(targetLength: real) returns (m: real)
      requires Valid() && 0.0 <= targetLength <= segments[len]
      ensures 0.0 <= m <= 1.0 && IsFirstPoint(segments[..], targetLength, Times(m, len as real))
    {
      var index := Search(targetLength);
      ghost var low := First(segments[..], targetLength);
      ReachedIsFirstPoint(segments[..], targetLength, low);
      m := Interpolate(targetLength, index, low);
    }

    /** The steps after the search. */
    method Interpolate(targetLength: real, probe: int, ghost low: int) returns (m: real)
      requires Valid() && 0.0 <= targetLength && IsFirst(segments[..], targetLength, low)
      requires 0 <= probe && low - 1 <= probe <= low
      requires 0.0 <= Reached(segments[..], targetLength, low) <= len as real
      ensures 0.0 <= m <= 1.0 && Times(m, len as real) == Reached(segments[..], targetLength, low)
    {
      var index := probe;
      if segments[index] > targetLength {
        index := index - 1;
      }
      var lengthBefore := segments[index];
      if lengthBefore == targetLength {
        m := index as real / len as real;
      } else {
        m := (index as real + (targetLength - lengthBefore) / (segments[index + 1] - lengthBefore)) / len as real;
      }
      LastProbe(segments[..], targetLength, index, low);
      QuotientOf(Reached(segments[..], targetLength, low), len);
    }
  }

  /** Interpolating from the entry before the target, or at it, gives the same point. */
  lemma LastProbe(segments: seq<real>, target: real, index: int, low: int)
    requires IsTable(segments) && 0.0 <= target && IsFirst(segments, target, low)
    requires 0 <= index && low - 1 <= index <= low && segments[index] <= target
    ensures segments[index] == target ==> index as real == Reached(segments, target, low)
    ensures segments[index] != target ==>
              && index + 1 == low && segments[index + 1] != segments[index]
              && index as real + (target - segments[index]) / (segments[index + 1] - segments[index]) ==
                 Reached(segments, target, low)
  {
  }

  lemma QuotientOf(x: real, n: int)
    requires n >= 1 && 0.0 <= x <= n as real
    ensures 0.0 <= x / n as real <= 1.0 && Times(x / n as real, n as real) == x
  {
    QuotientTimes(x, n as real);
  }

  lemma QuotientTimes(x: real, d: real)
    requires d >= 1.0 && 0.0 <= x <= d
    ensures 0.0 <= x / d <= 1.0 && Times(x / d, d) == x
  {
  }
}
