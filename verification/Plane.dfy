/** Points and vectors of the plane, over the reals. */
module Plane {

  datatype Point = Point(x: real, y: real)

  function Plus(p: Point, q: Point): Point { Point(p.x + q.x, p.y + q.y) }

  function Minus(p: Point, q: Point): Point { Point(p.x - q.x, p.y - q.y) }

  function Scale(k: real, p: Point): Point { Point(k * p.x, k * p.y) }

  function Dot(p: Point, q: Point): real { p.x * q.x + p.y * q.y }

  function Cross(p: Point, q: Point): real { p.x * q.y - p.y * q.x }

  function Min(x: real, y: real): real { if y < x then y else x }

  function Max(x: real, y: real): real { if x < y then y else x }

  /** A named product, so that equal factors give equal terms. */
  function Times(x: real, y: real): real { x * y }

  lemma Quotient(x: real, k: real)
    requires k != 0.0
    ensures (x / k) * k == x
  {
  }

  lemma ZeroProduct(x: real, k: real)
    requires k != 0.0 && x * k == 0.0
    ensures x == 0.0
  {
  }
}
