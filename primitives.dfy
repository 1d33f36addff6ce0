/**
 Values shared by both versions of the simulation: points in the image plane,
 directions given by their sine and cosine, four-cornered outlines, colours,
 optional values, and the truncating conversion from real to integer that
 Python's int(), numpy's astype(int) and C++'s float-to-int conversion perform.
 */
module Primitives {

  datatype Option<T> = None | Some(value: T)

  /** A colour as the three channels OpenCV takes (blue, green, red). */
  datatype Color = Color(b: int, g: int, r: int)

  /** A point, or a displacement, in image coordinates (y grows downwards). */
  datatype Point = Point(x: real, y: real) {

    function Plus(q: Point): (r: Point)
      ensures r.Minus(q) == this
    {
      Point(x + q.x, y + q.y)
    }

    function Minus(q: Point): Point {
      Point(x - q.x, y - q.y)
    }

    function Scaled(k: real): Point {
      Point(k * x, k * y)
    }

    function Dot(q: Point): real {
      x * q.x + y * q.y
    }

    function NormSquared(): real {
      Dot(this)
    }
  }

  /** The point halfway between p and q: it is as far from p as q is from it. */
  function Mid(p: Point, q: Point): (m: Point)
    ensures m.Minus(p) == q.Minus(m)
  {
    Point((p.x + q.x) / 2.0, (p.y + q.y) / 2.0)
  }

  /**
   A direction. Trigonometry is not modelled: an angle carries its measure in
   radians together with its sine and cosine, and only the algebra built on
   those two numbers is verified.
   */
  datatype Angle = Angle(theta: real, sin: real, cos: real) {

    predicate OnUnitCircle() {
      sin * sin + cos * cos == 1.0
    }

    /** Unit vector along the direction: (cos, sin). */
    function Along(): Point {
      Point(cos, sin)
    }

    /** Unit vector a quarter turn from Along: (-sin, cos). */
    function Across(): (n: Point)
      ensures n.Dot(Along()) == 0.0
    {
      Point(-sin, cos)
    }
  }

  /** Four corners p1, p2, p3, p4, in drawing order. */
  datatype Quad = Quad(p1: Point, p2: Point, p3: Point, p4: Point)

  /** Conversion of a real to an integer, rounding toward zero. */
  function Trunc(r: real): (t: int)
    ensures 0.0 <= r ==> t as real <= r < t as real + 1.0
    ensures r < 0.0 ==> t as real - 1.0 < r <= t as real
  {
    if r >= 0.0 then r.Floor else -((-r).Floor)
  }

  /** Both coordinates of p rounded toward zero. */
  function TruncPoint(p: Point): (q: Point)
    ensures Near(q, p)
  {
    Point(Trunc(p.x) as real, Trunc(p.y) as real)
  }

  /** p and q differ by less than one unit in each coordinate. */
  predicate Near(p: Point, q: Point) {
    -1.0 < p.x - q.x < 1.0 && -1.0 < p.y - q.y < 1.0
  }
}
