/** Points of the plane, segments and the collision circle. Floats are modelled as reals. */
module Geometry {

  datatype Point = Point(x: real, y: real)

  // static_cast<int> truncates toward zero.
  function Trunc(x: real): int
  {
    if x >= 0.0 then x.Floor else -((-x).Floor)
  }

  function Sq(a: real): (r: real)
    ensures r >= 0.0
  {
    a * a
  }

  function DistSq(a: Point, b: Point): (r: real)
    ensures r >= 0.0
  {
    Sq(a.x - b.x) + Sq(a.y - b.y)
  }

  function Dot(a: Point, b: Point): real
  {
    a.x * b.x + a.y * b.y
  }

  function Minus(a: Point, b: Point): Point
  {
    Point(a.x - b.x, a.y - b.y)
  }

  lemma DistIsDot(a: Point, b: Point)
    ensures DistSq(a, b) == Dot(Minus(a, b), Minus(a, b))
  {
  }

  // Where a body that starts at p with velocity v is at time s.
  function Along(p: Point, v: Point, s: real): Point
  {
    Point(p.x + v.x * s, p.y + v.y * s)
  }

  function Quadratic(c: real, m: real, l: real, t: real): real
  {
    c - 2.0 * t * m + t * t * l
  }

  lemma SquareAlong(e: real, p: real, v: real, t: real)
    ensures Sq(e - (p + v * t)) == Quadratic((e - p) * (e - p), (e - p) * v, v * v, t)
  {
  }

  lemma QuadraticSum(c: real, m: real, l: real, c': real, m': real, l': real, t: real)
    ensures Quadratic(c, m, l, t) + Quadratic(c', m', l', t) == Quadratic(c + c', m + m', l + l', t)
  {
  }

  // The squared distance to a moving point is a quadratic in its time.
  lemma DistAlong(e: Point, p: Point, v: Point, t: real)
    ensures var w := Minus(e, p);
            DistSq(e, Along(p, v, t)) == Quadratic(Dot(w, w), Dot(w, v), Dot(v, v), t)
  {
    var w := Minus(e, p);
    SquareAlong(e.x, p.x, v.x, t);
    SquareAlong(e.y, p.y, v.y, t);
    QuadraticSum(w.x * w.x, w.x * v.x, v.x * v.x, w.y * w.y, w.y * v.y, v.y * v.y, t);
  }

  function Clamp01(t: real): real
  {
    if t < 0.0 then 0.0 else if 1.0 < t then 1.0 else t
  }

  // Products are handed out by name: the solver reasons better about ab than about a * b.
  lemma Product(a: real, b: real) returns (ab: real)
    requires (a >= 0.0 && b >= 0.0) || (a <= 0.0 && b <= 0.0)
    ensures ab == a * b && ab >= 0.0
    ensures a != 0.0 && b != 0.0 ==> ab > 0.0
  {
    ab := a * b;
  }

  lemma QuadraticDifference(c: real, q: real, l: real, s: real, t: real)
    ensures Quadratic(c, q * l, l, t) - Quadratic(c, q * l, l, s) == l * ((t - s) * (t + s - 2.0 * q))
  {
  }

  lemma QuadraticMin(c: real, m: real, l: real, t: real)
    requires l > 0.0 && 0.0 <= t <= 1.0
    ensures Quadratic(c, m, l, Clamp01(m / l)) <= Quadratic(c, m, l, t)
  {
    var q := m / l;
    var s := Clamp01(q);
    QuadraticDifference(c, q, l, s, t);
    var slope := Product(t - s, t + s - 2.0 * q);
    var gap := Product(l, slope);
  }

  /** The point of a segment nearest to e is its clamped projection. */
  lemma ClampedProjectionIsNearest(e: Point, p: Point, v: Point, t: real)
    requires Dot(v, v) > 0.0 && 0.0 <= t <= 1.0
    ensures DistSq(e, Along(p, v, Clamp01(Dot(Minus(e, p), v) / Dot(v, v)))) <= DistSq(e, Along(p, v, t))
  {
    var w := Minus(e, p);
    var c, m, l := Dot(w, w), Dot(w, v), Dot(v, v);
    QuadraticMin(c, m, l, t);
    DistAlong(e, p, v, Clamp01(m / l));
    DistAlong(e, p, v, t);
  }

  lemma DotSelf(v: Point)
    ensures Dot(v, v) == Sq(v.x) + Sq(v.y) >= 0.0
  {
  }

  lemma CauchySchwarz(a: Point, b: Point) returns (square: real, bound: real)
    ensures square == Sq(Dot(a, b)) && bound == Dot(a, a) * Dot(b, b) && square <= bound
  {
    square, bound := Sq(Dot(a, b)), Dot(a, a) * Dot(b, b);
    var cross := Sq(a.x * b.y - a.y * b.x);
    Lagrange(a, b);
  }

  lemma Lagrange(a: Point, b: Point)
    ensures Sq(Dot(a, b)) + Sq(a.x * b.y - a.y * b.x) == Dot(a, a) * Dot(b, b)
  {
  }

  lemma RootBound(a: real, b: real)
    requires b >= 0.0 && Sq(a) <= Sq(b)
    ensures a <= b
  {
    var diff := (a - b) * (a + b);
    assert diff == Sq(a) - Sq(b);
    if a > b { var gap := Product(a - b, a + b); }
  }

  lemma SumOfSquares(a: Point, b: Point, c: Point)
    ensures DistSq(a, c) == Dot(Minus(a, b), Minus(a, b)) + 2.0 * Dot(Minus(a, b), Minus(b, c)) + Dot(Minus(b, c), Minus(b, c))
  {
    AxisSum(a.x - b.x, b.x - c.x);
    AxisSum(a.y - b.y, b.y - c.y);
    assert a.x - c.x == (a.x - b.x) + (b.x - c.x) && a.y - c.y == (a.y - b.y) + (b.y - c.y);
  }

  lemma AxisSum(w: real, u: real)
    ensures Sq(w + u) == w * w + 2.0 * (w * u) + u * u
  {
  }
}
