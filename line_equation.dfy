/** The line through the first two coordinates of a line geometry as an
    equation `A*x + B*y + C = 0` (`_setEquation`), and the distance of a
    point to that line (`_distToPolyline`), over the reals. */
module LineEquation {
  import opened MapModel

  datatype Equation = Equation(A: real, B: real, C: real)

  /** The left-hand side `A*x + B*y + C` of the equation at `p`. */
  function Residual(e: Equation, p: Coordinate): real
  {
    e.A * p.x + e.B * p.y + e.C
  }

  /** The point satisfies the equation. */
  predicate OnLine(e: Equation, p: Coordinate)
  {
    Residual(e, p) == 0.0
  }

  /** `p` lies on the line through `a` and `b` (their cross product is zero). */
  predicate Collinear(a: Coordinate, b: Coordinate, p: Coordinate)
  {
    (p.y - a.y) * (b.x - a.x) == (b.y - a.y) * (p.x - a.x)
  }

  /** The segment the equation is built from: the geometry has at least two
      coordinates and the first two do not lie on one vertical. */
  predicate NonVertical(line: Geometry)
  {
    |line.coordinates| >= 2 && line.coordinates[0].x != line.coordinates[1].x
  }

  /** `_setEquation`: slope `k = (from.y - to.y) / (from.x - to.x)`, then
      `A = k`, `B = -1`, `C = from.y - k * from.x`. Both coordinates it is
      built from satisfy the equation. */
  function SetEquation(line: Geometry): (e: Equation)
    requires NonVertical(line)
    ensures e.B == -1.0
    ensures OnLine(e, line.coordinates[0]) && OnLine(e, line.coordinates[1])
  {
    var from, to := line.coordinates[0], line.coordinates[1];
    var k := (from.y - to.y) / (from.x - to.x);
    assert k * (from.x - to.x) == from.y - to.y;
    assert k * to.x - to.y + (from.y - k * from.x) == (from.y - to.y) - k * (from.x - to.x);
    Equation(k, -1.0, from.y - k * from.x)
  }

  /** A point satisfies the equation exactly when it is collinear with the
      two coordinates the equation was built from. */
  lemma OnLineIffCollinear(line: Geometry, p: Coordinate)
    requires NonVertical(line)
    ensures OnLine(SetEquation(line), p) <==> Collinear(line.coordinates[0], line.coordinates[1], p)
  {
    var from, to := line.coordinates[0], line.coordinates[1];
    var e := SetEquation(line);
    var k := e.A;
    var dx := to.x - from.x;
    assert k * dx == to.y - from.y;
    // the left-hand side of the equation at p, rewritten around `from`
    var lhs := e.A * p.x + e.B * p.y + e.C;
    assert lhs == k * (p.x - from.x) - (p.y - from.y);
    assert lhs * dx == (to.y - from.y) * (p.x - from.x) - (p.y - from.y) * dx;
    if lhs == 0.0 {
      assert Collinear(from, to, p);
    }
    if Collinear(from, to, p) {
      assert lhs * dx == 0.0;
    }
  }

  /** Every point of the infinite line through `from` and `to` satisfies the
      equation, including the points beyond either end of the segment
      (`s < 0` or `s > 1`). */
  lemma ExtensionOnLine(line: Geometry, s: real)
    requires NonVertical(line)
    ensures var from, to := line.coordinates[0], line.coordinates[1];
      OnLine(SetEquation(line), Coordinate(from.x + s * (to.x - from.x), from.y + s * (to.y - from.y)))
  {
    var from, to := line.coordinates[0], line.coordinates[1];
    var q := Coordinate(from.x + s * (to.x - from.x), from.y + s * (to.y - from.y));
    assert (q.y - from.y) * (to.x - from.x) == (to.y - from.y) * (q.x - from.x);
    OnLineIffCollinear(line, q);
  }

  /** `A^2 + B^2`, the squared length of the line's normal `(A, B)`. */
  function NormSquared(e: Equation): real
  {
    e.A * e.A + e.B * e.B
  }

  /** The line's normal is never zero: `A^2 + B^2 >= 1`, since `B = -1`. */
  lemma NormalAtLeastOne(line: Geometry)
    requires NonVertical(line)
    ensures NormSquared(SetEquation(line)) >= 1.0
  {
  }

  /** The square of `_distToPolyline`'s value
      `|A*x + B*y + C| / sqrt(A^2 + B^2)`, written as
      `(A*x + B*y + C) * ((A*x + B*y + C) / (A^2 + B^2))`. It is never
      negative, and it is zero exactly for the points of the line. */
  function DistToPolylineSquared(p: Coordinate, line: Geometry): (d2: real)
    requires NonVertical(line)
    ensures d2 >= 0.0
    ensures d2 == 0.0 <==> OnLine(SetEquation(line), p)
  {
    var e := SetEquation(line);
    var n := Residual(e, p);
    var norm := NormSquared(e);
    QuotientSign(n, norm);
    ProductSign(n, n / norm);
    n * (n / norm)
  }

  function SquaredDistance(p: Coordinate, q: Coordinate): real
  {
    (p.x - q.x) * (p.x - q.x) + (p.y - q.y) * (p.y - q.y)
  }

  /** The distance is a lower bound: no point of the line is closer to `p`. */
  lemma DistanceIsLowerBound(p: Coordinate, line: Geometry, q: Coordinate)
    requires NonVertical(line)
    requires OnLine(SetEquation(line), q)
    ensures DistToPolylineSquared(p, line) <= SquaredDistance(p, q)
  {
    var e := SetEquation(line);
    var a, b := e.A, e.B;
    var u, v := p.x - q.x, p.y - q.y;
    var n := Residual(e, p);
    var norm := NormSquared(e);
    assert n == a * u + b * v by {
      assert a * u == a * p.x - a * q.x;
      assert b * v == b * p.y - b * q.y;
    }
    CauchySchwarz(a, b, u, v);
    var d2 := n * (n / norm);
    assert d2 * norm == n * n by {
      assert n / norm * norm == n;
    }
    CancelPositive(d2, u * u + v * v, norm);
  }

  /** The two-dimensional Cauchy-Schwarz inequality, from Lagrange's identity. */
  lemma CauchySchwarz(a: real, b: real, u: real, v: real)
    ensures (a * u + b * v) * (a * u + b * v) <= (a * a + b * b) * (u * u + v * v)
  {
    var w := a * v - b * u;
    assert (a * a + b * b) * (u * u + v * v) - (a * u + b * v) * (a * u + b * v) == w * w;
    ProductSign(w, w);
  }

  lemma QuotientSign(n: real, d: real)
    requires d > 0.0
    ensures n > 0.0 ==> n / d > 0.0
    ensures n < 0.0 ==> n / d < 0.0
    ensures n == 0.0 ==> n / d == 0.0
  {
    assert n / d * d == n;
  }

  lemma ProductSign(a: real, b: real)
    ensures a > 0.0 && b > 0.0 ==> a * b > 0.0
    ensures a < 0.0 && b < 0.0 ==> a * b > 0.0
    ensures a == 0.0 || b == 0.0 ==> a * b == 0.0
    ensures a * b >= 0.0 || (a > 0.0 && b < 0.0) || (a < 0.0 && b > 0.0)
  {
  }

  /** Dividing both sides of `x * d <= y * d` by a positive `d`. */
  lemma CancelPositive(x: real, y: real, d: real)
    requires d > 0.0 && x * d <= d * y
    ensures x <= y
  {
    var z := x - y;
    assert z * d == x * d - y * d;
    ProductSign(z, d);
  }

  /** The lower bound is attained: the foot of the perpendicular from `p`
      lies on the line at exactly that distance, so the value is the
      squared distance from `p` to the infinite line. */
  lemma DistanceIsAttained(p: Coordinate, line: Geometry)
    requires NonVertical(line)
    ensures var e := SetEquation(line);
      var f := Residual(e, p) / NormSquared(e);
      var foot := Coordinate(p.x - f * e.A, p.y - f * e.B);
      OnLine(e, foot) && SquaredDistance(p, foot) == DistToPolylineSquared(p, line)
  {
    var e := SetEquation(line);
    var a, b := e.A, e.B;
    var n := Residual(e, p);
    var norm := NormSquared(e);
    var f := n / norm;
    var foot := Coordinate(p.x - f * a, p.y - f * b);
    assert f * norm == n;
    assert Residual(e, foot) == n - f * norm by {
      assert a * foot.x == a * p.x - f * (a * a);
      assert b * foot.y == b * p.y - f * (b * b);
    }
    assert SquaredDistance(p, foot) == f * (f * norm) by {
      assert p.x - foot.x == f * a && p.y - foot.y == f * b;
    }
    assert DistToPolylineSquared(p, line) == n * f;
  }
}
