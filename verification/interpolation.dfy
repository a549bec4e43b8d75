/**
  Parabolic interpolation of a spectral peak: the quadratic through three
  (frequency, amplitude) points in Lagrange form and its vertex.
 */
module Interpolation {

  import opened Options

  datatype Point = Point(x: real, y: real)

  /** Coefficients of y = a*x^2 + b*x + c. */
  datatype Quadratic = Quadratic(a: real, b: real, c: real)

  function Eval(q: Quadratic, x: real): real {
    q.a * x * x + q.b * x + q.c
  }

  /** The common denominator d of the coefficients. */
  function Denominator(p1: Point, p2: Point, p3: Point): real {
    (p1.x - p2.x) * (p1.x - p3.x) * (p2.x - p3.x)
  }

  /** d is nonzero exactly when the three abscissae are pairwise distinct. */
  lemma DenominatorNonzero(p1: Point, p2: Point, p3: Point)
    ensures Denominator(p1, p2, p3) != 0.0 <==> p1.x != p2.x && p1.x != p3.x && p2.x != p3.x
  {
    var u, v, w := p1.x - p2.x, p1.x - p3.x, p2.x - p3.x;
    assert Denominator(p1, p2, p3) == (u * v) * w;
    if u != 0.0 && v != 0.0 && w != 0.0 {
      assert u * v != 0.0;
      assert (u * v) * w != 0.0;
    }
  }

  /** The numerators of a, b and c before the division by d. */
  function NumeratorA(p1: Point, p2: Point, p3: Point): real {
    p3.x * (p2.y - p1.y) + p2.x * (p1.y - p3.y) + p1.x * (p3.y - p2.y)
  }

  function NumeratorB(p1: Point, p2: Point, p3: Point): real {
    p3.x * p3.x * (p1.y - p2.y) + p2.x * p2.x * (p3.y - p1.y) + p1.x * p1.x * (p2.y - p3.y)
  }

  function NumeratorC(p1: Point, p2: Point, p3: Point): real {
    p2.x * p3.x * (p2.x - p3.x) * p1.y + p3.x * p1.x * (p3.x - p1.x) * p2.y + p1.x * p2.x * (p1.x - p2.x) * p3.y
  }

  /** The interpolating quadratic: for pairwise distinct abscissae it passes through all three points. */
  function Fit(p1: Point, p2: Point, p3: Point): (q: Quadratic)
    requires Denominator(p1, p2, p3) != 0.0
    ensures Eval(q, p1.x) == p1.y && Eval(q, p2.x) == p2.y && Eval(q, p3.x) == p3.y
  {
    FitThroughFirst(p1, p2, p3);
    FitThroughSecond(p1, p2, p3);
    FitThroughThird(p1, p2, p3);
    Divided(p1, p2, p3)
  }

  /** The coefficients of the source formulas: each numerator divided by d. */
  function Divided(p1: Point, p2: Point, p3: Point): Quadratic
    requires Denominator(p1, p2, p3) != 0.0
  {
    var d := Denominator(p1, p2, p3);
    Quadratic(NumeratorA(p1, p2, p3) / d, NumeratorB(p1, p2, p3) / d, NumeratorC(p1, p2, p3) / d)
  }

  lemma FitThroughFirst(p1: Point, p2: Point, p3: Point)
    requires Denominator(p1, p2, p3) != 0.0
    ensures Eval(Divided(p1, p2, p3), p1.x) == p1.y
  {
    LagrangeFirst(p1, p2, p3);
    FitPassesThrough(p1, p2, p3, p1.x, p1.y);
  }

  lemma FitThroughSecond(p1: Point, p2: Point, p3: Point)
    requires Denominator(p1, p2, p3) != 0.0
    ensures Eval(Divided(p1, p2, p3), p2.x) == p2.y
  {
    LagrangeSecond(p1, p2, p3);
    FitPassesThrough(p1, p2, p3, p2.x, p2.y);
  }

  lemma FitThroughThird(p1: Point, p2: Point, p3: Point)
    requires Denominator(p1, p2, p3) != 0.0
    ensures Eval(Divided(p1, p2, p3), p3.x) == p3.y
  {
    LagrangeThird(p1, p2, p3);
    FitPassesThrough(p1, p2, p3, p3.x, p3.y);
  }

  lemma FitPassesThrough(p1: Point, p2: Point, p3: Point, x: real, y: real)
    requires Denominator(p1, p2, p3) != 0.0
    requires NumeratorA(p1, p2, p3) * x * x + NumeratorB(p1, p2, p3) * x + NumeratorC(p1, p2, p3) == y * Denominator(p1, p2, p3)
    ensures Eval(Divided(p1, p2, p3), x) == y
  {
    DivideThrough(NumeratorA(p1, p2, p3), NumeratorB(p1, p2, p3), NumeratorC(p1, p2, p3), Denominator(p1, p2, p3), x, y);
  }

  /** The numerator polynomial passes through each of the three points scaled by d. */
  lemma LagrangeFirst(p1: Point, p2: Point, p3: Point)
    ensures NumeratorA(p1, p2, p3) * p1.x * p1.x + NumeratorB(p1, p2, p3) * p1.x + NumeratorC(p1, p2, p3) == p1.y * Denominator(p1, p2, p3)
  {
  }

  lemma LagrangeSecond(p1: Point, p2: Point, p3: Point)
    ensures NumeratorA(p1, p2, p3) * p2.x * p2.x + NumeratorB(p1, p2, p3) * p2.x + NumeratorC(p1, p2, p3) == p2.y * Denominator(p1, p2, p3)
  {
  }

  lemma LagrangeThird(p1: Point, p2: Point, p3: Point)
    ensures NumeratorA(p1, p2, p3) * p3.x * p3.x + NumeratorB(p1, p2, p3) * p3.x + NumeratorC(p1, p2, p3) == p3.y * Denominator(p1, p2, p3)
  {
  }

  lemma DivMul(n: real, d: real)
    requires d != 0.0
    ensures (n / d) * d == n
  {
  }

  /** A point of the numerator polynomial scaled by d is a point of the quadratic with the divided coefficients. */
  lemma DivideThrough(na: real, nb: real, nc: real, d: real, x: real, y: real)
    requires d != 0.0
    requires na * x * x + nb * x + nc == y * d
    ensures Eval(Quadratic(na / d, nb / d, nc / d), x) == y
  {
    var a, b, c := na / d, nb / d, nc / d;
    DivMul(na, d);
    DivMul(nb, d);
    DivMul(nc, d);
    assert (a * x * x + b * x + c) * d == (a * d) * x * x + (b * d) * x + c * d;
  }

  /** The quadratic equals the value at `v` plus its leading coefficient times the squared distance from `v`. */
  ghost predicate IsVertexForm(q: Quadratic, v: Point) {
    forall x :: Eval(q, x) == v.y + q.a * (x - v.x) * (x - v.x)
  }

  /**
    The vertex of a quadratic with a nonzero leading coefficient, computed as
    x = -b / (2a) and y = c - b^2 / (4a): the quadratic equals y plus a times the
    squared distance from x, so the vertex is its maximum when a < 0 and its
    minimum when a > 0.
   */
  function VertexOf(q: Quadratic): (v: Point)
    requires q.a != 0.0
    ensures IsVertexForm(q, v)
    ensures q.a < 0.0 ==> forall x :: Eval(q, x) <= v.y
  {
    var v := Point(q.b * (-1.0) / (2.0 * q.a), q.c - q.b * q.b / (4.0 * q.a));
    CompletedSquare(q, v);
    v
  }

  lemma CompletedSquare(q: Quadratic, v: Point)
    requires q.a != 0.0
    requires v == Point(q.b * (-1.0) / (2.0 * q.a), q.c - q.b * q.b / (4.0 * q.a))
    ensures forall x :: Eval(q, x) == v.y + q.a * (x - v.x) * (x - v.x)
    ensures q.a < 0.0 ==> forall x :: Eval(q, x) <= v.y
  {
    var a, b, c := q.a, q.b, q.c;
    var h := v.x;
    assert 2.0 * a * h == -b;
    var s := b * b / (4.0 * a);
    assert s * (4.0 * a) == b * b;
    assert a * h * h == s by {
      assert (a * h * h) * (4.0 * a) == (2.0 * a * h) * (2.0 * a * h);
    }
    forall x
      ensures Eval(q, x) == v.y + a * (x - h) * (x - h)
    {
      calc {
        v.y + a * (x - h) * (x - h);
        c - s + a * x * x - 2.0 * a * h * x + a * h * h;
        a * x * x + b * x + c;
      }
    }
    if a < 0.0 {
      forall x
        ensures Eval(q, x) <= v.y
      {
        assert (x - h) * (x - h) >= 0.0;
        assert a * ((x - h) * (x - h)) <= 0.0;
      }
    }
  }

  /**
    The vertex through three points as the program computes it, unguarded: a
    division by d and by 2a with no check, so coincident abscissae or collinear
    points give a non-finite result, which the model represents as None.
   */
  function VertexAsWritten(p1: Point, p2: Point, p3: Point): (v: Option<Point>)
    ensures v.Some? <==> Denominator(p1, p2, p3) != 0.0 && Fit(p1, p2, p3).a != 0.0
    ensures v.Some? ==> IsVertexForm(Fit(p1, p2, p3), v.value)
  {
    if Denominator(p1, p2, p3) == 0.0 then None
    else
      var q := Fit(p1, p2, p3);
      if q.a == 0.0 then None else Some(VertexOf(q))
  }

  /**
    The interpolated peak with the guard the computation needs: the vertex of
    the parabola through the three points when it exists, and otherwise the
    middle (coarse) point unchanged, so the result is always a finite value.
   */
  function GuardedVertex(p1: Point, p2: Point, p3: Point): (v: Point)
    ensures VertexAsWritten(p1, p2, p3) == Some(v) || (VertexAsWritten(p1, p2, p3).None? && v == p2)
  {
    match VertexAsWritten(p1, p2, p3)
    case Some(v) => v
    case None => p2
  }

  /**
    Three points in increasing x whose middle point is strictly above the left
    one and not below the right one, as the peak bin and its neighbours are,
    lie on a downward parabola, so its vertex exists and is its maximum.
   */
  lemma PeakParabolaOpensDown(p1: Point, p2: Point, p3: Point)
    requires p1.x < p2.x < p3.x
    requires p1.y < p2.y && p3.y <= p2.y
    ensures Denominator(p1, p2, p3) != 0.0
    ensures Fit(p1, p2, p3).a < 0.0
  {
    var d := Denominator(p1, p2, p3);
    var na := NumeratorA(p1, p2, p3);
    assert na == (p3.x - p2.x) * (p2.y - p1.y) + (p2.x - p1.x) * (p2.y - p3.y);
    assert (p3.x - p2.x) * (p2.y - p1.y) > 0.0;
    assert (p2.x - p1.x) * (p2.y - p3.y) >= 0.0;
    assert (p1.x - p2.x) * (p1.x - p3.x) > 0.0;
    assert d < 0.0;
    DivMul(na, d);
    assert Fit(p1, p2, p3).a == na / d;
  }
}
