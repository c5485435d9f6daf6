/** The implicit conic equation that defines a tracked ellipse in the image
    frame (i, j):

      i^2 + K0 j^2 + 2 K1 i j + 2 K2 i + 2 K3 j + K4 = 0

    together with the facts that give its coefficients a geometric meaning:
    the circle case K0 = 1, K1 = 0, the centre at which the gradient of the
    left-hand side vanishes, and the positive-definite quadratic form that
    remains once that centre is removed. Doubles are modelled as `real`. */
module ImplicitConic {

  /** A point of the image frame: i is the row, j the column. */
  datatype ImagePoint = ImagePoint(i: real, j: real)

  /** The five coefficients K0..K4 of the implicit equation. */
  datatype Conic = Conic(k0: real, k1: real, k2: real, k3: real, k4: real)

  /** Left-hand side of the implicit equation at p. */
  function Value(K: Conic, p: ImagePoint): real {
    p.i * p.i + K.k0 * p.j * p.j + 2.0 * K.k1 * p.i * p.j
    + 2.0 * K.k2 * p.i + 2.0 * K.k3 * p.j + K.k4
  }

  /** p belongs to the curve described by K. */
  predicate OnConic(K: Conic, p: ImagePoint) {
    Value(K, p) == 0.0
  }

  /** The coefficients a circle is tracked with: K0 = 1 and K1 = 0. */
  predicate IsCircleForm(K: Conic) {
    K.k0 == 1.0 && K.k1 == 0.0
  }

  /** Left-hand side of the circle equation i^2 + j^2 + 2 K2 i + 2 K3 j + K4 = 0. */
  function CircleValue(k2: real, k3: real, k4: real, p: ImagePoint): real {
    p.i * p.i + p.j * p.j + 2.0 * k2 * p.i + 2.0 * k3 * p.j + k4
  }

  /** With K0 = 1 and K1 = 0 the general equation is the circle equation, at every point. */
  lemma CircleSpecialisation(K: Conic, p: ImagePoint)
    requires IsCircleForm(K)
    ensures Value(K, p) == CircleValue(K.k2, K.k3, K.k4, p)
    ensures OnConic(K, p) <==> CircleValue(K.k2, K.k3, K.k4, p) == 0.0
  {
  }

  /** Squared Euclidean distance between two image points. */
  function SqDist(p: ImagePoint, q: ImagePoint): real {
    (p.i - q.i) * (p.i - q.i) + (p.j - q.j) * (p.j - q.j)
  }

  /** The second-order part of the equation applied to an offset (di, dj). */
  function QuadraticPart(K: Conic, di: real, dj: real): real {
    di * di + K.k0 * dj * dj + 2.0 * K.k1 * di * dj
  }

  /** Determinant of the quadratic form's matrix [[1, K1], [K1, K0]]. */
  function Determinant(K: Conic): real {
    K.k0 - K.k1 * K.k1
  }

  /** The point at which both partial derivatives of Value vanish; it exists
      and is unique exactly when the determinant is not zero. */
  function Centre(K: Conic): (c: ImagePoint)
    requires Determinant(K) != 0.0
    ensures c.i + K.k1 * c.j + K.k2 == 0.0
    ensures K.k1 * c.i + K.k0 * c.j + K.k3 == 0.0
  {
    var d := Determinant(K);
    var ci := (K.k1 * K.k3 - K.k0 * K.k2) / d;
    var cj := (K.k1 * K.k2 - K.k3) / d;
    assert ci * d == K.k1 * K.k3 - K.k0 * K.k2;
    assert cj * d == K.k1 * K.k2 - K.k3;
    assert (ci + K.k1 * cj + K.k2) * d == 0.0 by {
      assert (ci + K.k1 * cj + K.k2) * d == ci * d + K.k1 * (cj * d) + K.k2 * d;
    }
    assert (K.k1 * ci + K.k0 * cj + K.k3) * d == 0.0 by {
      assert (K.k1 * ci + K.k0 * cj + K.k3) * d == K.k1 * (ci * d) + K.k0 * (cj * d) + K.k3 * d;
    }
    ImagePoint(ci, cj)
  }

  /** The point c + (di, dj). */
  function Offset(c: ImagePoint, di: real, dj: real): ImagePoint {
    ImagePoint(c.i + di, c.j + dj)
  }

  /** Taylor expansion of Value about any point c: the first-order terms are
      the offset times the (halved) gradient at c. */
  lemma {:induction false} ExpandAbout(K: Conic, c: ImagePoint, di: real, dj: real)
    ensures Value(K, Offset(c, di, dj))
         == Value(K, c) + QuadraticPart(K, di, dj)
            + 2.0 * di * (c.i + K.k1 * c.j + K.k2)
            + 2.0 * dj * (K.k1 * c.i + K.k0 * c.j + K.k3)
  {
    var ci, cj := c.i, c.j;
    assert (ci + di) * (ci + di) == ci * ci + 2.0 * ci * di + di * di;
    assert K.k0 * (cj + dj) * (cj + dj) == K.k0 * cj * cj + 2.0 * K.k0 * cj * dj + K.k0 * dj * dj;
    assert 2.0 * K.k1 * (ci + di) * (cj + dj)
        == 2.0 * K.k1 * ci * cj + 2.0 * K.k1 * ci * dj + 2.0 * K.k1 * di * cj + 2.0 * K.k1 * di * dj;
    assert 2.0 * K.k2 * (ci + di) == 2.0 * K.k2 * ci + 2.0 * K.k2 * di;
    assert 2.0 * K.k3 * (cj + dj) == 2.0 * K.k3 * cj + 2.0 * K.k3 * dj;
    assert 2.0 * di * (ci + K.k1 * cj + K.k2) == 2.0 * ci * di + 2.0 * K.k1 * di * cj + 2.0 * K.k2 * di;
    assert 2.0 * dj * (K.k1 * ci + K.k0 * cj + K.k3) == 2.0 * K.k1 * ci * dj + 2.0 * K.k0 * cj * dj + 2.0 * K.k3 * dj;
  }

  /** Moving the origin to the centre removes the first-order terms: the
      equation becomes the quadratic form of the offset plus a constant. */
  lemma {:induction false} CentredForm(K: Conic, di: real, dj: real)
    requires Determinant(K) != 0.0
    ensures Value(K, Offset(Centre(K), di, dj)) == Value(K, Centre(K)) + QuadraticPart(K, di, dj)
  {
    var c := Centre(K);
    ExpandAbout(K, c, di, dj);
    assert 2.0 * di * (c.i + K.k1 * c.j + K.k2) == 0.0;
    assert 2.0 * dj * (K.k1 * c.i + K.k0 * c.j + K.k3) == 0.0;
  }

  /** A conic with a centre is symmetric about it: c + d lies on the curve
      exactly when c - d does. */
  lemma {:induction false} CentralSymmetry(K: Conic, di: real, dj: real)
    requires Determinant(K) != 0.0
    ensures OnConic(K, Offset(Centre(K), di, dj)) <==> OnConic(K, Offset(Centre(K), -di, -dj))
  {
    CentredForm(K, di, dj);
    CentredForm(K, -di, -dj);
    assert QuadraticPart(K, -di, -dj) == QuadraticPart(K, di, dj);
  }

  /** x^2 and a * x, kept as functions so that the sign arguments below are
      made about these terms rather than about raw products. */
  function Square(x: real): real {
    Scale(x, x)
  }

  function Scale(a: real, x: real): real {
    a * x
  }

  lemma ScalePositive(a: real, x: real)
    requires a > 0.0 && x > 0.0
    ensures Scale(a, x) > 0.0
  {
  }

  lemma ScaleSign(a: real, x: real)
    requires a > 0.0 && x >= 0.0
    ensures Scale(a, x) >= 0.0
    ensures Scale(a, x) == 0.0 <==> x == 0.0
  {
  }

  lemma SquareSign(x: real)
    ensures Square(x) >= 0.0
    ensures Square(x) == 0.0 <==> x == 0.0
  {
    if x > 0.0 {
      ScalePositive(x, x);
    } else if x < 0.0 {
      assert Square(x) == Square(-x);
      ScalePositive(-x, -x);
    }
  }

  /** Completing the square: the quadratic part is (di + K1 dj)^2 + det * dj^2. */
  lemma {:induction false} QuadraticPartSquares(K: Conic, di: real, dj: real)
    ensures QuadraticPart(K, di, dj) == Square(di + K.k1 * dj) + Scale(Determinant(K), Square(dj))
  {
    calc {
      Square(di + K.k1 * dj) + Scale(Determinant(K), Square(dj));
      di * di + 2.0 * K.k1 * di * dj + K.k1 * K.k1 * dj * dj + (K.k0 - K.k1 * K.k1) * dj * dj;
      QuadraticPart(K, di, dj);
    }
  }

  /** For a positive determinant the quadratic part is positive definite: it
      is never negative, and it is zero only for the zero offset. */
  lemma {:induction false} PositiveDefinite(K: Conic, di: real, dj: real)
    requires Determinant(K) > 0.0
    ensures QuadraticPart(K, di, dj) >= 0.0
    ensures QuadraticPart(K, di, dj) == 0.0 <==> di == 0.0 && dj == 0.0
  {
    QuadraticPartSquares(K, di, dj);
    SquareSign(di + K.k1 * dj);
    SquareSign(dj);
    ScaleSign(Determinant(K), Square(dj));
  }

  /** For a positive determinant (an ellipse-type conic) the centre is the
      unique minimiser of Value: every other point gives a strictly larger value. */
  lemma {:induction false} CentreMinimises(K: Conic, p: ImagePoint)
    requires Determinant(K) > 0.0
    ensures Value(K, p) >= Value(K, Centre(K))
    ensures Value(K, p) == Value(K, Centre(K)) <==> p == Centre(K)
  {
    var c := Centre(K);
    var di, dj := p.i - c.i, p.j - c.j;
    assert Offset(c, di, dj) == p;
    CentredForm(K, di, dj);
    PositiveDefinite(K, di, dj);
  }

  /** Consequently an ellipse-type conic whose value at the centre is positive
      describes no point at all (an imaginary ellipse). */
  lemma {:induction false} ImaginaryEllipse(K: Conic, p: ImagePoint)
    requires Determinant(K) > 0.0 && Value(K, Centre(K)) > 0.0
    ensures !OnConic(K, p)
  {
    CentreMinimises(K, p);
  }

  /** In the circle case the centre is (-K2, -K3) and the equation says that
      the squared distance to it equals K2^2 + K3^2 - K4. */
  function CircleRadiusSq(K: Conic): real {
    K.k2 * K.k2 + K.k3 * K.k3 - K.k4
  }

  lemma {:induction false} CircleGeometry(K: Conic, p: ImagePoint)
    requires IsCircleForm(K)
    ensures Determinant(K) == 1.0
    ensures Centre(K) == ImagePoint(-K.k2, -K.k3)
    ensures Value(K, p) == SqDist(p, Centre(K)) - CircleRadiusSq(K)
    ensures OnConic(K, p) <==> SqDist(p, Centre(K)) == CircleRadiusSq(K)
  {
    var c := Centre(K);
    assert c.i == -K.k2;
    assert c.j == -K.k3;
    CircleSpecialisation(K, p);
    calc {
      SqDist(p, c) - CircleRadiusSq(K);
      (p.i + K.k2) * (p.i + K.k2) + (p.j + K.k3) * (p.j + K.k3) - (K.k2 * K.k2 + K.k3 * K.k3 - K.k4);
      CircleValue(K.k2, K.k3, K.k4, p);
    }
  }
}
