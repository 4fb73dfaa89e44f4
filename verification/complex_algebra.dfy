/**
 * Complex numbers as (real, imaginary) pairs, and the 2x2 / 3x3 complex
 * matrices the polarimetric code stores as a pair of real arrays `Cr`, `Ci`.
 * Matrix fields use the physics convention: `m12` is the entry the source
 * keeps in `Cr[0][1]` / `Ci[0][1]`.
 */
module ComplexAlgebra {

  datatype Complex = Complex(re: real, im: real)

  const Zero: Complex := Complex(0.0, 0.0)

  function Conj(z: Complex): Complex { Complex(z.re, -z.im) }

  function Plus(a: Complex, b: Complex): Complex { Complex(a.re + b.re, a.im + b.im) }

  function Minus(a: Complex, b: Complex): Complex { Complex(a.re - b.re, a.im - b.im) }

  function Mul(a: Complex, b: Complex): Complex
  {
    Complex(a.re * b.re - a.im * b.im, a.re * b.im + a.im * b.re)
  }

  function ScaleC(z: Complex, s: real): Complex { Complex(z.re * s, z.im * s) }

  /** |z|^2, written as the source writes it: `re * re + im * im`. */
  function Norm2(z: Complex): (n: real)
    ensures 0.0 <= n
  {
    z.re * z.re + z.im * z.im
  }

  /** A real square is non-negative, and positive away from zero. */
  lemma SquareNonNegative(x: real)
    ensures 0.0 <= x * x
    ensures x != 0.0 ==> 0.0 < x * x
  {
    if x < 0.0 {
      assert (-x) * (-x) > 0.0;
    }
  }

  /**
   * a * conj(b), in the expanded form the source writes for one matrix
   * entry: `re = ar*br + ai*bi`, `im = ai*br - ar*bi`.
   */
  function CrossMul(a: Complex, b: Complex): (z: Complex)
    ensures z == Mul(a, Conj(b))
  {
    Complex(a.re * b.re + a.im * b.im, a.im * b.re - a.re * b.im)
  }

  /** z * conj(z) is the real number |z|^2. */
  lemma MulConjSelf(z: Complex)
    ensures Mul(z, Conj(z)) == Complex(Norm2(z), 0.0)
  {
  }

  /** conj(a * conj(b)) == b * conj(a). */
  lemma ConjOfCrossProduct(a: Complex, b: Complex)
    ensures Conj(Mul(a, Conj(b))) == Mul(b, Conj(a))
  {
  }

  /** |a b|^2 == |a|^2 |b|^2 (Lagrange's identity for two squares). */
  lemma NormMultiplicative(a: Complex, b: Complex)
    ensures Norm2(Mul(a, b)) == Norm2(a) * Norm2(b)
  {
    var p := a.re * b.re - a.im * b.im;
    var q := a.re * b.im + a.im * b.re;
    assert p * p == a.re * a.re * b.re * b.re - 2.0 * a.re * b.re * a.im * b.im + a.im * a.im * b.im * b.im;
    assert q * q == a.re * a.re * b.im * b.im + 2.0 * a.re * b.im * a.im * b.re + a.im * a.im * b.re * b.re;
    assert Norm2(a) * Norm2(b) ==
      a.re * a.re * b.re * b.re + a.re * a.re * b.im * b.im + a.im * a.im * b.re * b.re + a.im * a.im * b.im * b.im;
  }

  // ---------------------------------------------------------------- 2x2

  datatype Mat2 = Mat2(m11: Complex, m12: Complex, m21: Complex, m22: Complex)

  const Zero2: Mat2 := Mat2(Zero, Zero, Zero, Zero)

  /** Hermitian: real diagonal, lower triangle the conjugate of the upper. */
  predicate Hermitian2(m: Mat2)
  {
    m.m11.im == 0.0 && m.m22.im == 0.0 && m.m21 == Conj(m.m12)
  }

  /** Entry-wise `+` (the source's `matrixPlusEquals`). */
  function Add2(a: Mat2, b: Mat2): (r: Mat2)
    ensures Hermitian2(a) && Hermitian2(b) ==> Hermitian2(r)
  {
    Mat2(Plus(a.m11, b.m11), Plus(a.m12, b.m12), Plus(a.m21, b.m21), Plus(a.m22, b.m22))
  }

  /** Entry-wise scaling by a real (the source's `matrixTimesEquals`). */
  function Scale2(a: Mat2, s: real): (r: Mat2)
    ensures Hermitian2(a) ==> Hermitian2(r)
  {
    Mat2(ScaleC(a.m11, s), ScaleC(a.m12, s), ScaleC(a.m21, s), ScaleC(a.m22, s))
  }

  /** The conjugate transpose. */
  function Adjoint2(a: Mat2): Mat2
  {
    Mat2(Conj(a.m11), Conj(a.m21), Conj(a.m12), Conj(a.m22))
  }

  lemma HermitianIsSelfAdjoint(a: Mat2)
    ensures Hermitian2(a) <==> Adjoint2(a) == a
  {
  }

  /**
   * A 2x2 power matrix: non-negative diagonal and a cross term bounded by
   * the diagonal, |m12|^2 <= m11 m22 (positive semi-definite, read on the
   * entries the source uses).
   */
  predicate PowerMatrix(m: Mat2)
  {
    0.0 <= m.m11.re && 0.0 <= m.m22.re && Norm2(m.m12) <= m.m11.re * m.m22.re
  }

  /** (x . y)^2 <= |x|^2 |y|^2 for plane vectors (Cauchy-Schwarz). */
  lemma DotBound(xr: real, xi: real, yr: real, yi: real)
    ensures (xr * yr + xi * yi) * (xr * yr + xi * yi) <= (xr * xr + xi * xi) * (yr * yr + yi * yi)
  {
    SquareNonNegative(xr * yi - xi * yr);
    assert (xr * xr + xi * xi) * (yr * yr + yi * yi) - (xr * yr + xi * yi) * (xr * yr + xi * yi)
        == (xr * yi - xi * yr) * (xr * yi - xi * yr);
  }

  /** Products of non-negative bounds bound the product. */
  lemma ProductBound(p: real, q: real, bp: real, bq: real)
    requires 0.0 <= p <= bp && 0.0 <= q <= bq
    ensures p * q <= bp * bq
  {
    assert p * q <= bp * q;
    assert bp * q <= bp * bq;
  }

  /** 4uv <= (u + v)^2. */
  lemma FourProductBound(u: real, v: real)
    ensures 4.0 * (u * v) <= (u + v) * (u + v)
  {
    SquareNonNegative(u - v);
    assert (u + v) * (u + v) - 4.0 * (u * v) == (u - v) * (u - v);
  }

  /** A number whose square is at most x^2, for x >= 0, is at most x. */
  lemma SquareDominates(x: real, y: real)
    requires 0.0 <= x && y * y <= x * x
    ensures y <= x
  {
    if 0.0 < x + y {
      assert (x - y) * (x + y) == x * x - y * y;
    }
  }

  /** The cross term of a sum of two power matrices. */
  lemma CrossTermBound(a11: real, a22: real, b11: real, b22: real, xr: real, xi: real, yr: real, yi: real)
    requires 0.0 <= a11 && 0.0 <= a22 && 0.0 <= b11 && 0.0 <= b22
    requires xr * xr + xi * xi <= a11 * a22 && yr * yr + yi * yi <= b11 * b22
    ensures 2.0 * (xr * yr + xi * yi) <= a11 * b22 + b11 * a22
  {
    DotBound(xr, xi, yr, yi);
    SquareNonNegative(xr);
    SquareNonNegative(xi);
    SquareNonNegative(yr);
    SquareNonNegative(yi);
    ProductBound(xr * xr + xi * xi, yr * yr + yi * yi, a11 * a22, b11 * b22);
    FourProductBound(a11 * b22, b11 * a22);
    assert (a11 * a22) * (b11 * b22) == (a11 * b22) * (b11 * a22);
    assert 0.0 <= a11 * b22 && 0.0 <= b11 * a22;
    SquareDominates(a11 * b22 + b11 * a22, 2.0 * (xr * yr + xi * yi));
  }

  /** Power matrices are closed under `+`. */
  lemma AddPowerMatrix(a: Mat2, b: Mat2)
    requires PowerMatrix(a) && PowerMatrix(b)
    ensures PowerMatrix(Add2(a, b))
  {
    CrossTermBound(a.m11.re, a.m22.re, b.m11.re, b.m22.re, a.m12.re, a.m12.im, b.m12.re, b.m12.im);
    var xr := a.m12.re;
    var xi := a.m12.im;
    var yr := b.m12.re;
    var yi := b.m12.im;
    assert Norm2(Plus(a.m12, b.m12)) ==
      (xr * xr + xi * xi) + (yr * yr + yi * yi) + 2.0 * (xr * yr + xi * yi);
    assert (a.m11.re + b.m11.re) * (a.m22.re + b.m22.re) ==
      a.m11.re * a.m22.re + b.m11.re * b.m22.re + (a.m11.re * b.m22.re + b.m11.re * a.m22.re);
  }

  /** The zero matrix is a power matrix. */
  lemma ZeroPowerMatrix()
    ensures PowerMatrix(Zero2)
  {
  }

  // ---------------------------------------------------------------- 3x3

  datatype Mat3 = Mat3(
    m11: Complex, m12: Complex, m13: Complex,
    m21: Complex, m22: Complex, m23: Complex,
    m31: Complex, m32: Complex, m33: Complex)

  /** The diagonal matrix diag(a, b, c). */
  function Diag3(a: real, b: real, c: real): Mat3
  {
    Mat3(Complex(a, 0.0), Zero, Zero, Zero, Complex(b, 0.0), Zero, Zero, Zero, Complex(c, 0.0))
  }

  /** The trace of the real part, the "span" (total power). */
  function Trace3(m: Mat3): real { m.m11.re + m.m22.re + m.m33.re }

  /**
   * `t` has the diagonal and the real part of T12 of the coherency matrix
   * of the covariance matrix `c` (T = U C U^H in the Pauli basis).
   */
  predicate IsCoherencyOf(t: Mat3, c: Mat3)
  {
    t.m11.re == 0.5 * (c.m11.re + 2.0 * c.m13.re + c.m33.re) &&
    t.m22.re == 0.5 * (c.m11.re - 2.0 * c.m13.re + c.m33.re) &&
    t.m33.re == c.m22.re &&
    t.m12.re == 0.5 * (c.m11.re - c.m33.re)
  }

  /**
   * `c` has the diagonal and C13 of the covariance matrix of the reciprocal
   * scattering matrix `s` (S12 = S21), built on the lexicographic vector
   * k = [S11, sqrt(2) S12, S22].
   */
  predicate IsCovarianceOf(c: Mat3, s: Mat2)
  {
    s.m12 == s.m21 &&
    c.m11.re == Norm2(s.m11) &&
    c.m22.re == 2.0 * Norm2(s.m12) &&
    c.m33.re == Norm2(s.m22) &&
    c.m13 == Mul(s.m11, Conj(s.m22))
  }
}
