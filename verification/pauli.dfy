/**
 * The Pauli decomposition: the powers of the three Pauli scattering
 * mechanisms, computed from a scattering matrix, a C3 or a T3 matrix.
 */
module Pauli {
  import opened Common
  import opened ComplexAlgebra
  import opened Channels

  /**
   * `getPauliDecomposition` of a C3 matrix: red is the double-bounce power
   * T22, green the 45-degree power T33, blue the surface power T11. Only
   * real parts are read.
   */
  function Decompose(c: Mat3): (rgb: Rgb)
    ensures rgb.r + rgb.b == c.m11.re + c.m33.re
    ensures rgb.b - rgb.r == 2.0 * c.m13.re
    ensures rgb.g == c.m22.re
  {
    Rgb(0.5 * (c.m11.re - 2.0 * c.m13.re + c.m33.re), c.m22.re, 0.5 * (c.m11.re + 2.0 * c.m13.re + c.m33.re))
  }

  /** Matrices that agree on their real parts decompose alike. */
  lemma DecomposeReadsNoImaginaryPart(c: Mat3, c': Mat3)
    requires c.m11.re == c'.m11.re && c.m22.re == c'.m22.re && c.m33.re == c'.m33.re
    requires c.m13.re == c'.m13.re
    ensures Decompose(c) == Decompose(c')
  {
  }

  /**
   * The full-pol path: |S11 - S22|^2 / 2, |S12 + S21|^2 / 2 and
   * |S11 + S22|^2 / 2.
   */
  function ScatterPowers(s: Mat2): (rgb: Rgb)
    ensures 0.0 <= rgb.r && 0.0 <= rgb.g && 0.0 <= rgb.b
    ensures 2.0 * rgb.r == Norm2(Minus(s.m11, s.m22))
    ensures 2.0 * rgb.g == Norm2(Plus(s.m12, s.m21))
    ensures 2.0 * rgb.b == Norm2(Plus(s.m11, s.m22))
  {
    Rgb(Norm2(Minus(s.m11, s.m22)) / 2.0, Norm2(Plus(s.m12, s.m21)) / 2.0, Norm2(Plus(s.m11, s.m22)) / 2.0)
  }

  /** The red and blue channels of the full-pol path together carry |S11|^2 + |S22|^2. */
  lemma ScatterPowersCoPolarTotal(s: Mat2)
    ensures ScatterPowers(s).r + ScatterPowers(s).b == Norm2(s.m11) + Norm2(s.m22)
  {
    var a, b := s.m11, s.m22;
    assert Norm2(Minus(a, b)) + Norm2(Plus(a, b)) == 2.0 * (Norm2(a) + Norm2(b));
  }

  /** The C3 path of the tile computation: the same formulas as `Decompose`. */
  function CovariancePowers(c: Mat3): (rgb: Rgb)
    ensures rgb == Decompose(c)
  {
    Rgb(0.5 * (c.m11.re - 2.0 * c.m13.re + c.m33.re), c.m22.re, 0.5 * (c.m11.re + 2.0 * c.m13.re + c.m33.re))
  }

  /** The T3 path: red T22, green T33, blue T11. */
  function CoherencyPowers(t: Mat3): (rgb: Rgb)
    ensures rgb.r == t.m22.re && rgb.g == t.m33.re && rgb.b == t.m11.re
    ensures rgb.r + rgb.g + rgb.b == Trace3(t)
  {
    Rgb(t.m22.re, t.m33.re, t.m11.re)
  }

  /** The full-pol path agrees with the C3 path on the covariance of a reciprocal scattering matrix. */
  lemma ScatterPathMatchesCovariancePath(s: Mat2, c: Mat3)
    requires IsCovarianceOf(c, s)
    ensures ScatterPowers(s) == CovariancePowers(c)
  {
    var a, b := s.m11, s.m22;
    assert Norm2(Minus(a, b)) == Norm2(a) - 2.0 * Mul(a, Conj(b)).re + Norm2(b);
    assert Norm2(Plus(a, b)) == Norm2(a) + 2.0 * Mul(a, Conj(b)).re + Norm2(b);
    assert Norm2(Plus(s.m12, s.m12)) == 4.0 * Norm2(s.m12);
  }

  /** The T3 path agrees with the C3 path on the coherency matrix of the same data. */
  lemma CoherencyPathMatchesCovariancePath(t: Mat3, c: Mat3)
    requires IsCoherencyOf(t, c)
    ensures CoherencyPowers(t) == CovariancePowers(c)
  {
  }

  /** The channel powers of one pixel, by the kind of matrix it holds. */
  function RawPowers(px: QuadPixel): Rgb
  {
    match px
    case Scatter(s) => ScatterPowers(s)
    case Covariance(c) => CovariancePowers(c)
    case Coherency(t) => CoherencyPowers(t)
  }

  /**
   * The value written for one pixel: no-data on every channel, or each
   * power floored at `eps` and converted to decibels, so never below
   * 10 log10(eps).
   */
  function Pixel(px: QuadPixel, noData: bool, nodata: real, eps: real, log10: real -> real): (o: Rgb)
    requires 0.0 < eps && MonotoneOnPositive(log10)
    ensures noData ==> o == Rgb(nodata, nodata, nodata)
    ensures !noData ==> 10.0 * log10(eps) <= o.r && 10.0 * log10(eps) <= o.g && 10.0 * log10(eps) <= o.b
    ensures !noData ==> o == DbFloorRgb(RawPowers(px), eps, log10)
    ensures !noData && px.Covariance? ==> o == DbFloorRgb(Decompose(px.c), eps, log10)
    ensures !noData && px.Coherency? ==> o.b == DbFloor(px.t.m11.re, eps, log10)
  {
    WriteOut(RawPowers(px), noData, nodata, eps, log10)
  }
}
