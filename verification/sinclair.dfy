/**
 * The Sinclair decomposition: the co- and cross-polar powers of the
 * scattering matrix, computed from a scattering matrix, a C3 or a T3
 * matrix.
 */
module Sinclair {
  import opened Common
  import opened ComplexAlgebra
  import opened Channels

  /** `getSinclairDecomposition`: red C33 (|S22|^2), green C22 / 2 (|S12|^2), blue C11 (|S11|^2). */
  function Decompose(c: Mat3): (rgb: Rgb)
    ensures rgb.r == c.m33.re && 2.0 * rgb.g == c.m22.re && rgb.b == c.m11.re
    ensures rgb.r + 2.0 * rgb.g + rgb.b == Trace3(c)
  {
    Rgb(c.m33.re, 0.5 * c.m22.re, c.m11.re)
  }

  /** The full-pol path: |S22|^2, |(S12 + S21) / 2|^2 and |S11|^2. */
  function ScatterPowers(s: Mat2): (rgb: Rgb)
    ensures 0.0 <= rgb.r && 0.0 <= rgb.g && 0.0 <= rgb.b
    ensures rgb.r == Norm2(s.m22) && rgb.b == Norm2(s.m11)
    ensures 4.0 * rgb.g == Norm2(Plus(s.m12, s.m21))
  {
    var hv := Complex(0.5 * (s.m12.re + s.m21.re), 0.5 * (s.m12.im + s.m21.im));
    Rgb(Norm2(s.m22), Norm2(hv), Norm2(s.m11))
  }

  /** The C3 path of the tile computation. */
  function CovariancePowers(c: Mat3): (rgb: Rgb)
    ensures rgb == Decompose(c)
  {
    Rgb(c.m33.re, 0.5 * c.m22.re, c.m11.re)
  }

  /**
   * The T3 path: 0.5 (T11 + T22) - Re T12, 0.5 T33, 0.5 (T11 + T22) + Re T12.
   */
  function CoherencyPowers(t: Mat3): (rgb: Rgb)
    ensures rgb.r + rgb.b == t.m11.re + t.m22.re
    ensures rgb.b - rgb.r == 2.0 * t.m12.re
    ensures 2.0 * rgb.g == t.m33.re
  {
    Rgb(0.5 * (t.m11.re + t.m22.re) - t.m12.re, 0.5 * t.m33.re, 0.5 * (t.m11.re + t.m22.re) + t.m12.re)
  }

  /** The full-pol path agrees with the C3 path on the covariance of a reciprocal scattering matrix. */
  lemma ScatterPathMatchesCovariancePath(s: Mat2, c: Mat3)
    requires IsCovarianceOf(c, s)
    ensures ScatterPowers(s) == CovariancePowers(c)
  {
    assert Complex(0.5 * (s.m12.re + s.m21.re), 0.5 * (s.m12.im + s.m21.im)) == s.m12;
  }

  /** The T3 path agrees with the C3 path on the coherency matrix of the same data. */
  lemma CoherencyPathMatchesCovariancePath(t: Mat3, c: Mat3)
    requires IsCoherencyOf(t, c)
    ensures CoherencyPowers(t) == CovariancePowers(c)
  {
  }

  function RawPowers(px: QuadPixel): Rgb
  {
    match px
    case Scatter(s) => ScatterPowers(s)
    case Covariance(c) => CovariancePowers(c)
    case Coherency(t) => CoherencyPowers(t)
  }

  /**
   * The value written for one pixel: no-data on every channel, or each
   * power floored at `eps` and converted to decibels.
   */
  function Pixel(px: QuadPixel, noData: bool, nodata: real, eps: real, log10: real -> real): (o: Rgb)
    requires 0.0 < eps && MonotoneOnPositive(log10)
    ensures noData ==> o == Rgb(nodata, nodata, nodata)
    ensures !noData ==> 10.0 * log10(eps) <= o.r && 10.0 * log10(eps) <= o.g && 10.0 * log10(eps) <= o.b
    ensures !noData ==> o == DbFloorRgb(RawPowers(px), eps, log10)
    ensures !noData && px.Covariance? ==> o == DbFloorRgb(Decompose(px.c), eps, log10)
    ensures !noData && px.Covariance? ==> o.g == DbFloor(0.5 * px.c.m22.re, eps, log10)
  {
    WriteOut(RawPowers(px), noData, nodata, eps, log10)
  }
}
