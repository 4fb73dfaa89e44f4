/**
 * What the decompositions write per pixel: one value per colour channel,
 * and the EPS floor applied before the conversion to decibels.
 */
module Channels {
  import opened Common
  import opened ComplexAlgebra

  /**
   * The matrix one pixel of a quad-pol product holds, by source kind: the
   * 2x2 scattering matrix of a full-pol product, or a C3 or T3 matrix.
   */
  datatype QuadPixel =
    | Scatter(s: Mat2)
    | Covariance(c: Mat3)
    | Coherency(t: Mat3)

  /** The red, green and blue channel values written for one pixel. */
  datatype Rgb = Rgb(r: real, g: real, b: real)

  /**
   * `v` raised to at least `eps` and converted to decibels,
   * `10 * log10(max(v, eps))`.
   */
  function DbFloor(v: real, eps: real, log10: real -> real): (d: real)
    requires 0.0 < eps && MonotoneOnPositive(log10)
    ensures 10.0 * log10(eps) <= d
    ensures v <= eps ==> d == 10.0 * log10(eps)
    ensures eps <= v ==> d == 10.0 * log10(v)
  {
    10.0 * log10(MaxReal(v, eps))
  }

  /**
   * The per-pixel write-out of the Pauli and Sinclair tiles: the no-data
   * value on every channel for a no-data pixel, else each channel floored
   * at `eps` and converted to decibels.
   */
  function WriteOut(raw: Rgb, noData: bool, nodata: real, eps: real, log10: real -> real): (o: Rgb)
    requires 0.0 < eps && MonotoneOnPositive(log10)
    ensures noData ==> o == Rgb(nodata, nodata, nodata)
    ensures !noData ==> 10.0 * log10(eps) <= o.r && 10.0 * log10(eps) <= o.g && 10.0 * log10(eps) <= o.b
    ensures !noData ==> o == DbFloorRgb(raw, eps, log10)
  {
    if noData then NoDataRgb(nodata) else DbFloorRgb(raw, eps, log10)
  }

  /** A no-data value on every channel. */
  function NoDataRgb(nodata: real): (o: Rgb)
    ensures o.r == nodata && o.g == nodata && o.b == nodata
  {
    Rgb(nodata, nodata, nodata)
  }

  /** The dB-floored image of every channel. */
  function DbFloorRgb(v: Rgb, eps: real, log10: real -> real): (o: Rgb)
    requires 0.0 < eps && MonotoneOnPositive(log10)
    ensures 10.0 * log10(eps) <= o.r && 10.0 * log10(eps) <= o.g && 10.0 * log10(eps) <= o.b
    ensures o.r == DbFloor(v.r, eps, log10) && o.g == DbFloor(v.g, eps, log10) && o.b == DbFloor(v.b, eps, log10)
  {
    Rgb(DbFloor(v.r, eps, log10), DbFloor(v.g, eps, log10), DbFloor(v.b, eps, log10))
  }
}
