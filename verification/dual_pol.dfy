/**
 * The dual-pol / compact-pol matrix kernel and the box-window estimator:
 * the 2x2 covariance matrix C2 of a two-channel scattering vector, the
 * cross-correlation of two such vectors, reading a pre-formed C2 product,
 * and averaging either over a window clamped to the image.
 */
module DualPol {
  import opened Common
  import opened ComplexAlgebra
  import opened PolarimetricKinds

  /** A two-element complex scattering vector k = [k1, k2]. */
  datatype Vec2 = Vec2(k1: Complex, k2: Complex)

  /** The Hermitian outer product a * b^H, entry by entry. */
  function OuterProduct(a: Vec2, b: Vec2): Mat2
  {
    Mat2(Mul(a.k1, Conj(b.k1)), Mul(a.k1, Conj(b.k2)),
         Mul(a.k2, Conj(b.k1)), Mul(a.k2, Conj(b.k2)))
  }

  /**
   * The scattering vector of one pixel: bands 0..3 hold i1, q1, i2, q2.
   */
  function ScatterVector(px: seq<real>): (k: Vec2)
    requires |px| >= 4
    ensures [k.k1.re, k.k1.im, k.k2.re, k.k2.im] == px[..4]
  {
    Vec2(Complex(px[0], px[1]), Complex(px[2], px[3]))
  }

  /**
   * The covariance matrix C2 = k * k^H. Only the diagonal and C12 are
   * computed; C21 is set to the conjugate of C12.
   */
  function CovarianceC2(k: Vec2): (c: Mat2)
    ensures Hermitian2(c)
    ensures c == OuterProduct(k, k)
    ensures c.m11.re == Norm2(k.k1) && c.m22.re == Norm2(k.k2)
  {
    var kr0 := k.k1.re;
    var ki0 := k.k1.im;
    var kr1 := k.k2.re;
    var ki1 := k.k2.im;
    var c12 := CrossMul(k.k1, k.k2);
    MulConjSelf(k.k1);
    MulConjSelf(k.k2);
    ConjOfCrossProduct(k.k1, k.k2);
    Mat2(Complex(kr0 * kr0 + ki0 * ki0, 0.0), c12,
         Complex(c12.re, -c12.im), Complex(kr1 * kr1 + ki1 * ki1, 0.0))
  }

  /**
   * The correlation matrix of two scattering vectors, all four entries
   * computed independently.
   */
  function CorrelationC2(a: Vec2, b: Vec2): (c: Mat2)
    ensures c == OuterProduct(a, b)
  {
    Mat2(CrossMul(a.k1, b.k1), CrossMul(a.k1, b.k2), CrossMul(a.k2, b.k1), CrossMul(a.k2, b.k2))
  }

  /** The correlation of a vector with itself is its covariance. */
  lemma CovarianceIsSelfCorrelation(k: Vec2)
    ensures CorrelationC2(k, k) == CovarianceC2(k)
  {
  }

  /** Swapping the two vectors conjugate-transposes the correlation. */
  lemma CorrelationSwapIsAdjoint(a: Vec2, b: Vec2)
    ensures CorrelationC2(b, a) == Adjoint2(CorrelationC2(a, b))
  {
    ConjOfCrossProduct(a.k1, b.k1);
    ConjOfCrossProduct(a.k1, b.k2);
    ConjOfCrossProduct(a.k2, b.k1);
    ConjOfCrossProduct(a.k2, b.k2);
  }

  /** k = (3+4i, 0) gives C11 = 25 and every other entry 0. */
  lemma CovarianceExample()
    ensures CovarianceC2(ScatterVector([3.0, 4.0, 0.0, 0.0]))
         == Mat2(Complex(25.0, 0.0), Zero, Zero, Zero)
  {
    var k := ScatterVector([3.0, 4.0, 0.0, 0.0]);
    assert k == Vec2(Complex(3.0, 4.0), Zero);
  }

  /**
   * One pixel of a pre-formed C2 product: bands 0..3 hold C11, Re C12,
   * Im C12 and C22. The lower triangle is derived, never read.
   */
  function ReadC2(px: seq<real>): (c: Mat2)
    requires |px| >= 4
    ensures Hermitian2(c)
    ensures c.m11.re == px[0] && c.m12 == Complex(px[1], px[2]) && c.m22.re == px[3]
  {
    var c12 := Complex(px[1], px[2]);
    Mat2(Complex(px[0], 0.0), c12, Complex(c12.re, -c12.im), Complex(px[3], 0.0))
  }

  /**
   * The single-pixel C2 dispatch: raw dual/compact-pol data goes through
   * the outer product, a C2 product is read, and any other kind leaves the
   * caller's matrix `prev` as it was.
   */
  function PixelC2(kind: MatrixKind, px: seq<real>, prev: Mat2): (c: Mat2)
    requires |px| >= 4
    ensures (kind == C2 || IsRawDualPol(kind)) ==> Hermitian2(c)
    ensures IsRawDualPol(kind) ==> c == OuterProduct(ScatterVector(px), ScatterVector(px))
    ensures kind == C2 ==> c.m11.re == px[0] && c.m12 == Complex(px[1], px[2]) && c.m22.re == px[3]
    ensures !(kind == C2 || IsRawDualPol(kind)) ==> c == prev
  {
    if IsRawDualPol(kind) then CovarianceC2(ScatterVector(px))
    else if kind == C2 then ReadC2(px)
    else prev
  }

  // ------------------------------------------------------------ rasters

  /**
   * A source raster: one row-major sample buffer per band. Reads outside a
   * buffer yield 0 so that pixel access is total; the estimator only reads
   * pixels inside the image.
   */
  datatype Raster = Raster(width: int, height: int, bands: seq<seq<real>>)

  function Elem(buf: seq<real>, i: int): real
  {
    if 0 <= i < |buf| then buf[i] else 0.0
  }

  /** The samples of every band at pixel (x, y). */
  function PixelAt(img: Raster, x: int, y: int): (px: seq<real>)
    ensures |px| == |img.bands|
  {
    seq(|img.bands|, b requires 0 <= b < |img.bands| => Elem(img.bands[b], y * img.width + x))
  }

  // ------------------------------------------------------------ windows

  /** The inclusive pixel window [xSt, xEd] x [ySt, yEd]. */
  datatype Window = Window(xSt: int, xEd: int, ySt: int, yEd: int)

  /** The number of pixels in a window, as the source computes `num`. */
  function Area(w: Window): int
  {
    (w.yEd - w.ySt + 1) * (w.xEd - w.xSt + 1)
  }

  /**
   * The sliding window around (x, y) with half sizes (hx, hy), clamped to
   * the image: it shrinks at the borders and is never padded.
   */
  function ClampWindow(x: int, y: int, hx: int, hy: int, width: int, height: int): (w: Window)
    requires 0 <= x < width && 0 <= y < height && 0 <= hx && 0 <= hy
    ensures 0 <= w.xSt <= x <= w.xEd < width && 0 <= w.ySt <= y <= w.yEd < height
    ensures x - w.xSt <= hx && w.xEd - x <= hx && y - w.ySt <= hy && w.yEd - y <= hy
    ensures (w.xSt == 0 || w.xSt == x - hx) && (w.xEd == width - 1 || w.xEd == x + hx)
    ensures (w.ySt == 0 || w.ySt == y - hy) && (w.yEd == height - 1 || w.yEd == y + hy)
  {
    Window(Max(x - hx, 0), Min(x + hx, width - 1), Max(y - hy, 0), Min(y + hy, height - 1))
  }

  /** For an in-image pixel the window holds between 1 and (2hx+1)(2hy+1) pixels. */
  lemma WindowAreaBounds(x: int, y: int, hx: int, hy: int, width: int, height: int)
    requires 0 <= x < width && 0 <= y < height && 0 <= hx && 0 <= hy
    ensures 1 <= Area(ClampWindow(x, y, hx, hy, width, height)) <= (2 * hx + 1) * (2 * hy + 1)
  {
    var w := ClampWindow(x, y, hx, hy, width, height);
    var cols := w.xEd - w.xSt + 1;
    var rows := w.yEd - w.ySt + 1;
    MulMonotone(1, 1, rows, cols);
    MulMonotone(rows, cols, 2 * hy + 1, 2 * hx + 1);
  }

  /** Away from the borders the window is the full (2hx+1) x (2hy+1) box. */
  lemma InteriorWindowIsFull(x: int, y: int, hx: int, hy: int, width: int, height: int)
    requires 0 <= hx && 0 <= hy
    requires hx <= x < width - hx && hy <= y < height - hy
    ensures Area(ClampWindow(x, y, hx, hy, width, height)) == (2 * hx + 1) * (2 * hy + 1)
  {
  }

  /** A 5x5 window one pixel from the left edge keeps 5 rows of 4 columns. */
  lemma LeftEdgeWindowExample(y: int, height: int)
    requires 2 <= y < height - 2
    ensures Area(ClampWindow(1, y, 2, 2, 10, height)) == 20
  {
  }

  // ------------------------------------------------------- window sums

  /** Sum of f(x, y) for x in [x0, x1), accumulated left to right. */
  function RowSum(f: (int, int) -> Mat2, y: int, x0: int, x1: int): Mat2
    decreases x1 - x0
  {
    if x1 <= x0 then Zero2 else Add2(RowSum(f, y, x0, x1 - 1), f(x1 - 1, y))
  }

  /** Sum of the rows y in [y0, y1), accumulated top to bottom. */
  function BlockSum(f: (int, int) -> Mat2, x0: int, x1: int, y0: int, y1: int): Mat2
    decreases y1 - y0
  {
    if y1 <= y0 then Zero2 else Add2(BlockSum(f, x0, x1, y0, y1 - 1), RowSum(f, y1 - 1, x0, x1))
  }

  function WindowSum(f: (int, int) -> Mat2, w: Window): Mat2
  {
    BlockSum(f, w.xSt, w.xEd + 1, w.ySt, w.yEd + 1)
  }

  /** The window average: the entry-wise sum times 1/num. */
  function WindowMean(f: (int, int) -> Mat2, w: Window): Mat2
    requires Area(w) > 0
  {
    Scale2(WindowSum(f, w), 1.0 / (Area(w) as real))
  }

  lemma {:induction false} RowSumHermitian(f: (int, int) -> Mat2, y: int, x0: int, x1: int)
    requires forall x: int, y': int :: Hermitian2(f(x, y'))
    ensures Hermitian2(RowSum(f, y, x0, x1))
    decreases x1 - x0
  {
    if x1 > x0 {
      RowSumHermitian(f, y, x0, x1 - 1);
    }
  }

  lemma {:induction false} BlockSumHermitian(f: (int, int) -> Mat2, x0: int, x1: int, y0: int, y1: int)
    requires forall x: int, y: int :: Hermitian2(f(x, y))
    ensures Hermitian2(BlockSum(f, x0, x1, y0, y1))
    decreases y1 - y0
  {
    if y1 > y0 {
      BlockSumHermitian(f, x0, x1, y0, y1 - 1);
      RowSumHermitian(f, y1 - 1, x0, x1);
    }
  }

  /** Averaging Hermitian matrices over a window yields a Hermitian matrix. */
  lemma WindowMeanHermitian(f: (int, int) -> Mat2, w: Window)
    requires Area(w) > 0
    requires forall x: int, y: int :: Hermitian2(f(x, y))
    ensures Hermitian2(WindowMean(f, w))
  {
    BlockSumHermitian(f, w.xSt, w.xEd + 1, w.ySt, w.yEd + 1);
  }

  lemma {:induction false} RowSumExt(f: (int, int) -> Mat2, g: (int, int) -> Mat2, y: int, x0: int, x1: int)
    requires forall x: int :: x0 <= x < x1 ==> f(x, y) == g(x, y)
    ensures RowSum(f, y, x0, x1) == RowSum(g, y, x0, x1)
    decreases x1 - x0
  {
    if x1 > x0 {
      RowSumExt(f, g, y, x0, x1 - 1);
    }
  }

  lemma {:induction false} BlockSumExt(f: (int, int) -> Mat2, g: (int, int) -> Mat2,
                                       x0: int, x1: int, y0: int, y1: int)
    requires forall x: int, y: int :: x0 <= x < x1 && y0 <= y < y1 ==> f(x, y) == g(x, y)
    ensures BlockSum(f, x0, x1, y0, y1) == BlockSum(g, x0, x1, y0, y1)
    decreases y1 - y0
  {
    if y1 > y0 {
      BlockSumExt(f, g, x0, x1, y0, y1 - 1);
      RowSumExt(f, g, y1 - 1, x0, x1);
    }
  }

  /**
   * The accumulation loop of the estimator: visits every pixel of the
   * window row by row and adds its matrix; `visited` counts the visits.
   */
  method AccumulateWindow(f: (int, int) -> Mat2, w: Window) returns (sum: Mat2, visited: int)
    requires w.xSt <= w.xEd && w.ySt <= w.yEd
    ensures sum == WindowSum(f, w)
    ensures visited == Area(w)
  {
    var cols := w.xEd - w.xSt + 1;
    sum := Zero2;
    visited := 0;
    var yy := w.ySt;
    while yy <= w.yEd
      invariant w.ySt <= yy <= w.yEd + 1
      invariant sum == BlockSum(f, w.xSt, w.xEd + 1, w.ySt, yy)
      invariant visited == (yy - w.ySt) * cols
    {
      var rowSum := Zero2;
      var xx := w.xSt;
      while xx <= w.xEd
        invariant w.xSt <= xx <= w.xEd + 1
        invariant rowSum == RowSum(f, yy, w.xSt, xx)
        invariant visited == (yy - w.ySt) * cols + (xx - w.xSt)
      {
        rowSum := Add2(rowSum, f(xx, yy));
        visited := visited + 1;
        xx := xx + 1;
      }
      sum := Add2(sum, rowSum);
      yy := yy + 1;
    }
  }

  // ---------------------------------------------------- the estimators

  datatype DualPolError =
    | MeanCovarianceNotImplemented   // source kind is neither C2 nor raw dual-pol
    | RawDualPolExpected             // correlation needs raw dual-pol data

  /** The per-pixel covariance field of a C2 or raw dual/compact-pol raster. */
  function CovarianceField(img: Raster, kind: MatrixKind): (int, int) -> Mat2
    requires |img.bands| >= 4
  {
    (x: int, y: int) =>
      if kind == C2 then ReadC2(PixelAt(img, x, y))
      else CovarianceC2(ScatterVector(PixelAt(img, x, y)))
  }

  /** The per-pixel correlation field between a master and a slave raster. */
  function CorrelationField(mst: Raster, slv: Raster): (int, int) -> Mat2
    requires |mst.bands| >= 4 && |slv.bands| >= 4
  {
    (x: int, y: int) =>
      CorrelationC2(ScatterVector(PixelAt(mst, x, y)), ScatterVector(PixelAt(slv, x, y)))
  }

  lemma CovarianceFieldHermitian(img: Raster, kind: MatrixKind)
    requires |img.bands| >= 4
    ensures forall x: int, y: int :: Hermitian2(CovarianceField(img, kind)(x, y))
  {
  }

  /**
   * The mean covariance matrix C2 at (x, y) over the clamped window, with
   * the divisor `num` the source computes.
   */
  method MeanCovarianceC2(x: int, y: int, hx: int, hy: int, img: Raster, kind: MatrixKind)
    returns (r: Result<Mat2, DualPolError>, num: int)
    requires 0 <= x < img.width && 0 <= y < img.height && 0 <= hx && 0 <= hy
    requires |img.bands| >= 4
    ensures num == Area(ClampWindow(x, y, hx, hy, img.width, img.height))
    ensures 1 <= num <= (2 * hx + 1) * (2 * hy + 1)
    ensures r.Err? <==> !(kind == C2 || IsRawDualPol(kind))
    ensures r.Err? ==> r.error == MeanCovarianceNotImplemented
    ensures r.Ok? ==> Hermitian2(r.value)
    ensures r.Ok? ==> r.value == WindowMean(CovarianceField(img, kind), ClampWindow(x, y, hx, hy, img.width, img.height))
  {
    var win := ClampWindow(x, y, hx, hy, img.width, img.height);
    num := (win.yEd - win.ySt + 1) * (win.xEd - win.xSt + 1);
    WindowAreaBounds(x, y, hx, hy, img.width, img.height);
    if !(kind == C2 || IsRawDualPol(kind)) {
      return Err(MeanCovarianceNotImplemented), num;
    }
    var sum, visited := AccumulateWindow(CovarianceField(img, kind), win);
    assert visited == num;
    var mean := Scale2(sum, 1.0 / (num as real));
    CovarianceFieldHermitian(img, kind);
    WindowMeanHermitian(CovarianceField(img, kind), win);
    r := Ok(mean);
  }

  /**
   * The mean correlation matrix between master and slave at (x, y); only
   * raw dual/compact-pol data is accepted.
   */
  method MeanCorrelationC2(x: int, y: int, hx: int, hy: int, mst: Raster, slv: Raster, kind: MatrixKind)
    returns (r: Result<Mat2, DualPolError>, num: int)
    requires 0 <= x < mst.width && 0 <= y < mst.height && 0 <= hx && 0 <= hy
    requires |mst.bands| >= 4 && |slv.bands| >= 4
    // one tile index, the master's, addresses both buffers
    requires slv.width == mst.width
    ensures num == Area(ClampWindow(x, y, hx, hy, mst.width, mst.height))
    ensures 1 <= num <= (2 * hx + 1) * (2 * hy + 1)
    ensures r.Err? <==> !IsRawDualPol(kind)
    ensures r.Err? ==> r.error == RawDualPolExpected
    ensures r.Ok? ==> r.value == WindowMean(CorrelationField(mst, slv), ClampWindow(x, y, hx, hy, mst.width, mst.height))
  {
    var win := ClampWindow(x, y, hx, hy, mst.width, mst.height);
    num := (win.yEd - win.ySt + 1) * (win.xEd - win.xSt + 1);
    WindowAreaBounds(x, y, hx, hy, mst.width, mst.height);
    if !IsRawDualPol(kind) {
      return Err(RawDualPolExpected), num;
    }
    var sum, visited := AccumulateWindow(CorrelationField(mst, slv), win);
    r := Ok(Scale2(sum, 1.0 / (num as real)));
  }

  /**
   * Correlating a raster with itself gives its mean covariance: the two
   * estimators agree on raw dual/compact-pol data.
   */
  lemma SelfCorrelationMeanIsCovarianceMean(img: Raster, kind: MatrixKind, w: Window)
    requires |img.bands| >= 4 && IsRawDualPol(kind) && Area(w) > 0
    ensures WindowMean(CorrelationField(img, img), w) == WindowMean(CovarianceField(img, kind), w)
  {
    var f := CorrelationField(img, img);
    var g := CovarianceField(img, kind);
    forall x: int, y: int | w.xSt <= x < w.xEd + 1 && w.ySt <= y < w.yEd + 1
      ensures f(x, y) == g(x, y)
    {
      SelfCorrelationAt(img, kind, x, y);
    }
    BlockSumExt(f, g, w.xSt, w.xEd + 1, w.ySt, w.yEd + 1);
  }

  /** Pixel by pixel, the self-correlation field is the covariance field. */
  lemma SelfCorrelationAt(img: Raster, kind: MatrixKind, x: int, y: int)
    requires |img.bands| >= 4 && IsRawDualPol(kind)
    ensures CorrelationField(img, img)(x, y) == CovarianceField(img, kind)(x, y)
  {
    var k := ScatterVector(PixelAt(img, x, y));
    assert CovarianceField(img, kind)(x, y) == CovarianceC2(k);
    assert CorrelationField(img, img)(x, y) == CorrelationC2(k, k);
    CovarianceIsSelfCorrelation(k);
  }
}
