/**
 * The Freeman-Durden three-component decomposition of a 3x3 covariance
 * matrix C3 into volume (pv), double-bounce (pd) and surface (ps) power,
 * the one-shot span statistics and the per-pixel output routing.
 */
module FreemanDurden {
  import opened Common
  import opened ComplexAlgebra
  import opened Text

  /** The decomposition result (the source's `FDD`). */
  datatype Fdd = Fdd(pv: real, pd: real, ps: real)

  /**
   * What is left of C3 once the volume contribution fv = 4 C22 has been
   * subtracted: c11, c13 and c33 of the surface plus double-bounce model.
   */
  datatype Residual = Residual(fv: real, c11: real, c13: Complex, c33: real)

  /**
   * The surface / double-bounce model parameters: the weights fs, fd and
   * the shape coefficients alpha (double bounce) and beta (surface).
   */
  datatype FdParams = FdParams(fs: real, fd: real, alpha: Complex, beta: Complex)

  function RemoveVolume(c: Mat3): (r: Residual)
    ensures r.fv == 4.0 * c.m22.re
    ensures r.c11 + r.c33 + r.fv == Trace3(c)
    ensures r.c13.im == c.m13.im
  {
    var fv := 4.0 * c.m22.re;
    Residual(fv, c.m11.re - fv * 3.0 / 8.0, Complex(c.m13.re - fv / 8.0, c.m13.im), c.m33.re - fv * 3.0 / 8.0)
  }

  /** The degeneracy guard: no surface or double-bounce power is fitted. */
  predicate Degenerate(r: Residual, eps: real)
  {
    r.c11 <= eps || r.c33 <= eps
  }

  lemma ScaledNorm2(k: real, z: Complex)
    ensures Norm2(Complex(k * z.re, k * z.im)) == (k * k) * Norm2(z)
  {
  }

  /** Rescaling by s / c, where c = |z|, gives modulus s. */
  lemma RescaledNorm2(s: real, c: real, z: Complex)
    requires 0.0 < c && c * c == Norm2(z)
    ensures Norm2(Complex(s * z.re / c, s * z.im / c)) == s * s
  {
    var k := s / c;
    assert Complex(s * z.re / c, s * z.im / c) == Complex(k * z.re, k * z.im);
    ScaledNorm2(k, z);
    assert k * c == s;
    assert (k * k) * (c * c) == (k * c) * (k * c);
  }

  /**
   * c13 rescaled to modulus sqrt(a1), keeping its direction: the branch of
   * the clamp taken when |c13|^2 > a1.
   */
  function Rescale(z: Complex, a1: real, sqrt: real -> real): (w: Complex)
    requires IsSqrt(sqrt) && 0.0 < a1 < Norm2(z)
    ensures Norm2(w) == a1
    ensures w.re < 0.0 <==> z.re < 0.0
  {
    var c := sqrt(Norm2(z));
    var s := sqrt(a1);
    PositiveSqrt(sqrt, Norm2(z));
    PositiveSqrt(sqrt, a1);
    RescaledNorm2(s, c, z);
    SignOfScaled(s / c, z.re);
    assert s * z.re / c == (s / c) * z.re;
    Complex(s * z.re / c, s * z.im / c)
  }

  lemma SignOfScaled(k: real, x: real)
    requires 0.0 < k
    ensures k * x < 0.0 <==> x < 0.0
  {
    if x < 0.0 {
      assert k * x < 0.0;
    } else {
      assert 0.0 <= k * x;
    }
  }

  /**
   * The Cauchy-Schwarz clamp: when |c13|^2 exceeds c11 * c33, c13 is
   * rescaled to modulus sqrt(c11 * c33), keeping its direction.
   */
  function ClampC13(c11: real, c33: real, c13: Complex, sqrt: real -> real): (z: Complex)
    requires IsSqrt(sqrt) && 0.0 < c11 && 0.0 < c33
    ensures Norm2(z) <= c11 * c33
    ensures Norm2(c13) <= c11 * c33 ==> z == c13
    ensures z.re < 0.0 <==> c13.re < 0.0
  {
    var a1 := c11 * c33;
    assert 0.0 < a1;
    if a1 < Norm2(c13) then Rescale(c13, a1, sqrt) else c13
  }

  /** The branch with Re c13 < 0: beta = 1 and the surface weight comes first. */
  lemma SurfaceFirstSolution(c11: real, c33: real, re: real, im: real)
    requires 0.0 < c11 && 0.0 < c33 && re < 0.0 && re * re + im * im <= c11 * c33
    ensures 0.0 < c11 + c33 - 2.0 * re
    ensures var fs := (c11 * c33 - re * re - im * im) / (c11 + c33 - 2.0 * re);
      0.0 <= fs && 0.0 < c33 - fs &&
      (re - fs) * (re - fs) + im * im == (c11 - fs) * (c33 - fs)
  {
    var d := c11 + c33 - 2.0 * re;
    var n := c11 * c33 - re * re - im * im;
    var fs := n / d;
    assert fs * d == n;
    assert (c33 - fs) * d == (c33 - re) * (c33 - re) + im * im;
    SquareNonNegative(c33 - re);
    SquareNonNegative(im);
    assert 0.0 < (c33 - fs) * d;
  }

  /** The branch with Re c13 >= 0: alpha = -1 and the double-bounce weight comes first. */
  lemma DoubleBounceFirstSolution(c11: real, c33: real, re: real, im: real)
    requires 0.0 < c11 && 0.0 < c33 && 0.0 <= re && re * re + im * im <= c11 * c33
    ensures 0.0 < c11 + c33 + 2.0 * re
    ensures var fd := (c11 * c33 - re * re - im * im) / (c11 + c33 + 2.0 * re);
      0.0 <= fd && 0.0 < c33 - fd &&
      (re + fd) * (re + fd) + im * im == (c11 - fd) * (c33 - fd)
  {
    var d := c11 + c33 + 2.0 * re;
    var n := c11 * c33 - re * re - im * im;
    var fd := n / d;
    assert fd * d == n;
    assert (c33 - fd) * d == (c33 + re) * (c33 + re) + im * im;
    SquareNonNegative(c33 + re);
    SquareNonNegative(im);
    assert 0.0 < (c33 - fd) * d;
  }

  /**
   * The Re c13 < 0 solution. The surface weight fs is the model's closed
   * form, fd = c33 - fs is positive, so alpha's divisor is never zero.
   */
  function SurfaceFirst(c11: real, c33: real, re: real, im: real): (p: FdParams)
    requires 0.0 < c11 && 0.0 < c33 && re < 0.0 && re * re + im * im <= c11 * c33
    ensures p.beta == Complex(1.0, 0.0)
    ensures 0.0 <= p.fs && 0.0 < p.fd && p.fd == c33 - p.fs
    ensures (re - p.fs) * (re - p.fs) + im * im == (c11 - p.fs) * (c33 - p.fs)
    ensures p.alpha == Complex((re - p.fs) / p.fd, im / p.fd)
  {
    SurfaceFirstSolution(c11, c33, re, im);
    var fs := AbsReal((c11 * c33 - re * re - im * im) / (c11 + c33 - 2.0 * re));
    var fd := AbsReal(c33 - fs);
    FdParams(fs, fd, Complex((re - fs) / fd, im / fd), Complex(1.0, 0.0))
  }

  /**
   * The Re c13 >= 0 solution. The double-bounce weight fd is the model's
   * closed form, fs = c33 - fd is positive, so beta's divisor is never zero.
   */
  function DoubleBounceFirst(c11: real, c33: real, re: real, im: real): (p: FdParams)
    requires 0.0 < c11 && 0.0 < c33 && 0.0 <= re && re * re + im * im <= c11 * c33
    ensures p.alpha == Complex(-1.0, 0.0)
    ensures 0.0 <= p.fd && 0.0 < p.fs && p.fs == c33 - p.fd
    ensures (re + p.fd) * (re + p.fd) + im * im == (c11 - p.fd) * (c33 - p.fd)
    ensures p.beta == Complex((re + p.fd) / p.fs, im / p.fs)
  {
    DoubleBounceFirstSolution(c11, c33, re, im);
    var fd := AbsReal((c11 * c33 - re * re - im * im) / (c11 + c33 + 2.0 * re));
    var fs := AbsReal(c33 - fd);
    FdParams(fs, fd, Complex(-1.0, 0.0), Complex((re + fd) / fs, im / fs))
  }

  /**
   * Solving the surface / double-bounce model for the residual: the sign
   * of Re c13 fixes one shape coefficient (beta = 1 or alpha = -1).
   */
  function FitParams(c11: real, c13: Complex, c33: real): (p: FdParams)
    requires 0.0 < c11 && 0.0 < c33 && Norm2(c13) <= c11 * c33
    ensures 0.0 <= p.fs && 0.0 <= p.fd
    ensures c13.re < 0.0 ==> p.beta == Complex(1.0, 0.0)
    ensures 0.0 <= c13.re ==> p.alpha == Complex(-1.0, 0.0)
  {
    if c13.re < 0.0 then SurfaceFirst(c11, c33, c13.re, c13.im)
    else DoubleBounceFirst(c11, c33, c13.re, c13.im)
  }

  /**
   * The covariance the Freeman-Durden model predicts from its parameters:
   * c11 = fs |beta|^2 + fd |alpha|^2, c13 = fs beta + fd alpha,
   * c33 = fs + fd.
   */
  predicate Reproduces(p: FdParams, c11: real, c13: Complex, c33: real)
  {
    p.fs * Norm2(p.beta) + p.fd * Norm2(p.alpha) == c11 &&
    Plus(ScaleC(p.beta, p.fs), ScaleC(p.alpha, p.fd)) == c13 &&
    p.fs + p.fd == c33
  }

  /** f * |(x / f, y / f)|^2 == (x^2 + y^2) / f. */
  lemma WeightedQuotientNorm2(f: real, x: real, y: real)
    requires f != 0.0
    ensures f * Norm2(Complex(x / f, y / f)) == (x * x + y * y) / f
  {
    var k := 1.0 / f;
    assert Complex(x / f, y / f) == Complex(k * x, k * y);
    ScaledNorm2(k, Complex(x, y));
    assert f * k == 1.0;
    assert f * (k * k) == (f * k) * k;
  }

  lemma SurfaceFirstReproduces(c11: real, c33: real, re: real, im: real)
    requires 0.0 < c11 && 0.0 < c33 && re < 0.0 && re * re + im * im <= c11 * c33
    ensures Reproduces(SurfaceFirst(c11, c33, re, im), c11, Complex(re, im), c33)
  {
    var p := SurfaceFirst(c11, c33, re, im);
    var fs, fd := p.fs, p.fd;
    WeightedQuotientNorm2(fd, re - fs, im);
    assert ((re - fs) * (re - fs) + im * im) / fd == c11 - fs;
    assert fd * ((re - fs) / fd) == re - fs;
    assert fd * (im / fd) == im;
  }

  lemma DoubleBounceFirstReproduces(c11: real, c33: real, re: real, im: real)
    requires 0.0 < c11 && 0.0 < c33 && 0.0 <= re && re * re + im * im <= c11 * c33
    ensures Reproduces(DoubleBounceFirst(c11, c33, re, im), c11, Complex(re, im), c33)
  {
    var p := DoubleBounceFirst(c11, c33, re, im);
    var fs, fd := p.fs, p.fd;
    WeightedQuotientNorm2(fs, re + fd, im);
    assert ((re + fd) * (re + fd) + im * im) / fs == c11 - fd;
    assert fs * ((re + fd) / fs) == re + fd;
    assert fs * (im / fs) == im;
  }

  /** The fitted parameters reproduce the residual covariance exactly. */
  lemma FitParamsReproduce(c11: real, c13: Complex, c33: real)
    requires 0.0 < c11 && 0.0 < c33 && Norm2(c13) <= c11 * c33
    ensures Reproduces(FitParams(c11, c13, c33), c11, c13, c33)
  {
    if c13.re < 0.0 {
      SurfaceFirstReproduces(c11, c33, c13.re, c13.im);
    } else {
      DoubleBounceFirstReproduces(c11, c33, c13.re, c13.im);
    }
  }

  /** Parameters that reproduce the residual have total power c11 + c33. */
  lemma ReproducingPowers(fv: real, p: FdParams, c11: real, c13: Complex, c33: real)
    requires Reproduces(p, c11, c13, c33)
    ensures Powers(fv, p).pd + Powers(fv, p).ps == c11 + c33
  {
    assert p.fd * (1.0 + Norm2(p.alpha)) == p.fd + p.fd * Norm2(p.alpha);
    assert p.fs * (1.0 + Norm2(p.beta)) == p.fs + p.fs * Norm2(p.beta);
  }

  /** The parameters the decomposition uses for C3. */
  function Params(c: Mat3, eps: real, sqrt: real -> real): (p: FdParams)
    requires 0.0 < eps && IsSqrt(sqrt)
    ensures 0.0 <= p.fs && 0.0 <= p.fd
  {
    var r := RemoveVolume(c);
    if Degenerate(r, eps) then FdParams(0.0, 0.0, Zero, Zero)
    else FitParams(r.c11, ClampC13(r.c11, r.c33, r.c13, sqrt), r.c33)
  }

  /** The powers ps = fs (1 + |beta|^2), pd = fd (1 + |alpha|^2) and pv = fv. */
  function Powers(fv: real, p: FdParams): Fdd
  {
    Fdd(fv, p.fd * (1.0 + Norm2(p.alpha)), p.fs * (1.0 + Norm2(p.beta)))
  }

  /** `getFreemanDurdenDecomposition`. */
  function Decompose(c: Mat3, eps: real, sqrt: real -> real): (d: Fdd)
    requires 0.0 < eps && IsSqrt(sqrt)
    ensures d.pv == 4.0 * c.m22.re
    ensures 0.0 <= d.ps && 0.0 <= d.pd
    ensures Degenerate(RemoveVolume(c), eps) ==> d.ps == 0.0 && d.pd == 0.0
  {
    var p := Params(c, eps, sqrt);
    NonNegativeProduct(p.fd, 1.0 + Norm2(p.alpha));
    NonNegativeProduct(p.fs, 1.0 + Norm2(p.beta));
    Powers(RemoveVolume(c).fv, p)
  }

  /** With Re c13 < 0 the surface coefficient is 1, so ps = 2 fs. */
  lemma SurfaceBranchPower(c: Mat3, eps: real, sqrt: real -> real)
    requires 0.0 < eps && IsSqrt(sqrt)
    requires !Degenerate(RemoveVolume(c), eps) && RemoveVolume(c).c13.re < 0.0
    ensures Params(c, eps, sqrt).beta == Complex(1.0, 0.0)
    ensures Decompose(c, eps, sqrt).ps == 2.0 * Params(c, eps, sqrt).fs
  {
  }

  /** With Re c13 >= 0 the double-bounce coefficient is -1, so pd = 2 fd. */
  lemma DoubleBounceBranchPower(c: Mat3, eps: real, sqrt: real -> real)
    requires 0.0 < eps && IsSqrt(sqrt)
    requires !Degenerate(RemoveVolume(c), eps) && 0.0 <= RemoveVolume(c).c13.re
    ensures Params(c, eps, sqrt).alpha == Complex(-1.0, 0.0)
    ensures Decompose(c, eps, sqrt).pd == 2.0 * Params(c, eps, sqrt).fd
  {
  }

  /**
   * Outside the degenerate case the three powers add up to the span
   * C11 + C22 + C33.
   */
  lemma DecomposeConservesSpan(c: Mat3, eps: real, sqrt: real -> real)
    requires 0.0 < eps && IsSqrt(sqrt)
    requires !Degenerate(RemoveVolume(c), eps)
    ensures var d := Decompose(c, eps, sqrt); d.ps + d.pd + d.pv == Trace3(c)
  {
    var r := RemoveVolume(c);
    var z := ClampC13(r.c11, r.c33, r.c13, sqrt);
    FitParamsReproduce(r.c11, z, r.c33);
    ReproducingPowers(r.fv, Params(c, eps, sqrt), r.c11, z, r.c33);
  }

  /**
   * diag(4, 4, 4) leaves no residual power: (pv, pd, ps) = (16, 0, 0). Only
   * the diagonal is read, so this holds whatever the off-diagonal entries.
   */
  lemma DegenerateExample(c: Mat3, eps: real, sqrt: real -> real)
    requires 0.0 < eps && IsSqrt(sqrt)
    requires c.m11.re == 4.0 && c.m22.re == 4.0 && c.m33.re == 4.0
    ensures Decompose(c, eps, sqrt) == Fdd(16.0, 0.0, 0.0)
  {
    assert RemoveVolume(c).c11 == -2.0;
  }

  /**
   * C11 = C33 = 1 with C22 = C13 = 0 (diag(1, 0, 1), say) splits evenly:
   * (pv, pd, ps) = (0, 1, 1).
   */
  lemma EvenSplitExample(c: Mat3, eps: real, sqrt: real -> real)
    requires 0.0 < eps < 1.0 && IsSqrt(sqrt)
    requires c.m11.re == 1.0 && c.m22.re == 0.0 && c.m33.re == 1.0 && c.m13 == Zero
    ensures Decompose(c, eps, sqrt) == Fdd(0.0, 1.0, 1.0)
  {
    EvenSplitWeights(c, eps, sqrt);
    EvenSplitPowers();
  }

  lemma EvenSplitWeights(c: Mat3, eps: real, sqrt: real -> real)
    requires 0.0 < eps < 1.0 && IsSqrt(sqrt)
    requires c.m11.re == 1.0 && c.m22.re == 0.0 && c.m33.re == 1.0 && c.m13 == Zero
    ensures Params(c, eps, sqrt) == FdParams(0.5, 0.5, Complex(-1.0, 0.0), Complex(1.0, 0.0))
  {
    EvenSplitResidual(c);
    assert !Degenerate(RemoveVolume(c), eps);
    EvenSplitClamp(sqrt);
    EvenSplitParams();
  }

  lemma EvenSplitResidual(c: Mat3)
    requires c.m11.re == 1.0 && c.m22.re == 0.0 && c.m33.re == 1.0 && c.m13 == Zero
    ensures RemoveVolume(c) == Residual(0.0, 1.0, Zero, 1.0)
  {
    var r := RemoveVolume(c);
    assert r.fv == 0.0;
    assert r.fv * 3.0 / 8.0 == 0.0 && r.fv / 8.0 == 0.0;
  }

  lemma EvenSplitClamp(sqrt: real -> real)
    requires IsSqrt(sqrt)
    ensures ClampC13(1.0, 1.0, Zero, sqrt) == Zero
  {
  }

  lemma EvenSplitParams()
    ensures FitParams(1.0, Zero, 1.0) == FdParams(0.5, 0.5, Complex(-1.0, 0.0), Complex(1.0, 0.0))
  {
    assert DoubleBounceFirst(1.0, 1.0, 0.0, 0.0) == FdParams(0.5, 0.5, Complex(-1.0, 0.0), Complex(1.0, 0.0));
  }

  lemma EvenSplitPowers()
    ensures Powers(0.0, FdParams(0.5, 0.5, Complex(-1.0, 0.0), Complex(1.0, 0.0))) == Fdd(0.0, 1.0, 1.0)
  {
  }

  // ----------------------------------------------------- span statistics

  /** The span minimum and maximum of one source band list, and whether they are set. */
  datatype SpanStats = SpanStats(isSet: bool, spanMin: real, spanMax: real)

  /**
   * `setSpanMinMax`: the first call stores the computed (min, max) and sets
   * the flag; once the flag is set nothing changes.
   */
  function SetSpanMinMax(s: SpanStats, computed: (real, real)): (t: SpanStats)
    ensures t.isSet
    ensures s.isSet ==> t == s
    ensures !s.isSet ==> t.spanMin == computed.0 && t.spanMax == computed.1
  {
    if s.isSet then s else SpanStats(true, computed.0, computed.1)
  }

  /** A second call, whatever it would compute, leaves the statistics as the first set them. */
  lemma SetSpanMinMaxOneShot(s: SpanStats, first: (real, real), second: (real, real))
    ensures SetSpanMinMax(SetSpanMinMax(s, first), second) == SetSpanMinMax(s, first)
  {
  }

  // ------------------------------------------------------- output routing

  datatype Colour = Red | Green | Blue

  /** The name fragment that marks a target band of each colour. */
  function ColourName(colour: Colour): string
  {
    match colour
    case Red => "Freeman_dbl_r"
    case Green => "Freeman_vol_g"
    case Blue => "Freeman_surf_b"
  }

  /**
   * The colour a target band is written as, chosen from its name: the
   * first colour, red before green before blue, whose fragment it contains.
   */
  function ColourOf(bandName: string): (r: Option<Colour>)
    ensures r.Some? ==> Contains(bandName, ColourName(r.value))
    ensures r.None? <==> forall c: Colour :: !Contains(bandName, ColourName(c))
    ensures r == Some(Green) || r == Some(Blue) ==> !Contains(bandName, ColourName(Red))
    ensures r == Some(Blue) ==> !Contains(bandName, ColourName(Green))
  {
    if Contains(bandName, "Freeman_dbl_r") then Some(Red)
    else if Contains(bandName, "Freeman_vol_g") then Some(Green)
    else if Contains(bandName, "Freeman_surf_b") then Some(Blue)
    else None
  }

  /**
   * The value written to a band of colour `colour` at one pixel: the
   * no-data value for a no-data pixel, else the span-scaled decibel value
   * of pd (red), pv (green) or ps (blue).
   */
  function PixelValue(colour: Colour, noData: bool, nodatavalue: real, c: Mat3, eps: real,
                      sqrt: real -> real, scaleDb: (real, real, real) -> real, span: SpanStats): (v: real)
    requires 0.0 < eps && IsSqrt(sqrt)
    ensures noData ==> v == nodatavalue
    ensures !noData && colour == Red ==> v == scaleDb(Decompose(c, eps, sqrt).pd, span.spanMin, span.spanMax)
    ensures !noData && colour == Green ==> v == scaleDb(4.0 * c.m22.re, span.spanMin, span.spanMax)
    ensures !noData && colour == Blue ==> v == scaleDb(Decompose(c, eps, sqrt).ps, span.spanMin, span.spanMax)
  {
    if noData then nodatavalue
    else
      var d := Decompose(c, eps, sqrt);
      match colour
      case Red => scaleDb(d.pd, span.spanMin, span.spanMax)
      case Green => scaleDb(d.pv, span.spanMin, span.spanMax)
      case Blue => scaleDb(d.ps, span.spanMin, span.spanMax)
  }

  /** Each name contains its own fragment and none of the fragments tested before it. */
  lemma ColourNamesDistinct()
    ensures Contains(ColourName(Red), ColourName(Red)) && Contains(ColourName(Green), ColourName(Green))
    ensures Contains(ColourName(Blue), ColourName(Blue))
    ensures !Contains(ColourName(Green), ColourName(Red))
    ensures !Contains(ColourName(Blue), ColourName(Red)) && !Contains(ColourName(Blue), ColourName(Green))
  {
    var dbl, vol, surf := "Freeman_dbl_r", "Freeman_vol_g", "Freeman_surf_b";
    ContainsAt(dbl, dbl, 0);
    ContainsAt(vol, vol, 0);
    ContainsAt(surf, surf, 0);
    assert |dbl| == 13 && |vol| == 13 && |surf| == 14;
    assert vol[8] == 'v' && dbl[8] == 'd' && surf[8] == 's' && surf[9] == 'u';
    NotContainedDiffering(vol, dbl, 8);
    NotContainedDiffering(surf, dbl, 8);
    NotContainedDiffering(surf, vol, 8);
  }

  /** The three target band names of the decomposition route to red, green and blue. */
  lemma TargetBandsRoute()
    ensures ColourOf("Freeman_dbl_r") == Some(Red)
    ensures ColourOf("Freeman_vol_g") == Some(Green)
    ensures ColourOf("Freeman_surf_b") == Some(Blue)
    ensures forall c: Colour :: ColourOf(ColourName(c)) == Some(c)
  {
    forall c: Colour
      ensures ColourOf(ColourName(c)) == Some(c)
    {
      ColourNamesDistinct();
      match c
      case Red =>
      case Green =>
      case Blue =>
    }
    assert ColourOf(ColourName(Red)) == Some(Red) && ColourOf(ColourName(Green)) == Some(Green);
    assert ColourOf(ColourName(Blue)) == Some(Blue);
  }
}
