/**
 * The Yamaguchi four-component decomposition of a 3x3 covariance matrix
 * C3 into surface (ps), double-bounce (pd), volume (pv) and helix (pc)
 * power, with its fallback to Freeman-Durden, the saturation branch, the
 * negativity repair and the per-pixel output routing.
 */
module Yamaguchi {
  import opened Common
  import opened ComplexAlgebra
  import opened Text
  import FreemanDurden

  /** The decomposition result (the source's `YDD`). */
  datatype Ydd = Ydd(pv: real, pd: real, ps: real, pc: real)

  /** The volume-model coefficients (k1, k2, k3) of one asymmetry regime. */
  datatype Coefficients = Coefficients(k1: real, k2: real, k3: real)

  /** The co-polar power ratio in decibels, 10 log10(C33 / C11). */
  function Ratio(c: Mat3, log10: real -> real): real
    requires c.m11.re != 0.0
  {
    10.0 * log10(c.m33.re / c.m11.re)
  }

  /**
   * The ratio depends only on the proportion of C33 to C11: scaling both
   * co-polar powers by the same positive factor keeps it, and so keeps the
   * regime.
   */
  lemma RatioScaleInvariant(c: Mat3, c': Mat3, a: real, log10: real -> real)
    requires c.m11.re != 0.0 && 0.0 < a
    requires c'.m11.re == a * c.m11.re && c'.m33.re == a * c.m33.re
    ensures Ratio(c', log10) == Ratio(c, log10)
  {
    assert c'.m33.re / c'.m11.re == c.m33.re / c.m11.re by {
      assert c'.m33.re / c'.m11.re * c'.m11.re == c'.m33.re;
      assert c.m33.re / c.m11.re * c'.m11.re == a * c.m33.re;
    }
  }

  /** With a non-decreasing logarithm, a larger C33 / C11 never gives a smaller ratio. */
  lemma RatioMonotone(c: Mat3, c': Mat3, log10: real -> real)
    requires MonotoneOnPositive(log10)
    requires c.m11.re != 0.0 && c'.m11.re != 0.0
    requires 0.0 < c.m33.re / c.m11.re <= c'.m33.re / c'.m11.re
    ensures Ratio(c, log10) <= Ratio(c', log10)
  {
    assert log10(c.m33.re / c.m11.re) <= log10(c'.m33.re / c'.m11.re);
  }

  /**
   * The coefficients of the regime the ratio selects. In every regime
   * k3 > 0 (pv's divisor) and k2 + k3 = 1/2; the two asymmetric regimes
   * differ only in the sign of k1.
   */
  function CoefficientsFor(ratio: real): (k: Coefficients)
    ensures 0.0 < k.k3 && k.k2 + k.k3 == 0.5
    ensures ratio <= -2.0 ==> k == Coefficients(1.0 / 6.0, 7.0 / 30.0, 4.0 / 15.0)
    ensures 2.0 < ratio ==> k == Coefficients(-1.0 / 6.0, 7.0 / 30.0, 4.0 / 15.0)
    ensures -2.0 < ratio <= 2.0 ==> k == Coefficients(0.0, 0.25, 0.25)
  {
    if ratio <= -2.0 then Coefficients(1.0 / 6.0, 7.0 / 30.0, 4.0 / 15.0)
    else if ratio > 2.0 then Coefficients(-1.0 / 6.0, 7.0 / 30.0, 4.0 / 15.0)
    else Coefficients(0.0, 1.0 / 4.0, 1.0 / 4.0)
  }

  /** The two asymmetric regimes are mirror images: only k1 changes sign. */
  lemma AsymmetricRegimesMirror(low: real, high: real)
    requires low <= -2.0 && 2.0 < high
    ensures CoefficientsFor(low).k1 == -CoefficientsFor(high).k1 && 0.0 < CoefficientsFor(low).k1
    ensures CoefficientsFor(low).k2 == CoefficientsFor(high).k2
    ensures CoefficientsFor(low).k3 == CoefficientsFor(high).k3
  {
  }

  /** The first stage: span, helix power, coefficients and volume power. */
  datatype Stage = Stage(span: real, pc: real, k: Coefficients, pv: real)

  /**
   * span = T11 + T22 + T33, pc = 2 |Im T23| and pv = (T33 - pc / 2) / k3,
   * so that k3 pv + pc / 2 recovers T33.
   */
  function Initial(t: Mat3, ratio: real): (st: Stage)
    ensures st.span == Trace3(t)
    ensures st.pc == 2.0 * AbsReal(t.m23.im) && 0.0 <= st.pc
    ensures st.k == CoefficientsFor(ratio)
    ensures st.k.k3 * st.pv + 0.5 * st.pc == t.m33.re
  {
    var pc := 2.0 * AbsReal(t.m23.im);
    var k := CoefficientsFor(ratio);
    Stage(t.m11.re + t.m22.re + t.m33.re, pc, k, (t.m33.re - 0.5 * pc) / k.k3)
  }

  /** The surface and double-bounce residuals, the cross term and the selector c0. */
  datatype Split = Split(s: real, d: real, cR: real, cI: real, c0: real)

  function Residuals(c: Mat3, t: Mat3, st: Stage): (sp: Split)
    ensures sp.s + sp.d + st.pv + st.pc == t.m11.re + t.m22.re + (0.5 - st.k.k2) * st.pv + 0.5 * st.pc
  {
    Split(t.m11.re - 0.5 * st.pv,
          t.m22.re - st.k.k2 * st.pv - 0.5 * st.pc,
          t.m12.re - st.k.k1 * st.pv,
          t.m12.im,
          c.m13.re - 0.5 * c.m22.re + 0.5 * st.pc)
  }

  /** The divisor the sign of c0 selects is non-zero: d when c0 < 0, else s. */
  predicate SplitDivisorNonZero(sp: Split)
  {
    if sp.c0 < 0.0 then sp.d != 0.0 else sp.s != 0.0
  }

  /**
   * Moving the cross-term power |cR + i cI|^2 between surface and double
   * bounce: divided by d when c0 < 0, else by s. The sum s + d is kept.
   */
  function SplitPowers(sp: Split): (r: (real, real))
    requires SplitDivisorNonZero(sp)
    ensures r.0 + r.1 == sp.s + sp.d
    ensures sp.c0 < 0.0 && 0.0 < sp.d ==> r.0 <= sp.s && sp.d <= r.1
    ensures 0.0 <= sp.c0 && 0.0 < sp.s ==> sp.s <= r.0 && r.1 <= sp.d
  {
    var x := sp.cR * sp.cR + sp.cI * sp.cI;
    SquareNonNegative(sp.cR);
    SquareNonNegative(sp.cI);
    if sp.c0 < 0.0 then
      assert 0.0 < sp.d ==> 0.0 <= x / sp.d;
      (sp.s - x / sp.d, sp.d + x / sp.d)
    else
      assert 0.0 < sp.s ==> 0.0 <= x / sp.s;
      (sp.s + x / sp.s, sp.d - x / sp.s)
  }

  /**
   * The negativity repair. A negative surface or double-bounce power is set
   * to 0 and the other takes span - pv - pc; if both are negative the
   * volume takes span - pc. The comparisons are strict, so a negative
   * component beside an exact 0 is left as it is.
   */
  function Repair(ps: real, pd: real, pv: real, pc: real, span: real): (y: Ydd)
    ensures y.pc == pc
    ensures pd < 0.0 && ps != 0.0 ==> y.pd == 0.0
    ensures ps < 0.0 && pd != 0.0 ==> y.ps == 0.0
    ensures (ps < 0.0 || pd < 0.0) && ps != 0.0 && pd != 0.0 ==> y.ps + y.pd + y.pv + y.pc == span
    ensures !((ps < 0.0 || pd < 0.0) && ps != 0.0 && pd != 0.0) ==> y == Ydd(pv, pd, ps, pc)
    ensures ps > 0.0 && pd < 0.0 ==> y.pv == pv && y.pd == 0.0 && y.ps == span - pv - pc
    ensures ps < 0.0 && pd > 0.0 ==> y.pv == pv && y.ps == 0.0 && y.pd == span - pv - pc
    ensures ps < 0.0 && pd < 0.0 ==> y.ps == 0.0 && y.pd == 0.0 && y.pv == span - pc
  {
    if ps > 0.0 && pd < 0.0 then Ydd(pv, 0.0, span - pv - pc, pc)
    else if ps < 0.0 && pd > 0.0 then Ydd(pv, span - pv - pc, 0.0, pc)
    else if ps < 0.0 && pd < 0.0 then Ydd(span - pc, 0.0, 0.0, pc)
    else Ydd(pv, pd, ps, pc)
  }

  /** pv + pc reaches the span: no surface or double-bounce power is left. */
  predicate Saturated(st: Stage)
  {
    st.span <= st.pv + st.pc
  }

  /** The four-component branch, taken when the first volume estimate is positive. */
  function FourComponent(c: Mat3, t: Mat3, st: Stage): (y: Ydd)
    requires !Saturated(st) ==> SplitDivisorNonZero(Residuals(c, t, st))
    ensures y.pc == st.pc
    ensures Saturated(st) ==> y == Ydd(st.span - st.pc, 0.0, 0.0, st.pc)
  {
    if st.pv + st.pc < st.span then
      var r := SplitPowers(Residuals(c, t, st));
      Repair(r.0, r.1, st.pv, st.pc, st.span)
    else
      Ydd(st.span - st.pc, 0.0, 0.0, st.pc)
  }

  /** No division by zero: C11 is non-zero and so is the split divisor when it is used. */
  predicate WellPosed(c: Mat3, toT3: Mat3 -> Mat3, log10: real -> real)
  {
    c.m11.re != 0.0 &&
    var t := toT3(c);
    var st := Initial(t, Ratio(c, log10));
    0.0 < st.pv && !Saturated(st) ==> SplitDivisorNonZero(Residuals(c, t, st))
  }

  /**
   * `getYamaguchiDecomposition`: `toT3` is the C3-to-T3 conversion. A
   * non-positive first volume estimate falls back to Freeman-Durden on the
   * same C3 with no helix power.
   */
  function Decompose(c: Mat3, eps: real, sqrt: real -> real, log10: real -> real,
                     toT3: Mat3 -> Mat3): (y: Ydd)
    requires 0.0 < eps && IsSqrt(sqrt) && WellPosed(c, toT3, log10)
    ensures 0.0 <= y.pc
    ensures y.pc == 0.0 || y.pc == 2.0 * AbsReal(toT3(c).m23.im)
    ensures Initial(toT3(c), Ratio(c, log10)).pv <= 0.0 ==> y.pc == 0.0
    ensures 0.0 < Initial(toT3(c), Ratio(c, log10)).pv ==> y.pc == 2.0 * AbsReal(toT3(c).m23.im)
  {
    var t := toT3(c);
    var st := Initial(t, Ratio(c, log10));
    if st.pv <= 0.0 then
      var f := FreemanDurden.Decompose(c, eps, sqrt);
      Ydd(f.pv, f.pd, f.ps, 0.0)
    else
      FourComponent(c, t, st)
  }

  /** The first volume estimate of `Decompose`. */
  function FirstVolume(c: Mat3, log10: real -> real, toT3: Mat3 -> Mat3): real
    requires c.m11.re != 0.0
  {
    Initial(toT3(c), Ratio(c, log10)).pv
  }

  /** A non-positive volume estimate gives exactly the Freeman-Durden powers and pc = 0. */
  lemma FallbackIsFreemanDurden(c: Mat3, eps: real, sqrt: real -> real, log10: real -> real,
                                toT3: Mat3 -> Mat3)
    requires 0.0 < eps && IsSqrt(sqrt) && WellPosed(c, toT3, log10)
    requires FirstVolume(c, log10, toT3) <= 0.0
    ensures var y := Decompose(c, eps, sqrt, log10, toT3);
      var f := FreemanDurden.Decompose(c, eps, sqrt);
      y.pc == 0.0 && y.pv == f.pv && y.pd == f.pd && y.ps == f.ps
  {
  }

  /**
   * On every four-component path (unrepaired, each repair, saturated) the
   * four powers add up to the span T11 + T22 + T33.
   */
  lemma FourComponentConservesSpan(c: Mat3, eps: real, sqrt: real -> real, log10: real -> real,
                                   toT3: Mat3 -> Mat3)
    requires 0.0 < eps && IsSqrt(sqrt) && WellPosed(c, toT3, log10)
    requires 0.0 < FirstVolume(c, log10, toT3)
    ensures var y := Decompose(c, eps, sqrt, log10, toT3);
      y.ps + y.pd + y.pv + y.pc == Trace3(toT3(c))
  {
    var t := toT3(c);
    var st := Initial(t, Ratio(c, log10));
    if !Saturated(st) {
      var sp := Residuals(c, t, st);
      var r := SplitPowers(sp);
      assert st.k.k2 + st.k.k3 == 0.5;
      assert r.0 + r.1 + st.pv + st.pc == st.span;
    }
  }

  /** Saturation: with pv + pc >= span the volume takes span - pc and the rest is 0. */
  lemma SaturatedBranch(c: Mat3, eps: real, sqrt: real -> real, log10: real -> real,
                        toT3: Mat3 -> Mat3)
    requires 0.0 < eps && IsSqrt(sqrt) && WellPosed(c, toT3, log10)
    requires 0.0 < FirstVolume(c, log10, toT3)
    requires Saturated(Initial(toT3(c), Ratio(c, log10)))
    ensures var y := Decompose(c, eps, sqrt, log10, toT3);
      y.ps == 0.0 && y.pd == 0.0 && y.pv == Trace3(toT3(c)) - y.pc
  {
  }

  // ------------------------------------------------------- output routing

  /** The channel a target band is written as: red, green, blue or helix. */
  datatype Channel = Red | Green | Blue | Helix

  /** The name fragment that marks a target band of each channel. */
  function ChannelName(channel: Channel): string
  {
    match channel
    case Red => "Yamaguchi_dbl_r"
    case Green => "Yamaguchi_vol_g"
    case Blue => "Yamaguchi_surf_b"
    case Helix => "Yamaguchi_hlx"
  }

  /**
   * The channel of a target band, chosen from its name: the first channel,
   * in the order red, green, blue, helix, whose fragment it contains.
   */
  function ChannelOf(bandName: string): (r: Option<Channel>)
    ensures r.Some? ==> Contains(bandName, ChannelName(r.value))
    ensures r.None? <==> forall ch: Channel :: !Contains(bandName, ChannelName(ch))
    ensures r.Some? && r.value != Red ==> !Contains(bandName, ChannelName(Red))
    ensures r == Some(Blue) || r == Some(Helix) ==> !Contains(bandName, ChannelName(Green))
    ensures r == Some(Helix) ==> !Contains(bandName, ChannelName(Blue))
  {
    if Contains(bandName, "Yamaguchi_dbl_r") then Some(Red)
    else if Contains(bandName, "Yamaguchi_vol_g") then Some(Green)
    else if Contains(bandName, "Yamaguchi_surf_b") then Some(Blue)
    else if Contains(bandName, "Yamaguchi_hlx") then Some(Helix)
    else None
  }

  /** Each name contains its own fragment. */
  lemma ChannelNamesContainThemselves()
    ensures Contains(ChannelName(Red), ChannelName(Red)) && Contains(ChannelName(Green), ChannelName(Green))
    ensures Contains(ChannelName(Blue), ChannelName(Blue)) && Contains(ChannelName(Helix), ChannelName(Helix))
  {
    ContainsAt(ChannelName(Red), ChannelName(Red), 0);
    ContainsAt(ChannelName(Green), ChannelName(Green), 0);
    ContainsAt(ChannelName(Blue), ChannelName(Blue), 0);
    ContainsAt(ChannelName(Helix), ChannelName(Helix), 0);
  }

  /** No name contains the fragment of a channel tested before its own. */
  lemma ChannelNamesDistinct()
    ensures !Contains(ChannelName(Green), ChannelName(Red))
    ensures !Contains(ChannelName(Blue), ChannelName(Red)) && !Contains(ChannelName(Blue), ChannelName(Green))
  {
    var dbl, vol, surf := ChannelName(Red), ChannelName(Green), ChannelName(Blue);
    assert |dbl| == 15 && |vol| == 15 && |surf| == 16;
    assert vol[10] == 'v' && dbl[10] == 'd' && surf[10] == 's' && surf[11] == 'u';
    NotContainedDiffering(vol, dbl, 10);
    NotContainedDiffering(surf, dbl, 10);
    NotContainedDiffering(surf, vol, 10);
  }

  /** The helix name, the shortest, contains none of the other fragments. */
  lemma HelixNameDistinct()
    ensures !Contains(ChannelName(Helix), ChannelName(Red)) && !Contains(ChannelName(Helix), ChannelName(Green))
    ensures !Contains(ChannelName(Helix), ChannelName(Blue))
  {
    var hlx := ChannelName(Helix);
    assert |hlx| == 13 && |ChannelName(Red)| == 15 && |ChannelName(Green)| == 15 && |ChannelName(Blue)| == 16;
    NotContainsShorter(hlx, ChannelName(Red));
    NotContainsShorter(hlx, ChannelName(Green));
    NotContainsShorter(hlx, ChannelName(Blue));
  }

  /** Each of the four target band names routes to its own channel. */
  lemma TargetBandsRoute()
    ensures forall ch: Channel :: ChannelOf(ChannelName(ch)) == Some(ch)
  {
    forall ch: Channel
      ensures ChannelOf(ChannelName(ch)) == Some(ch)
    {
      ChannelNamesContainThemselves();
      ChannelNamesDistinct();
      HelixNameDistinct();
      match ch
      case Red =>
      case Green =>
      case Blue =>
      case Helix =>
    }
  }

  /**
   * The value written to a band at one pixel: the span-scaled decibel value
   * of pd (red), pv (green), ps (blue) or pc (helix). There is no no-data
   * test on this path.
   */
  function PixelValue(channel: Channel, c: Mat3, eps: real, sqrt: real -> real, log10: real -> real,
                      toT3: Mat3 -> Mat3, scaleDb: (real, real, real) -> real,
                      span: FreemanDurden.SpanStats): (v: real)
    requires 0.0 < eps && IsSqrt(sqrt) && WellPosed(c, toT3, log10)
    ensures var y := Decompose(c, eps, sqrt, log10, toT3);
      v == scaleDb(match channel
                   case Red => y.pd
                   case Green => y.pv
                   case Blue => y.ps
                   case Helix => y.pc, span.spanMin, span.spanMax)
  {
    var y := Decompose(c, eps, sqrt, log10, toT3);
    match channel
    case Red => scaleDb(y.pd, span.spanMin, span.spanMax)
    case Green => scaleDb(y.pv, span.spanMin, span.spanMax)
    case Blue => scaleDb(y.ps, span.spanMin, span.spanMax)
    case Helix => scaleDb(y.pc, span.spanMin, span.spanMax)
  }
}
