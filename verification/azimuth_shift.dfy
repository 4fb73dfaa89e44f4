/**
 * The arithmetic helpers of the Sentinel-1 azimuth-shift operator, which
 * estimates a residual azimuth offset by enhanced spectral diversity (ESD)
 * over the overlaps of consecutive TOPS bursts and then shifts each column
 * of the slave image in the frequency domain: the interferometric product
 * of two complex arrays, the FFT shift-phase ramp and its application to
 * an interleaved spectrum, the valid-sample scans, the overlap and block
 * rectangles, the windowed coherence rule and the final averaging.
 */
module AzimuthShift {
  import opened Common
  import opened ComplexAlgebra
  import DualPol

  /** Number of blocks each burst overlap is cut into along range. */
  const NumBlocksPerOverlap: int := 10

  /** Side of the square coherence window. */
  const CohWin: int := 5

  datatype AzimuthShiftError =
    | ArraysOfDifferentLength    // "Arrays of the same length are expected."

  // -------------------------------------------------- complex products

  /**
   * `complexArrayMultiplication`: the element-wise product a * conj(b) of
   * two complex arrays held as separate real and imaginary arrays. All six
   * arrays, the two outputs included, must have one length.
   */
  function ComplexArrayMultiplication(re1: seq<real>, im1: seq<real>, re2: seq<real>, im2: seq<real>,
                                      reOutLength: int, imOutLength: int): (r: Result<(seq<real>, seq<real>), AzimuthShiftError>)
    ensures r.Err? <==>
      !(|im1| == |re1| && |re2| == |re1| && |im2| == |re1| && reOutLength == |re1| && imOutLength == |re1|)
    ensures r.Ok? ==> |r.value.0| == |re1| && |r.value.1| == |re1|
    ensures r.Ok? ==> forall i :: 0 <= i < |re1| ==>
      Complex(r.value.0[i], r.value.1[i]) == Mul(Complex(re1[i], im1[i]), Conj(Complex(re2[i], im2[i])))
  {
    var n := |re1|;
    if |im1| != n || |re2| != n || |im2| != n || reOutLength != n || imOutLength != n then
      Err(ArraysOfDifferentLength)
    else
      var prods := seq(n, i requires 0 <= i < n => CrossMul(Complex(re1[i], im1[i]), Complex(re2[i], im2[i])));
      Ok((seq(n, i requires 0 <= i < n => prods[i].re), seq(n, i requires 0 <= i < n => prods[i].im)))
  }

  /**
   * The interferogram of an array with itself has zero phase: every
   * product is the real power |a_i|^2.
   */
  lemma SelfProductIsPower(re: seq<real>, im: seq<real>)
    requires |im| == |re|
    ensures var r := ComplexArrayMultiplication(re, im, re, im, |re|, |re|);
      r.Ok? && forall i :: 0 <= i < |re| ==> r.value.0[i] == Norm2(Complex(re[i], im[i])) && r.value.1[i] == 0.0
  {
    var r := ComplexArrayMultiplication(re, im, re, im, |re|, |re|);
    forall i | 0 <= i < |re|
      ensures r.value.0[i] == Norm2(Complex(re[i], im[i])) && r.value.1[i] == 0.0
    {
      MulConjSelf(Complex(re[i], im[i]));
    }
  }

  /**
   * Exchanging the two inputs conjugates the product, and its magnitude is
   * the product of the magnitudes.
   */
  lemma SwappedProductIsConjugate(re1: seq<real>, im1: seq<real>, re2: seq<real>, im2: seq<real>)
    requires |im1| == |re1| && |re2| == |re1| && |im2| == |re1|
    ensures var r := ComplexArrayMultiplication(re1, im1, re2, im2, |re1|, |re1|);
      var s := ComplexArrayMultiplication(re2, im2, re1, im1, |re1|, |re1|);
      r.Ok? && s.Ok? &&
      forall i :: 0 <= i < |re1| ==>
        Complex(s.value.0[i], s.value.1[i]) == Conj(Complex(r.value.0[i], r.value.1[i])) &&
        Norm2(Complex(r.value.0[i], r.value.1[i])) == Norm2(Complex(re1[i], im1[i])) * Norm2(Complex(re2[i], im2[i]))
  {
    var r := ComplexArrayMultiplication(re1, im1, re2, im2, |re1|, |re1|);
    var s := ComplexArrayMultiplication(re2, im2, re1, im1, |re1|, |re1|);
    forall i | 0 <= i < |re1|
      ensures Complex(s.value.0[i], s.value.1[i]) == Conj(Complex(r.value.0[i], r.value.1[i]))
      ensures Norm2(Complex(r.value.0[i], r.value.1[i])) == Norm2(Complex(re1[i], im1[i])) * Norm2(Complex(re2[i], im2[i]))
    {
      var a := Complex(re1[i], im1[i]);
      var b := Complex(re2[i], im2[i]);
      ConjOfCrossProduct(a, b);
      NormMultiplicative(a, Conj(b));
    }
  }

  // ------------------------------------------------------- shift phase

  /**
   * The FFT bin `k` of an `n`-point transform as a signed frequency: bins
   * below the half length `(int)(n * 0.5 + 0.5)` are non-negative
   * frequencies, the rest wrap to `k - n`.
   */
  function ShiftFrequency(k: int, n: int): int
    requires 0 <= n
  {
    if k < HalfLength(n) then k else k - n
  }

  /** `(int)(n * 0.5 + 0.5)`, the truncating cast of the source. */
  function HalfLength(n: int): (h: int)
    requires 0 <= n
    ensures h == (n + 1) / 2
  {
    var r := n as real * 0.5 + 0.5;
    assert r == (n + 1) as real / 2.0;
    assert ((n + 1) / 2) as real <= r < ((n + 1) / 2) as real + 1.0;
    JavaIntCast(r)
  }

  /**
   * Every bin maps into [-floor(n/2), ceil(n/2) - 1], and its frequency is
   * the bin itself or the bin less `n` (the two agree modulo `n`).
   */
  lemma ShiftFrequencyRange(n: int, k: int)
    requires 0 <= k < n
    ensures -(n / 2) <= ShiftFrequency(k, n) <= (n + 1) / 2 - 1
    ensures ShiftFrequency(k, n) == k || ShiftFrequency(k, n) == k - n
  {
  }

  /**
   * Conversely every frequency of [-floor(n/2), ceil(n/2) - 1] is the
   * frequency of exactly one bin: `j` itself when it is non-negative,
   * `j + n` otherwise.
   */
  lemma ShiftFrequencyOnto(n: int, j: int)
    requires 0 < n && -(n / 2) <= j <= (n + 1) / 2 - 1
    ensures var k := if 0 <= j then j else j + n;
      0 <= k < n && ShiftFrequency(k, n) == j
    ensures forall k :: 0 <= k < n && ShiftFrequency(k, n) == j ==> k == (if 0 <= j then j else j + n)
  {
  }

  /** The phase of bin `k`: `-2 pi shift / n` times its signed frequency. */
  function ShiftPhase(shift: real, n: int, k: int, pi: real): real
    requires 0 < n
  {
    (-2.0 * pi * shift / (n as real)) * (ShiftFrequency(k, n) as real)
  }

  /**
   * `computeShiftPhaseArray`: the `n` unit phase factors cos + i sin of
   * the shift, interleaved as (cos, sin) pairs.
   */
  function ShiftPhaseArray(shift: real, n: int, pi: real, cos: real -> real, sin: real -> real): (p: seq<real>)
    requires 0 <= n
    ensures |p| == 2 * n
    ensures forall k :: 0 <= k < n ==>
      p[2 * k] == cos(ShiftPhase(shift, n, k, pi)) && p[2 * k + 1] == sin(ShiftPhase(shift, n, k, pi))
  {
    var p := seq(2 * n, i requires 0 <= i < 2 * n =>
      if i % 2 == 0 then cos(ShiftPhase(shift, n, i / 2, pi)) else sin(ShiftPhase(shift, n, i / 2, pi)));
    assert forall k :: 0 <= k < n ==> (2 * k) / 2 == k && (2 * k) % 2 == 0 && (2 * k + 1) / 2 == k && (2 * k + 1) % 2 == 1;
    p
  }

  /** `cos` and `sin` lie on the unit circle. */
  ghost predicate UnitCircle(cos: real -> real, sin: real -> real)
  {
    forall t: real {:trigger cos(t)} {:trigger sin(t)} :: cos(t) * cos(t) + sin(t) * sin(t) == 1.0
  }

  /** The complex entry `k` of an interleaved array. */
  function Entry(a: seq<real>, k: int): Complex
    requires 0 <= k && 2 * k + 1 < |a|
  {
    Complex(a[2 * k], a[2 * k + 1])
  }

  /**
   * `multiplySpectrumByShiftFactor`: each of the `|a| / 2` interleaved
   * complex entries is multiplied by the matching phase entry; a trailing
   * unpaired value is left as it was.
   */
  function ShiftSpectrum(a: seq<real>, phase: seq<real>): (r: seq<real>)
    requires 2 * (|a| / 2) <= |phase|
    ensures |r| == |a|
    ensures forall k :: 0 <= k < |a| / 2 ==> Entry(r, k) == Mul(Entry(a, k), Entry(phase, k))
    ensures |a| % 2 == 1 ==> r[|a| - 1] == a[|a| - 1]
  {
    var half := |a| / 2;
    var r := seq(|a|, i requires 0 <= i < |a| =>
      if i / 2 < half then
        (if i % 2 == 0 then Mul(Entry(a, i / 2), Entry(phase, i / 2)).re
         else Mul(Entry(a, i / 2), Entry(phase, i / 2)).im)
      else a[i]);
    assert forall k :: 0 <= k < half ==> (2 * k) / 2 == k && (2 * k) % 2 == 0 && (2 * k + 1) / 2 == k && (2 * k + 1) % 2 == 1;
    r
  }

  /** Multiplying by a factor of modulus one keeps the modulus. */
  lemma UnitFactorKeepsNorm(z: Complex, p: Complex)
    requires Norm2(p) == 1.0
    ensures Norm2(Mul(z, p)) == Norm2(z)
  {
    NormMultiplicative(z, p);
  }

  /** Every entry of the shift-phase array has modulus one. */
  lemma PhaseEntryIsUnit(shift: real, n: int, pi: real, cos: real -> real, sin: real -> real, k: int)
    requires 0 <= k < n && UnitCircle(cos, sin)
    ensures Norm2(Entry(ShiftPhaseArray(shift, n, pi, cos, sin), k)) == 1.0
  {
    var t := ShiftPhase(shift, n, k, pi);
    assert Entry(ShiftPhaseArray(shift, n, pi, cos, sin), k) == Complex(cos(t), sin(t));
    UnitCircleAt(cos, sin, t);
  }

  lemma UnitCircleAt(cos: real -> real, sin: real -> real, t: real)
    requires UnitCircle(cos, sin)
    ensures Norm2(Complex(cos(t), sin(t))) == 1.0
  {
    assert cos(t) * cos(t) + sin(t) * sin(t) == 1.0;
  }

  /**
   * Shifting by a unit phase ramp keeps the power of every frequency bin:
   * the shift moves the signal, it does not amplify it.
   */
  lemma ShiftKeepsPower(a: seq<real>, shift: real, pi: real, cos: real -> real, sin: real -> real)
    requires |a| % 2 == 0 && UnitCircle(cos, sin)
    ensures var r := ShiftSpectrum(a, ShiftPhaseArray(shift, |a| / 2, pi, cos, sin));
      forall k :: 0 <= k < |a| / 2 ==> Norm2(Entry(r, k)) == Norm2(Entry(a, k))
  {
    var n := |a| / 2;
    var p := ShiftPhaseArray(shift, n, pi, cos, sin);
    forall k | 0 <= k < n
      ensures Norm2(Entry(ShiftSpectrum(a, p), k)) == Norm2(Entry(a, k))
    {
      PhaseEntryIsUnit(shift, n, pi, cos, sin, k);
      UnitFactorKeepsNorm(Entry(a, k), Entry(p, k));
    }
  }

  /** The phase entries of a zero shift are all 1. */
  lemma ZeroPhaseEntry(n: int, pi: real, cos: real -> real, sin: real -> real, k: int)
    requires 0 <= k < n && cos(0.0) == 1.0 && sin(0.0) == 0.0
    ensures Entry(ShiftPhaseArray(0.0, n, pi, cos, sin), k) == Complex(1.0, 0.0)
  {
    assert ShiftPhase(0.0, n, k, pi) == 0.0;
  }

  /** A zero shift leaves the spectrum unchanged (cos 0 = 1, sin 0 = 0). */
  lemma ZeroShiftIsIdentity(a: seq<real>, pi: real, cos: real -> real, sin: real -> real)
    requires |a| % 2 == 0 && cos(0.0) == 1.0 && sin(0.0) == 0.0
    ensures ShiftSpectrum(a, ShiftPhaseArray(0.0, |a| / 2, pi, cos, sin)) == a
  {
    var n := |a| / 2;
    var p := ShiftPhaseArray(0.0, n, pi, cos, sin);
    var r := ShiftSpectrum(a, p);
    forall k | 0 <= k < n
      ensures r[2 * k] == a[2 * k] && r[2 * k + 1] == a[2 * k + 1]
    {
      ZeroPhaseEntry(n, pi, cos, sin, k);
      assert Entry(r, k) == Mul(Entry(a, k), Complex(1.0, 0.0));
    }
    forall i | 0 <= i < |a|
      ensures r[i] == a[i]
    {
      var k := i / 2;
      assert i == 2 * k || i == 2 * k + 1;
    }
  }

  // ------------------------------------------------------ valid samples

  /**
   * The first entry of a per-line valid-sample list that is not -1 (the
   * marker of a line with no valid sample), or -1 when there is none.
   */
  function FirstListed(s: seq<int>): (v: int)
    ensures v == -1 <==> forall i :: 0 <= i < |s| ==> s[i] == -1
    ensures v != -1 ==> exists i :: 0 <= i < |s| && s[i] == v && forall j :: 0 <= j < i ==> s[j] == -1
  {
    if |s| == 0 then -1
    else if s[0] != -1 then s[0]
    else
      var v := FirstListed(s[1..]);
      assert forall i :: 1 <= i < |s| ==> s[i] == s[1..][i - 1];
      if v != -1 then
        var i' :| 0 <= i' < |s| - 1 && s[1..][i'] == v && forall j :: 0 <= j < i' ==> s[1..][j] == -1;
        assert s[i' + 1] == v && forall j :: 0 <= j < i' + 1 ==> s[j] == -1;
        v
      else v
  }

  /**
   * The burst geometry of one sub-swath, as read from the product
   * metadata: lines per burst, per-line first and last valid sample of
   * each burst, first and last valid line of each burst, and the burst
   * timing.
   */
  datatype SubSwath = SubSwath(
    linesPerBurst: int,
    firstValidSample: seq<seq<int>>,
    lastValidSample: seq<seq<int>>,
    firstValidLine: seq<int>,
    lastValidLine: seq<int>,
    burstFirstLineTime: seq<real>,
    burstLastLineTime: seq<real>,
    azimuthTimeInterval: real)

  /** `getBurstFirstValidPixel`: the first valid sample of the first line that has one. */
  function BurstFirstValidPixel(sw: SubSwath, burst: int): (v: int)
    requires 0 <= burst < |sw.firstValidSample|
    ensures v == -1 <==> forall l :: 0 <= l < |sw.firstValidSample[burst]| ==> sw.firstValidSample[burst][l] == -1
  {
    FirstListed(sw.firstValidSample[burst])
  }

  /** `getBurstLastValidPixel`: the last valid sample of the first line that has one. */
  function BurstLastValidPixel(sw: SubSwath, burst: int): (v: int)
    requires 0 <= burst < |sw.lastValidSample|
    ensures v == -1 <==> forall l :: 0 <= l < |sw.lastValidSample[burst]| ==> sw.lastValidSample[burst][l] == -1
  {
    FirstListed(sw.lastValidSample[burst])
  }

  // --------------------------------------------------------- rectangles

  datatype Rect = Rect(x: int, y: int, width: int, height: int)

  /**
   * `computeBurstOverlapSize`: the lines between the first line of burst
   * `i + 1` and the last line of burst `i`, truncated to an int.
   */
  function BurstOverlapSize(sw: SubSwath, i: int): (lines: int)
    requires 0 <= i && i + 1 < |sw.burstFirstLineTime| && i < |sw.burstLastLineTime|
    requires sw.azimuthTimeInterval != 0.0
    ensures AbsReal(lines as real) <=
      AbsReal((sw.burstLastLineTime[i] - sw.burstFirstLineTime[i + 1]) / sw.azimuthTimeInterval)
  {
    JavaIntCast((sw.burstLastLineTime[i] - sw.burstFirstLineTime[i + 1]) / sw.azimuthTimeInterval)
  }

  /** Bursts `i` and `i + 1` are described in the sub-swath metadata. */
  predicate HasOverlap(sw: SubSwath, i: int)
  {
    0 <= i && i + 1 < |sw.firstValidSample| && i + 1 < |sw.lastValidSample| &&
    i + 1 < |sw.firstValidLine| && i < |sw.lastValidLine| &&
    i + 1 < |sw.burstFirstLineTime| && i < |sw.burstLastLineTime| &&
    sw.azimuthTimeInterval != 0.0
  }

  /**
   * `getOverlappedRectangles`: the valid part of the overlap of bursts `i`
   * and `i + 1`, once in each burst. Both rectangles span the range
   * samples valid in both bursts. Burst one's rectangle ends at its last
   * valid line and burst two's starts at its first valid line; the height
   * is the overlap less the invalid lines at the end of burst one and at
   * the start of burst two.
   */
  function OverlappedRectangles(sw: SubSwath, i: int): (r: (Rect, Rect))
    requires HasOverlap(sw, i)
    ensures r.0.x == r.1.x == Max(BurstFirstValidPixel(sw, i), BurstFirstValidPixel(sw, i + 1))
    ensures r.0.x + r.0.width - 1 == Min(BurstLastValidPixel(sw, i), BurstLastValidPixel(sw, i + 1))
    ensures r.1.width == r.0.width && r.1.height == r.0.height
    ensures r.0.y + r.0.height - 1 == sw.linesPerBurst * i + sw.lastValidLine[i]
    ensures r.1.y == sw.linesPerBurst * (i + 1) + sw.firstValidLine[i + 1]
    ensures r.0.height ==
      BurstOverlapSize(sw, i) - (sw.linesPerBurst - sw.lastValidLine[i] - 1) - sw.firstValidLine[i + 1]
  {
    var x0 := Max(BurstFirstValidPixel(sw, i), BurstFirstValidPixel(sw, i + 1));
    var w := Min(BurstLastValidPixel(sw, i), BurstLastValidPixel(sw, i + 1)) - x0 + 1;
    var invalidOne := sw.linesPerBurst - sw.lastValidLine[i] - 1;
    var invalidTwo := sw.firstValidLine[i + 1];
    var h := BurstOverlapSize(sw, i) - invalidOne - invalidTwo;
    var boundary := sw.linesPerBurst * (i + 1);
    (Rect(x0, boundary - invalidOne - h, w, h), Rect(x0, boundary + invalidTwo, w, h))
  }

  /**
   * The two rectangles are the same ground lines seen from both bursts:
   * burst two's rectangle lies exactly one burst overlap below burst
   * one's, whatever the valid lines are.
   */
  lemma OverlapRectanglesAreOneOverlapApart(sw: SubSwath, i: int)
    requires HasOverlap(sw, i)
    ensures var r := OverlappedRectangles(sw, i);
      r.1.y - r.0.y == BurstOverlapSize(sw, i) && r.1.x == r.0.x
  {
  }

  /**
   * Block `j` of an overlap rectangle cut into `nb` blocks along range,
   * each `width / nb` samples wide.
   */
  function BlockRectangle(r: Rect, j: int, nb: int): (b: Rect)
    requires 0 < nb
    ensures b.y == r.y && b.height == r.height && b.width == r.width / nb
  {
    Rect(r.x + j * (r.width / nb), r.y, r.width / nb, r.height)
  }

  /**
   * The `nb` blocks tile a prefix of the overlap rectangle from left to
   * right: each starts where the previous ends and the last ends inside
   * the rectangle.
   */
  lemma BlocksTileOverlap(r: Rect, nb: int)
    requires 0 < nb && 0 <= r.width
    ensures forall j :: 0 <= j < nb - 1 ==>
      BlockRectangle(r, j + 1, nb).x == BlockRectangle(r, j, nb).x + BlockRectangle(r, j, nb).width
    ensures forall j :: 0 <= j < nb ==>
      r.x <= BlockRectangle(r, j, nb).x &&
      BlockRectangle(r, j, nb).x + BlockRectangle(r, j, nb).width <= r.x + r.width
  {
    var bw := r.width / nb;
    assert nb * bw <= r.width;
    forall j | 0 <= j < nb
      ensures r.x <= BlockRectangle(r, j, nb).x
      ensures BlockRectangle(r, j, nb).x + BlockRectangle(r, j, nb).width <= r.x + r.width
    {
      MulMonotone(0, 0, j, bw);
      MulMonotone(j + 1, bw, nb, bw);
      assert (j + 1) * bw == j * bw + bw;
    }
    forall j | 0 <= j < nb - 1
      ensures BlockRectangle(r, j + 1, nb).x == BlockRectangle(r, j, nb).x + BlockRectangle(r, j, nb).width
    {
      assert (j + 1) * bw == j * bw + bw;
    }
  }

  // ---------------------------------------------------- block coherence

  /** The block geometry fits the overlap coherence it is cut from. */
  predicate BlockFits(blockIndex: int, bw: int, bh: int, coherence: seq<seq<real>>)
  {
    0 <= blockIndex && 0 <= bw && 0 <= bh && bh <= |coherence| &&
    forall row :: 0 <= row < bh ==> (blockIndex + 1) * bw <= |coherence[row]|
  }

  /**
   * Flat entry `i` of a block as the source indexes it: row `i / bw`,
   * column `blockIndex * bw + i - (i / bw) * bw` of the overlap.
   */
  function BlockEntry(blockIndex: int, bw: int, bh: int, coherence: seq<seq<real>>, i: int): real
    requires BlockFits(blockIndex, bw, bh, coherence) && 0 <= i < bw * bh
  {
    DivBounds(i, bw, bh);
    assert blockIndex * bw + i - (i / bw) * bw < (blockIndex + 1) * bw;
    coherence[i / bw][blockIndex * bw + i - (i / bw) * bw]
  }

  /**
   * `getBlockCoherence`: the coherence of block `blockIndex`, `bw` columns
   * wide and `bh` rows high, copied row by row out of the coherence of
   * the whole overlap into a flat array: cell (row, col) of the block
   * lands at index row * bw + col.
   */
  method BlockCoherence(blockIndex: int, bw: int, bh: int, coherence: seq<seq<real>>)
    returns (block: seq<real>)
    requires BlockFits(blockIndex, bw, bh, coherence)
    ensures |block| == bw * bh
    ensures forall row, col :: 0 <= row < bh && 0 <= col < bw ==>
      FlatIndex(row, col, bw) < |block| && block[FlatIndex(row, col, bw)] == coherence[row][blockIndex * bw + col]
  {
    block := [];
    var i := 0;
    while i < bw * bh
      invariant 0 <= i <= bw * bh && |block| == i
      invariant forall j :: 0 <= j < i ==> block[j] == BlockEntry(blockIndex, bw, bh, coherence, j)
    {
      block := block + [BlockEntry(blockIndex, bw, bh, coherence, i)];
      i := i + 1;
    }
    forall row, col | 0 <= row < bh && 0 <= col < bw
      ensures FlatIndex(row, col, bw) < |block| && block[FlatIndex(row, col, bw)] == coherence[row][blockIndex * bw + col]
    {
      CellIndex(row, col, bw, bh);
      assert block[FlatIndex(row, col, bw)] == BlockEntry(blockIndex, bw, bh, coherence, FlatIndex(row, col, bw));
    }
  }

  /** A flat index below bw * bh lies in a row below bh. */
  lemma DivBounds(i: int, bw: int, bh: int)
    requires 0 <= i < bw * bh && 0 <= bw && 0 <= bh
    ensures 0 < bw && 0 <= i / bw < bh && 0 <= i - (i / bw) * bw < bw
  {
    PositiveFactors(bw, bh);
    DivUnique(i, bw, i / bw, i % bw);
    MulSign(bh - i / bw, bw);
    assert (bh - i / bw) * bw == bh * bw - (i / bw) * bw;
  }

  /** Both factors of a positive product of non-negative integers are positive. */
  lemma PositiveFactors(a: int, b: int)
    requires 0 <= a && 0 <= b && 0 < a * b
    ensures 0 < a && 0 < b
  {
  }

  /** The sign of a multiple of a positive number. */
  lemma MulSign(t: int, d: int)
    requires 0 < d
    ensures 1 <= t ==> d <= t * d
    ensures t <= -1 ==> t * d <= -d
  {
    if 1 <= t {
      MulMonotone(1, d, t, d);
    } else if t <= -1 {
      MulMonotone(1, d, -t, d);
      assert (-t) * d == -(t * d);
    }
  }

  /** Quotient and remainder are unique. */
  lemma DivUnique(a: int, d: int, q: int, r: int)
    requires 0 < d && a == q * d + r && 0 <= r < d
    ensures a / d == q && a % d == r
  {
    var q' := a / d;
    var r' := a % d;
    assert a == q' * d + r';
    assert (q - q') * d == r' - r;
    MulSign(q - q', d);
  }

  /** The flat index of row `row`, column `col` of a `bw`-wide block. */
  function FlatIndex(row: int, col: int, bw: int): int
  {
    row * bw + col
  }

  /** Row `row`, column `col` of a `bw`-wide block sits at flat index row * bw + col. */
  lemma CellIndex(row: int, col: int, bw: int, bh: int)
    requires 0 <= row < bh && 0 <= col < bw
    ensures 0 <= FlatIndex(row, col, bw) < bw * bh
    ensures FlatIndex(row, col, bw) / bw == row
    ensures FlatIndex(row, col, bw) - (FlatIndex(row, col, bw) / bw) * bw == col
  {
    MulMonotone(0, 0, row, bw);
    MulMonotone(row + 1, bw, bh, bw);
    assert (row + 1) * bw == row * bw + bw;
    DivUnique(row * bw + col, bw, row, col);
  }

  // ---------------------------------------------------------- coherence

  /**
   * The per-pixel products the coherence is built from: for the master
   * sample m and slave sample s of a pixel, the 2x2 covariance of (m, s)
   * holds the master power |m|^2, the cross product m conj(s) and the
   * slave power |s|^2.
   */
  function CoherenceField(mst: (int, int) -> Complex, slv: (int, int) -> Complex): (int, int) -> Mat2
  {
    (x: int, y: int) => DualPol.CovarianceC2(DualPol.Vec2(mst(x, y), slv(x, y)))
  }

  /**
   * The coherence rule of `computeCoherence` on the window sums: 0 unless
   * the window holds pixels and both power sums are non-zero, else
   * sqrt(|mean cross|^2 / (mean master power * mean slave power)).
   */
  function Coherence(sum: Mat2, count: int, sqrt: real -> real): (c: real)
    ensures !(0 < count && sum.m11.re != 0.0 && sum.m22.re != 0.0) ==> c == 0.0
  {
    if 0 < count && sum.m11.re != 0.0 && sum.m22.re != 0.0 then
      var n := count as real;
      sqrt(MeanRatio(Complex(sum.m12.re / n, sum.m12.im / n), sum.m11.re / n, sum.m22.re / n))
    else 0.0
  }

  /** |z|^2 / (p q), the argument of the square root. */
  function MeanRatio(z: Complex, p: real, q: real): real
    requires p != 0.0 && q != 0.0
  {
    Norm2(z) / (p * q)
  }

  /** Dividing all four sums by the pixel count does not change the ratio. */
  lemma MeanRatioIgnoresCount(z: Complex, p: real, q: real, n: real)
    requires p != 0.0 && q != 0.0 && 0.0 < n
    ensures MeanRatio(Complex(z.re / n, z.im / n), p / n, q / n) == MeanRatio(z, p, q)
  {
    var a := z.re / n;
    var b := z.im / n;
    var c := p / n;
    var d := q / n;
    assert z.re == a * n && z.im == b * n && p == c * n && q == d * n;
    assert c != 0.0 && d != 0.0;
    assert (a * a + b * b) * (n * n) == z.re * z.re + z.im * z.im;
    assert (c * d) * (n * n) == p * q;
  }

  /** x / y lies in [0, 1] when 0 <= x <= y and y > 0. */
  lemma QuotientInUnitInterval(x: real, y: real)
    requires 0.0 <= x <= y && 0.0 < y
    ensures 0.0 <= x / y <= 1.0
  {
    var r := x / y;
    assert r * y == x;
  }

  /** With non-zero power sums the coherence is the root of the sums' ratio. */
  lemma CoherenceIsRootOfRatio(sum: Mat2, count: int, sqrt: real -> real)
    requires 0 < count && sum.m11.re != 0.0 && sum.m22.re != 0.0
    ensures Coherence(sum, count, sqrt) == sqrt(MeanRatio(sum.m12, sum.m11.re, sum.m22.re))
  {
    assert Complex(sum.m12.re, sum.m12.im) == sum.m12;
    MeanRatioIgnoresCount(sum.m12, sum.m11.re, sum.m22.re, count as real);
  }

  /** The ratio of a power matrix with positive powers lies in [0, 1]. */
  lemma PowerRatioInUnitInterval(sum: Mat2)
    requires PowerMatrix(sum) && 0.0 < sum.m11.re && 0.0 < sum.m22.re
    ensures 0.0 <= MeanRatio(sum.m12, sum.m11.re, sum.m22.re) <= 1.0
  {
    PositiveProduct(sum.m11.re, sum.m22.re);
    QuotientInUnitInterval(Norm2(sum.m12), sum.m11.re * sum.m22.re);
  }

  lemma PositiveProduct(a: real, b: real)
    requires 0.0 < a && 0.0 < b
    ensures 0.0 < a * b
  {
  }

  /** The square root of a number in [0, 1] lies in [0, 1]. */
  lemma RootInUnitInterval(sqrt: real -> real, v: real)
    requires IsSqrt(sqrt) && 0.0 <= v <= 1.0
    ensures 0.0 <= sqrt(v) <= 1.0 && sqrt(v) * sqrt(v) == v
  {
    SquareDominates(1.0, sqrt(v));
  }

  /**
   * On a power-matrix sum with positive powers the coherence lies in
   * [0, 1], and its square is |sum cross|^2 / (sum master * sum slave):
   * the pixel count cancels.
   */
  lemma CoherenceBounds(sum: Mat2, count: int, sqrt: real -> real)
    requires IsSqrt(sqrt) && PowerMatrix(sum) && 0 < count && 0.0 < sum.m11.re && 0.0 < sum.m22.re
    ensures 0.0 <= Coherence(sum, count, sqrt) <= 1.0
    ensures Coherence(sum, count, sqrt) * Coherence(sum, count, sqrt) == MeanRatio(sum.m12, sum.m11.re, sum.m22.re)
  {
    CoherenceIsRootOfRatio(sum, count, sqrt);
    PowerRatioInUnitInterval(sum);
    RootInUnitInterval(sqrt, MeanRatio(sum.m12, sum.m11.re, sum.m22.re));
  }

  /** A single pixel with non-zero master and slave samples is fully coherent. */
  lemma SinglePixelIsCoherent(m: Complex, s: Complex, sqrt: real -> real)
    requires IsSqrt(sqrt) && Norm2(m) != 0.0 && Norm2(s) != 0.0
    ensures Coherence(DualPol.CovarianceC2(DualPol.Vec2(m, s)), 1, sqrt) == 1.0
  {
    var c := DualPol.CovarianceC2(DualPol.Vec2(m, s));
    NormMultiplicative(m, Conj(s));
    assert Norm2(Conj(s)) == Norm2(s);
    assert c.m12 == Mul(m, Conj(s)) && c.m11.re == Norm2(m) && c.m22.re == Norm2(s);
    assert Norm2(c.m12) == c.m11.re * c.m22.re;
    RatioOfEqual(c.m12, c.m11.re, c.m22.re);
    CoherenceBounds(c, 1, sqrt);
    UnitSquareRoot(Coherence(c, 1, sqrt));
  }

  lemma RatioOfEqual(z: Complex, p: real, q: real)
    requires 0.0 < p && 0.0 < q && Norm2(z) == p * q
    ensures MeanRatio(z, p, q) == 1.0
  {
    PositiveProduct(p, q);
  }

  /** The non-negative root of 1 is 1. */
  lemma UnitSquareRoot(v: real)
    requires 0.0 <= v && v * v == 1.0
    ensures v == 1.0
  {
    assert (v - 1.0) * (v + 1.0) == 0.0;
    assert v - 1.0 == ((v - 1.0) * (v + 1.0)) / (v + 1.0);
  }

  /** Every pixel's product matrix is a power matrix. */
  lemma PixelPowerMatrix(mst: (int, int) -> Complex, slv: (int, int) -> Complex)
    ensures forall x: int, y: int :: PowerMatrix(CoherenceField(mst, slv)(x, y))
  {
    forall x: int, y: int
      ensures PowerMatrix(CoherenceField(mst, slv)(x, y))
    {
      var m := mst(x, y);
      var s := slv(x, y);
      NormMultiplicative(m, Conj(s));
      assert Norm2(Conj(s)) == Norm2(s);
    }
  }

  lemma {:induction false} RowSumPowerMatrix(f: (int, int) -> Mat2, y: int, x0: int, x1: int)
    requires forall x: int, y': int :: PowerMatrix(f(x, y'))
    ensures PowerMatrix(DualPol.RowSum(f, y, x0, x1))
    decreases x1 - x0
  {
    if x1 > x0 {
      RowSumPowerMatrix(f, y, x0, x1 - 1);
      AddPowerMatrix(DualPol.RowSum(f, y, x0, x1 - 1), f(x1 - 1, y));
    }
  }

  lemma {:induction false} BlockSumPowerMatrix(f: (int, int) -> Mat2, x0: int, x1: int, y0: int, y1: int)
    requires forall x: int, y: int :: PowerMatrix(f(x, y))
    ensures PowerMatrix(DualPol.BlockSum(f, x0, x1, y0, y1))
    decreases y1 - y0
  {
    if y1 > y0 {
      BlockSumPowerMatrix(f, x0, x1, y0, y1 - 1);
      RowSumPowerMatrix(f, y1 - 1, x0, x1);
      AddPowerMatrix(DualPol.BlockSum(f, x0, x1, y0, y1 - 1), DualPol.RowSum(f, y1 - 1, x0, x1));
    }
  }

  /** The window of pixel (xx, yy): `CohWin` wide, clamped to the `w` x `h` rectangle. */
  function CoherenceWindow(xx: int, yy: int, w: int, h: int): (win: DualPol.Window)
    requires 0 <= xx < w && 0 <= yy < h
    ensures 0 <= win.xSt <= xx <= win.xEd < w && 0 <= win.ySt <= yy <= win.yEd < h
    ensures 1 <= DualPol.Area(win) <= CohWin * CohWin
  {
    DualPol.WindowAreaBounds(xx, yy, CohWin / 2, CohWin / 2, w, h);
    DualPol.ClampWindow(xx, yy, CohWin / 2, CohWin / 2, w, h)
  }

  /** The product sums of a window are a power matrix. */
  lemma WindowSumPowerMatrix(mst: (int, int) -> Complex, slv: (int, int) -> Complex, win: DualPol.Window)
    ensures PowerMatrix(DualPol.WindowSum(CoherenceField(mst, slv), win))
  {
    PixelPowerMatrix(mst, slv);
    BlockSumPowerMatrix(CoherenceField(mst, slv), win.xSt, win.xEd + 1, win.ySt, win.yEd + 1);
  }

  /**
   * What the coherence `c` of window sums `sum` satisfies: 0 when either
   * power sum vanishes, in [0, 1] otherwise, where its square is the ratio
   * of the sums.
   */
  ghost predicate CoherenceFacts(sum: Mat2, c: real, sqrt: real -> real)
  {
    (sum.m11.re == 0.0 || sum.m22.re == 0.0 ==> c == 0.0) &&
    (IsSqrt(sqrt) ==> 0.0 <= c <= 1.0) &&
    (IsSqrt(sqrt) && sum.m11.re != 0.0 && sum.m22.re != 0.0 ==>
      c * c == MeanRatio(sum.m12, sum.m11.re, sum.m22.re))
  }

  /** The coherence rule on the product sums of a window of `count` pixels. */
  lemma WindowCoherence(mst: (int, int) -> Complex, slv: (int, int) -> Complex, win: DualPol.Window,
                        count: int, sqrt: real -> real)
    requires 0 < count
    ensures var sum := DualPol.WindowSum(CoherenceField(mst, slv), win);
      CoherenceFacts(sum, Coherence(sum, count, sqrt), sqrt)
  {
    var sum := DualPol.WindowSum(CoherenceField(mst, slv), win);
    WindowSumPowerMatrix(mst, slv, win);
    if IsSqrt(sqrt) && sum.m11.re != 0.0 && sum.m22.re != 0.0 {
      CoherenceBounds(sum, count, sqrt);
    }
  }

  /**
   * The coherence of pixel (xx, yy) of a `w` x `h` overlap rectangle: the
   * products summed over its coherence window, then the coherence rule.
   * The result is 0 when either power sum vanishes and in [0, 1]
   * otherwise, where its square is the ratio of the window sums.
   */
  method CoherenceAt(mst: (int, int) -> Complex, slv: (int, int) -> Complex, xx: int, yy: int, w: int, h: int,
                     sqrt: real -> real) returns (c: real)
    requires 0 <= xx < w && 0 <= yy < h
    ensures CoherenceFacts(DualPol.WindowSum(CoherenceField(mst, slv), CoherenceWindow(xx, yy, w, h)), c, sqrt)
  {
    var win := CoherenceWindow(xx, yy, w, h);
    var sum, count := DualPol.AccumulateWindow(CoherenceField(mst, slv), win);
    c := Coherence(sum, count, sqrt);
    WindowCoherence(mst, slv, win, count, sqrt);
  }

  // ---------------------------------------------------------- averaging

  /** One block's estimate: the overlap and block it belongs to and its shift. */
  datatype ShiftEstimate = ShiftEstimate(overlapIndex: int, blockIndex: int, shift: real)

  /** The shifts of all estimates, in list order. */
  function Shifts(data: seq<ShiftEstimate>): (s: seq<real>)
    ensures |s| == |data| && forall j :: 0 <= j < |data| ==> s[j] == data[j].shift
  {
    seq(|data|, j requires 0 <= j < |data| => data[j].shift)
  }

  /** The sum of the shifts estimated on overlap `i`, in list order. */
  function OverlapSum(data: seq<ShiftEstimate>, i: int): real
  {
    if |data| == 0 then 0.0
    else OverlapSum(data[..|data| - 1], i) + (if data[|data| - 1].overlapIndex == i then data[|data| - 1].shift else 0.0)
  }

  /** The overlap sums of overlaps 0 .. m - 1, added in overlap order. */
  function OverlapsTotal(data: seq<ShiftEstimate>, m: int): real
    decreases m
  {
    if m <= 0 then 0.0 else OverlapsTotal(data, m - 1) + OverlapSum(data, m - 1)
  }

  /** The share of one estimate in the overlap sums 0 .. m - 1. */
  function Share(e: ShiftEstimate, m: int): real
    decreases m
  {
    if m <= 0 then 0.0 else Share(e, m - 1) + (if e.overlapIndex == m - 1 then e.shift else 0.0)
  }

  /** An estimate of an overlap among the first `m` counts once, otherwise not at all. */
  lemma {:induction false} ShareOnce(e: ShiftEstimate, m: int)
    ensures Share(e, m) == if 0 <= e.overlapIndex < m then e.shift else 0.0
    decreases m
  {
    if m > 0 {
      ShareOnce(e, m - 1);
    }
  }

  /** Appending an estimate adds its share to the overlap sums. */
  lemma {:induction false} OverlapsTotalSnoc(data: seq<ShiftEstimate>, m: int)
    requires 0 < |data|
    ensures OverlapsTotal(data, m) == OverlapsTotal(data[..|data| - 1], m) + Share(data[|data| - 1], m)
    decreases m
  {
    if m > 0 {
      OverlapsTotalSnoc(data, m - 1);
    }
  }

  /**
   * When every estimate belongs to one of the overlaps 0 .. m - 1, the
   * overlap sums together are the sum of all shifts: the per-overlap
   * grouping loses and duplicates nothing.
   */
  lemma {:induction false} OverlapsPartitionShifts(data: seq<ShiftEstimate>, m: int)
    requires forall j :: 0 <= j < |data| ==> 0 <= data[j].overlapIndex < m
    ensures OverlapsTotal(data, m) == Sum(Shifts(data))
    decreases |data|
  {
    if |data| == 0 {
      ZeroTotal(data, m);
    } else {
      var init := data[..|data| - 1];
      OverlapsPartitionShifts(init, m);
      OverlapsTotalSnoc(data, m);
      ShareOnce(data[|data| - 1], m);
      assert Shifts(data)[..|data| - 1] == Shifts(init);
    }
  }

  lemma {:induction false} ZeroTotal(data: seq<ShiftEstimate>, m: int)
    requires |data| == 0
    ensures OverlapsTotal(data, m) == 0.0
    decreases m
  {
    if m > 0 {
      ZeroTotal(data, m - 1);
    }
  }

  /** The averages sum to the overlap total over `nb`. */
  lemma {:induction false} SumOfAverages(data: seq<ShiftEstimate>, averages: seq<real>, nb: real)
    requires 0.0 < nb
    requires forall i :: 0 <= i < |averages| ==> averages[i] == OverlapSum(data, i) / nb
    ensures Sum(averages) == OverlapsTotal(data, |averages|) / nb
    decreases |averages|
  {
    if 0 < |averages| {
      var m := |averages|;
      var init := averages[..m - 1];
      assert forall i :: 0 <= i < |init| ==> init[i] == averages[i];
      SumOfAverages(data, init, nb);
      DivideSum(OverlapsTotal(data, m - 1), OverlapSum(data, m - 1), nb);
    }
  }

  /** (a + b) / d == a / d + b / d. */
  lemma DivideSum(a: real, b: real, d: real)
    requires 0.0 < d
    ensures (a + b) / d == a / d + b / d
  {
  }

  /** -t / (a b) == -(t / a) / b. */
  lemma DivideTwice(t: real, a: real, b: real)
    requires 0.0 < a && 0.0 < b
    ensures -t / (a * b) == -(t / a) / b
  {
    var q := t / a;
    assert t == q * a;
    assert -t == (-q / b) * (a * b);
  }

  /** The number of shifts, as a real, is the product of the counts. */
  lemma ShiftCount(len: int, numOverlaps: int, nb: int)
    requires len == numOverlaps * nb
    ensures len as real == (nb as real) * (numOverlaps as real)
  {
  }

  /** The inner loop: the shifts of overlap `i` added in list order. */
  method SumOverlap(data: seq<ShiftEstimate>, i: int) returns (sum: real)
    ensures sum == OverlapSum(data, i)
  {
    sum := 0.0;
    var j := 0;
    while j < |data|
      invariant 0 <= j <= |data|
      invariant sum == OverlapSum(data[..j], i)
    {
      assert data[..j + 1][..j] == data[..j];
      if data[j].overlapIndex == i {
        sum := sum + data[j].shift;
      }
      j := j + 1;
    }
    assert data[..|data|] == data;
  }

  /** -t / (a b) is -s / b when s is t / a. */
  lemma NegativeMeans(t: real, sum: real, a: real, b: real, len: real)
    requires 0.0 < a && 0.0 < b && len == a * b && sum == t / a
    ensures -t / len == -sum / b
  {
    DivideTwice(t, a, b);
  }

  /**
   * The overall offset, minus the overlap total over the number of
   * shifts, is minus the mean of the per-overlap averages.
   */
  lemma OffsetIsMeanOfAverages(data: seq<ShiftEstimate>, averages: seq<real>, numOverlaps: int, nb: int)
    requires 1 <= numOverlaps && 1 <= nb && |data| == numOverlaps * nb && |averages| == numOverlaps
    requires forall i :: 0 <= i < numOverlaps ==> averages[i] == OverlapSum(data, i) / (nb as real)
    ensures -OverlapsTotal(data, numOverlaps) / (|data| as real) == -Sum(averages) / (numOverlaps as real)
  {
    SumOfAverages(data, averages, nb as real);
    ShiftCount(|data|, numOverlaps, nb);
    NegativeMeans(OverlapsTotal(data, numOverlaps), Sum(averages), nb as real, numOverlaps as real, |data| as real);
  }

  /**
   * The averaging of `estimateAzimuthOffset` over `numOverlaps` overlaps
   * of `nb` blocks each: the average of each overlap is its shift sum over
   * `nb`, and the overall offset is minus the total over the number of
   * shifts. The offset is minus the mean of the per-overlap averages and,
   * when every estimate belongs to one of the overlaps, minus the mean of
   * all shifts.
   */
  method AverageShifts(data: seq<ShiftEstimate>, numOverlaps: int, nb: int)
    returns (averages: seq<real>, azOffset: real)
    requires 1 <= numOverlaps && 1 <= nb && |data| == numOverlaps * nb
    ensures |averages| == numOverlaps
    ensures forall i :: 0 <= i < numOverlaps ==> averages[i] == OverlapSum(data, i) / (nb as real)
    ensures azOffset == -Sum(averages) / (numOverlaps as real)
    ensures (forall j :: 0 <= j < |data| ==> 0 <= data[j].overlapIndex < numOverlaps) ==>
      azOffset == -Sum(Shifts(data)) / (|data| as real)
  {
    averages := [];
    var total := 0.0;
    var i := 0;
    while i < numOverlaps
      invariant 0 <= i <= numOverlaps && |averages| == i
      invariant forall k :: 0 <= k < i ==> averages[k] == OverlapSum(data, k) / (nb as real)
      invariant total == OverlapsTotal(data, i)
    {
      var sumAzOffset := SumOverlap(data, i);
      averages := averages + [sumAzOffset / (nb as real)];
      total := total + sumAzOffset;
      i := i + 1;
    }
    var numShifts := numOverlaps * nb;
    assert numShifts == |data|;
    azOffset := -total / (numShifts as real);
    OffsetIsMeanOfAverages(data, averages, numOverlaps, nb);
    if forall j :: 0 <= j < |data| ==> 0 <= data[j].overlapIndex < numOverlaps {
      OverlapsPartitionShifts(data, numOverlaps);
    }
  }

  // ------------------------------------------------------ one-shot flag

  /** Whether the offset has been estimated, and its value. */
  datatype OffsetState = OffsetState(available: bool, azOffset: real)

  /**
   * `estimateAzimuthOffset` behind its availability flag: once the offset
   * is available nothing changes and the estimate is not used; otherwise a
   * successful estimate is stored and the flag set, and a failed one
   * propagates its error with the flag still clear.
   */
  function EstimateOnce<E>(st: OffsetState, estimate: Result<real, E>): (r: Result<OffsetState, E>)
    ensures st.available ==> r == Ok(st)
    ensures !st.available ==> (r.Ok? <==> estimate.Ok?)
    ensures r.Ok? ==> r.value.available
    ensures !st.available && estimate.Ok? ==> r.value.azOffset == estimate.value
  {
    if st.available then Ok(st)
    else if estimate.Err? then Err(estimate.error)
    else Ok(OffsetState(true, estimate.value))
  }

  /** A second estimate after a successful one changes nothing. */
  lemma EstimateIsOneShot<E>(st: OffsetState, first: Result<real, E>, second: Result<real, E>)
    requires EstimateOnce(st, first).Ok?
    ensures EstimateOnce(EstimateOnce(st, first).value, second) == EstimateOnce(st, first)
  {
  }
}
