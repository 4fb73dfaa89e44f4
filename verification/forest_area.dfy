/**
 * The forest-area detection ratio: for each pixel, the mean linear power of
 * a nominator band over a sliding window divided by that of a denominator
 * band, skipping no-data samples, written in decibels.
 */
module ForestArea {
  import opened Common
  import opened PolarimetricKinds
  import DualPol
  import Channels

  datatype ForestError =
    | AmplitudeOrIntensityExpected
    | UnknownBandUnit

  /** The units a ratio band may have: amplitude or intensity, linear or in dB. */
  predicate PowerUnit(u: BandUnit)
  {
    u == Amplitude || u == Intensity || u == AmplitudeDb || u == IntensityDb
  }

  /** `addSelectedBands`: both the nominator and the denominator band must be a power unit. */
  function CheckBandUnits(unitN: BandUnit, unitD: BandUnit): (r: Outcome<ForestError>)
    ensures r.Pass? <==> PowerUnit(unitN) && PowerUnit(unitD)
  {
    if !PowerUnit(unitN) || !PowerUnit(unitD) then Fail(AmplitudeOrIntensityExpected) else Pass
  }

  /** A source band: `height` rows of `width` samples and its no-data value. */
  datatype Band = Band(width: int, height: int, rows: seq<seq<real>>, noData: real)

  predicate ValidBand(b: Band)
  {
    0 < b.width && 0 < b.height && |b.rows| == b.height &&
    forall y :: 0 <= y < |b.rows| ==> |b.rows[y]| == b.width
  }

  /**
   * A sample as linear power: amplitude squared, intensity kept, dB values
   * converted with `10^(v/10)` (and squared for amplitude in dB).
   */
  function Linear(unit: BandUnit, v: real, pow10: real -> real): (r: real)
    requires PowerUnit(unit)
    ensures unit == Amplitude || unit == AmplitudeDb ==> 0.0 <= r
  {
    match unit
    case Amplitude => v * v
    case Intensity => v
    case AmplitudeDb => pow10(v / 10.0) * pow10(v / 10.0)
    case IntensityDb => pow10(v / 10.0)
  }

  /**
   * A value in dB is first brought back to linear with `10^(v/10)` and then
   * treated as the matching linear unit.
   */
  lemma DbUnitsAsLinear(v: real, pow10: real -> real)
    ensures Linear(AmplitudeDb, v, pow10) == Linear(Amplitude, pow10(v / 10.0), pow10)
    ensures Linear(IntensityDb, v, pow10) == Linear(Intensity, pow10(v / 10.0), pow10)
  {
  }

  /**
   * The converted samples of row `y` for x in [x0, x1), left to right,
   * leaving out samples equal to the no-data value.
   */
  function RowSamples(b: Band, unit: BandUnit, y: int, x0: int, x1: int, pow10: real -> real): (s: seq<real>)
    requires ValidBand(b) && PowerUnit(unit) && 0 <= y < b.height && 0 <= x0 && x1 <= b.width
    ensures |s| <= Max(x1 - x0, 0)
    decreases x1 - x0
  {
    if x1 <= x0 then []
    else
      var v := b.rows[y][x1 - 1];
      RowSamples(b, unit, y, x0, x1 - 1, pow10) + (if v != b.noData then [Linear(unit, v, pow10)] else [])
  }

  /** The converted samples of rows [y0, y1), row by row. */
  function BlockSamples(b: Band, unit: BandUnit, x0: int, x1: int, y0: int, y1: int, pow10: real -> real): (s: seq<real>)
    requires ValidBand(b) && PowerUnit(unit) && 0 <= x0 && x1 <= b.width && 0 <= y0 && y1 <= b.height
    decreases y1 - y0
  {
    if y1 <= y0 then []
    else BlockSamples(b, unit, x0, x1, y0, y1 - 1, pow10) + RowSamples(b, unit, y1 - 1, x0, x1, pow10)
  }

  /** At most one sample per pixel of the block. */
  lemma {:induction false} BlockSamplesBound(b: Band, unit: BandUnit, x0: int, x1: int, y0: int, y1: int,
                                            pow10: real -> real)
    requires ValidBand(b) && PowerUnit(unit) && 0 <= x0 <= x1 <= b.width && 0 <= y0 <= y1 <= b.height
    ensures |BlockSamples(b, unit, x0, x1, y0, y1, pow10)| <= (y1 - y0) * (x1 - x0)
    decreases y1 - y0
  {
    if y0 < y1 {
      BlockSamplesBound(b, unit, x0, x1, y0, y1 - 1, pow10);
      assert (y1 - y0) * (x1 - x0) == (y1 - 1 - y0) * (x1 - x0) + (x1 - x0);
    }
  }

  /** A row without no-data samples yields one sample per pixel. */
  lemma {:induction false} FullRow(b: Band, unit: BandUnit, y: int, x0: int, x1: int, pow10: real -> real)
    requires ValidBand(b) && PowerUnit(unit) && 0 <= y < b.height && 0 <= x0 <= x1 <= b.width
    requires forall x :: x0 <= x < x1 ==> b.rows[y][x] != b.noData
    ensures |RowSamples(b, unit, y, x0, x1, pow10)| == x1 - x0
    decreases x1 - x0
  {
    if x0 < x1 {
      FullRow(b, unit, y, x0, x1 - 1, pow10);
    }
  }

  /** A block without no-data samples yields one sample per pixel. */
  lemma {:induction false} FullBlock(b: Band, unit: BandUnit, x0: int, x1: int, y0: int, y1: int, pow10: real -> real)
    requires ValidBand(b) && PowerUnit(unit) && 0 <= x0 <= x1 <= b.width && 0 <= y0 <= y1 <= b.height
    requires forall y, x :: y0 <= y < y1 && x0 <= x < x1 ==> b.rows[y][x] != b.noData
    ensures |BlockSamples(b, unit, x0, x1, y0, y1, pow10)| == (y1 - y0) * (x1 - x0)
    decreases y1 - y0
  {
    if y0 < y1 {
      FullBlock(b, unit, x0, x1, y0, y1 - 1, pow10);
      FullRow(b, unit, y1 - 1, x0, x1, pow10);
      assert (y1 - y0) * (x1 - x0) == (y1 - 1 - y0) * (x1 - x0) + (x1 - x0);
    }
  }

  /** The inner sample loop of `getSamples`: row `y` for x in [xs, xe). */
  method CollectRow(b: Band, unit: BandUnit, y: int, xs: int, xe: int, pow10: real -> real) returns (row: seq<real>)
    requires ValidBand(b) && PowerUnit(unit) && 0 <= y < b.height && 0 <= xs <= b.width && xe <= b.width
    ensures row == RowSamples(b, unit, y, xs, xe, pow10)
  {
    row := [];
    var x := xs;
    while x < xe
      invariant xs <= x <= Max(xe, xs)
      invariant row == RowSamples(b, unit, y, xs, x, pow10)
    {
      var v := b.rows[y][x];
      if v != b.noData {
        row := row + [Linear(unit, v, pow10)];
      }
      x := x + 1;
    }
  }

  /**
   * The sample loop of `getSamples` over x in [xs, xe) and y in [ys, ye):
   * every sample that is not no-data, converted, in row order. An unknown
   * unit is an error.
   */
  method CollectSamples(b: Band, unit: BandUnit, xs: int, xe: int, ys: int, ye: int, pow10: real -> real)
    returns (r: Result<seq<real>, ForestError>)
    requires ValidBand(b) && 0 <= xs <= b.width && xe <= b.width && 0 <= ys <= b.height && ye <= b.height
    ensures r.Err? <==> !PowerUnit(unit)
    ensures r.Ok? ==> r.value == BlockSamples(b, unit, xs, xe, ys, ye, pow10)
  {
    if !PowerUnit(unit) {
      return Err(UnknownBandUnit);
    }
    var samples: seq<real> := [];
    var y := ys;
    while y < ye
      invariant ys <= y <= Max(ye, ys)
      invariant samples == BlockSamples(b, unit, xs, xe, ys, y, pow10)
    {
      var row := CollectRow(b, unit, y, xs, xe, pow10);
      samples := samples + row;
      y := y + 1;
    }
    return Ok(samples);
  }

  /** The window of (tx, ty): half the window size on each side, clamped to the image. */
  function SampleWindow(b: Band, tx: int, ty: int, half: int): (w: DualPol.Window)
    requires ValidBand(b) && 0 <= tx < b.width && 0 <= ty < b.height && 0 <= half
    ensures 0 <= w.xSt <= tx <= w.xEd < b.width && 0 <= w.ySt <= ty <= w.yEd < b.height
  {
    DualPol.ClampWindow(tx, ty, half, half, b.width, b.height)
  }

  /** The converted, non-no-data samples of a whole window. */
  function WindowSamples(b: Band, unit: BandUnit, w: DualPol.Window, pow10: real -> real): seq<real>
    requires ValidBand(b) && PowerUnit(unit)
    requires 0 <= w.xSt <= w.xEd < b.width && 0 <= w.ySt <= w.yEd < b.height
  {
    BlockSamples(b, unit, w.xSt, w.xEd + 1, w.ySt, w.yEd + 1, pow10)
  }

  /** A window yields at most one sample per pixel. */
  lemma WindowSamplesBound(b: Band, unit: BandUnit, w: DualPol.Window, pow10: real -> real)
    requires ValidBand(b) && PowerUnit(unit)
    requires 0 <= w.xSt <= w.xEd < b.width && 0 <= w.ySt <= w.yEd < b.height
    ensures |WindowSamples(b, unit, w, pow10)| <= DualPol.Area(w)
  {
    BlockSamplesBound(b, unit, w.xSt, w.xEd + 1, w.ySt, w.yEd + 1, pow10);
  }

  /** The clamped window around a pixel holds at most `windowSize^2` pixels. */
  lemma SampleWindowArea(b: Band, tx: int, ty: int, windowSize: int)
    requires ValidBand(b) && 0 <= tx < b.width && 0 <= ty < b.height
    requires 1 <= windowSize && windowSize % 2 == 1
    ensures 1 <= DualPol.Area(SampleWindow(b, tx, ty, windowSize / 2)) <= windowSize * windowSize
  {
    var half := windowSize / 2;
    DualPol.WindowAreaBounds(tx, ty, half, half, b.width, b.height);
    assert 2 * half + 1 == windowSize;
  }

  /**
   * `getSamples` as intended: the samples of every pixel of the clamped
   * window around (tx, ty). There are never more than the window holds,
   * so the `windowSize^2` sample array is not overrun.
   */
  method GetSamples(b: Band, unit: BandUnit, tx: int, ty: int, windowSize: int, pow10: real -> real)
    returns (r: Result<seq<real>, ForestError>)
    requires ValidBand(b) && 0 <= tx < b.width && 0 <= ty < b.height
    requires 1 <= windowSize && windowSize % 2 == 1
    ensures r.Err? <==> !PowerUnit(unit)
    ensures r.Ok? ==> r.value == WindowSamples(b, unit, SampleWindow(b, tx, ty, windowSize / 2), pow10)
    ensures r.Ok? ==> |r.value| <= DualPol.Area(SampleWindow(b, tx, ty, windowSize / 2)) <= windowSize * windowSize
  {
    var half := windowSize / 2;
    var w := SampleWindow(b, tx, ty, half);
    r := CollectSamples(b, unit, w.xSt, w.xEd + 1, w.ySt, w.yEd + 1, pow10);
    if r.Ok? {
      WindowSamplesBound(b, unit, w, pow10);
      SampleWindowArea(b, tx, ty, windowSize);
    }
  }

  /**
   * `getSamples` as written: the loops stop before `min(x0 + w,
   * tile.getMaxX() - 1)` and `min(y0 + h, tile.getMaxY() - 1)`, where the
   * tile's maximum coordinates are inclusive. `tileMaxX` and `tileMaxY`
   * are those of the source tile, which lies inside the image.
   */
  method GetSamplesAsWritten(b: Band, unit: BandUnit, tx: int, ty: int, windowSize: int,
                             tileMaxX: int, tileMaxY: int, pow10: real -> real)
    returns (r: Result<seq<real>, ForestError>)
    requires ValidBand(b) && 0 <= tx < b.width && 0 <= ty < b.height
    requires 1 <= windowSize && windowSize % 2 == 1
    requires tileMaxX < b.width && tileMaxY < b.height
    ensures r.Err? <==> !PowerUnit(unit)
    ensures r.Ok? ==>
      var w := SampleWindow(b, tx, ty, windowSize / 2);
      r.value == BlockSamples(b, unit, w.xSt, Min(w.xEd + 1, tileMaxX - 1), w.ySt, Min(w.yEd + 1, tileMaxY - 1), pow10)
  {
    var w := SampleWindow(b, tx, ty, windowSize / 2);
    var x0 := w.xSt;
    var y0 := w.ySt;
    var width := w.xEd - x0 + 1;
    var height := w.yEd - y0 + 1;
    r := CollectSamples(b, unit, x0, Min(x0 + width, tileMaxX - 1), y0, Min(y0 + height, tileMaxY - 1), pow10);
  }

  /**
   * As written, a pixel of a one-pixel image gets no samples at all, while
   * its window (the pixel itself) holds one valid sample; its ratio is
   * therefore the nominator's no-data value, whatever the denominator holds.
   */
  lemma SinglePixelImageAsWritten(b: Band, unit: BandUnit, samplesD: seq<real>, noDataD: real, pow10: real -> real)
    requires ValidBand(b) && PowerUnit(unit) && b.width == 1 && b.height == 1
    requires b.rows[0][0] != b.noData
    ensures |BlockSamples(b, unit, 0, Min(1, 0 - 1), 0, Min(1, 0 - 1), pow10)| == 0
    ensures |WindowSamples(b, unit, DualPol.Window(0, 0, 0, 0), pow10)| == 1
    ensures Ratio(BlockSamples(b, unit, 0, Min(1, 0 - 1), 0, Min(1, 0 - 1), pow10), samplesD, b.noData, noDataD) == b.noData
  {
    assert RowSamples(b, unit, 0, 0, 1, pow10) == RowSamples(b, unit, 0, 0, 0, pow10) + [Linear(unit, b.rows[0][0], pow10)];
    assert BlockSamples(b, unit, 0, 1, 0, 1, pow10) == BlockSamples(b, unit, 0, 1, 0, 0, pow10) + RowSamples(b, unit, 0, 0, 1, pow10);
  }

  /** The number of pixels of row `y` in [x0, x1) that are not no-data. */
  function RowCount(b: Band, y: int, x0: int, x1: int): nat
    requires ValidBand(b) && 0 <= y < b.height && 0 <= x0 && x1 <= b.width
    decreases x1 - x0
  {
    if x1 <= x0 then 0
    else RowCount(b, y, x0, x1 - 1) + (if b.rows[y][x1 - 1] != b.noData then 1 else 0)
  }

  /** The number of pixels of the block that are not no-data. */
  function BlockCount(b: Band, x0: int, x1: int, y0: int, y1: int): nat
    requires ValidBand(b) && 0 <= x0 && x1 <= b.width && 0 <= y0 && y1 <= b.height
    decreases y1 - y0
  {
    if y1 <= y0 then 0
    else BlockCount(b, x0, x1, y0, y1 - 1) + RowCount(b, y1 - 1, x0, x1)
  }

  /** A row yields one sample per pixel that is not no-data. */
  lemma {:induction false} RowSamplesCount(b: Band, unit: BandUnit, y: int, x0: int, x1: int, pow10: real -> real)
    requires ValidBand(b) && PowerUnit(unit) && 0 <= y < b.height && 0 <= x0 && x1 <= b.width
    ensures |RowSamples(b, unit, y, x0, x1, pow10)| == RowCount(b, y, x0, x1)
    decreases x1 - x0
  {
    if x0 < x1 {
      RowSamplesCount(b, unit, y, x0, x1 - 1, pow10);
    }
  }

  /** A block yields one sample per pixel that is not no-data. */
  lemma {:induction false} BlockSamplesCount(b: Band, unit: BandUnit, x0: int, x1: int, y0: int, y1: int,
                                            pow10: real -> real)
    requires ValidBand(b) && PowerUnit(unit) && 0 <= x0 && x1 <= b.width && 0 <= y0 && y1 <= b.height
    ensures |BlockSamples(b, unit, x0, x1, y0, y1, pow10)| == BlockCount(b, x0, x1, y0, y1)
    decreases y1 - y0
  {
    if y0 < y1 {
      BlockSamplesCount(b, unit, x0, x1, y0, y1 - 1, pow10);
      RowSamplesCount(b, unit, y1 - 1, x0, x1, pow10);
    }
  }

  /** Splitting a row at `m` splits its count. */
  lemma {:induction false} RowSplit(b: Band, y: int, x0: int, m: int, x1: int)
    requires ValidBand(b) && 0 <= y < b.height && 0 <= x0 <= m <= x1 <= b.width
    ensures RowCount(b, y, x0, x1) == RowCount(b, y, x0, m) + RowCount(b, y, m, x1)
    decreases x1 - m
  {
    if m < x1 {
      RowSplit(b, y, x0, m, x1 - 1);
    }
  }

  /** A row with a valid pixel in [m, x1) counts fewer pixels before `m` than in all of [x0, x1). */
  lemma RowMissesPixel(b: Band, y: int, x0: int, m: int, x: int, x1: int)
    requires ValidBand(b) && 0 <= y < b.height && 0 <= x0 <= m <= x < x1 <= b.width
    requires b.rows[y][x] != b.noData
    ensures RowCount(b, y, x0, m) < RowCount(b, y, x0, x1)
  {
    RowSplit(b, y, x0, m, x1);
    RowSplit(b, y, m, x + 1, x1);
  }

  /** Fewer rows count no more pixels. */
  lemma {:induction false} BlockRowsMonotone(b: Band, x0: int, x1: int, y0: int, y1': int, y1: int)
    requires ValidBand(b) && 0 <= x0 && x1 <= b.width && 0 <= y0 && y1' <= y1 <= b.height
    ensures BlockCount(b, x0, x1, y0, y1') <= BlockCount(b, x0, x1, y0, y1)
    decreases y1 - y1'
  {
    if y1' < y1 && y0 < y1 {
      BlockRowsMonotone(b, x0, x1, y0, y1', y1 - 1);
    }
  }

  /** An empty column range counts nothing, whatever its bounds. */
  lemma {:induction false} BlockNoColumns(b: Band, x0: int, x1: int, y0: int, y1: int)
    requires ValidBand(b) && 0 <= x0 && x1 <= x0 && x1 <= b.width && 0 <= y0 && y1 <= b.height
    ensures BlockCount(b, x0, x1, y0, y1) == 0
    decreases y1 - y0
  {
    if y0 < y1 {
      BlockNoColumns(b, x0, x1, y0, y1 - 1);
    }
  }

  /** Stopping the columns at `m` counts no more pixels. */
  lemma {:induction false} BlockColumnsMonotone(b: Band, x0: int, m: int, x1: int, y0: int, y1: int)
    requires ValidBand(b) && 0 <= x0 <= m <= x1 <= b.width && 0 <= y0 && y1 <= b.height
    ensures BlockCount(b, x0, m, y0, y1) <= BlockCount(b, x0, x1, y0, y1)
    decreases y1 - y0
  {
    if y0 < y1 {
      BlockColumnsMonotone(b, x0, m, x1, y0, y1 - 1);
      RowSplit(b, y1 - 1, x0, m, x1);
    }
  }

  /**
   * Stopping the columns at `m` loses a pixel when some row holds a valid
   * pixel at or after `m`.
   */
  lemma {:induction false} BlockColumnsMissPixel(b: Band, x0: int, m: int, x1: int, y0: int, y1: int, x: int, y: int)
    requires ValidBand(b) && 0 <= x0 <= m <= x < x1 <= b.width && 0 <= y0 <= y < y1 <= b.height
    requires b.rows[y][x] != b.noData
    ensures BlockCount(b, x0, m, y0, y1) < BlockCount(b, x0, x1, y0, y1)
    decreases y1 - y0
  {
    if y == y1 - 1 {
      BlockColumnsMonotone(b, x0, m, x1, y0, y1 - 1);
      RowMissesPixel(b, y, x0, m, x, x1);
    } else {
      BlockColumnsMissPixel(b, x0, m, x1, y0, y1 - 1, x, y);
      RowSplit(b, y1 - 1, x0, m, x1);
    }
  }

  /** A window yields one sample per pixel of it that is not no-data. */
  lemma WindowSamplesCount(b: Band, unit: BandUnit, w: DualPol.Window, pow10: real -> real)
    requires ValidBand(b) && PowerUnit(unit)
    requires 0 <= w.xSt <= w.xEd < b.width && 0 <= w.ySt <= w.yEd < b.height
    ensures |WindowSamples(b, unit, w, pow10)| == BlockCount(b, w.xSt, w.xEd + 1, w.ySt, w.yEd + 1)
  {
    BlockSamplesCount(b, unit, w.xSt, w.xEd + 1, w.ySt, w.yEd + 1, pow10);
  }

  /**
   * Sampling a window only up to column `xe` (exclusive, at most `x`) and
   * row `ye` (exclusive, at most the window's end) misses the valid pixel
   * (x, y) of the window.
   */
  lemma TruncatedWindowMissesPixel(b: Band, unit: BandUnit, w: DualPol.Window, xe: int, ye: int,
                                   x: int, y: int, pow10: real -> real)
    requires ValidBand(b) && PowerUnit(unit)
    requires 0 <= w.xSt <= x <= w.xEd < b.width && 0 <= w.ySt <= y <= w.yEd < b.height
    requires xe <= x && ye <= w.yEd + 1 && b.rows[y][x] != b.noData
    ensures |BlockSamples(b, unit, w.xSt, xe, w.ySt, ye, pow10)| < |WindowSamples(b, unit, w, pow10)|
  {
    var m := Max(xe, w.xSt);
    BlockSamplesCount(b, unit, w.xSt, xe, w.ySt, ye, pow10);
    WindowSamplesCount(b, unit, w, pow10);
    if xe < w.xSt {
      BlockNoColumns(b, w.xSt, xe, w.ySt, ye);
      BlockNoColumns(b, w.xSt, m, w.ySt, ye);
    }
    BlockRowsMonotone(b, w.xSt, m, w.ySt, ye, w.yEd + 1);
    BlockColumnsMissPixel(b, w.xSt, m, w.xEd + 1, w.ySt, w.yEd + 1, x, y);
  }

  /**
   * As written, when the source tile ends at the image border
   * (`tileMaxX == width - 1`), a valid pixel of the window in one of the
   * last two columns of the image is never sampled: `GetSamplesAsWritten`
   * returns fewer samples than the window holds, so the mean is taken
   * over part of the window only.
   */
  lemma AsWrittenMissesBorderPixel(b: Band, unit: BandUnit, tx: int, ty: int, windowSize: int, tileMaxY: int,
                                   x: int, y: int, pow10: real -> real)
    requires ValidBand(b) && PowerUnit(unit) && 0 <= tx < b.width && 0 <= ty < b.height
    requires 1 <= windowSize && windowSize % 2 == 1 && tileMaxY < b.height
    requires SampleWindow(b, tx, ty, windowSize / 2).xSt <= x <= SampleWindow(b, tx, ty, windowSize / 2).xEd
    requires SampleWindow(b, tx, ty, windowSize / 2).ySt <= y <= SampleWindow(b, tx, ty, windowSize / 2).yEd
    requires b.width - 2 <= x && b.rows[y][x] != b.noData
    ensures
      var w := SampleWindow(b, tx, ty, windowSize / 2);
      |BlockSamples(b, unit, w.xSt, Min(w.xEd + 1, (b.width - 1) - 1), w.ySt, Min(w.yEd + 1, tileMaxY - 1), pow10)|
        < |WindowSamples(b, unit, w, pow10)|
  {
    var w := SampleWindow(b, tx, ty, windowSize / 2);
    TruncatedWindowMissesPixel(b, unit, w, Min(w.xEd + 1, (b.width - 1) - 1), Min(w.yEd + 1, tileMaxY - 1), x, y, pow10);
  }

  // ----------------------------------------------------------------- means

  function Mean(s: seq<real>): real
    requires 0 < |s|
  {
    Sum(s) / (|s| as real)
  }

  /** `getMeanValue`: the sum of the first `n` samples divided by `n`. */
  method GetMeanValue(samples: seq<real>, n: int) returns (mean: real)
    requires 0 < n <= |samples|
    ensures mean * (n as real) == Sum(samples[..n])
    ensures mean == Mean(samples[..n])
  {
    mean := 0.0;
    var i := 0;
    while i < n
      invariant 0 <= i <= n
      invariant mean == Sum(samples[..i])
    {
      assert samples[..i + 1][..i] == samples[..i];
      mean := mean + samples[i];
      i := i + 1;
    }
    mean := mean / (n as real);
  }

  /** One more value in [lo, hi] keeps a sum of m such values within bounds. */
  lemma SnocBounds(n: int, lo: real, hi: real, prev: real, x: real)
    requires 1 <= n
    requires ((n - 1) as real) * lo <= prev <= ((n - 1) as real) * hi && lo <= x <= hi
    ensures (n as real) * lo <= prev + x <= (n as real) * hi
  {
    var m := (n - 1) as real;
    assert n as real == m + 1.0;
    assert (m + 1.0) * lo == m * lo + lo;
    assert (m + 1.0) * hi == m * hi + hi;
  }

  /** A sum of values in [lo, hi] lies in [|s| lo, |s| hi]. */
  lemma {:induction false} SumBounds(s: seq<real>, lo: real, hi: real)
    requires forall i :: 0 <= i < |s| ==> lo <= s[i] <= hi
    ensures (|s| as real) * lo <= Sum(s) <= (|s| as real) * hi
    decreases |s|
  {
    if |s| > 0 {
      var init := s[..|s| - 1];
      assert forall i :: 0 <= i < |init| ==> init[i] == s[i];
      SumBounds(init, lo, hi);
      assert Sum(s) == Sum(init) + s[|s| - 1];
      SnocBounds(|s|, lo, hi, Sum(init), s[|s| - 1]);
    }
  }

  /** The mean of values in [lo, hi] lies in [lo, hi]. */
  lemma MeanBounds(s: seq<real>, lo: real, hi: real)
    requires 0 < |s| && forall i :: 0 <= i < |s| ==> lo <= s[i] <= hi
    ensures lo <= Mean(s) <= hi
  {
    SumBounds(s, lo, hi);
    var n := |s| as real;
    assert Mean(s) * n == Sum(s);
  }

  // ----------------------------------------------------------------- ratio

  /**
   * `computeRatio` on the two windows' samples: the nominator's no-data
   * value when it has no samples, the denominator's when it has none or
   * its mean is zero, and the ratio of the means otherwise.
   */
  function Ratio(samplesN: seq<real>, samplesD: seq<real>, noDataN: real, noDataD: real): (r: real)
    ensures |samplesN| == 0 ==> r == noDataN
    ensures 0 < |samplesN| && |samplesD| == 0 ==> r == noDataD
    ensures 0 < |samplesN| && 0 < |samplesD| && Mean(samplesD) == 0.0 ==> r == noDataD
    ensures 0 < |samplesN| && 0 < |samplesD| && Mean(samplesD) != 0.0 ==> r * Mean(samplesD) == Mean(samplesN)
  {
    if |samplesN| == 0 then noDataN
    else if |samplesD| == 0 then noDataD
    else if Mean(samplesD) == 0.0 then noDataD
    else Mean(samplesN) / Mean(samplesD)
  }

  /**
   * `computeRatio`: the samples of the nominator band first (the
   * denominator is not read when the nominator has none), then the means.
   */
  method ComputeRatio(bN: Band, bD: Band, unitN: BandUnit, unitD: BandUnit, tx: int, ty: int,
                      windowSize: int, pow10: real -> real) returns (r: Result<real, ForestError>)
    requires ValidBand(bN) && ValidBand(bD) && bN.width == bD.width && bN.height == bD.height
    requires 0 <= tx < bN.width && 0 <= ty < bN.height && 1 <= windowSize && windowSize % 2 == 1
    ensures !PowerUnit(unitN) ==> r.Err?
    ensures PowerUnit(unitN) && PowerUnit(unitD) ==>
      var w := SampleWindow(bN, tx, ty, windowSize / 2);
      r == Ok(Ratio(WindowSamples(bN, unitN, w, pow10), WindowSamples(bD, unitD, w, pow10), bN.noData, bD.noData))
    ensures PowerUnit(unitN) && !PowerUnit(unitD) ==>
      var w := SampleWindow(bN, tx, ty, windowSize / 2);
      (r.Err? <==> 0 < |WindowSamples(bN, unitN, w, pow10)|)
  {
    var sN := GetSamples(bN, unitN, tx, ty, windowSize, pow10);
    if sN.Err? {
      return Err(sN.error);
    }
    if |sN.value| == 0 {
      return Ok(bN.noData);
    }
    var sD := GetSamples(bD, unitD, tx, ty, windowSize, pow10);
    if sD.Err? {
      return Err(sD.error);
    }
    if |sD.value| == 0 {
      return Ok(bD.noData);
    }
    var meanN := GetMeanValue(sN.value, |sN.value|);
    var meanD := GetMeanValue(sD.value, |sD.value|);
    assert sN.value[..|sN.value|] == sN.value;
    assert sD.value[..|sD.value|] == sD.value;
    if meanD == 0.0 {
      return Ok(bD.noData);
    }
    return Ok(meanN / meanD);
  }

  /**
   * The ratio band's value at one pixel: 0 when either centre sample or
   * the ratio is a no-data value, else the ratio in dB floored at `eps`.
   */
  function PixelOutput(vN: real, vD: real, ratio: real, noDataN: real, noDataD: real, eps: real,
                       log10: real -> real): (o: real)
    requires 0.0 < eps && MonotoneOnPositive(log10)
    ensures vN == noDataN || vD == noDataD || ratio == noDataN || ratio == noDataD ==> o == 0.0
    ensures !(vN == noDataN || vD == noDataD || ratio == noDataN || ratio == noDataD) ==>
      o == Channels.DbFloor(ratio, eps, log10) && 10.0 * log10(eps) <= o
  {
    if vN == noDataN || vD == noDataD then 0.0
    else if ratio == noDataN || ratio == noDataD then 0.0
    else Channels.DbFloor(ratio, eps, log10)
  }

  /**
   * One pixel of `computeTileStack`: a no-data centre pixel is written as 0
   * without computing the ratio (so no unit error can arise); otherwise the
   * windowed ratio goes through `PixelOutput`.
   */
  method ForestPixel(bN: Band, bD: Band, unitN: BandUnit, unitD: BandUnit, tx: int, ty: int,
                     windowSize: int, eps: real, pow10: real -> real, log10: real -> real)
    returns (r: Result<real, ForestError>)
    requires ValidBand(bN) && ValidBand(bD) && bN.width == bD.width && bN.height == bD.height
    requires 0 <= tx < bN.width && 0 <= ty < bN.height && 1 <= windowSize && windowSize % 2 == 1
    requires 0.0 < eps && MonotoneOnPositive(log10)
    ensures bN.rows[ty][tx] == bN.noData || bD.rows[ty][tx] == bD.noData ==> r == Ok(0.0)
    ensures PowerUnit(unitN) && PowerUnit(unitD) ==>
      var w := SampleWindow(bN, tx, ty, windowSize / 2);
      var ratio := Ratio(WindowSamples(bN, unitN, w, pow10), WindowSamples(bD, unitD, w, pow10), bN.noData, bD.noData);
      r == Ok(PixelOutput(bN.rows[ty][tx], bD.rows[ty][tx], ratio, bN.noData, bD.noData, eps, log10))
  {
    var vN := bN.rows[ty][tx];
    var vD := bD.rows[ty][tx];
    if vN == bN.noData || vD == bD.noData {
      return Ok(0.0);
    }
    var ratio :- ComputeRatio(bN, bD, unitN, unitD, tx, ty, windowSize, pow10);
    return Ok(PixelOutput(vN, vD, ratio, bN.noData, bD.noData, eps, log10));
  }
}
