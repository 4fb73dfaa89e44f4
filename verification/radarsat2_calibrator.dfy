/**
 * Radiometric calibration of Radarsat-2 products: the set-up checks
 * (mission, already-calibrated products, the sigma-nought look-up table)
 * and the per-pixel conversion of a digital number to sigma nought,
 * optionally in decibels or as a complex sample.
 */
module Radarsat2Calibrator {
  import opened Common
  import opened PolarimetricKinds
  import opened ComplexAlgebra
  import Text

  const SupportedMissions: seq<string> := ["RS2"]

  /** The incidence-angle option that switches on the DEM sine factor. */
  const UseIncidenceAngleFromDem := "Use projected local incidence angle from DEM"

  datatype CalibrationError =
    | ExternalAuxFileGiven
    | InvalidMission(mission: string)
    | AlreadyCalibrated
    | LutNotFound
    | GainsMissing
    | LutSmallerThanWidth
    | UnhandledUnit

  /** `setExternalAuxFile`: Radarsat-2 products take no external auxiliary file. */
  function SetExternalAuxFile(file: Option<string>): (r: Outcome<CalibrationError>)
    ensures r.Pass? <==> file.None?
  {
    if file.Some? then Fail(ExternalAuxFileGiven) else Pass
  }

  /** `getMission`: only a Radarsat-2 product can be calibrated here. */
  function CheckMission(mission: string): (r: Outcome<CalibrationError>)
    ensures r.Pass? <==> mission in SupportedMissions
    ensures r.Fail? ==> r.error == InvalidMission(mission)
  {
    if mission != "RS2" then Fail(InvalidMission(mission)) else Pass
  }

  /** The `lutSigma` element of the product metadata: its offset and gains attribute. */
  datatype Lut = Lut(offset: real, gains: Option<seq<real>>)

  /** What `initialize` leaves for the tile computation. */
  datatype Calibration = Calibration(
    inputSigma0: bool,
    isSlc: bool,
    offset: real,
    gains: Option<seq<real>>,
    subsetOffsetX: int)

  /**
   * The Radarsat-2 set-up: the mission check; a product whose calibration
   * flag is set is refused for complex output and otherwise passed through
   * as sigma nought without reading the LUT; any other product needs a
   * `lutSigma` element whose gains cover the scene width.
   */
  function Initialize(mission: string, calibrated: bool, outputComplex: bool, productType: string,
                      subsetOffsetX: int, lut: Option<Lut>, width: int): (r: Result<Calibration, CalibrationError>)
    ensures mission != "RS2" ==> r == Err(InvalidMission(mission))
    ensures mission == "RS2" && calibrated && outputComplex ==> r == Err(AlreadyCalibrated)
    ensures mission == "RS2" && !calibrated && lut.None? ==> r == Err(LutNotFound)
    ensures r.Ok? <==>
      mission == "RS2" && !(calibrated && outputComplex) &&
      (calibrated || (lut.Some? && lut.value.gains.Some? && width <= |lut.value.gains.value|))
    ensures r.Ok? ==> r.value.inputSigma0 == calibrated && r.value.subsetOffsetX == subsetOffsetX
    ensures r.Ok? ==> r.value.isSlc == Text.Contains(Text.ToLower(productType), "slc")
    ensures r.Ok? && calibrated ==> r.value.gains.None? && r.value.offset == 0.0
    ensures r.Ok? && !calibrated ==>
      r.value.gains == lut.value.gains && r.value.offset == lut.value.offset &&
      width <= |r.value.gains.value|
  {
    if CheckMission(mission).Fail? then Err(CheckMission(mission).error)
    else if calibrated && outputComplex then Err(AlreadyCalibrated)
    else
      var isSlc := Text.Contains(Text.ToLower(productType), "slc");
      if calibrated then Ok(Calibration(true, isSlc, 0.0, None, subsetOffsetX))
      else
        var lutSigma :- GetLut(lut, width);
        Ok(Calibration(false, isSlc, lutSigma.offset, lutSigma.gains, subsetOffsetX))
  }

  /**
   * `getLUT`: the `lutSigma` element must exist and its gains cover the
   * scene width. A missing gains attribute makes the length test fail on
   * a null array, reported here as its own error.
   */
  function GetLut(lut: Option<Lut>, width: int): (r: Result<Lut, CalibrationError>)
    ensures lut.None? ==> r == Err(LutNotFound)
    ensures r.Ok? <==> lut.Some? && lut.value.gains.Some? && width <= |lut.value.gains.value|
    ensures r.Ok? ==> r.value == lut.value
  {
    match lut
    case None => Err(LutNotFound)
    case Some(l) =>
      match l.gains
      case None => Err(GainsMissing)
      case Some(g) => if |g| < width then Err(LutSmallerThanWidth) else Ok(l)
  }

  // ------------------------------------------------------------- per pixel

  /** `10^x` is positive and inverts `log10` on the positive reals. */
  ghost predicate IsPow10Of(pow10: real -> real, log10: real -> real)
  {
    (forall x: real {:trigger pow10(x)} :: 0.0 < pow10(x)) &&
    (forall p: real {:trigger log10(p)} :: 0.0 < p ==> pow10(log10(p)) == p)
  }

  /**
   * The first step of the pixel loop: the source sample as linear
   * intensity. Amplitude is squared, intensity kept, an (i, q) pair gives
   * i^2 + q^2, a dB intensity is converted back with `10^(v/10)`; any other
   * unit is an error.
   */
  function Linearise(unit: BandUnit, v1: real, v2: real, pow10: real -> real): (r: Result<real, CalibrationError>)
    ensures r.Err? <==> unit !in {Amplitude, Intensity, RealPart, IntensityDb}
    ensures r.Ok? && unit != IntensityDb ==> (unit == Intensity || 0.0 <= r.value)
    ensures r.Ok? && unit == Amplitude ==> r.value == v1 * v1
    ensures r.Ok? && unit == Intensity ==> r.value == v1
  {
    match unit
    case Amplitude => Ok(v1 * v1)
    case Intensity => Ok(v1)
    case RealPart => Ok(Power(v1, v2))
    case IntensityDb => Ok(pow10(v1 / 10.0))
    case _ => Err(UnhandledUnit)
  }

  /** An intensity written in decibels linearises back to itself. */
  lemma IntensityDbRoundTrip(p: real, v2: real, pow10: real -> real, log10: real -> real)
    requires IsPow10Of(pow10, log10) && 0.0 < p
    ensures Linearise(IntensityDb, 10.0 * log10(p), v2, pow10) == Ok(p)
  {
    assert 10.0 * log10(p) / 10.0 == log10(p);
  }

  /** A number bounded in square by a positive `s` lies in [-s, s]. */
  lemma SquareBound(i: real, s: real)
    requires 0.0 < s && i * i <= s * s
    ensures -s <= i <= s
  {
    if i > s {
      MulStrict(s, i);
    } else if i < -s {
      MulStrict(s, -i);
    }
  }

  lemma MulStrict(s: real, i: real)
    requires 0.0 < s < i
    ensures s * s < i * i
  {
    assert s * s < s * i;
    assert s * i < i * i;
  }

  /** The power `i^2 + q^2` of a complex sample. */
  function Power(i: real, q: real): (p: real)
    ensures i * i <= p && q * q <= p
  {
    SquareNonNegative(i);
    SquareNonNegative(q);
    i * i + q * q
  }

  /**
   * The phase factor of a complex sample, `i / |z|` for the real band and
   * `q / |z|` for the imaginary one; zero for a zero sample, and the value
   * of the previous pixel for any other target unit.
   */
  function PhaseTerm(i: real, q: real, tgtUnit: BandUnit, previous: real, sqrt: real -> real): (p: real)
    requires IsSqrt(sqrt)
    ensures -1.0 <= previous <= 1.0 ==> -1.0 <= p <= 1.0
    ensures Power(i, q) == 0.0 ==> p == 0.0
    ensures 0.0 < Power(i, q) && tgtUnit == RealPart ==> p == i / sqrt(Power(i, q))
    ensures 0.0 < Power(i, q) && tgtUnit == ImaginaryPart ==> p == q / sqrt(Power(i, q))
    ensures 0.0 < Power(i, q) && tgtUnit !in {RealPart, ImaginaryPart} ==> p == previous
  {
    if Power(i, q) > 0.0 then
      if tgtUnit == RealPart then Normalised(i, Power(i, q), sqrt)
      else if tgtUnit == ImaginaryPart then Normalised(q, Power(i, q), sqrt)
      else previous
    else 0.0
  }

  /** One component `a` of a sample of power `dn`, divided by the modulus. */
  function Normalised(a: real, dn: real, sqrt: real -> real): (c: real)
    requires IsSqrt(sqrt) && 0.0 < dn && a * a <= dn
    ensures -1.0 <= c <= 1.0
    ensures c == a / sqrt(dn)
  {
    PositiveSqrt(sqrt, dn);
    SquareBound(a, sqrt(dn));
    UnitQuotient(a, sqrt(dn));
    a / sqrt(dn)
  }

  lemma UnitQuotient(i: real, s: real)
    requires 0.0 < s && -s <= i <= s
    ensures -1.0 <= i / s <= 1.0
  {
    assert (i / s) * s == i;
  }

  /**
   * The complex output rebuilds the sample: scaling both phase factors by
   * `sqrt(sigma)` gives a pair whose squared modulus is `sigma`.
   */
  lemma ComplexOutputKeepsIntensity(i: real, q: real, sigma: real, sqrt: real -> real)
    requires IsSqrt(sqrt) && 0.0 < Power(i, q) && 0.0 <= sigma
    ensures var re := sqrt(sigma) * PhaseTerm(i, q, RealPart, 0.0, sqrt);
            var im := sqrt(sigma) * PhaseTerm(i, q, ImaginaryPart, 0.0, sqrt);
            re * re + im * im == sigma
  {
    var re := PhaseTerm(i, q, RealPart, 0.0, sqrt);
    var im := PhaseTerm(i, q, ImaginaryPart, 0.0, sqrt);
    PositiveSqrt(sqrt, Power(i, q));
    UnitCircle(i, q, sqrt(Power(i, q)));
    assert re * re + im * im == 1.0;
    ScaledUnitCircle(sqrt(sigma), re, im);
  }

  /** Dividing (i, q) by its modulus gives a point on the unit circle. */
  lemma UnitCircle(i: real, q: real, s: real)
    requires 0.0 < s && s * s == i * i + q * q
    ensures (i / s) * (i / s) + (q / s) * (q / s) == 1.0
  {
    assert (i / s) * s == i;
    assert (q / s) * s == q;
    assert ((i / s) * s) * ((i / s) * s) == i * i;
    assert ((q / s) * s) * ((q / s) * s) == q * q;
    calc {
      ((i / s) * (i / s) + (q / s) * (q / s)) * (s * s);
      ((i / s) * s) * ((i / s) * s) + ((q / s) * s) * ((q / s) * s);
      i * i + q * q;
      s * s;
    }
    CancelSquare((i / s) * (i / s) + (q / s) * (q / s), s);
  }

  lemma CancelSquare(x: real, s: real)
    requires 0.0 < s && x * (s * s) == s * s
    ensures x == 1.0
  {
    assert 0.0 < s * s;
    assert (x - 1.0) * (s * s) == 0.0;
  }

  lemma ScaledUnitCircle(a: real, u: real, w: real)
    requires u * u + w * w == 1.0
    ensures (a * u) * (a * u) + (a * w) * (a * w) == a * a
  {
    assert (a * u) * (a * u) + (a * w) * (a * w) == (a * a) * (u * u + w * w);
  }

  /** The gain applied at column `x` of the tile (the scene column `x + subsetOffsetX`). */
  predicate GainAvailable(cal: Calibration, x: int)
  {
    cal.gains.Some? ==>
      0 <= x + cal.subsetOffsetX < |cal.gains.value| && cal.gains.value[x + cal.subsetOffsetX] != 0.0
  }

  /**
   * The calibration proper: an already calibrated input is kept; SLC data
   * is divided by the squared gain (and, for complex output, turned back
   * into a complex sample by the phase factor); detected data gets the
   * offset added and is divided by the gain. Without gains an SLC pixel
   * keeps the value the previous pixel left in `sigma`.
   */
  function CalibrateLinear(cal: Calibration, dn: real, x: int, outputComplex: bool, phaseTerm: real,
                           previousSigma: real, sqrt: real -> real): (sigma: real)
    requires GainAvailable(cal, x) && IsSqrt(sqrt)
    ensures cal.inputSigma0 ==> sigma == dn
    ensures !cal.inputSigma0 && cal.isSlc && cal.gains.Some? && !outputComplex ==>
      var g := cal.gains.value[x + cal.subsetOffsetX]; sigma * (g * g) == dn
    ensures !cal.inputSigma0 && !cal.isSlc && cal.gains.Some? ==>
      sigma * cal.gains.value[x + cal.subsetOffsetX] == dn + cal.offset
    ensures !cal.inputSigma0 && !cal.isSlc && cal.gains.None? ==> sigma == dn + cal.offset
    ensures !cal.inputSigma0 && cal.isSlc && cal.gains.None? ==> sigma == previousSigma
  {
    if cal.inputSigma0 then dn
    else if cal.isSlc then
      match cal.gains
      case Some(gs) => SlcSigma(dn, gs[x + cal.subsetOffsetX], outputComplex, phaseTerm, sqrt)
      case None => previousSigma
    else
      var s := dn + cal.offset;
      match cal.gains
      case Some(gs) => s / gs[x + cal.subsetOffsetX]
      case None => s
  }

  /**
   * An SLC sample divided by the squared gain `g`, and for complex output
   * turned into one component of a complex sample by the phase factor.
   */
  function SlcSigma(dn: real, g: real, outputComplex: bool, phaseTerm: real, sqrt: real -> real): (sigma: real)
    requires g != 0.0
    ensures !outputComplex ==> sigma * (g * g) == dn
    ensures outputComplex ==> sigma == sqrt(dn / (g * g)) * phaseTerm
  {
    SquareNonNegative(g);
    if outputComplex then sqrt(dn / (g * g)) * phaseTerm
    else dn / (g * g)
  }

  /** A unit gain and zero offset leave the digital number unchanged. */
  lemma UnityGainIsIdentity(cal: Calibration, dn: real, x: int, phaseTerm: real, previousSigma: real,
                            sqrt: real -> real)
    requires IsSqrt(sqrt) && cal.gains.Some?
    requires 0 <= x + cal.subsetOffsetX < |cal.gains.value| && cal.gains.value[x + cal.subsetOffsetX] == 1.0
    requires cal.offset == 0.0
    ensures CalibrateLinear(cal, dn, x, false, phaseTerm, previousSigma, sqrt) == dn
  {
  }

  /**
   * The optional conversion to decibels: values below the underflow floor
   * are written as `-underFlow`, all others as `10 * log10(sigma)`.
   */
  function ToDb(sigma: real, underFlow: real, log10: real -> real): (d: real)
    ensures sigma < underFlow ==> d == -underFlow
    ensures underFlow <= sigma ==> d == 10.0 * log10(sigma)
  {
    if sigma < underFlow then -underFlow else 10.0 * log10(sigma)
  }

  /** Above the floor the dB conversion preserves order. */
  lemma ToDbMonotoneAboveFloor(a: real, b: real, underFlow: real, log10: real -> real)
    requires MonotoneOnPositive(log10) && 0.0 < underFlow <= a <= b
    ensures ToDb(a, underFlow, log10) <= ToDb(b, underFlow, log10)
  {
  }

  /** What a pixel leaves behind for the next one (the loop's `sigma` and `phaseTerm`). */
  datatype PixelState = PixelState(sigma: real, phaseTerm: real)

  /**
   * One pixel of `computeTile`: linearise the source sample, update the
   * phase factor (only for an (i, q) source), calibrate, and convert to dB
   * if asked. `v2` is the imaginary sample of an (i, q) pair.
   */
  function CalibratePixel(cal: Calibration, srcUnit: BandUnit, tgtUnit: BandUnit, v1: real, v2: real,
                          x: int, outputComplex: bool, outputDb: bool, underFlow: real,
                          previous: PixelState, sqrt: real -> real, pow10: real -> real,
                          log10: real -> real): (r: Result<PixelState, CalibrationError>)
    requires GainAvailable(cal, x) && IsSqrt(sqrt)
    ensures r.Err? <==> srcUnit !in {Amplitude, Intensity, RealPart, IntensityDb}
    ensures r.Ok? && srcUnit != RealPart ==> r.value.phaseTerm == previous.phaseTerm
    ensures r.Ok? && srcUnit == RealPart ==>
      r.value.phaseTerm == PhaseTerm(v1, v2, tgtUnit, previous.phaseTerm, sqrt)
    ensures r.Ok? ==>
      var dn := Linearise(srcUnit, v1, v2, pow10).value;
      var sigma := CalibrateLinear(cal, dn, x, outputComplex, r.value.phaseTerm, previous.sigma, sqrt);
      r.value.sigma == if outputDb then ToDb(sigma, underFlow, log10) else sigma
  {
    var dn :- Linearise(srcUnit, v1, v2, pow10);
    var phase := if srcUnit == RealPart then PhaseTerm(v1, v2, tgtUnit, previous.phaseTerm, sqrt)
                 else previous.phaseTerm;
    var sigma := CalibrateLinear(cal, dn, x, outputComplex, phase, previous.sigma, sqrt);
    Ok(PixelState(if outputDb then ToDb(sigma, underFlow, log10) else sigma, phase))
  }

  /** An already calibrated intensity pixel written in linear units comes out unchanged. */
  lemma CalibratedInputPassesThrough(cal: Calibration, v: real, x: int, outputComplex: bool,
                                     underFlow: real, previous: PixelState, sqrt: real -> real,
                                     pow10: real -> real, log10: real -> real)
    requires cal.inputSigma0 && GainAvailable(cal, x) && IsSqrt(sqrt)
    ensures CalibratePixel(cal, Intensity, Intensity, v, 0.0, x, outputComplex, false, underFlow,
                           previous, sqrt, pow10, log10) == Ok(PixelState(v, previous.phaseTerm))
  {
  }

  // ------------------------------------------- calibration of other operators

  /**
   * `applyCalibration`, used when other operators calibrate on the fly:
   * linearise (real and imaginary samples pass through unsquared), apply
   * the gain at column `(int) rangeIndex` when gains were loaded, and
   * multiply by the sine of the local incidence angle when the DEM option
   * is chosen. `dtor` is the degrees-to-radians factor.
   */
  function ApplyCalibration(cal: Calibration, v: real, rangeIndex: real, localIncidenceAngle: real,
                            unit: BandUnit, incidenceAngleSelection: string, pow10: real -> real,
                            sin: real -> real, dtor: real): (r: Result<real, CalibrationError>)
    requires cal.gains.Some? ==>
      0 <= JavaIntCast(rangeIndex) < |cal.gains.value| && cal.gains.value[JavaIntCast(rangeIndex)] != 0.0
    ensures r.Err? <==> unit !in {Amplitude, Intensity, RealPart, ImaginaryPart, IntensityDb}
    ensures r.Ok? && !Text.Contains(incidenceAngleSelection, UseIncidenceAngleFromDem) ==>
      r.value == GainCorrected(cal, LinearSample(unit, v, pow10), rangeIndex)
    ensures r.Ok? && Text.Contains(incidenceAngleSelection, UseIncidenceAngleFromDem) ==>
      r.value == GainCorrected(cal, LinearSample(unit, v, pow10), rangeIndex) * sin(localIncidenceAngle * dtor)
  {
    if unit !in {Amplitude, Intensity, RealPart, ImaginaryPart, IntensityDb} then Err(UnhandledUnit)
    else
      var g := GainCorrected(cal, LinearSample(unit, v, pow10), rangeIndex);
      if Text.Contains(incidenceAngleSelection, UseIncidenceAngleFromDem) then Ok(g * sin(localIncidenceAngle * dtor))
      else Ok(g)
  }

  /** The linear value of a sample of a handled unit; real and imaginary parts are not squared. */
  function LinearSample(unit: BandUnit, v: real, pow10: real -> real): real
  {
    match unit
    case Amplitude => v * v
    case IntensityDb => pow10(v / 10.0)
    case _ => v
  }

  /** The gain (and, for detected data, offset) correction of `applyCalibration`. */
  function GainCorrected(cal: Calibration, sigma: real, rangeIndex: real): (s: real)
    requires cal.gains.Some? ==>
      0 <= JavaIntCast(rangeIndex) < |cal.gains.value| && cal.gains.value[JavaIntCast(rangeIndex)] != 0.0
    ensures cal.gains.Some? && cal.isSlc ==>
      var g := cal.gains.value[JavaIntCast(rangeIndex)]; s * (g * g) == sigma
    ensures cal.gains.Some? && !cal.isSlc ==> s * cal.gains.value[JavaIntCast(rangeIndex)] == sigma + cal.offset
    ensures cal.gains.None? ==> s == if cal.isSlc then sigma else sigma + cal.offset
  {
    if cal.isSlc then
      match cal.gains
      case Some(gs) =>
        var g := gs[JavaIntCast(rangeIndex)];
        SquareNonNegative(g);
        assert g * g != 0.0;
        sigma / (g * g)
      case None => sigma
    else
      match cal.gains
      case Some(gs) => (sigma + cal.offset) / gs[JavaIntCast(rangeIndex)]
      case None => sigma + cal.offset
  }

  /**
   * `applyRetroCalibration`: undo the ellipsoid incidence-angle factor by
   * dividing by the sine of the tie-point incidence angle at the pixel,
   * when the DEM option is chosen; otherwise keep the value.
   */
  function ApplyRetroCalibration(v: real, incidenceAngle: real, incidenceAngleSelection: string,
                                 sin: real -> real, dtor: real): (r: real)
    requires Text.Contains(incidenceAngleSelection, UseIncidenceAngleFromDem) ==> sin(incidenceAngle * dtor) != 0.0
    ensures Text.Contains(incidenceAngleSelection, UseIncidenceAngleFromDem) ==> r * sin(incidenceAngle * dtor) == v
    ensures !Text.Contains(incidenceAngleSelection, UseIncidenceAngleFromDem) ==> r == v
  {
    if Text.Contains(incidenceAngleSelection, UseIncidenceAngleFromDem) then v / sin(incidenceAngle * dtor)
    else v
  }

  /** Retro-calibration of g times the pixel's sine factor gives back g. */
  lemma RetroOfProduct(g: real, angle: real, selection: string, sin: real -> real, dtor: real)
    requires Text.Contains(selection, UseIncidenceAngleFromDem) && sin(angle * dtor) != 0.0
    ensures ApplyRetroCalibration(g * sin(angle * dtor), angle, selection, sin, dtor) == g
  {
    ProductQuotient(g, sin(angle * dtor));
  }

  /**
   * Retro-calibration undoes the sine factor of `applyCalibration` when
   * the tie-point angle at the pixel is the local incidence angle: the
   * result is the gain-corrected value, with or without the DEM option.
   */
  lemma RetroCalibrationUndoesIncidenceFactor(cal: Calibration, v: real, rangeIndex: real, angle: real,
                                              unit: BandUnit, selection: string, pow10: real -> real,
                                              sin: real -> real, dtor: real)
    requires cal.gains.Some? ==>
      0 <= JavaIntCast(rangeIndex) < |cal.gains.value| && cal.gains.value[JavaIntCast(rangeIndex)] != 0.0
    requires unit in {Amplitude, Intensity, RealPart, ImaginaryPart, IntensityDb}
    requires Text.Contains(selection, UseIncidenceAngleFromDem) ==> sin(angle * dtor) != 0.0
    ensures var c := ApplyCalibration(cal, v, rangeIndex, angle, unit, selection, pow10, sin, dtor);
      c.Ok? && ApplyRetroCalibration(c.value, angle, selection, sin, dtor) ==
        GainCorrected(cal, LinearSample(unit, v, pow10), rangeIndex)
  {
    var c := ApplyCalibration(cal, v, rangeIndex, angle, unit, selection, pow10, sin, dtor);
    var g := GainCorrected(cal, LinearSample(unit, v, pow10), rangeIndex);
    assert c.Ok?;
    if Text.Contains(selection, UseIncidenceAngleFromDem) {
      assert c.value == g * sin(angle * dtor);
      RetroOfProduct(g, angle, selection, sin, dtor);
    } else {
      assert c.value == g;
    }
  }
}
