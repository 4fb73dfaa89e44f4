/**
 * The kinds of polarimetric source product (`PolBandUtils.MATRIX`) and the
 * band units (`Unit.UnitType`) the operators dispatch on.
 */
module PolarimetricKinds {

  datatype MatrixKind =
    | Unknown
    | Full
    | C2 | C3 | C4 | T3 | T4
    | DualHhHv | DualVhVv | DualHhVv
    | Lchcp | Rchcp

  /** Raw dual-pol or compact-pol scattering vectors: two complex channels. */
  predicate IsRawDualPol(k: MatrixKind)
  {
    k == DualHhHv || k == DualVhVv || k == DualHhVv || k == Lchcp || k == Rchcp
  }

  /** Band units. `Other` stands for every unit the operators do not name. */
  datatype BandUnit =
    | Amplitude
    | Intensity
    | AmplitudeDb
    | IntensityDb
    | RealPart
    | ImaginaryPart
    | Other
}
