/**
 * The polarimetric-matrix generation operator: which target matrix may be
 * requested, which source products each target accepts, and which matrix
 * element each target band receives.
 */
module PolarimetricMatrices {
  import opened Common
  import opened PolarimetricKinds

  /** The five matrix names the operator accepts. */
  const MatrixNames: set<string> := {"C2", "C3", "C4", "T3", "T4"}

  datatype MatricesError =
    | InvalidMatrixName(name: string)          // SetMatrixType
    | UnknownMatrixType(name: string)          // addSelectedBands
    | NotPolarimetric                          // UNKNOWN source
    | DualPolExpectedUseBandSelect             // FULL source, C2 requested
    | DualPolExpected                          // other non dual-pol source, C2 requested
    | AlreadyInFormat(format: string)          // identity conversion
    | CannotConvert(from: string, to: string)  // upsizing a 3x3 source to 4x4
    | FullPolExpected                          // any other source

  /**
   * `SetMatrixType`: a valid name replaces the requested matrix; any other
   * name raises an error and leaves it unchanged.
   */
  function SetMatrixType(matrix: string, s: string): (r: (string, Outcome<MatricesError>))
    ensures r.1.Pass? <==> s in MatrixNames
    ensures r.1.Pass? ==> r.0 == s
    ensures r.1.Fail? ==> r.0 == matrix && r.1.error == InvalidMatrixName(s)
  {
    if s == "C2" || s == "C3" || s == "C4" || s == "T3" || s == "T4" then (s, Pass)
    else (matrix, Fail(InvalidMatrixName(s)))
  }

  /** The target matrix kind `addSelectedBands` selects for a requested name. */
  function TargetKind(matrix: string): (r: Result<MatrixKind, MatricesError>)
    ensures r.Ok? ==> r.value in {C2, C3, C4, T3, T4}
    ensures r.Err? ==> r.error == UnknownMatrixType(matrix)
  {
    match matrix
    case "C2" => Ok(C2)
    case "C3" => Ok(C3)
    case "C4" => Ok(C4)
    case "T3" => Ok(T3)
    case "T4" => Ok(T4)
    case _ => Err(UnknownMatrixType(matrix))
  }

  /** A name `SetMatrixType` accepts is exactly one `addSelectedBands` can build. */
  lemma SetMatrixTypeAgreesWithTargetKind(matrix: string, s: string)
    ensures SetMatrixType(matrix, s).1.Pass? <==> TargetKind(s).Ok?
  {
  }

  /** The names of the two source kinds with a 3x3 matrix. */
  function ThreeByThreeName(k: MatrixKind): string
    requires k == T3 || k == C3
  {
    if k == T3 then "T3" else "C3"
  }

  /** `checkSourceProductType`: may a source product of kind `source` produce `matrix`? */
  function CheckSourceProductType(source: MatrixKind, matrix: string): (r: Outcome<MatricesError>)
    ensures source == Unknown ==> r == Fail(NotPolarimetric)
    ensures matrix == "C2" && source == Full ==> r == Fail(DualPolExpectedUseBandSelect)
  {
    if source == Unknown then Fail(NotPolarimetric)
    else if matrix == "C2" then
      if !IsRawDualPol(source) then
        if source == Full then Fail(DualPolExpectedUseBandSelect) else Fail(DualPolExpected)
      else Pass
    else if source == T4 then
      if matrix == "T4" then Fail(AlreadyInFormat("T4")) else Pass
    else if source == C4 then
      if matrix == "C4" then Fail(AlreadyInFormat("C4")) else Pass
    else if source == T3 || source == C3 then
      var from := ThreeByThreeName(source);
      if matrix == "T4" then Fail(CannotConvert(from, "T4"))
      else if matrix == "C4" then Fail(CannotConvert(from, "C4"))
      else if matrix == from then Fail(AlreadyInFormat(from))
      else Pass
    else if source != Full then Fail(FullPolExpected)
    else Pass
  }

  /**
   * The conversions the operator supports, stated as a table: C2 from raw
   * dual/compact-pol data; any other target from a full-pol scattering
   * matrix, from a 4x4 source unless it is the same matrix, or from a 3x3
   * source to another 3x3 (or C2-free) target.
   */
  predicate Supported(source: MatrixKind, matrix: string)
  {
    if matrix == "C2" then IsRawDualPol(source)
    else
      source == Full ||
      (source == T4 && matrix != "T4") ||
      (source == C4 && matrix != "C4") ||
      (source == T3 && matrix !in {"T4", "C4", "T3"}) ||
      (source == C3 && matrix !in {"T4", "C4", "C3"})
  }

  /** The check passes exactly on the supported conversions. */
  lemma CheckMatchesSupported(source: MatrixKind, matrix: string)
    ensures CheckSourceProductType(source, matrix).Pass? <==> Supported(source, matrix)
  {
  }

  /** No upsizing: a 3x3 source never yields a 4x4 matrix. */
  lemma NoUpsizing(source: MatrixKind, matrix: string)
    requires source == T3 || source == C3
    requires matrix == "T4" || matrix == "C4"
    ensures CheckSourceProductType(source, matrix).Fail?
    ensures CheckSourceProductType(source, matrix).error.CannotConvert?
  {
  }

  /** Converting a matrix product to its own format is rejected. */
  lemma IdentityConversionRejected(source: MatrixKind, matrix: string)
    requires (source, matrix) in {(T4, "T4"), (C4, "C4"), (T3, "T3"), (C3, "C3")}
    ensures CheckSourceProductType(source, matrix) == Fail(AlreadyInFormat(matrix))
  {
  }

  /** Dual-pol data cannot produce a 3x3 or 4x4 matrix. */
  lemma DualPolOnlyGivesC2(source: MatrixKind, matrix: string)
    requires IsRawDualPol(source) && matrix != "C2"
    ensures CheckSourceProductType(source, matrix) == Fail(FullPolExpected)
  {
  }

  /** The matrix dimension of the tile computation: 2 for C2, 3 for C3 and T3, else 4. */
  function MatrixDim(kind: MatrixKind): (d: int)
    ensures d in {2, 3, 4}
    ensures d == 2 <==> kind == C2
    ensures d == 3 <==> kind == C3 || kind == T3
  {
    if kind == C2 then 2 else if kind == C3 || kind == T3 then 3 else 4
  }

  // -------------------------------------------------- band -> element map

  /** A matrix element: 0-based row and column, and real or imaginary part. */
  datatype MatrixElem = MatrixElem(i: int, j: int, isImaginary: bool)

  /** The suffixes tried, in order, and the element each one names. */
  const ElementTable: seq<(string, MatrixElem)> := [
    ("11", MatrixElem(0, 0, false)),
    ("12_real", MatrixElem(0, 1, false)), ("12_imag", MatrixElem(0, 1, true)),
    ("13_real", MatrixElem(0, 2, false)), ("13_imag", MatrixElem(0, 2, true)),
    ("14_real", MatrixElem(0, 3, false)), ("14_imag", MatrixElem(0, 3, true)),
    ("22", MatrixElem(1, 1, false)),
    ("23_real", MatrixElem(1, 2, false)), ("23_imag", MatrixElem(1, 2, true)),
    ("24_real", MatrixElem(1, 3, false)), ("24_imag", MatrixElem(1, 3, true)),
    ("33", MatrixElem(2, 2, false)),
    ("34_real", MatrixElem(2, 3, false)), ("34_imag", MatrixElem(2, 3, true)),
    ("44", MatrixElem(3, 3, false))
  ]

  /**
   * An element of the upper triangle of a 4x4 Hermitian matrix: the
   * diagonal is real, so only off-diagonal entries have an imaginary part.
   */
  predicate UpperTriangleElem(e: MatrixElem)
  {
    0 <= e.i <= e.j <= 3 && (e.isImaginary ==> e.i < e.j)
  }

  /** Every table entry names an upper-triangle element. */
  lemma ElementTableUpperTriangle()
    ensures forall k :: 0 <= k < |ElementTable| ==> UpperTriangleElem(ElementTable[k].1)
  {
  }

  /**
   * The table names every upper-triangle element exactly once: it has one
   * entry per element and no element twice.
   */
  lemma ElementTableCoversUpperTriangle(e: MatrixElem)
    requires UpperTriangleElem(e)
    ensures exists k :: 0 <= k < |ElementTable| && ElementTable[k].1 == e
  {
    var k := if e.i == 0 && e.j == 0 then 0
      else if e.i == 0 then 2 * e.j - 1 + (if e.isImaginary then 1 else 0)
      else if e.i == 1 && e.j == 1 then 7
      else if e.i == 1 then 2 * e.j + 4 + (if e.isImaginary then 1 else 0)
      else if e.i == 2 && e.j == 2 then 12
      else if e.i == 2 then 13 + (if e.isImaginary then 1 else 0)
      else 15;
    assert ElementTable[k].1 == e;
  }

  lemma ElementTableInjective()
    ensures forall a, b :: 0 <= a < b < |ElementTable| ==> ElementTable[a].1 != ElementTable[b].1
  {
  }

  /**
   * The first table entry from `from` on whose suffix the band name is for
   * (`isFor` is `PolBandUtils.isBandForMatrixElement`).
   */
  function FirstMatch(name: string, isFor: (string, string) -> bool, from: nat): (r: Option<nat>)
    requires from <= |ElementTable|
    ensures r.Some? ==> from <= r.value < |ElementTable| && isFor(name, ElementTable[r.value].0)
    ensures r.Some? ==> forall k :: from <= k < r.value ==> !isFor(name, ElementTable[k].0)
    ensures r.None? ==> forall k :: from <= k < |ElementTable| ==> !isFor(name, ElementTable[k].0)
    decreases |ElementTable| - from
  {
    if from == |ElementTable| then None
    else if isFor(name, ElementTable[from].0) then Some(from)
    else FirstMatch(name, isFor, from + 1)
  }

  /**
   * `mapMatrixElemToBands` for one band: the element of the first suffix
   * the band is for, or none.
   */
  function MapBand(name: string, isFor: (string, string) -> bool): (r: Option<MatrixElem>)
    ensures r.Some? ==> UpperTriangleElem(r.value)
    ensures r.None? <==> forall k :: 0 <= k < |ElementTable| ==> !isFor(name, ElementTable[k].0)
    ensures r.Some? ==> exists k :: (0 <= k < |ElementTable| && isFor(name, ElementTable[k].0) &&
      r.value == ElementTable[k].1 && forall k' :: 0 <= k' < k ==> !isFor(name, ElementTable[k'].0))
  {
    ElementTableUpperTriangle();
    match FirstMatch(name, isFor, 0)
    case None => None
    case Some(k) => Some(ElementTable[k].1)
  }

  /**
   * The value written to a band mapped to `e`: the imaginary or real part
   * of entry (i, j) of the pixel's matrix.
   */
  function ElementValue(e: MatrixElem, re: seq<seq<real>>, im: seq<seq<real>>): (v: real)
    requires 0 <= e.i < |re| && 0 <= e.i < |im|
    requires 0 <= e.j < |re[e.i]| && 0 <= e.j < |im[e.i]|
    ensures e.isImaginary ==> v == im[e.i][e.j]
    ensures !e.isImaginary ==> v == re[e.i][e.j]
  {
    if e.isImaginary then im[e.i][e.j] else re[e.i][e.j]
  }

  // ------------------------------------------- what the written bands hold

  /** A `matrixDim` x `matrixDim` array, as `tempRe` and `tempIm` are allocated. */
  predicate Square(m: seq<seq<real>>, d: int)
  {
    |m| == d && forall r :: 0 <= r < d ==> |m[r]| == d
  }

  /**
   * The pair of arrays of a Hermitian d x d matrix: the real part is
   * symmetric and the imaginary part antisymmetric (zero on the diagonal).
   */
  predicate Hermitian(re: seq<seq<real>>, im: seq<seq<real>>, d: int)
  {
    Square(re, d) && Square(im, d) &&
    forall i, j :: 0 <= i < d && 0 <= j < d ==> re[i][j] == re[j][i] && im[i][j] == -im[j][i]
  }

  /** The position in the table of an upper-triangle element. */
  function ElementIndex(e: MatrixElem): (k: nat)
    requires UpperTriangleElem(e)
    ensures k < |ElementTable| && ElementTable[k].1 == e
  {
    if e.i == 0 && e.j == 0 then 0
    else if e.i == 0 then 2 * e.j - 1 + (if e.isImaginary then 1 else 0)
    else if e.i == 1 && e.j == 1 then 7
    else if e.i == 1 then 2 * e.j + 4 + (if e.isImaginary then 1 else 0)
    else if e.i == 2 && e.j == 2 then 12
    else if e.i == 2 then 13 + (if e.isImaginary then 1 else 0)
    else 15
  }

  /**
   * The values the tile computation writes for one pixel of a `kind`
   * product, by table position: the element's value for every element of a
   * `MatrixDim(kind)` matrix (the elements with a band), 0 for the others.
   */
  function BandValues(kind: MatrixKind, re: seq<seq<real>>, im: seq<seq<real>>): (vals: seq<real>)
    requires Square(re, MatrixDim(kind)) && Square(im, MatrixDim(kind))
    ensures |vals| == |ElementTable|
  {
    ElementTableUpperTriangle();
    seq(|ElementTable|, k requires 0 <= k < |ElementTable| =>
      if ElementTable[k].1.j < MatrixDim(kind) then ElementValue(ElementTable[k].1, re, im) else 0.0)
  }

  /**
   * Reads a Hermitian `MatrixDim(kind)` matrix back from band values:
   * the upper triangle from its own bands, the lower one by conjugation.
   */
  function FromBandValues(kind: MatrixKind, vals: seq<real>): (m: (seq<seq<real>>, seq<seq<real>>))
    requires |vals| == |ElementTable|
    ensures Square(m.0, MatrixDim(kind)) && Square(m.1, MatrixDim(kind))
  {
    var d := MatrixDim(kind);
    (seq(d, i requires 0 <= i < d => seq(d, j requires 0 <= j < d =>
       vals[ElementIndex(MatrixElem(Min(i, j), Max(i, j), false))])),
     seq(d, i requires 0 <= i < d => seq(d, j requires 0 <= j < d =>
       if i == j then 0.0
       else if i < j then vals[ElementIndex(MatrixElem(i, j, true))]
       else -vals[ElementIndex(MatrixElem(j, i, true))])))
  }

  /**
   * The bands written for a pixel determine its matrix: every element of a
   * Hermitian matrix of the kind's dimension fits the arrays, and reading
   * the written values back gives the matrix itself.
   */
  lemma {:induction false} BandValuesDetermineMatrix(kind: MatrixKind, re: seq<seq<real>>, im: seq<seq<real>>)
    requires Hermitian(re, im, MatrixDim(kind))
    ensures FromBandValues(kind, BandValues(kind, re, im)) == (re, im)
  {
    var d := MatrixDim(kind);
    var vals := BandValues(kind, re, im);
    var m := FromBandValues(kind, vals);
    forall i, j | 0 <= i < d && 0 <= j < d
      ensures m.0[i][j] == re[i][j] && m.1[i][j] == im[i][j]
    {
      var e := MatrixElem(Min(i, j), Max(i, j), false);
      assert vals[ElementIndex(e)] == re[Min(i, j)][Max(i, j)];
      if i < j {
        assert vals[ElementIndex(MatrixElem(i, j, true))] == im[i][j];
      } else if j < i {
        assert vals[ElementIndex(MatrixElem(j, i, true))] == im[j][i];
      }
    }
    forall i | 0 <= i < d
      ensures m.0[i] == re[i] && m.1[i] == im[i]
    {
    }
    assert m.0 == re && m.1 == im;
  }
}
