/**
 * The polarimetric speckle-filter operator around the filters themselves:
 * which filter names are accepted, which filter is built and with what
 * window, the target band names, and the source rectangle a target tile
 * needs.
 */
module SpeckleFilter {
  import opened Common
  import opened PolarimetricKinds

  const BoxCarFilter := "Box Car Filter"
  const RefinedLeeFilter := "Refined Lee Filter"
  const IdanFilter := "IDAN Filter"
  const LeeSigmaFilter := "Improved Lee Sigma Filter"
  const NonLocalFilter := "Non Local Filter"

  const FilterNames: set<string> :=
    {BoxCarFilter, RefinedLeeFilter, IdanFilter, LeeSigmaFilter, NonLocalFilter}

  datatype SpeckleError =
    | InvalidFilterName(name: string)
    | NotPolarimetric

  /** `SetFilter`: one of the five filter names, or an error with the filter unchanged. */
  function SetFilter(filter: string, s: string): (r: (string, Outcome<SpeckleError>))
    ensures r.1.Pass? <==> s in FilterNames
    ensures r.1.Pass? ==> r.0 == s
    ensures r.1.Fail? ==> r.0 == filter && r.1.error == InvalidFilterName(s)
  {
    if s == BoxCarFilter || s == IdanFilter || s == RefinedLeeFilter || s == LeeSigmaFilter ||
       s == NonLocalFilter
    then (s, Pass)
    else (filter, Fail(InvalidFilterName(s)))
  }

  /** `checkSourceProductType`: only an unknown (non-polarimetric) source is refused. */
  function CheckSourceProductType(source: MatrixKind): (r: Outcome<SpeckleError>)
    ensures r.Fail? <==> source == Unknown
    ensures r.Fail? ==> r.error == NotPolarimetric
  {
    if source == Unknown then Fail(NotPolarimetric) else Pass
  }

  // --------------------------------------------------------- createFilter

  /** The operator's parameters, with the numeric strings already parsed. */
  datatype Config = Config(
    filter: string,
    filterSize: int,
    windowSize: string,
    numLooks: int,
    anSize: int,
    searchWindowSize: int,
    patchSize: int,
    scaleSize: int)

  /** The filter built, with the arguments that decide its window. */
  datatype Filter =
    | BoxCar(filterSize: int)
    | RefinedLee(filterSize: int, numLooks: int)
    | Idan(anSize: int, numLooks: int)
    | LeeSigma(filterSize: int, numLooks: int)
    | NonLocal(numLooks: int, searchWindowSize: int, patchSize: int, scaleSize: int)

  /**
   * `createFilter`: the filter named by the configuration, or none for an
   * unknown name; Refined Lee and Lee Sigma first overwrite `filterSize`
   * with the parsed window size (`parseWindowSize` is
   * `FilterWindow.parseWindowSize`).
   */
  function CreateFilter(cfg: Config, parseWindowSize: string -> int): (r: (Option<Filter>, Config))
    ensures r.0.Some? <==> cfg.filter in FilterNames
    ensures cfg.filter in {RefinedLeeFilter, LeeSigmaFilter} ==>
      r.1 == cfg.(filterSize := parseWindowSize(cfg.windowSize))
    ensures cfg.filter !in {RefinedLeeFilter, LeeSigmaFilter} ==> r.1 == cfg
    ensures r.0.Some? ==> FilterWindowSize(r.0.value) == ExpectedWindow(cfg, parseWindowSize)
  {
    match cfg.filter
    case "Box Car Filter" => (Some(BoxCar(cfg.filterSize)), cfg)
    case "Refined Lee Filter" =>
      var c := cfg.(filterSize := parseWindowSize(cfg.windowSize));
      (Some(RefinedLee(c.filterSize, c.numLooks)), c)
    case "IDAN Filter" => (Some(Idan(cfg.anSize, cfg.numLooks)), cfg)
    case "Improved Lee Sigma Filter" =>
      var c := cfg.(filterSize := parseWindowSize(cfg.windowSize));
      (Some(LeeSigma(c.filterSize, c.numLooks)), c)
    case "Non Local Filter" =>
      (Some(NonLocal(cfg.numLooks, cfg.searchWindowSize, cfg.patchSize, cfg.scaleSize)), cfg)
    case _ => (None, cfg)
  }

  /** The size that decides the neighbourhood each filter reads. */
  function FilterWindowSize(f: Filter): int
  {
    match f
    case BoxCar(n) => n
    case RefinedLee(n, _) => n
    case Idan(a, _) => a
    case LeeSigma(n, _) => n
    case NonLocal(_, s, _, _) => s
  }

  /**
   * Which configured size each filter is meant to use: the filter-size
   * parameter for the box car, the window-size choice for Refined Lee and
   * Lee Sigma, the adaptive-neighbourhood size for IDAN and the search
   * window for the non-local filter.
   */
  function ExpectedWindow(cfg: Config, parseWindowSize: string -> int): int
  {
    if cfg.filter == RefinedLeeFilter || cfg.filter == LeeSigmaFilter then parseWindowSize(cfg.windowSize)
    else if cfg.filter == IdanFilter then cfg.anSize
    else if cfg.filter == NonLocalFilter then cfg.searchWindowSize
    else cfg.filterSize
  }

  /** A name `SetFilter` accepts is exactly one `createFilter` can build. */
  lemma SetFilterAgreesWithCreateFilter(cfg: Config, s: string, parseWindowSize: string -> int)
    ensures SetFilter(cfg.filter, s).1.Pass? <==>
      CreateFilter(cfg.(filter := s), parseWindowSize).0.Some?
  {
  }

  // ----------------------------------------------------------- target bands

  /** One group of source bands (`PolSourceBand`): its band names and suffix. */
  datatype SourceBands = SourceBands(names: seq<string>, suffix: string)

  /**
   * `addSelectedBands`: per source group, the target band names and the
   * suffix they get. A full-pol source gets the T3 names, a dual-pol source
   * the C2 names (both keep the group suffix); any other source keeps its
   * own band names with no suffix. `isDualPol` is `PolBandUtils.isDualPol`.
   */
  function TargetBands(source: MatrixKind, groups: seq<SourceBands>, t3Names: seq<string>,
                       c2Names: seq<string>, isDualPol: MatrixKind -> bool): (r: seq<SourceBands>)
    ensures |r| == |groups|
    ensures forall k :: 0 <= k < |r| ==> r[k].names == TargetNamesFor(source, groups[k], t3Names, c2Names, isDualPol)
    ensures forall k :: 0 <= k < |r| ==> r[k].suffix == (if source == Full || isDualPol(source) then groups[k].suffix else "")
  {
    seq(|groups|, k requires 0 <= k < |groups| =>
      if source == Full then SourceBands(t3Names, groups[k].suffix)
      else if isDualPol(source) then SourceBands(c2Names, groups[k].suffix)
      else SourceBands(groups[k].names, ""))
  }

  /** The band names a group gets: fixed matrix names, or its own. */
  function TargetNamesFor(source: MatrixKind, g: SourceBands, t3Names: seq<string>,
                          c2Names: seq<string>, isDualPol: MatrixKind -> bool): seq<string>
  {
    if source == Full then t3Names else if isDualPol(source) then c2Names else g.names
  }

  /** A copied (neither full- nor dual-pol) source keeps exactly its band names. */
  lemma CopiedBandsKeepNames(source: MatrixKind, groups: seq<SourceBands>, t3Names: seq<string>,
                             c2Names: seq<string>, isDualPol: MatrixKind -> bool)
    requires source != Full && !isDualPol(source)
    ensures forall k :: 0 <= k < |groups| ==>
      TargetBands(source, groups, t3Names, c2Names, isDualPol)[k] == SourceBands(groups[k].names, "")
  {
  }

  // ------------------------------------------------------ source rectangles

  /** A `java.awt.Rectangle`: the top-left pixel and the size. */
  datatype Rect = Rect(x: int, y: int, width: int, height: int)

  /** `r` lies inside the W x H image (pixels 0..W-1 by 0..H-1). */
  predicate InImage(r: Rect, w: int, h: int)
  {
    0 <= r.x && 0 <= r.y && 0 <= r.width && 0 <= r.height &&
    r.x + r.width <= w && r.y + r.height <= h
  }

  /** Every pixel of `inner` is a pixel of `outer`. */
  predicate Contains(outer: Rect, inner: Rect)
  {
    outer.x <= inner.x && outer.y <= inner.y &&
    inner.x + inner.width <= outer.x + outer.width &&
    inner.y + inner.height <= outer.y + outer.height
  }

  /** Pixel (px, py) lies in `r`. */
  predicate Covers(r: Rect, px: int, py: int)
  {
    r.x <= px < r.x + r.width && r.y <= py < r.y + r.height
  }

  /**
   * The first `getSourceTileRectangle`: each side of the tile grows by
   * half the filter size when the whole margin fits in the image, and not
   * at all otherwise.
   */
  function SourceRectangle(rect: Rect, filterSize: int, w: int, h: int): (s: Rect)
    requires 0 <= filterSize
    ensures var half := filterSize / 2;
      (s.x == rect.x - half <==> rect.x >= half || half == 0) &&
      (s.x == rect.x || s.x == rect.x - half) &&
      (s.y == rect.y - half <==> rect.y >= half || half == 0) &&
      (s.y == rect.y || s.y == rect.y - half)
    ensures var half := filterSize / 2;
      (s.x + s.width == rect.x + rect.width + half <==> rect.x + rect.width + half <= w || half == 0) &&
      (s.x + s.width == rect.x + rect.width || s.x + s.width == rect.x + rect.width + half) &&
      (s.y + s.height == rect.y + rect.height + half <==> rect.y + rect.height + half <= h || half == 0) &&
      (s.y + s.height == rect.y + rect.height || s.y + s.height == rect.y + rect.height + half)
    ensures InImage(rect, w, h) ==> Contains(s, rect) && InImage(s, w, h)
  {
    var half := filterSize / 2;
    var left := rect.x >= half;
    var top := rect.y >= half;
    var sx0 := if left then rect.x - half else rect.x;
    var sy0 := if top then rect.y - half else rect.y;
    var sw0 := if left then rect.width + half else rect.width;
    var sh0 := if top then rect.height + half else rect.height;
    var sw := if rect.x + rect.width + half <= w then sw0 + half else sw0;
    var sh := if rect.y + rect.height + half <= h then sh0 + half else sh0;
    Rect(sx0, sy0, sw, sh)
  }

  /**
   * The second `getSourceTileRectangle`: the tile grown by `ext` on every
   * side and clamped to the image, its size taken from the clamped corners.
   */
  function ExtendedRectangle(rect: Rect, ext: int, w: int, h: int): (s: Rect)
    ensures s.x == Max(rect.x - ext, 0) && s.y == Max(rect.y - ext, 0)
    ensures s.x + s.width - 1 == Min(rect.x + rect.width - 1 + ext, w - 1)
    ensures s.y + s.height - 1 == Min(rect.y + rect.height - 1 + ext, h - 1)
    ensures InImage(rect, w, h) && 0 <= ext ==> Contains(s, rect) && 0 <= s.x && 0 <= s.y
    ensures s.x + s.width <= w && s.y + s.height <= h
  {
    var sx0 := Max(rect.x - ext, 0);
    var sy0 := Max(rect.y - ext, 0);
    var sxMax := Min(rect.x + rect.width - 1 + ext, w - 1);
    var syMax := Min(rect.y + rect.height - 1 + ext, h - 1);
    Rect(sx0, sy0, sxMax - sx0 + 1, syMax - sy0 + 1)
  }

  /**
   * Every image pixel within `ext` of the tile (in each direction) is in
   * the extended rectangle: the non-local filter sees its whole search
   * and patch neighbourhood wherever the image has one.
   */
  lemma ExtendedRectangleCoversNeighbourhood(rect: Rect, ext: int, w: int, h: int, px: int, py: int)
    requires 0 <= px < w && 0 <= py < h
    requires rect.x - ext <= px < rect.x + rect.width + ext
    requires rect.y - ext <= py < rect.y + rect.height + ext
    ensures Covers(ExtendedRectangle(rect, ext, w, h), px, py)
  {
  }

  /** The margin of the non-local filter: half the search window, half the patch, plus the scale. */
  function NonLocalExtent(searchWindowSize: int, patchSize: int, scaleSize: int): (ext: int)
    requires 0 <= searchWindowSize && 0 <= patchSize && 0 <= scaleSize
    ensures 0 <= ext
    ensures 2 * ext <= searchWindowSize + patchSize + 2 * scaleSize
    ensures searchWindowSize + patchSize + 2 * scaleSize <= 2 * ext + 2
  {
    searchWindowSize / 2 + patchSize / 2 + scaleSize
  }

  /** For the offered choices (search 3..25, patch 3..11, scale 0..2) the margin is 2..19. */
  lemma NonLocalExtentRange(searchWindowSize: int, patchSize: int, scaleSize: int)
    requires 3 <= searchWindowSize <= 25 && 3 <= patchSize <= 11 && 0 <= scaleSize <= 2
    ensures 2 <= NonLocalExtent(searchWindowSize, patchSize, scaleSize) <= 19
  {
  }

  /**
   * The source rectangle `computeTileStack` asks for: the extended
   * rectangle for the non-local filter, the filter-size one otherwise.
   */
  function SourceTileRectangle(cfg: Config, rect: Rect, w: int, h: int): (s: Rect)
    requires cfg.filter != NonLocalFilter ==> 0 <= cfg.filterSize
    requires cfg.filter == NonLocalFilter ==>
      0 <= cfg.searchWindowSize && 0 <= cfg.patchSize && 0 <= cfg.scaleSize
    ensures InImage(rect, w, h) ==> Contains(s, rect) && 0 <= s.x && 0 <= s.y && s.x + s.width <= w && s.y + s.height <= h
  {
    if cfg.filter == NonLocalFilter then
      ExtendedRectangle(rect, NonLocalExtent(cfg.searchWindowSize, cfg.patchSize, cfg.scaleSize), w, h)
    else SourceRectangle(rect, cfg.filterSize, w, h)
  }
}
