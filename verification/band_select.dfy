/**
 * The band filter of the band-select operator: from the chosen source
 * bands it keeps those whose polarisation is among the selected ones and
 * whose name matches the band-name pattern, skips names already copied,
 * and copies virtual bands as virtual and all others as real, in source
 * order. An empty result is an error.
 */
module BandSelect {
  import opened Common
  import opened Text

  /** A source band: its name and whether it is a virtual band. */
  datatype Band = Band(name: string, isVirtual: bool)

  datatype BandSelectError =
    | NoValidBands      // "No valid bands found in target product"
    | InvalidPattern    // the regular-expression compiler refuses the pattern

  /**
   * The band passes both filters. An empty polarisation list and an empty
   * pattern (the source's null or empty parameters) switch the respective
   * filter off; polarisations compare case-insensitively and the pattern
   * must match the whole name (`matches`, the regular-expression engine).
   */
  predicate Keep(b: Band, pols: seq<string>, pattern: string,
                 polOf: string -> string, matches: (string, string) -> bool)
  {
    PolarisationKept(b, pols, polOf) && (|pattern| == 0 || matches(pattern, b.name))
  }

  /** The band passes the polarisation filter. */
  predicate PolarisationKept(b: Band, pols: seq<string>, polOf: string -> string)
  {
    |pols| == 0 || exists p :: p in pols && EqualsIgnoreCase(polOf(b.name), p)
  }

  /**
   * The pattern is compiled for each band that passes the polarisation
   * filter, so a pattern the compiler refuses (`compiles` is false) fails
   * the operator as soon as one such band exists.
   */
  predicate PatternFails(source: seq<Band>, pols: seq<string>, pattern: string,
                         polOf: string -> string, compiles: string -> bool)
  {
    0 < |pattern| && !compiles(pattern) && exists i :: 0 <= i < |source| && PolarisationKept(source[i], pols, polOf)
  }

  function Names(bands: seq<Band>): (names: seq<string>)
    ensures |names| == |bands| && forall i :: 0 <= i < |bands| ==> names[i] == bands[i].name
  {
    seq(|bands|, i requires 0 <= i < |bands| => bands[i].name)
  }

  lemma NamesAppend(t: seq<Band>, b: Band)
    ensures Names(t + [b]) == Names(t) + [b.name]
  {
  }

  /**
   * The target bands after the loop has visited `source`, in visiting
   * order: a kept band is appended unless a band of its name is already
   * in the target.
   */
  function Select(source: seq<Band>, pols: seq<string>, pattern: string,
                  polOf: string -> string, matches: (string, string) -> bool): seq<Band>
  {
    if |source| == 0 then []
    else
      var target := Select(source[..|source| - 1], pols, pattern, polOf, matches);
      var b := source[|source| - 1];
      if Keep(b, pols, pattern, polOf, matches) && b.name !in Names(target) then target + [b] else target
  }

  /**
   * `addSelectedBands`: the filter loop over the source bands, then the
   * check that something was selected.
   */
  method AddSelectedBands(source: seq<Band>, pols: seq<string>, pattern: string,
                          polOf: string -> string, matches: (string, string) -> bool,
                          compiles: string -> bool)
    returns (r: Result<seq<Band>, BandSelectError>)
    ensures r == Err(InvalidPattern) <==> PatternFails(source, pols, pattern, polOf, compiles)
    ensures !PatternFails(source, pols, pattern, polOf, compiles) ==>
      (r.Err? <==> Select(source, pols, pattern, polOf, matches) == [])
    ensures r.Ok? ==> r.value == Select(source, pols, pattern, polOf, matches)
    ensures !PatternFails(source, pols, pattern, polOf, compiles) ==>
      (r.Err? <==> forall i :: 0 <= i < |source| ==> !Keep(source[i], pols, pattern, polOf, matches))
    ensures r.Ok? ==> DistinctNames(r.value)
    ensures r.Ok? ==> forall b :: b in r.value ==> b in source && Keep(b, pols, pattern, polOf, matches)
  {
    var target: seq<Band> := [];
    var names: seq<string> := [];
    var i := 0;
    while i < |source|
      invariant 0 <= i <= |source|
      invariant target == Select(source[..i], pols, pattern, polOf, matches)
      invariant names == Names(target)
      invariant !(0 < |pattern| && !compiles(pattern) && exists j :: 0 <= j < i && PolarisationKept(source[j], pols, polOf))
    {
      assert source[..i + 1][..i] == source[..i];
      var b := source[i];
      var keep := true;
      if 0 < |pols| {
        var found := false;
        var k := 0;
        while k < |pols|
          invariant 0 <= k <= |pols|
          invariant found <==> exists p :: p in pols[..k] && EqualsIgnoreCase(polOf(b.name), p)
        {
          assert pols[..k + 1] == pols[..k] + [pols[k]];
          if EqualsIgnoreCase(polOf(b.name), pols[k]) {
            found := true;
          }
          k := k + 1;
        }
        assert pols[..k] == pols;
        keep := found;
      }
      assert keep <==> PolarisationKept(b, pols, polOf);
      if keep && 0 < |pattern| && !compiles(pattern) {
        return Err(InvalidPattern);
      }
      if keep && 0 < |pattern| && !matches(pattern, b.name) {
        keep := false;
      }
      if keep && b.name !in names {
        target := target + [b];
        names := names + [b.name];
      }
      i := i + 1;
    }
    assert source[..|source|] == source;
    SelectEmptyIffNoneKept(source, pols, pattern, polOf, matches);
    SelectNoDuplicates(source, pols, pattern, polOf, matches);
    SelectSound(source, pols, pattern, polOf, matches);
    if |target| == 0 {
      return Err(NoValidBands);
    }
    return Ok(target);
  }

  /** Nothing is selected exactly when no source band passes the filters. */
  lemma {:induction false} SelectEmptyIffNoneKept(source: seq<Band>, pols: seq<string>, pattern: string,
                                                   polOf: string -> string, matches: (string, string) -> bool)
    ensures Select(source, pols, pattern, polOf, matches) == [] <==>
      forall i :: 0 <= i < |source| ==> !Keep(source[i], pols, pattern, polOf, matches)
    decreases |source|
  {
    if |source| > 0 {
      var init := source[..|source| - 1];
      SelectEmptyIffNoneKept(init, pols, pattern, polOf, matches);
      assert forall i :: 0 <= i < |init| ==> init[i] == source[i];
    }
  }

  /**
   * Every selected band is a source band, unchanged (so its virtual flag
   * is kept), that passes the filters.
   */
  lemma {:induction false} SelectSound(source: seq<Band>, pols: seq<string>, pattern: string,
                                       polOf: string -> string, matches: (string, string) -> bool)
    ensures forall b :: b in Select(source, pols, pattern, polOf, matches) ==>
      b in source && Keep(b, pols, pattern, polOf, matches)
    decreases |source|
  {
    if |source| > 0 {
      var init := source[..|source| - 1];
      SelectSound(init, pols, pattern, polOf, matches);
      assert forall b :: b in init ==> b in source;
    }
  }

  /** Every source band that passes the filters has its name in the target. */
  lemma {:induction false} SelectComplete(source: seq<Band>, pols: seq<string>, pattern: string,
                                          polOf: string -> string, matches: (string, string) -> bool)
    ensures forall i :: 0 <= i < |source| && Keep(source[i], pols, pattern, polOf, matches) ==>
      source[i].name in Names(Select(source, pols, pattern, polOf, matches))
    decreases |source|
  {
    if |source| > 0 {
      var init := source[..|source| - 1];
      SelectComplete(init, pols, pattern, polOf, matches);
      var t := Select(init, pols, pattern, polOf, matches);
      var b := source[|source| - 1];
      NamesAppend(t, b);
      assert forall n :: n in Names(t) ==> n in Names(Select(source, pols, pattern, polOf, matches));
      forall i | 0 <= i < |source| - 1 && Keep(source[i], pols, pattern, polOf, matches)
        ensures source[i].name in Names(Select(source, pols, pattern, polOf, matches))
      {
        assert init[i] == source[i];
      }
    }
  }

  /** No two bands of `t` share a name. */
  predicate DistinctNames(t: seq<Band>)
  {
    forall i, j :: 0 <= i < j < |t| ==> t[i].name != t[j].name
  }

  /** No two target bands share a name. */
  lemma {:induction false} SelectNoDuplicates(source: seq<Band>, pols: seq<string>, pattern: string,
                                              polOf: string -> string, matches: (string, string) -> bool)
    ensures DistinctNames(Select(source, pols, pattern, polOf, matches))
    decreases |source|
  {
    if |source| > 0 {
      var init := source[..|source| - 1];
      SelectNoDuplicates(init, pols, pattern, polOf, matches);
      var t := Select(init, pols, pattern, polOf, matches);
      var b := source[|source| - 1];
      assert forall i :: 0 <= i < |t| ==> t[i].name == Names(t)[i];
      if Keep(b, pols, pattern, polOf, matches) && b.name !in Names(t) {
        var s := t + [b];
        assert Select(source, pols, pattern, polOf, matches) == s;
        forall i, j | 0 <= i < j < |s| ensures s[i].name != s[j].name
        {
          assert s[i] == t[i];
          if j == |t| {
            assert s[j] == b;
            assert t[i].name == Names(t)[i];
          } else {
            assert s[j] == t[j];
          }
        }
      } else {
        assert Select(source, pols, pattern, polOf, matches) == t;
      }
    }
  }

  /**
   * `a` is `b` with some entries left out, the rest in their order:
   * `idx` picks, strictly increasing, the positions of `b` kept.
   */
  ghost predicate SubsequenceAt(a: seq<Band>, b: seq<Band>, idx: seq<int>)
  {
    |idx| == |a| &&
    (forall k :: 0 <= k < |idx| ==> 0 <= idx[k] < |b| && b[idx[k]] == a[k]) &&
    (forall k, k' :: 0 <= k < k' < |idx| ==> idx[k] < idx[k'])
  }

  /** The target keeps the source order. */
  lemma {:induction false} SelectKeepsOrder(source: seq<Band>, pols: seq<string>, pattern: string,
                                            polOf: string -> string, matches: (string, string) -> bool)
    returns (idx: seq<int>)
    ensures SubsequenceAt(Select(source, pols, pattern, polOf, matches), source, idx)
    decreases |source|
  {
    if |source| == 0 {
      idx := [];
    } else {
      var init := source[..|source| - 1];
      var prev := SelectKeepsOrder(init, pols, pattern, polOf, matches);
      var t := Select(init, pols, pattern, polOf, matches);
      var b := source[|source| - 1];
      if Keep(b, pols, pattern, polOf, matches) && b.name !in Names(t) {
        idx := prev + [|source| - 1];
      } else {
        idx := prev;
      }
    }
  }
}
