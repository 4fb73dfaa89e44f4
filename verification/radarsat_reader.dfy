/**
 * How the Radarsat-1 reader plug-in qualifies a file name: Radarsat-1
 * ZIP archives are claimed outright, CEOS volume files are handed to the
 * reader's own check, anything else is refused. The test ignores case.
 */
module RadarsatReader {
  import opened Text

  datatype DecodeQualification = Intended | Suitable | Unable

  /** An upper-cased file name of a Radarsat-1 ZIP archive. */
  predicate IsRadarsat1Zip(name: string)
  {
    EndsWith(name, ".ZIP") && (StartsWith(name, "R1_") || StartsWith(name, "RS1_"))
  }

  /**
   * `checkProductQualification`: the file name is upper-cased, a
   * Radarsat-1 ZIP is INTENDED, a volume file (`isVolumeFile`) gets what
   * the reader decides for it (`readerQualification`), anything else is
   * UNABLE. The ZIP test comes first.
   */
  function CheckProductQualification(fileName: string, isVolumeFile: string -> bool,
                                     readerQualification: DecodeQualification): (q: DecodeQualification)
    ensures IsRadarsat1Zip(ToUpper(fileName)) ==> q == Intended
    ensures !IsRadarsat1Zip(ToUpper(fileName)) && isVolumeFile(ToUpper(fileName)) ==> q == readerQualification
    ensures !IsRadarsat1Zip(ToUpper(fileName)) && !isVolumeFile(ToUpper(fileName)) ==> q == Unable
  {
    var name := ToUpper(fileName);
    if IsRadarsat1Zip(name) then Intended
    else if isVolumeFile(name) then readerQualification
    else Unable
  }

  /** Qualification ignores the case of the file name. */
  lemma QualificationIgnoresCase(fileName: string, isVolumeFile: string -> bool, readerQualification: DecodeQualification)
    ensures CheckProductQualification(ToLower(fileName), isVolumeFile, readerQualification) ==
            CheckProductQualification(fileName, isVolumeFile, readerQualification)
    ensures CheckProductQualification(ToUpper(fileName), isVolumeFile, readerQualification) ==
            CheckProductQualification(fileName, isVolumeFile, readerQualification)
  {
    ToUpperOfToLower(fileName);
    ToUpperIdempotent(fileName);
  }

  /**
   * A name is INTENDED exactly when it is a Radarsat-1 ZIP or a volume
   * file the reader itself calls INTENDED.
   */
  lemma IntendedExactly(fileName: string, isVolumeFile: string -> bool, readerQualification: DecodeQualification)
    ensures CheckProductQualification(fileName, isVolumeFile, readerQualification) == Intended <==>
      IsRadarsat1Zip(ToUpper(fileName)) || (isVolumeFile(ToUpper(fileName)) && readerQualification == Intended)
  {
  }

  /** A lower-case Radarsat-1 archive name is claimed whatever the volume test says. */
  lemma LowerCaseZipExample(isVolumeFile: string -> bool, readerQualification: DecodeQualification)
    ensures CheckProductQualification("rs1_a.zip", isVolumeFile, readerQualification) == Intended
  {
    assert ToUpper("rs1_a.zip") == "RS1_A.ZIP";
  }

  /** A Radarsat-2 archive name that is no volume file is refused. */
  lemma Radarsat2ZipExample(isVolumeFile: string -> bool, readerQualification: DecodeQualification)
    requires !isVolumeFile("R2_A.ZIP")
    ensures CheckProductQualification("r2_a.zip", isVolumeFile, readerQualification) == Unable
  {
    var name := ToUpper("r2_a.zip");
    assert name == "R2_A.ZIP";
    assert name[1] == '2';
  }
}
