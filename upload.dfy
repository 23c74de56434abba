/**
 * The decision layer of the upload component, as pure functions: which
 * handler a selected file goes to, how a zip archive's members are sorted and
 * checked, which projection is used, and whether the upload ends in an error
 * message or in a layer being added. The library calls (JSZip, FileReader,
 * `shapefile.read`) appear only through their results, which are inputs here.
 */
module Upload {
  import opened Wrappers
  import opened Text
  import opened Projection

  const ShpCountError: string := "The ZIP file must contain exactly one .shp file."
  const NoFeaturesError: string := "The shapefile contains no valid features."
  const ProcessingError: string := "An error occurred while processing the shapefile."

  /**
   * How an upload attempt ends, before the layer step: nothing at all (the file
   * was never delivered), an error dialog, or a layer to add.
   */
  datatype Outcome =
    | Silent
    | Failed(message: string)
    | Loaded(projection: string, geojson: Decoded)

  /** The two handlers `onFileSelected` chooses between. */
  datatype Route = ZipRoute | SingleRoute

  /** `onFileSelected`: only the `.zip` suffix of the name decides the handler. */
  function Dispatch(fileName: string): (r: Route)
    ensures r == ZipRoute <==> exists stem :: fileName == stem + ".zip"
  {
    EndsWithStem(fileName, ".zip");
    if EndsWith(fileName, ".zip") then ZipRoute else SingleRoute
  }

  /**
   * An archive JSZip could open: the keys of `zip.files` in order, the text of
   * each member as `async('string')` yields it, and what `shapefile.read`
   * returns for the `.shp` member and the member read as the `.dbf`. None
   * stands for any throw on the way: reading the `.shp`, `.dbf` or `.prj` member, or
   * `shapefile.read` itself; the source treats them alike.
   */
  datatype Archive = Archive(names: seq<string>, texts: map<string, string>, read: Option<Decoded>)
  {
    /** The member names are exactly the keys of the member table, each once. */
    ghost predicate Valid() {
      (forall n :: n in names <==> n in texts)
      && forall i, j :: 0 <= i < j < |names| ==> names[i] != names[j]
    }

    /** `shpFiles`: the member names ending in `.shp`, in archive order. */
    function ShpFiles(): (r: seq<string>)
      ensures forall n :: n in r <==> n in names && EndsWith(n, ".shp")
    {
      WithSuffix(names, ".shp")
    }

    /** `dbfFiles`: the member names ending in `.dbf`, in archive order. */
    function DbfFiles(): (r: seq<string>)
      ensures forall n :: n in r <==> n in names && EndsWith(n, ".dbf")
    {
      WithSuffix(names, ".dbf")
    }

    /** `prjFiles`: the member names ending in `.prj`, in archive order. */
    function PrjFiles(): (r: seq<string>)
      ensures forall n :: n in r <==> n in names && EndsWith(n, ".prj")
    {
      WithSuffix(names, ".prj")
    }

    /**
     * The member `zip.files[dbfFiles[0]]` reads. Without a `.dbf` the index is
     * `undefined`, which as a property key is the string "undefined": a member
     * of that name is read in place of the `.dbf`; with none the read throws.
     */
    function DbfMember(): (r: Option<string>)
      requires Valid()
      ensures |DbfFiles()| >= 1 ==> r == Some(DbfFiles()[0])
      ensures |DbfFiles()| == 0 ==> (r.Some? <==> UndefinedKey in names)
      ensures |DbfFiles()| == 0 && r.Some? ==> r.value == UndefinedKey
      ensures r.Some? ==> r.value in names
    {
      if |DbfFiles()| >= 1 then Some(DbfFiles()[0])
      else if UndefinedKey in texts then Some(UndefinedKey)
      else None
    }
  }

  /** The property key JavaScript uses for an `undefined` index. */
  const UndefinedKey: string := "undefined"

  /** The result of `JSZip.loadAsync`: it throws (Unreadable) or gives an archive. */
  datatype ZipInput = Unreadable | Readable(archive: Archive)

  /**
   * What FileReader delivers on the single-file path: nothing (the read fails
   * and `onload` never runs), or a buffer on which `shapefile.read` gives a
   * collection or throws (None).
   */
  datatype SingleRead = ReaderFailed | Delivered(read: Option<Decoded>)

  /**
   * A selected file, described by what each handler's library calls would make
   * of its bytes: JSZip and `shapefile.read(shp, dbf)` on the zip path,
   * FileReader and `shapefile.read(buffer)` on the single-file path.
   */
  datatype SelectedFile = SelectedFile(name: string, asZip: ZipInput, asShapefile: SingleRead)

  ghost predicate WellFormed(file: SelectedFile) {
    file.asZip.Readable? ==> file.asZip.archive.Valid()
  }

  /**
   * The projection the zip handler settles on: the `.prj` table's answer when
   * there is exactly one `.prj` member and the table knows its text, otherwise
   * EPSG:4326.
   */
  function ZipProjection(a: Archive): (p: string)
    requires a.Valid()
    ensures p == Utm13N <==>
              |a.PrjFiles()| == 1 && exists i :: OccursAt(a.texts[a.PrjFiles()[0]], Utm13NName, i)
    ensures p == Geographic || p == Utm13N
  {
    if |a.PrjFiles()| == 1 then ParseProjection(a.texts[a.PrjFiles()[0]]).GetOr(Geographic)
    else Geographic
  }

  /**
   * `handleZipShapefile` up to the call of `addShapefileLayer`. A layer is added
   * exactly when the archive opens, holds one `.shp` and a member to read as
   * the `.dbf`, decodes, and has features; every other case is one error message.
   */
  function ZipOutcome(zip: ZipInput): (r: Outcome)
    requires zip.Readable? ==> zip.archive.Valid()
    ensures r.Loaded? <==>
              zip.Readable? && |zip.archive.ShpFiles()| == 1 && zip.archive.DbfMember().Some?
              && zip.archive.read.Some? && zip.archive.read.value.featureCount > 0
    ensures r.Loaded? ==> r.geojson == zip.archive.read.value && r.projection == ZipProjection(zip.archive)
    ensures r == Failed(ShpCountError) <==> zip.Readable? && |zip.archive.ShpFiles()| != 1
    ensures r == Failed(NoFeaturesError) <==>
              zip.Readable? && |zip.archive.ShpFiles()| == 1 && zip.archive.DbfMember().Some?
              && zip.archive.read.Some? && zip.archive.read.value.featureCount == 0
    ensures r.Failed? || r.Loaded?
    ensures r.Failed? ==> r.message in {ShpCountError, NoFeaturesError, ProcessingError}
  {
    match zip
    case Unreadable => Failed(ProcessingError)
    case Readable(a) =>
      if |a.ShpFiles()| != 1 then Failed(ShpCountError)
      else if a.DbfMember().None? then Failed(ProcessingError)
      else match a.read
        case None => Failed(ProcessingError)
        case Some(geojson) =>
          if geojson.featureCount == 0 then Failed(NoFeaturesError)
          else Loaded(ZipProjection(a), geojson)
  }

  /**
   * `handleSingleShapefile` up to the call of `addShapefileLayer`: a failed
   * read ends silently; a decoded file is always loaded, with the GeoJSON
   * table's projection or EPSG:4326, even when it has no features; a decoding
   * failure is the generic error.
   */
  function SingleOutcome(file: SingleRead): (r: Outcome)
    ensures r == Silent <==> file.ReaderFailed?
    ensures r.Loaded? <==> file.Delivered? && file.read.Some?
    ensures r.Failed? ==> r.message == ProcessingError
    ensures r.Loaded? ==> r.geojson == file.read.value
    ensures r.Loaded? && DetectProjection(file.read.value).Some? ==>
              r.projection == DetectProjection(file.read.value).value
    ensures r.Loaded? && DetectProjection(file.read.value).None? ==> r.projection == Geographic
    ensures r.Loaded? ==> (r.projection == Geographic || r.projection == Utm13N)
  {
    match file
    case ReaderFailed => Silent
    case Delivered(None) => Failed(ProcessingError)
    case Delivered(Some(geojson)) => Loaded(DetectProjection(geojson).GetOr(Geographic), geojson)
  }

  /** The outcome of selecting file: the handler its name picks, applied to what that handler reads. */
  function FileOutcome(file: SelectedFile): (r: Outcome)
    requires WellFormed(file)
    ensures EndsWith(file.name, ".zip") ==> r == ZipOutcome(file.asZip)
    ensures !EndsWith(file.name, ".zip") ==> r == SingleOutcome(file.asShapefile)
  {
    match Dispatch(file.name)
    case ZipRoute => ZipOutcome(file.asZip)
    case SingleRoute => SingleOutcome(file.asShapefile)
  }

  // ----- properties of the decision layer -----

  /** A name made of any stem and `.zip` goes to the zip handler; `.ZIP` and `.shp` names do not. */
  lemma DispatchBySuffix(stem: string)
    ensures Dispatch(stem + ".zip") == ZipRoute
    ensures Dispatch(stem + ".ZIP") == SingleRoute
    ensures Dispatch(stem + ".shp") == SingleRoute
  {
  }

  /** No member name lands in two of the `.shp`, `.dbf` and `.prj` lists. */
  lemma ClassificationDisjoint(a: Archive, n: string)
    ensures !(n in a.ShpFiles() && n in a.DbfFiles())
    ensures !(n in a.ShpFiles() && n in a.PrjFiles())
    ensures !(n in a.DbfFiles() && n in a.PrjFiles())
  {
  }

  /** In any archive, a member `stem.SHP` is never one of the `.shp` members. */
  lemma UpperCaseShpNeverCounted(a: Archive, stem: string)
    ensures stem + ".SHP" !in a.ShpFiles()
  {
    EndsWithAppended(stem, ".SHP");
    SuffixesExclusive(stem + ".SHP", ".SHP", ".shp");
  }

  /**
   * With one `.shp`, no `.dbf` and no member named "undefined", the `.dbf` read
   * throws and only the generic processing error is reported.
   */
  lemma MissingDbfIsGenericError(a: Archive)
    requires a.Valid() && |a.ShpFiles()| == 1 && a.DbfFiles() == [] && UndefinedKey !in a.names
    ensures ZipOutcome(Readable(a)) == Failed(ProcessingError)
  {
  }

  /**
   * An archive of `stem.shp` and a member named "undefined", and no `.dbf`:
   * that member is read as the `.dbf`, so a decoding with features loads.
   */
  lemma {:induction false} UndefinedMemberStandsInForDbf(stem: string, geojson: Decoded)
    requires geojson.featureCount > 0
    ensures var shp := stem + ".shp";
            var a := Archive([shp, UndefinedKey], map[shp := "", UndefinedKey := ""], Some(geojson));
            a.Valid() && a.DbfFiles() == [] && ZipOutcome(Readable(a)) == Loaded(Geographic, geojson)
  {
    var shp := stem + ".shp";
    var a := Archive([shp, UndefinedKey], map[shp := "", UndefinedKey := ""], Some(geojson));
    EndsWithAppended(stem, ".shp");
    SuffixesExclusive(shp, ".shp", ".dbf");
    SuffixesExclusive(shp, ".shp", ".prj");
    assert shp != UndefinedKey by {
      SuffixesExclusive(UndefinedKey, ".shp", "ined");
    }
    assert a.ShpFiles() == [shp] by {
      WithSuffixAppend([shp], [UndefinedKey], ".shp");
    }
    assert a.DbfFiles() == [] by {
      WithSuffixAppend([shp], [UndefinedKey], ".dbf");
    }
    assert a.PrjFiles() == [] by {
      WithSuffixAppend([shp], [UndefinedKey], ".prj");
    }
  }

  /** Several `.prj` members are ignored: the default projection is used. */
  lemma SeveralPrjUseDefault(a: Archive)
    requires a.Valid() && |a.PrjFiles()| >= 2
    ensures ZipProjection(a) == Geographic
  {
  }

  /** Three distinct member names with their texts form a valid archive. */
  lemma ThreeMembersValid(x: string, y: string, z: string, tx: string, ty: string, tz: string, read: Option<Decoded>)
    requires x != y && x != z && y != z
    ensures Archive([x, y, z], map[x := tx, y := ty, z := tz], read).Valid()
  {
  }

  /** The members `stem.shp`, `stem.dbf` and `stem.prj` are distinct and each lands in its own list. */
  lemma {:induction false} StemMembersClassified(stem: string)
    ensures var shp, dbf, prj := stem + ".shp", stem + ".dbf", stem + ".prj";
            shp != dbf && shp != prj && dbf != prj
            && WithSuffix([shp, dbf, prj], ".shp") == [shp]
            && WithSuffix([shp, dbf, prj], ".dbf") == [dbf]
            && WithSuffix([shp, dbf, prj], ".prj") == [prj]
  {
    var shp, dbf, prj := stem + ".shp", stem + ".dbf", stem + ".prj";
    EndsWithAppended(stem, ".shp");
    EndsWithAppended(stem, ".dbf");
    EndsWithAppended(stem, ".prj");
    SuffixesExclusive(shp, ".shp", ".dbf");
    SuffixesExclusive(shp, ".shp", ".prj");
    SuffixesExclusive(dbf, ".dbf", ".shp");
    SuffixesExclusive(dbf, ".dbf", ".prj");
    SuffixesExclusive(prj, ".prj", ".shp");
    SuffixesExclusive(prj, ".prj", ".dbf");
    assert [shp] + [dbf, prj] == [shp, dbf, prj] && [dbf] + [prj] == [dbf, prj];
    assert WithSuffix([shp, dbf, prj], ".shp") == [shp] by {
      WithSuffixAppend([shp], [dbf, prj], ".shp");
      WithSuffixAppend([dbf], [prj], ".shp");
    }
    assert WithSuffix([shp, dbf, prj], ".dbf") == [dbf] by {
      WithSuffixAppend([shp], [dbf, prj], ".dbf");
      WithSuffixAppend([dbf], [prj], ".dbf");
    }
    assert WithSuffix([shp, dbf, prj], ".prj") == [prj] by {
      WithSuffixAppend([shp], [dbf, prj], ".prj");
      WithSuffixAppend([dbf], [prj], ".prj");
    }
  }

  /**
   * End to end: an archive of one `.shp`, one `.dbf` and one `.prj` naming UTM
   * zone 13N that decodes to features is loaded in EPSG:32613.
   */
  lemma {:induction false} UtmArchiveLoads(stem: string, before: string, after: string, geojson: Decoded)
    requires geojson.featureCount > 0
    ensures var shp, dbf, prj := stem + ".shp", stem + ".dbf", stem + ".prj";
            var a := Archive([shp, dbf, prj], map[shp := "", dbf := "", prj := before + Utm13NName + after], Some(geojson));
            a.Valid() && ZipOutcome(Readable(a)) == Loaded(Utm13N, geojson)
  {
    var shp, dbf, prj := stem + ".shp", stem + ".dbf", stem + ".prj";
    var a := Archive([shp, dbf, prj], map[shp := "", dbf := "", prj := before + Utm13NName + after], Some(geojson));
    StemMembersClassified(stem);
    ThreeMembersValid(shp, dbf, prj, "", "", before + Utm13NName + after, Some(geojson));
    assert a.DbfMember() == Some(dbf);
    ParseFindsUtmAnywhere(before, after);
  }
}
