/**
 * The two projection tables of the upload component: one for the text of a
 * `.prj` member, one for the `crs.properties.name` of a decoded GeoJSON
 * collection. Each returns an EPSG code or nothing; the callers fall back to
 * the geographic default.
 */
module Projection {
  import opened Wrappers
  import opened Text

  /** The default (geographic) projection, used when no hint resolves. */
  const Geographic: string := "EPSG:4326"
  /** UTM zone 13 north on WGS 84. */
  const Utm13N: string := "EPSG:32613"
  /** The ESRI name of that zone as it appears in `.prj` text. */
  const Utm13NName: string := "WGS_1984_UTM_Zone_13N"

  /** `crs.properties` of a GeoJSON object; `name` is absent when the key is missing. */
  datatype CrsProperties = CrsProperties(name: Option<string>)
  /** `crs` of a GeoJSON object. */
  datatype Crs = Crs(properties: Option<CrsProperties>)

  /**
   * What `shapefile.read` produced: the `crs` member, the number of features and
   * whether OpenLayers would compute the empty-extent sentinel (first coordinate
   * `Infinity`) for those features.
   */
  datatype Decoded = Decoded(crs: Option<Crs>, featureCount: nat, extentEmpty: bool)

  /**
   * `parseProjection`: the `.prj` table. Text naming UTM zone 13N gives
   * EPSG:32613; any other text gives null.
   */
  function ParseProjection(prjContent: string): (r: Option<string>)
    ensures r.Some? <==> exists i :: OccursAt(prjContent, Utm13NName, i)
    ensures r.Some? ==> r.value == Utm13N
  {
    if Includes(prjContent, Utm13NName) then Some(Utm13N) else None
  }

  /**
   * The guard `geojson.crs && geojson.crs.properties && geojson.crs.properties.name`:
   * the name when every level is present and the name is truthy (not "").
   */
  function CrsName(geojson: Decoded): (r: Option<string>)
    ensures r.Some? ==> r.value != ""
    ensures r.Some? <==> geojson.crs.Some? && geojson.crs.value.properties.Some?
                         && geojson.crs.value.properties.value.name.Some?
                         && geojson.crs.value.properties.value.name.value != ""
    ensures r.Some? ==> r.value == geojson.crs.value.properties.value.name.value
  {
    match geojson.crs
    case None => None
    case Some(crs) =>
      match crs.properties
      case None => None
      case Some(props) =>
        match props.name
        case None => None
        case Some(name) => if name == "" then None else Some(name)
  }

  /**
   * `detectProjection`: the GeoJSON table. The EPSG:4326 identifier is checked
   * before the UTM zone name; a missing name or no match gives null.
   */
  function DetectProjection(geojson: Decoded): (r: Option<string>)
    ensures CrsName(geojson).None? ==> r.None?
    ensures r == Some(Geographic) <==>
              CrsName(geojson).Some? && exists i :: OccursAt(CrsName(geojson).value, Geographic, i)
    ensures r == Some(Utm13N) <==>
              CrsName(geojson).Some? && (!exists i :: OccursAt(CrsName(geojson).value, Geographic, i))
              && exists i :: OccursAt(CrsName(geojson).value, Utm13NName, i)
    ensures r.Some? ==> r.value == Geographic || r.value == Utm13N
  {
    match CrsName(geojson)
    case None => None
    case Some(name) =>
      if Includes(name, Geographic) then Some(Geographic)
      else if Includes(name, Utm13NName) then Some(Utm13N)
      else None
  }

  /** Any `.prj` text that names UTM zone 13N, wherever the name sits, resolves to EPSG:32613. */
  lemma ParseFindsUtmAnywhere(before: string, after: string)
    ensures ParseProjection(before + Utm13NName + after) == Some(Utm13N)
  {
    IncludesEmbedded(before, Utm13NName, after);
  }

  /** A CRS name mentioning EPSG:4326 resolves to it, whatever else the name or the collection holds. */
  lemma DetectPrefersGeographic(geojson: Decoded, before: string, after: string)
    requires geojson.crs == Some(Crs(Some(CrsProperties(Some(before + Geographic + after)))))
    ensures DetectProjection(geojson) == Some(Geographic)
  {
    IncludesEmbedded(before, Geographic, after);
  }

  /**
   * Apart from the EPSG:4326 test, the two tables agree: for a CRS name that
   * does not mention EPSG:4326, the GeoJSON table gives what the `.prj` table
   * gives for the same text (an empty name included: both give null).
   */
  lemma TablesAgreeWithoutGeographic(geojson: Decoded, hint: string)
    requires geojson.crs == Some(Crs(Some(CrsProperties(Some(hint)))))
    requires !Includes(hint, Geographic)
    ensures DetectProjection(geojson) == ParseProjection(hint)
  {
  }

  /**
   * The two tables are independent: one string that names both the zone and
   * EPSG:4326 resolves to EPSG:32613 as `.prj` text and to EPSG:4326 as a CRS name.
   */
  lemma TablesDisagree()
    ensures var hint := Geographic + " " + Utm13NName;
            ParseProjection(hint) == Some(Utm13N) &&
            DetectProjection(Decoded(Some(Crs(Some(CrsProperties(Some(hint))))), 0, false)) == Some(Geographic)
  {
    var hint := Geographic + " " + Utm13NName;
    assert OccursAt(hint, Utm13NName, |Geographic| + 1) by {
      assert hint[|Geographic| + 1..|hint|] == Utm13NName;
    }
    assert OccursAt(hint, Geographic, 0) by {
      assert hint[..|Geographic|] == Geographic;
    }
  }
}
