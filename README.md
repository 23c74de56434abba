# Shapefile upload: a Dafny model of the decision layer

The map viewer lets a user pick a file. The file is either a zipped shapefile
bundle or a bare `.shp`. The viewer decodes it to GeoJSON, settles on the
projection its coordinates are in, and adds it as a vector layer on an
OpenLayers map, fitting the view to it. All of this is done by
`ShapefileUploadComponent`. Between its library calls sit the decisions this
project models and proves:

- which handler a file goes to (the `.zip` suffix of its name);
- how archive members are sorted into `.shp`, `.dbf` and `.prj` lists, and
  which archives are rejected;
- the two projection tables: `.prj` text, and a GeoJSON `crs.properties.name`;
- when an upload ends in an error dialog and when it adds a layer;
- the component state: the current layer, the visibility flag, the dialogs
  shown so far, and the map's layer list and fitted view.

Modules:

- `Wrappers` (`wrappers.dfy`): `Option`, which stands for JavaScript's null.
- `Text` (`text.dfy`): `endsWith`, `includes`, and the `filter` by suffix.
- `Projection` (`projection.dfy`): the two tables and the shape of the `crs` member.
- `OpenLayers` (`open_layers.dfy`): layers (each with a visibility field) and
  the map (its layer list and the layer its view is fitted to).
- `Upload` (`upload.dfy`): the decisions as pure functions. Their result is an
  `Outcome`: `Silent` (the upload ends with no effect), `Failed(message)`
  or `Loaded(projection, geojson)`.
- `ShapefileUpload` (`shapefile_upload.dfy`): the component class. Each
  handler is an imperative method with the source's early returns. Each one
  is proved to have the effect `Applied(o)`, where `o` is the pure outcome
  from `Upload`.

The library calls are inputs. A `SelectedFile` carries its name and two
results: what JSZip plus `shapefile.read(shp, dbf)` would give on the zip
path, and what FileReader plus `shapefile.read(buffer)` would give on the
single-file path, where FileReader may also fail to deliver the file. A
decoded collection is reduced to three things: its `crs`
member, its feature count, and whether OpenLayers would compute the
empty-extent sentinel for it.

Behaviour of the code worth knowing, all of it modelled as written:

- Suffixes are matched case-sensitively (`A.SHP` is not a shapefile).
- There is one message for "not exactly one `.shp`". A missing `.dbf` has no
  message of its own. Without a `.dbf`, `dbfFiles[0]` is `undefined`, and
  `zip.files[undefined]` looks up the key `"undefined"`. An archive with no
  member of that name throws, and the generic processing error is shown. An
  archive that has such a member reads it in place of the `.dbf`.
- With two or more `.prj` members the default EPSG:4326 is used.
- On the single-file path, a FileReader failure ends silently: `onload` never
  runs and there is no `onerror` handler.
- The single-file path has no zero-feature check. A decoded file is always
  added as a layer.
- An empty extent shows an error, but the new layer stays on the map.
- Each upload appends a layer. Earlier uploaded layers stay on the map.
- There is no operation that clears the layer.
- Both tables map the UTM zone 13N name to EPSG:32613. They differ only in
  that the GeoJSON table tests for `EPSG:4326` first: for a name without
  `EPSG:4326` the two tables agree (`Projection.TablesAgreeWithoutGeographic`),
  and `Projection.TablesDisagree` gives a string on which they differ.

## Model

| member | source | states |
|---|---|---|
| `Text.Includes` | src/app/shapefile-upload/shapefile-upload.component.ts:108 | `includes` is true exactly when the substring occurs at some index of the string |
| `Text.EndsWith` | src/app/shapefile-upload/shapefile-upload.component.ts:69-71 | a name that ends in the suffix splits into a prefix followed by the suffix |
| `Text.EndsWithStem` | src/app/shapefile-upload/shapefile-upload.component.ts:58 | `endsWith` holds exactly when the name is some stem followed by the suffix |
| `Text.WithSuffix` | src/app/shapefile-upload/shapefile-upload.component.ts:69-71 | the filtered list holds exactly the names that end in the suffix, and is no longer than the input |
| `Text.WithSuffixAppend` | src/app/shapefile-upload/shapefile-upload.component.ts:69-71 | filtering distributes over concatenation, so the original order is kept |
| `Projection.ParseProjection` | src/app/shapefile-upload/shapefile-upload.component.ts:106-111 | returns a code exactly when `WGS_1984_UTM_Zone_13N` occurs in the text, and the only code it returns is EPSG:32613 |
| `Projection.CrsName` | src/app/shapefile-upload/shapefile-upload.component.ts:138-139 | a name is found exactly when `crs`, `crs.properties` and a non-empty `name` are all present, and the name found is `crs.properties.name` |
| `Projection.DetectProjection` | src/app/shapefile-upload/shapefile-upload.component.ts:135-148 | null without a name. EPSG:4326 exactly when the name contains `EPSG:4326`. EPSG:32613 exactly when it does not, but does contain the UTM zone name. No other code |
| `Projection.ParseFindsUtmAnywhere` | src/app/shapefile-upload/shapefile-upload.component.ts:108 | any `.prj` text with the zone name anywhere in it resolves to EPSG:32613 |
| `Projection.DetectPrefersGeographic` | src/app/shapefile-upload/shapefile-upload.component.ts:141-142 | for any collection whose CRS name contains `EPSG:4326`, whatever else the name or the collection holds, the result is EPSG:4326 |
| `Projection.TablesAgreeWithoutGeographic` | src/app/shapefile-upload/shapefile-upload.component.ts:106-147 | for every CRS name without `EPSG:4326`, the GeoJSON table gives what the `.prj` table gives for the same text |
| `Projection.TablesDisagree` | src/app/shapefile-upload/shapefile-upload.component.ts:106-147 | one hint string resolves to EPSG:32613 as `.prj` text and to EPSG:4326 as a CRS name |
| `Upload.ZipProjection` | src/app/shapefile-upload/shapefile-upload.component.ts:81-88 | EPSG:32613 exactly when there is one `.prj` member and its text names the zone; otherwise EPSG:4326 |
| `Upload.Archive.ShpFiles` | src/app/shapefile-upload/shapefile-upload.component.ts:69 | `shpFiles` holds exactly the member names that end in `.shp` |
| `Upload.Archive.DbfFiles` | src/app/shapefile-upload/shapefile-upload.component.ts:70 | `dbfFiles` holds exactly the member names that end in `.dbf` |
| `Upload.Archive.PrjFiles` | src/app/shapefile-upload/shapefile-upload.component.ts:71 | `prjFiles` holds exactly the member names that end in `.prj` |
| `Upload.Archive.DbfMember` | src/app/shapefile-upload/shapefile-upload.component.ts:79 | the member read as the `.dbf`: the first `.dbf` when there is one. Otherwise it is exactly the member named `undefined` when the archive has one, and there is none when it does not |
| `Upload.ZipOutcome` | src/app/shapefile-upload/shapefile-upload.component.ts:66-104 | a layer is loaded exactly when the archive opens and has one `.shp`, a member to read as the `.dbf` (the first `.dbf`, or else a member named `undefined`), a successful decode and some features. It then uses the decoded collection and `ZipProjection`. The `.shp`-count message comes exactly when the count is not 1, and the no-features message exactly when decoding gave zero features. The zip path never ends silently, and every failure is one of three messages |
| `Upload.SingleOutcome` | src/app/shapefile-upload/shapefile-upload.component.ts:115-133 | silent exactly when FileReader fails. Loaded exactly when a delivered file decodes, even with zero features. The projection is the GeoJSON table's answer when it gives one, and EPSG:4326 otherwise. A decode failure gives the generic message |
| `Upload.FileOutcome` | src/app/shapefile-upload/shapefile-upload.component.ts:52-64 | a name ending in `.zip` gets the zip handler's outcome; every other name gets the single-file handler's |
| `Upload.Dispatch` | src/app/shapefile-upload/shapefile-upload.component.ts:58-62 | the zip handler is chosen exactly when the name is some stem followed by `.zip` |
| `Upload.DispatchBySuffix` | src/app/shapefile-upload/shapefile-upload.component.ts:58-62 | `stem.zip` goes to the zip handler; `stem.ZIP` and `stem.shp` go to the single-file handler |
| `Upload.ClassificationDisjoint` | src/app/shapefile-upload/shapefile-upload.component.ts:69-71 | no member name is in two of the three lists |
| `Upload.UpperCaseShpNeverCounted` | src/app/shapefile-upload/shapefile-upload.component.ts:69 | in any archive, a member `stem.SHP` is never one of the `.shp` members |
| `Upload.MissingDbfIsGenericError` | src/app/shapefile-upload/shapefile-upload.component.ts:78-79 | one `.shp`, no `.dbf` and no member named `undefined` ends in the generic processing error |
| `Upload.UndefinedMemberStandsInForDbf` | src/app/shapefile-upload/shapefile-upload.component.ts:78-79 | an archive with `stem.shp`, a member named `undefined` and no `.dbf`, which decodes to features, loads in EPSG:4326 |
| `Upload.SeveralPrjUseDefault` | src/app/shapefile-upload/shapefile-upload.component.ts:82-88 | with two or more `.prj` members the projection is EPSG:4326 |
| `Upload.UtmArchiveLoads` | src/app/shapefile-upload/shapefile-upload.component.ts:66-99 | an archive with `.shp`, `.dbf` and a `.prj` that names UTM zone 13N, and with features, loads in EPSG:32613 |
| `Upload.StemMembersClassified` | src/app/shapefile-upload/shapefile-upload.component.ts:69-71 | `stem.shp`, `stem.dbf` and `stem.prj` are distinct, and each is the only member of its own suffix list |
| `OpenLayers.Layer.constructor` | src/app/shapefile-upload/shapefile-upload.component.ts:158-160 | a new layer holds its source and is visible, as OpenLayers layers are by default |
| `OpenLayers.Layer.SetVisible` | src/app/shapefile-upload/shapefile-upload.component.ts:175 | the layer's visibility becomes the given flag |
| `OpenLayers.OlMap.AddLayer` | src/app/shapefile-upload/shapefile-upload.component.ts:162 | the layer is appended, earlier layers stay, and the view is unchanged |
| `OpenLayers.OlMap.FitTo` | src/app/shapefile-upload/shapefile-upload.component.ts:166 | the view is fitted to the layer, and the layer list is unchanged |
| `ShapefileUpload.ShapefileUploadComponent.constructor` | src/app/shapefile-upload/shapefile-upload.component.ts:37-42 | no layer yet, the flag is false, and no dialogs have been shown |
| `ShapefileUpload.ShapefileUploadComponent.ShowError` | src/app/shapefile-upload/shapefile-upload.component.ts:45-49 | exactly one dialog with the message is added |
| `ShapefileUpload.ShapefileUploadComponent.AddShapefileLayer` | src/app/shapefile-upload/shapefile-upload.component.ts:150-170 | one fresh, visible layer holding the projection and features is appended to the map, and `shapefileLayer` points at it. A finite extent fits the view to it with no dialog. An empty extent shows the extent error, leaves the view alone and keeps the layer attached. The flag is untouched |
| `ShapefileUpload.ShapefileUploadComponent.HandleZipShapefile` | src/app/shapefile-upload/shapefile-upload.component.ts:66-104 | the effect is `Applied(ZipOutcome(zip))`. A failure shows exactly one dialog and changes neither the layer nor the map; a load does what `AddShapefileLayer` states |
| `ShapefileUpload.ShapefileUploadComponent.HandleSingleShapefile` | src/app/shapefile-upload/shapefile-upload.component.ts:115-133 | the effect is `Applied(SingleOutcome(file))`. A FileReader failure changes nothing and shows no dialog |
| `ShapefileUpload.ShapefileUploadComponent.OnFileSelected` | src/app/shapefile-upload/shapefile-upload.component.ts:52-64 | with no file nothing changes (`Applied(Silent)`); otherwise the effect is `Applied(FileOutcome(files[0]))` |
| `ShapefileUpload.ShapefileUploadComponent.ToggleLayer` | src/app/shapefile-upload/shapefile-upload.component.ts:172-177 | nothing changes before the first upload. Afterwards the flag is negated, the current layer's visibility equals the new flag, and that layer is on the map |
| `ShapefileUpload.ToggleTwice` | src/app/shapefile-upload/shapefile-upload.component.ts:172-177 | two toggles restore the flag and leave the layer's visibility equal to it |
| `ShapefileUpload.FirstToggleKeepsLayerVisible` | src/app/shapefile-upload/shapefile-upload.component.ts:40 | the flag starts false while a new layer starts visible, so the first toggle after the first upload leaves the layer visible |
| `ShapefileUpload.SecondUploadKeepsFirstLayer` | src/app/shapefile-upload/shapefile-upload.component.ts:158-162 | after two uploads both layers are on the map, and `shapefileLayer` is the second one |

## Left out

- JSZip decompression, FileReader and `shapefile.read` decoding are not modelled. Their results are inputs: an unreadable archive, the member names and texts, and a decoded collection or a failure.
- A failed member read (`async('arraybuffer')` at :78-79, `async('string')` at :83) has no input of its own. It is folded into the decode failure, since the source shows the same generic error for both.
- A missing `features` array is not told apart from an empty one. `shapefile.read` always produces an array, so both are a feature count of 0.
- OpenLayers reprojection (`readFeatures`) and `getExtent` are floating-point geometry inside the library. They are reduced to an input flag saying whether the extent is the empty sentinel. The flag is not derived from the feature count or the projection. So the model admits a zero-feature collection with a finite extent, which OpenLayers never produces: an empty source always gives the `Infinity` extent (:164-165). For such an input, the single-file path would fit the view with no dialog, where the source always shows the extent error.
- `view.fit` and its 1000 ms animation are reduced to recording which layer the view is fitted to.
- `AddShapefileLayer` is assumed not to throw. In the source, a throw from `readFeatures` (:152) would come before the layer exists. The handler's `catch` would then show the generic error, with no layer added and `shapefileLayer` unchanged. A throw from `addLayer`, `getExtent` or `fit` (:162-166) would land in the `catch` after the layer was already attached.
- The async/await and `onload` ordering, and overlapping uploads, are not modelled. Each upload is one atomic step.
- `console.log`, `console.warn` and `console.error` are diagnostics only.
- The error dialog (`MatDialog`, `ErrorDialogComponent`) is modelled as a list of messages.
- A non-string `crs.properties.name` is not modelled. The name is a string or absent, and JavaScript truthiness is modelled as "not empty".
- `src/app/app.component.ts`, which builds the basemap and the view, is not part of this model. The map's constructor takes its initial layers instead.
