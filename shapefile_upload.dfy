/**
 * `ShapefileUploadComponent`: the object that receives a selected file, shows
 * error dialogs, adds the uploaded layer to the shared map and toggles it.
 * Each upload is one atomic step; its effect is the pure outcome of the
 * `Upload` module applied to the component and the map.
 */
module ShapefileUpload {
  import opened Wrappers
  import opened Projection
  import opened Upload
  import opened OpenLayers

  const ExtentError: string := "Failed to calculate the extent of the shapefile. Check the CRS."

  class ShapefileUploadComponent {
    /** The map the application hands in (`@Input() map`; `map` is a Dafny keyword). */
    const olMap: OlMap
    /** The most recently uploaded layer; null until the first upload. */
    var shapefileLayer: Layer?
    var isLayerVisible: bool
    /** The messages of the error dialogs opened so far, oldest first. */
    var errors: seq<string>

    /** The layer the component points at is one of the map's layers and holds an upload. */
    ghost predicate Valid()
      reads this, olMap
    {
      shapefileLayer != null ==> shapefileLayer in olMap.layers && shapefileLayer.source.VectorSource?
    }

    constructor (olMap: OlMap)
      ensures this.olMap == olMap && Valid()
      ensures shapefileLayer == null && !isLayerVisible && errors == []
    {
      this.olMap := olMap;
      shapefileLayer := null;
      isLayerVisible := false;
      errors := [];
    }

    /**
     * The effect of `addShapefileLayer(geojson, projection)`: one new visible
     * layer is appended to the map and becomes `shapefileLayer`; the view is
     * fitted to it when its extent is finite, otherwise one error is shown and
     * the layer stays on the map.
     */
    twostate predicate LayerAdded(projection: string, geojson: Decoded)
      reads this, olMap, shapefileLayer
    {
      shapefileLayer != null && fresh(shapefileLayer) && shapefileLayer.visible
      && shapefileLayer.source == VectorSource(projection, geojson.featureCount, geojson.extentEmpty)
      && olMap.layers == old(olMap.layers) + [shapefileLayer]
      && (if geojson.extentEmpty
          then errors == old(errors) + [ExtentError] && olMap.fittedTo == old(olMap.fittedTo)
          else errors == old(errors) && olMap.fittedTo == shapefileLayer)
    }

    /**
     * The effect of an upload that ended in outcome: nothing for a silent end,
     * one error and nothing else for a failure, the layer step for a load.
     */
    twostate predicate Applied(outcome: Outcome)
      reads this, olMap, shapefileLayer
    {
      match outcome
      case Silent =>
        errors == old(errors) && shapefileLayer == old(shapefileLayer)
        && olMap.layers == old(olMap.layers) && olMap.fittedTo == old(olMap.fittedTo)
      case Failed(message) =>
        errors == old(errors) + [message] && shapefileLayer == old(shapefileLayer)
        && olMap.layers == old(olMap.layers) && olMap.fittedTo == old(olMap.fittedTo)
      case Loaded(projection, geojson) => LayerAdded(projection, geojson)
    }

    /** `showError`: opens one dialog with message. */
    method ShowError(message: string)
      modifies this`errors
      ensures errors == old(errors) + [message]
    {
      errors := errors + [message];
    }

    method AddShapefileLayer(geojson: Decoded, projection: string)
      requires Valid()
      modifies this`shapefileLayer, this`errors, olMap
      ensures Valid() && LayerAdded(projection, geojson)
    {
      var layer := new Layer(VectorSource(projection, geojson.featureCount, geojson.extentEmpty));
      shapefileLayer := layer;
      olMap.AddLayer(layer);
      if !geojson.extentEmpty {
        olMap.FitTo(layer);
      } else {
        ShowError(ExtentError);
      }
    }

    method HandleZipShapefile(zip: ZipInput)
      requires Valid() && (zip.Readable? ==> zip.archive.Valid())
      modifies this`shapefileLayer, this`errors, olMap
      ensures Valid() && Applied(ZipOutcome(zip))
    {
      if zip.Unreadable? {
        ShowError(ProcessingError);
        return;
      }
      var archive := zip.archive;
      var shpFiles := archive.ShpFiles();
      var dbfFiles := archive.DbfFiles();
      var prjFiles := archive.PrjFiles();
      if |shpFiles| != 1 {
        ShowError(ShpCountError);
        return;
      }
      // `dbfFiles[0]` is `undefined` without a .dbf, which indexes the member "undefined"
      var dbfName := if |dbfFiles| > 0 then dbfFiles[0] else UndefinedKey;
      if dbfName !in archive.texts {
        // `zip.files[dbfName]` is undefined: calling `.async` on it throws
        ShowError(ProcessingError);
        return;
      }
      var projection := Geographic;
      if |prjFiles| == 1 {
        var parsed := ParseProjection(archive.texts[prjFiles[0]]);
        if parsed.Some? {
          projection := parsed.value;
        }
      }
      if archive.read.None? {
        ShowError(ProcessingError);
        return;
      }
      var geojson := archive.read.value;
      if geojson.featureCount == 0 {
        ShowError(NoFeaturesError);
        return;
      }
      AddShapefileLayer(geojson, projection);
    }

    method HandleSingleShapefile(file: SingleRead)
      requires Valid()
      modifies this`shapefileLayer, this`errors, olMap
      ensures Valid() && Applied(SingleOutcome(file))
    {
      if file.ReaderFailed? {
        // `onload` never runs and there is no `onerror` handler
        return;
      }
      if file.read.None? {
        ShowError(ProcessingError);
        return;
      }
      var geojson := file.read.value;
      var detected := DetectProjection(geojson);
      var projection := if detected.Some? then detected.value else Geographic;
      AddShapefileLayer(geojson, projection);
    }

    /** `onFileSelected`: no file selected does nothing; otherwise the first file is handled. */
    method OnFileSelected(files: seq<SelectedFile>)
      requires Valid() && (|files| > 0 ==> WellFormed(files[0]))
      modifies this`shapefileLayer, this`errors, olMap
      ensures Valid()
      ensures |files| == 0 ==> Applied(Silent)
      ensures |files| > 0 ==> Applied(FileOutcome(files[0]))
    {
      if |files| > 0 {
        var file := files[0];
        if Dispatch(file.name) == ZipRoute {
          HandleZipShapefile(file.asZip);
        } else {
          HandleSingleShapefile(file.asShapefile);
        }
      }
    }

    /**
     * `toggleLayer`: nothing happens before the first upload; afterwards the
     * flag is negated and the current layer's visibility set to it.
     */
    method ToggleLayer()
      requires Valid()
      modifies this`isLayerVisible, shapefileLayer
      ensures Valid()
      ensures old(shapefileLayer) == null ==> isLayerVisible == old(isLayerVisible)
      ensures shapefileLayer != null ==>
                isLayerVisible == !old(isLayerVisible) && shapefileLayer.visible == isLayerVisible
      ensures shapefileLayer != null ==> shapefileLayer in olMap.layers
    {
      if shapefileLayer != null {
        isLayerVisible := !isLayerVisible;
        shapefileLayer.SetVisible(isLayerVisible);
      }
    }
  }

  /** Two toggles in a row restore the flag and the layer's visibility. */
  method ToggleTwice(c: ShapefileUploadComponent)
    requires c.Valid() && c.shapefileLayer != null
    modifies c, c.shapefileLayer
    ensures c.shapefileLayer == old(c.shapefileLayer) && c.isLayerVisible == old(c.isLayerVisible)
    ensures c.shapefileLayer.visible == old(c.isLayerVisible)
  {
    c.ToggleLayer();
    c.ToggleLayer();
  }

  /**
   * The flag starts false while a new layer starts visible, so the first toggle
   * after the first upload leaves the layer visible.
   */
  method FirstToggleKeepsLayerVisible(m: OlMap, geojson: Decoded) returns (c: ShapefileUploadComponent)
    modifies m
    ensures c.shapefileLayer != null && c.shapefileLayer.visible && c.isLayerVisible
  {
    c := new ShapefileUploadComponent(m);
    c.HandleSingleShapefile(Delivered(Some(geojson)));
    c.ToggleLayer();
  }

  /**
   * A second upload leaves the first layer on the map beneath the new one, and
   * the component forgets the first.
   */
  method SecondUploadKeepsFirstLayer(c: ShapefileUploadComponent, first: Decoded, second: Decoded)
    requires c.Valid()
    modifies c, c.olMap
    ensures c.shapefileLayer != null && |c.olMap.layers| == |old(c.olMap.layers)| + 2
    ensures c.olMap.layers[|old(c.olMap.layers)|] != c.shapefileLayer
    ensures c.olMap.layers[|c.olMap.layers| - 1] == c.shapefileLayer
  {
    c.HandleSingleShapefile(Delivered(Some(first)));
    c.HandleSingleShapefile(Delivered(Some(second)));
  }
}
