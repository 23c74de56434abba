/**
 * The part of the OpenLayers map the upload component touches: the map's
 * layer list, each layer's visibility, and which layer the view was last
 * fitted to. Geometry, rendering and the fit animation are not modelled.
 */
module OpenLayers {

  /** Where a layer's content comes from: the basemap tiles or an uploaded collection. */
  datatype LayerSource =
    | TileSource(url: string)
    | VectorSource(projection: string, featureCount: nat, extentEmpty: bool)

  /** An OpenLayers layer; `setVisible` updates `visible` in place. */
  class Layer {
    const source: LayerSource
    var visible: bool

    /** A new layer is visible, as OpenLayers layers are by default. */
    constructor (source: LayerSource)
      ensures this.source == source && visible
    {
      this.source := source;
      visible := true;
    }

    method SetVisible(v: bool)
      modifies this
      ensures visible == v
    {
      visible := v;
    }
  }

  /** The shared map: its layers in drawing order and the layer the view is fitted to (null: the initial view). */
  class OlMap {
    var layers: seq<Layer>
    var fittedTo: Layer?

    constructor (layers: seq<Layer>)
      ensures this.layers == layers && fittedTo == null
    {
      this.layers := layers;
      fittedTo := null;
    }

    /** `map.addLayer(layer)`: appends; earlier layers stay. */
    method AddLayer(layer: Layer)
      modifies this
      ensures layers == old(layers) + [layer]
      ensures fittedTo == old(fittedTo)
    {
      layers := layers + [layer];
    }

    /** `map.getView().fit(extent)` for the extent of layer's source. */
    method FitTo(layer: Layer)
      modifies this
      ensures fittedTo == layer
      ensures layers == old(layers)
    {
      fittedTo := layer;
    }
  }
}
