/** The snap tool's session state and the operations that read or update
    it: mode, snap layer, the geometry snapshot taken by `enable`, and the
    candidate search of `_prepareGeometries`. */
module Snap {
  import opened MapModel
  import opened Gathering
  import opened InspectExtent

  class SnapTool {
    /** `this.mode`: undefined until `setMode` is first called. */
    var mode: Option<string>
    /** `this._snapLayer`: the designated snap layer, if any. */
    var snapLayer: Option<SnapLayer>
    /** `this.allGeometries`: the snapshot taken by the last `enable`. */
    var allGeometries: Option<seq<Geometry>>
    /** `this.options.tolerance` after option merging; absent stands for
        `undefined`/`null`. */
    const tolerance: Option<real>

    constructor (tolerance: Option<real>)
      ensures this.tolerance == tolerance
      ensures mode == None && snapLayer == None && allGeometries == None
    {
      this.tolerance := tolerance;
      mode := None;
      snapLayer := None;
      allGeometries := None;
    }

    /** `getMode()`: the stored mode, absent until the first `setMode`. */
    function GetMode(): (m: Option<string>)
      reads this
      ensures m == mode
    {
      mode
    }

    /** `setMode(mode)`: afterwards `getMode()` returns `m`; nothing else changes. */
    method SetMode(m: string)
      modifies this`mode
      ensures GetMode() == Some(m)
      ensures snapLayer == old(snapLayer) && allGeometries == old(allGeometries)
    {
      mode := Some(m);
    }

    /** `setLayer(layer)`: a vector layer becomes the snap layer; anything
        else is ignored and the previous snap layer stays. */
    method SetLayer(layer: Layer)
      modifies this`snapLayer
      ensures layer.VectorLayer? ==> snapLayer == Some(layer)
      ensures !layer.VectorLayer? ==> snapLayer == old(snapLayer)
      ensures mode == old(mode) && allGeometries == old(allGeometries)
    {
      if layer.VectorLayer? {
        snapLayer := Some(layer);
      }
    }

    /** `_getAllGeometries()`: the snap layer's geometries if a snap layer is
        set, otherwise the geometries of the map's vector layers, layer after
        layer, accumulated by `concat`. */
    method GetAllGeometries(host: HostMap) returns (geometries: seq<Geometry>)
      ensures snapLayer.Some? ==> geometries == snapLayer.value.geometries
      ensures snapLayer.None? ==> geometries == Concat(VectorLayers(host.layers))
    {
      geometries := [];
      if snapLayer.Some? {
        geometries := snapLayer.value.geometries;
      } else {
        var layers := VectorLayers(host.layers);
        var i := 0;
        while i < |layers|
          invariant 0 <= i <= |layers|
          invariant geometries == Concat(layers[..i])
        {
          ConcatSnoc(layers, i);
          geometries := geometries + layers[i].geometries;
          i := i + 1;
        }
        assert layers[..i] == layers;
      }
    }

    /** `enable()`, state part: takes the snapshot of the gathered geometries. */
    method Enable(host: HostMap)
      modifies this`allGeometries
      ensures allGeometries == Some(Gather(snapLayer, host.layers))
      ensures mode == old(mode) && snapLayer == old(snapLayer)
    {
      var geometries := GetAllGeometries(host);
      allGeometries := Some(geometries);
    }

    /** `_toGeoJSON(geometries)`: each geometry's GeoJSON tagged with the
        geometry itself, in order; a value that is not an array yields the
        empty list. */
    static method ToGeoJSON<J>(geometries: Option<seq<Geometry>>, toGeoJSON: Geometry -> J)
      returns (features: seq<Feature<J>>)
      ensures geometries.None? ==> features == []
      ensures geometries.Some? ==> features == Tagged(geometries.value, toGeoJSON)
    {
      features := [];
      if geometries.Some? {
        var gs := geometries.value;
        var i := 0;
        while i < |gs|
          invariant 0 <= i <= |gs|
          invariant |features| == i
          invariant forall k :: 0 <= k < i ==> features[k] == Feature(toGeoJSON(gs[k]), gs[k])
        {
          features := features + [Feature(toGeoJSON(gs[i]), gs[i])];
          i := i + 1;
        }
      }
    }

    /** `_prepareGeometries(coordinate)`: null before any snapshot;
        otherwise the spatial index's answer (`search`, the index library)
        over the tagged snapshot for the inspect extent around the cursor. */
    method PrepareGeometries<J>(host: HostMap, coordinate: Coordinate, toGeoJSON: Geometry -> J,
                                search: (seq<Feature<J>>, Extent) -> seq<Feature<J>>)
      returns (found: Option<seq<Feature<J>>>)
      ensures allGeometries.None? ==> found == None
      ensures allGeometries.Some? ==>
        found == Some(search(Tagged(allGeometries.value, toGeoJSON), CreateInspectExtent(host, tolerance, coordinate)))
    {
      if allGeometries.Some? {
        var features := ToGeoJSON(allGeometries, toGeoJSON);
        var extent := CreateInspectExtent(host, tolerance, coordinate);
        found := Some(search(features, extent));
      } else {
        found := None;
      }
    }
  }
}
