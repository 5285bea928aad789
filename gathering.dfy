/** The geometry lists the snap tool works on: which geometries it gathers
    from the map (`_getAllGeometries`) and how it tags each one as a GeoJSON
    feature pointing back at its geometry (`_toGeoJSON`). */
module Gathering {
  import opened MapModel

  /** The host's `map.getLayers(filter)` with the filter
      `layer instanceof VectorLayer`: exactly the vector layers; that they
      keep map order is `VectorLayersAppend`. */
  function VectorLayers(layers: seq<Layer>): (r: seq<Layer>)
    ensures AllVector(r)
    ensures |r| <= |layers|
    ensures forall l :: l in r <==> l in layers && l.VectorLayer?
  {
    if layers == [] then []
    else (if layers[0].VectorLayer? then [layers[0]] else []) + VectorLayers(layers[1..])
  }

  /** The geometries of the given vector layers, layer after layer. */
  function Concat(layers: seq<Layer>): seq<Geometry>
    requires AllVector(layers)
  {
    if layers == [] then [] else layers[0].geometries + Concat(layers[1..])
  }

  /** A geometry is in the concatenation exactly when one of the layers holds it. */
  lemma {:induction false} ConcatMembership(layers: seq<Layer>, g: Geometry)
    requires AllVector(layers)
    ensures g in Concat(layers) <==> exists i :: 0 <= i < |layers| && g in layers[i].geometries
  {
    if layers != [] {
      ConcatMembership(layers[1..], g);
      if exists i :: 1 <= i < |layers| && g in layers[i].geometries {
        var i :| 1 <= i < |layers| && g in layers[i].geometries;
        assert layers[1..][i - 1] == layers[i];
      }
      if exists i :: 0 <= i < |layers[1..]| && g in layers[1..][i].geometries {
        var i :| 0 <= i < |layers[1..]| && g in layers[1..][i].geometries;
        assert layers[1..][i] == layers[i + 1];
      }
    }
  }

  /** Appending one more layer appends its geometries. */
  lemma ConcatSnoc(layers: seq<Layer>, i: nat)
    requires AllVector(layers) && i < |layers|
    ensures AllVector(layers[..i]) && AllVector(layers[..i + 1])
    ensures Concat(layers[..i + 1]) == Concat(layers[..i]) + layers[i].geometries
  {
    assert layers[..i + 1] == layers[..i] + [layers[i]];
    ConcatAppend(layers[..i], [layers[i]]);
    assert Concat([layers[i]]) == layers[i].geometries + Concat([]);
  }

  /** What `_getAllGeometries` returns: the snap layer's geometries when a
      snap layer is set, otherwise those of every vector layer of the map. */
  function Gather(snapLayer: Option<SnapLayer>, layers: seq<Layer>): seq<Geometry>
  {
    match snapLayer
    case Some(l) => l.geometries
    case None => Concat(VectorLayers(layers))
  }

  lemma {:induction false} ConcatAppend(a: seq<Layer>, b: seq<Layer>)
    requires AllVector(a) && AllVector(b)
    ensures AllVector(a + b)
    ensures Concat(a + b) == Concat(a) + Concat(b)
  {
    assert AllVector(a + b) by {
      forall i | 0 <= i < |a + b| ensures (a + b)[i].VectorLayer? {
        if i < |a| { assert (a + b)[i] == a[i]; } else { assert (a + b)[i] == b[i - |a|]; }
      }
    }
    if a == [] {
      assert a + b == b;
    } else {
      assert (a + b)[1..] == a[1..] + b;
      ConcatAppend(a[1..], b);
    }
  }

  /** Filtering keeps map order: the filter of a concatenation is the
      concatenation of the filters. */
  lemma {:induction false} VectorLayersAppend(a: seq<Layer>, b: seq<Layer>)
    ensures VectorLayers(a + b) == VectorLayers(a) + VectorLayers(b)
  {
    if a == [] {
      assert a + b == b;
    } else {
      assert (a + b)[1..] == a[1..] + b;
      VectorLayersAppend(a[1..], b);
    }
  }

  /** Gathering over all layers keeps layer order: the geometries of the
      first layers come before those of the later ones. */
  lemma GatheredInLayerOrder(a: seq<Layer>, b: seq<Layer>)
    ensures Concat(VectorLayers(a + b)) == Concat(VectorLayers(a)) + Concat(VectorLayers(b))
  {
    VectorLayersAppend(a, b);
    ConcatAppend(VectorLayers(a), VectorLayers(b));
  }

  /** A layer that is not a vector layer contributes nothing, wherever it stands. */
  lemma NonVectorContributesNothing(a: seq<Layer>, l: Layer, b: seq<Layer>)
    requires !l.VectorLayer?
    ensures Concat(VectorLayers(a + [l] + b)) == Concat(VectorLayers(a + b))
  {
    VectorLayersAppend(a + [l], b);
    VectorLayersAppend(a, [l]);
    VectorLayersAppend(a, b);
    assert VectorLayers([l]) == [];
    assert VectorLayers(a + [l]) == VectorLayers(a);
  }

  /** A map without vector layers yields the empty list (not null). */
  lemma {:induction false} NoVectorLayersGatherNothing(layers: seq<Layer>)
    requires forall i :: 0 <= i < |layers| ==> !layers[i].VectorLayer?
    ensures Concat(VectorLayers(layers)) == []
  {
    if layers != [] {
      NoVectorLayersGatherNothing(layers[1..]);
    }
  }

  /** A geometry is gathered from the map exactly when some vector layer of
      the map holds it. */
  lemma GatheredMembership(layers: seq<Layer>, g: Geometry)
    ensures g in Concat(VectorLayers(layers)) <==>
      exists i :: 0 <= i < |layers| && layers[i].VectorLayer? && g in layers[i].geometries
  {
    var vs := VectorLayers(layers);
    ConcatMembership(vs, g);
    if g in Concat(vs) {
      var j :| 0 <= j < |vs| && g in vs[j].geometries;
      var l := vs[j];
      assert l in vs;
      assert l in layers;
      var i :| 0 <= i < |layers| && layers[i] == l;
      assert layers[i].VectorLayer? && g in layers[i].geometries;
    }
    if exists i :: 0 <= i < |layers| && layers[i].VectorLayer? && g in layers[i].geometries {
      var i :| 0 <= i < |layers| && layers[i].VectorLayer? && g in layers[i].geometries;
      var l := layers[i];
      assert l in layers;
      assert l in vs;
      var j :| 0 <= j < |vs| && vs[j] == l;
      assert g in vs[j].geometries;
    }
  }

  /** A geometry tagged for the spatial index: the geometry's own GeoJSON
      object with an extra `obj` property pointing back at the geometry. */
  datatype Feature<J> = Feature(geojson: J, obj: Geometry)

  /** `_toGeoJSON` over an array of geometries, with the host's
      `geo.toGeoJSON()` as a parameter. */
  function Tagged<J>(geometries: seq<Geometry>, toGeoJSON: Geometry -> J): (fs: seq<Feature<J>>)
    ensures |fs| == |geometries|
    ensures forall i :: 0 <= i < |geometries| ==> fs[i] == Feature(toGeoJSON(geometries[i]), geometries[i])
  {
    if geometries == [] then []
    else [Feature(toGeoJSON(geometries[0]), geometries[0])] + Tagged(geometries[1..], toGeoJSON)
  }

  /** The geometries the features point back at, in order. */
  function Objects<J>(fs: seq<Feature<J>>): seq<Geometry>
  {
    if fs == [] then [] else [fs[0].obj] + Objects(fs[1..])
  }

  /** Following the `obj` back-references of the tagged features gives back
      the original geometry list. */
  lemma {:induction false} ObjectsOfTagged<J>(geometries: seq<Geometry>, toGeoJSON: Geometry -> J)
    ensures Objects(Tagged(geometries, toGeoJSON)) == geometries
  {
    if geometries != [] {
      var fs := Tagged(geometries, toGeoJSON);
      assert fs[1..] == Tagged(geometries[1..], toGeoJSON);
      ObjectsOfTagged(geometries[1..], toGeoJSON);
    }
  }
}
