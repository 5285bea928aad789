/** Values the snap tool receives from its host map library: coordinates,
    screen points, geometries, layers and the map itself. The host's
    projections are fields of arrow type, so the model never fixes how a
    coordinate is projected; it only fixes how the snap tool uses them. */
module MapModel {

  datatype Option<+T> = None | Some(value: T)

  /** A map coordinate (`maptalks.Coordinate`). */
  datatype Coordinate = Coordinate(x: real, y: real)

  /** A screen (container) point in pixels (`maptalks.Point`). */
  datatype Point = Point(x: real, y: real)

  /** A geometry on a layer; only its identity and its coordinate list
      (`getCoordinates()`) matter to the snap tool. */
  datatype Geometry = Geometry(id: nat, coordinates: seq<Coordinate>)

  /** A layer of the map: a vector layer lists its geometries
      (`getGeometries()`); any other layer, or any other value handed to
      the tool, is `OtherLayer`. */
  datatype Layer =
    | VectorLayer(id: nat, geometries: seq<Geometry>)
    | OtherLayer(id: nat)

  /** The only layers the tool accepts as its snap layer. */
  type SnapLayer = l: Layer | l.VectorLayer? witness VectorLayer(0, [])

  /** The host map as the tool sees it: its layers in map order, its current
      zoom (`getZoom()`) and its two projections at a given zoom
      (`coordinateToPoint`, `pointToCoordinate`). */
  datatype HostMap = HostMap(
    layers: seq<Layer>,
    zoom: real,
    coordinateToPoint: (Coordinate, real) -> Point,
    pointToCoordinate: (Point, real) -> Coordinate)

  /** Every layer of the sequence is a vector layer. */
  predicate AllVector(layers: seq<Layer>)
  {
    forall i :: 0 <= i < |layers| ==> layers[i].VectorLayer?
  }
}
