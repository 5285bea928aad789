# SnapTool (maptalks.snapto) — a verified model

`SnapTool` is a maptalks map tool that helps snap a moving cursor onto existing
vector geometries. This project models in Dafny the part of the tool that does
not depend on rendering or events:

- the session state: the snapping mode, the designated snap layer, the configured
  tolerance and the geometry snapshot taken by `enable`;
- how the tool gathers candidate geometries from the map (`_getAllGeometries`) and
  tags them as GeoJSON features that point back at their geometry (`_toGeoJSON`);
- the search window around the cursor (`_createInspectExtent`), built from the
  host map's two projections and the tolerance in screen pixels;
- the line equation through a segment (`_setEquation`) and the distance of a point
  to that line (`_distToPolyline`).

Files:

- `map_model.dfy`, module `MapModel`: coordinates, screen points, geometries, layers
  and the host map. The host's `getZoom`, `coordinateToPoint` and
  `pointToCoordinate` are fields of the `HostMap` value, so nothing about them is
  assumed beyond what the tool does with them.
- `gathering.dfy`, module `Gathering`: the vector-layer filter, the in-order
  concatenation of layer geometries, and the feature tagging, with their lemmas.
- `inspect_extent.dfy`, module `InspectExtent`: the tolerance default, the screen
  square around the cursor and the extent polygon.
- `line_equation.dfy`, module `LineEquation`: the line equation and the point-line
  distance over the reals.
- `snap_tool.dfy`, module `Snap`: class `SnapTool` with the fields the source updates
  in place (`mode`, `_snapLayer`, `allGeometries`) and its methods; the two loops of
  the source (`forEach` with `concat`, `forEach` with `push`) are `while` loops
  proved against `Gathering.Concat` and `Gathering.Tagged`.

Notes on what the code does, which the model follows:

- `getMode()` returns `this.mode`, which is undefined until `setMode` is called; the
  option default `mode: 'point'` (index.js:4-7) is never copied into it. The model starts with
  `mode == None`.
- Only a falsy tolerance (0 or undefined) becomes 10; a negative tolerance is used
  as given (`InspectExtent.EffectiveTolerance`).
- `_distToPolyline` measures the distance to the infinite line through the first two
  coordinates, not to the segment, and it is undefined for a vertical segment
  (`LineEquation.ExtensionOnLine` shows that points beyond either end of the segment
  get distance zero).
- `_prepareGeometries` tags the whole snapshot and builds the index anew on every
  call; only the snapshot itself is taken once, by `enable`.
- The extent ring lists four corners without repeating the first one at the end, so
  it is not a closed linear ring in the sense of section 3.1.6 of RFC 7946; the model
  keeps the four corners as the code builds them.

## Model

| member | source | states |
|---|---|---|
| `Snap.SnapTool.constructor` | index.js:10-14 | a new tool has no mode, no snap layer and no snapshot, and keeps the configured tolerance |
| `Snap.SnapTool.GetMode` | index.js:16-18 | returns the stored mode; absent until the first `setMode`, because the `'point'` option default is never copied into `this.mode` |
| `Snap.SnapTool.SetMode` | index.js:16-22 | after `setMode(m)`, `getMode()` returns `m`; the snap layer and the snapshot do not change |
| `Snap.SnapTool.SetLayer` | index.js:42-46 | a vector layer becomes the snap layer; any other value leaves the previous snap layer in place; mode and snapshot do not change |
| `Snap.SnapTool.GetAllGeometries` | index.js:121-135 | with a snap layer set, exactly that layer's geometries; otherwise the in-order concatenation of the geometries of the map's vector layers |
| `Snap.SnapTool.Enable` | index.js:29-35 | the snapshot becomes the gathered geometry list (never absent); mode and snap layer do not change |
| `Snap.SnapTool.ToGeoJSON` | index.js:137-147 | an array of geometries becomes its tagged feature list, one feature per geometry in order; a non-array yields the empty list |
| `Snap.SnapTool.PrepareGeometries` | index.js:48-61 | null before any snapshot; otherwise the index search over the tagged snapshot for the inspect extent around the cursor |
| `Gathering.VectorLayers` | index.js:127-129 | the layer filter keeps exactly the vector layers of the map and nothing else |
| `Gathering.ConcatMembership` | index.js:130-132 | a geometry is in the concatenation exactly when one of the listed layers holds it |
| `Gathering.GatheredInLayerOrder` | index.js:126-132 | gathering over two runs of layers is the first run's geometries followed by the second's |
| `Gathering.NonVectorContributesNothing` | index.js:127-132 | inserting a non-vector layer anywhere does not change the gathered list |
| `Gathering.NoVectorLayersGatherNothing` | index.js:122-134 | a map without vector layers gathers the empty list |
| `Gathering.GatheredMembership` | index.js:126-132 | a geometry is gathered exactly when some vector layer of the map holds it |
| `Gathering.Tagged` | index.js:137-147 | same length as the input; entry i is geometry i's GeoJSON with `obj` set to geometry i |
| `Gathering.ObjectsOfTagged` | index.js:140-144 | following the `obj` back-references of the features gives back the geometry list |
| `InspectExtent.EffectiveTolerance` | index.js:64 | 10 when the configured tolerance is 0 or absent, otherwise exactly the configured value; never 0 |
| `InspectExtent.ScreenSquare` | index.js:67-71 | four corners lefttop, righttop, rightbottom, leftbottom of an axis-aligned square of side 2t whose diagonals cross at the cursor's screen point |
| `InspectExtent.ScreenSquareCornersDistinct` | index.js:68-71 | with a non-zero tolerance the four screen corners are pairwise distinct |
| `InspectExtent.ExtentCornersDistinct` | index.js:63-79 | for an injective back-projection, the four ring corners are pairwise distinct, since the tolerance used is never 0 |
| `InspectExtent.CreateInspectExtent` | index.js:63-79 | one ring of exactly four corners; corner k is the back-projection, at the map's zoom, of screen corner k of the square around the cursor projected at that same zoom |
| `InspectExtent.ExtentCentredOnCursor` | index.js:63-79 | for an axis-aligned affine back-projection that maps the cursor's screen point back onto the cursor, the ring is a rectangle centred on the cursor with sides `2*sx*t` and `2*sy*t` |
| `LineEquation.SetEquation` | index.js:158-171 | for a non-vertical segment, `B = -1` and both coordinates it is built from satisfy `A*x + B*y + C = 0` |
| `LineEquation.OnLineIffCollinear` | index.js:158-171 | a point satisfies the equation exactly when it is collinear with the segment's two coordinates |
| `LineEquation.ExtensionOnLine` | index.js:158-171 | every point of the infinite line through the segment, beyond its ends included, satisfies the equation |
| `LineEquation.NormalAtLeastOne` | index.js:154 | the denominator's square `A^2 + B^2` is at least 1, so the division is defined |
| `LineEquation.DistToPolylineSquared` | index.js:149-156 | the squared distance is non-negative and is zero exactly when the point satisfies the line equation |
| `LineEquation.DistanceIsLowerBound` | index.js:149-156 | no point of the line is closer to the point than the computed distance |
| `LineEquation.DistanceIsAttained` | index.js:149-156 | the foot of the perpendicular lies on the line at exactly the computed distance |

## Left out

- `LineEquation.DistToPolylineSquared`: states the square of the value `_distToPolyline` returns (`(A*x+B*y+C)^2 / (A^2+B^2)`), because `Math.sqrt` has no counterpart over Dafny's reals; the value itself is the non-negative square root of it.
- Floating point: coordinates, tolerances and distances are reals; IEEE rounding, `NaN` (which is falsy and would also select the default tolerance) and infinities are not modelled.
- The vertical-segment case of `_setEquation` (division by zero at index.js:162, giving an infinite or NaN slope) and lines with fewer than two coordinates (a `TypeError` in the source) are excluded by the precondition `NonVertical`.
- The spatial index library (`geojson-rbush`: `load` and `search`, index.js:51-57) is a parameter `search` of `PrepareGeometries`; nothing is assumed about its answer.
- A geometry's own `toGeoJSON()` is a parameter of `ToGeoJSON`, `Tagged` and `PrepareGeometries`; the GeoJSON object is a type parameter.
- The host projections `coordinateToPoint` and `pointToCoordinate` and `getZoom` are fields of `HostMap`, left uninterpreted.
- `addTo`, `disable`, `_registerEvents`, the mousemove handler, the marker, `console.log` and `_snap` (index.js:24-27, 37-40, 81-108, 116-119) are rendering and event wiring. In `enable`, the guard before registering the handler always holds, because the gathered list is never null.
- `_findGeometry` (index.js:110-114) only computes the tolerance and calls `_prepareGeometries`, which ignores that extra argument; `PrepareGeometries` covers it.
- `_solveEquation` (index.js:173-177) is an unfinished routine that is never called and does not parse (it redeclares `B1` and `C1`).
- `SnapTool.mergeOptions` and the `MapTool` base class (index.js:10-14, 181) belong to the host framework; the constructor takes the merged tolerance option directly.
- The snap layer is stored as a value: geometries added to or removed from that layer after `setLayer` are not seen by the model's later `enable`, whereas the source reads the live layer object at `enable` time.
