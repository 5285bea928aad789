/** The search window around the cursor (`_createInspectExtent`) and the
    tolerance it is built from. */
module InspectExtent {
  import opened MapModel

  /** The JavaScript falsiness of the configured tolerance: absent
      (`undefined`, `null`) or zero. */
  predicate Falsy(tolerance: Option<real>)
  {
    tolerance == None || tolerance == Some(0.0)
  }

  /** `(!options.tolerance) ? 10 : options.tolerance`: the tolerance in
      screen pixels. */
  function EffectiveTolerance(tolerance: Option<real>): (t: real)
    ensures Falsy(tolerance) ==> t == 10.0
    ensures !Falsy(tolerance) ==> t == tolerance.value
    ensures t != 0.0
  {
    if Falsy(tolerance) then 10.0 else tolerance.value
  }

  /** The corners of the `2t x 2t` screen square centred on `center`, in the
      order lefttop, righttop, rightbottom, leftbottom (screen y grows
      downwards). */
  function ScreenSquare(center: Point, t: real): (sq: seq<Point>)
    ensures |sq| == 4
    // both diagonals cross at the centre
    ensures sq[0].x + sq[2].x == 2.0 * center.x && sq[0].y + sq[2].y == 2.0 * center.y
    ensures sq[1].x + sq[3].x == 2.0 * center.x && sq[1].y + sq[3].y == 2.0 * center.y
    // top and bottom edges are horizontal, left and right edges vertical, each of length 2t
    ensures sq[0].y == sq[1].y && sq[2].y == sq[3].y && sq[3].y - sq[0].y == 2.0 * t
    ensures sq[0].x == sq[3].x && sq[1].x == sq[2].x && sq[1].x - sq[0].x == 2.0 * t
  {
    [Point(center.x - t, center.y - t), Point(center.x + t, center.y - t),
     Point(center.x + t, center.y + t), Point(center.x - t, center.y + t)]
  }

  /** With a non-zero tolerance the four screen corners are pairwise distinct. */
  lemma ScreenSquareCornersDistinct(center: Point, t: real, i: nat, j: nat)
    requires t != 0.0
    requires i < 4 && j < 4 && i != j
    ensures ScreenSquare(center, t)[i] != ScreenSquare(center, t)[j]
  {
  }

  /** The GeoJSON polygon feature handed to the spatial index search. */
  datatype Extent = Polygon(rings: seq<seq<Coordinate>>)

  /** `_createInspectExtent`: one ring of four map coordinates, the
      back-projections of the screen square around the cursor's screen
      point, all at the map's current zoom. */
  function CreateInspectExtent(host: HostMap, tolerance: Option<real>, coordinate: Coordinate): (e: Extent)
    ensures |e.rings| == 1 && |e.rings[0]| == 4
    ensures forall k :: 0 <= k < 4 ==>
      e.rings[0][k] == host.pointToCoordinate(
        ScreenSquare(host.coordinateToPoint(coordinate, host.zoom), EffectiveTolerance(tolerance))[k], host.zoom)
  {
    var t := EffectiveTolerance(tolerance);
    var zoom := host.zoom;
    var screenPoint := host.coordinateToPoint(coordinate, zoom);
    var lefttop := host.pointToCoordinate(Point(screenPoint.x - t, screenPoint.y - t), zoom);
    var righttop := host.pointToCoordinate(Point(screenPoint.x + t, screenPoint.y - t), zoom);
    var leftbottom := host.pointToCoordinate(Point(screenPoint.x - t, screenPoint.y + t), zoom);
    var rightbottom := host.pointToCoordinate(Point(screenPoint.x + t, screenPoint.y + t), zoom);
    Polygon([[lefttop, righttop, rightbottom, leftbottom]])
  }

  /** For a host whose back-projection at the current zoom is injective,
      the four corners of the extent are pairwise distinct, because the
      effective tolerance is never zero. */
  lemma ExtentCornersDistinct(host: HostMap, tolerance: Option<real>, coordinate: Coordinate, i: nat, j: nat)
    requires forall p: Point, q: Point ::
      host.pointToCoordinate(p, host.zoom) == host.pointToCoordinate(q, host.zoom) ==> p == q
    requires i < 4 && j < 4 && i != j
    ensures CreateInspectExtent(host, tolerance, coordinate).rings[0][i]
         != CreateInspectExtent(host, tolerance, coordinate).rings[0][j]
  {
    var sq := ScreenSquare(host.coordinateToPoint(coordinate, host.zoom), EffectiveTolerance(tolerance));
    ScreenSquareCornersDistinct(host.coordinateToPoint(coordinate, host.zoom), EffectiveTolerance(tolerance), i, j);
    assert sq[i] != sq[j];
  }

  /** For a host whose back-projection at the current zoom is axis-aligned
      and affine (`x = sx * px + ox`, `y = sy * py + oy`) and which projects
      the cursor back onto itself, the extent is a rectangle whose diagonals
      cross at the cursor and whose sides are `2 * sx * t` and `2 * sy * t`
      long. */
  lemma ExtentCentredOnCursor(host: HostMap, tolerance: Option<real>, coordinate: Coordinate,
                              sx: real, ox: real, sy: real, oy: real)
    requires forall p: Point :: host.pointToCoordinate(p, host.zoom) == Coordinate(sx * p.x + ox, sy * p.y + oy)
    requires host.pointToCoordinate(host.coordinateToPoint(coordinate, host.zoom), host.zoom) == coordinate
    ensures var r := CreateInspectExtent(host, tolerance, coordinate).rings[0];
      && r[0].x + r[2].x == 2.0 * coordinate.x && r[0].y + r[2].y == 2.0 * coordinate.y
      && r[1].x + r[3].x == 2.0 * coordinate.x && r[1].y + r[3].y == 2.0 * coordinate.y
      && r[0].y == r[1].y && r[2].y == r[3].y && r[0].x == r[3].x && r[1].x == r[2].x
      && r[1].x - r[0].x == 2.0 * sx * EffectiveTolerance(tolerance)
      && r[3].y - r[0].y == 2.0 * sy * EffectiveTolerance(tolerance)
  {
    var t := EffectiveTolerance(tolerance);
    var sp := host.coordinateToPoint(coordinate, host.zoom);
    var sq := ScreenSquare(sp, t);
    var r := CreateInspectExtent(host, tolerance, coordinate).rings[0];
    assert coordinate == Coordinate(sx * sp.x + ox, sy * sp.y + oy);
    assert r[0] == Coordinate(sx * (sp.x - t) + ox, sy * (sp.y - t) + oy) by {
      assert r[0] == host.pointToCoordinate(sq[0], host.zoom);
    }
    assert r[1] == Coordinate(sx * (sp.x + t) + ox, sy * (sp.y - t) + oy) by {
      assert r[1] == host.pointToCoordinate(sq[1], host.zoom);
    }
    assert r[2] == Coordinate(sx * (sp.x + t) + ox, sy * (sp.y + t) + oy) by {
      assert r[2] == host.pointToCoordinate(sq[2], host.zoom);
    }
    assert r[3] == Coordinate(sx * (sp.x - t) + ox, sy * (sp.y + t) + oy) by {
      assert r[3] == host.pointToCoordinate(sq[3], host.zoom);
    }
    AffineAroundCentre(sx, sp.x, t, ox);
    AffineAroundCentre(sy, sp.y, t, oy);
  }

  /** An affine map sends the two ends of `[c - t, c + t]` to points centred
      on the image of `c`, `2 * s * t` apart. */
  lemma AffineAroundCentre(s: real, c: real, t: real, o: real)
    ensures (s * (c - t) + o) + (s * (c + t) + o) == 2.0 * (s * c + o)
    ensures (s * (c + t) + o) - (s * (c - t) + o) == 2.0 * s * t
  {
  }
}
