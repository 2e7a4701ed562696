/**
 * GeoJSON (RFC 7946) objects and their conversion into geographic shapes.
 *
 * Positions (section 3.1.1 of RFC 7946) become points and the endpoints
 * of straight segments; a LineString becomes an open spline, each Polygon
 * ring a closed spline, a Polygon a path of rings, the Multi* kinds and
 * GeometryCollection sets, a Feature the shape of its geometry (or none)
 * and a FeatureCollection the list of its features' shapes. Coordinates
 * are only copied, never computed on.
 *
 * The runtime type guards, which inspect untyped values, are in the
 * second half of the module.
 */
module GeoJson {
  import opened Numbers
  import opened Results
  import opened JsValues
  import GeoPoints

  type GeoPoint = GeoPoints.GeoPoint

  // ---------------------------------------------------------------------
  // Shapes

  /** A straight segment from (lng0, lat0) to (lng1, lat1). */
  datatype GeoSegment = GeoSegment(lng0: Num, lat0: Num, lng1: Num, lat1: Num)

  /** A sequence of curves, open or closed. */
  datatype GeoSpline = GeoSpline(curves: seq<GeoSegment>, closed: bool)

  /** `GeoSpline.empty()`. */
  const EmptySpline := GeoSpline([], false)

  /** A sequence of splines. */
  datatype GeoPath = GeoPath(splines: seq<GeoSpline>)

  /** The shapes a conversion produces; `SetShape` is a `GeoSet`. */
  datatype GeoShape =
    | PointShape(point: GeoPoint)
    | SplineShape(spline: GeoSpline)
    | PathShape(path: GeoPath)
    | SetShape(shapes: seq<GeoShape>)

  // ---------------------------------------------------------------------
  // GeoJSON objects, as their declared types describe them

  /** A position: longitude, latitude and an optional altitude. */
  datatype Position = Position(lng: Num, lat: Num, alt: Option<Num>)

  const GeometryTags: set<string> :=
    {"Point", "MultiPoint", "LineString", "MultiLineString", "Polygon", "MultiPolygon", "GeometryCollection"}

  const ObjectTags: set<string> := GeometryTags + {"Feature", "FeatureCollection"}

  /** The tag of an object that claims to be GeoJSON but is of no known kind. */
  type ForeignTag = t: string | t !in ObjectTags witness "Topology"

  datatype Geometry =
    | Point(position: Position)
    | MultiPoint(positions: seq<Position>)
    | LineString(positions: seq<Position>)
    | MultiLineString(lineStrings: seq<seq<Position>>)
    | Polygon(rings: seq<seq<Position>>)
    | MultiPolygon(polygons: seq<seq<seq<Position>>>)
    | GeometryCollection(geometries: seq<Geometry>)
    | ForeignGeometry(tag: ForeignTag)

  /** A Feature; its geometry may be null (section 3.2 of RFC 7946). */
  datatype Feature = Feature(geometry: Option<Geometry>)

  datatype GeoJsonObject =
    | GeometryObject(geometry: Geometry)
    | FeatureObject(feature: Feature)
    | FeatureCollectionObject(features: seq<Feature>)

  /** The `type` member of a geometry. */
  function Tag(g: Geometry): (t: string)
    ensures g.ForeignGeometry? <==> t !in GeometryTags
  {
    match g
    case Point(_) => "Point"
    case MultiPoint(_) => "MultiPoint"
    case LineString(_) => "LineString"
    case MultiLineString(_) => "MultiLineString"
    case Polygon(_) => "Polygon"
    case MultiPolygon(_) => "MultiPolygon"
    case GeometryCollection(_) => "GeometryCollection"
    case ForeignGeometry(t) => t
  }

  /** What the dispatchers throw for an unknown tag: `"" + object` of a plain object. */
  datatype TypeError = TypeError(message: string)

  const ObjectText := "[object Object]"

  /** What `GeoJson.toShape` returns: a shape, null, or a list of shapes and nulls. */
  datatype Converted = Shape(shape: GeoShape) | NoShape | Shapes(shapes: seq<Option<GeoShape>>)

  // ---------------------------------------------------------------------
  // What the conversions compute

  /** A position as a point: only elements 0 and 1 are kept. */
  function PointOf(p: Position): (q: GeoPoint)
    ensures q.lng == p.lng && q.lat == p.lat
  {
    GeoPoints.GeoPoint(p.lng, p.lat)
  }

  function SegmentBetween(a: Position, b: Position): GeoSegment {
    GeoSegment(a.lng, a.lat, b.lng, b.lat)
  }

  /** The segments joining each position to the next. */
  function Segments(ps: seq<Position>): (r: seq<GeoSegment>)
    requires |ps| > 0
    ensures |r| == |ps| - 1
    ensures forall i :: 0 <= i < |r| ==> r[i] == SegmentBetween(ps[i], ps[i + 1])
  {
    seq(|ps| - 1, i requires 0 <= i < |ps| - 1 => SegmentBetween(ps[i], ps[i + 1]))
  }

  /** The spline of a line string or ring: empty for no positions. */
  function SplineOf(ps: seq<Position>, closed: bool): (s: GeoSpline)
    ensures |ps| == 0 ==> s == EmptySpline
    ensures |ps| > 0 ==> s.closed == closed && |s.curves| == |ps| - 1
  {
    if |ps| == 0 then EmptySpline else GeoSpline(Segments(ps), closed)
  }

  function PointsOf(ps: seq<Position>): (r: seq<GeoPoint>)
    ensures |r| == |ps| && forall i :: 0 <= i < |ps| ==> r[i] == PointOf(ps[i])
  {
    seq(|ps|, i requires 0 <= i < |ps| => PointOf(ps[i]))
  }

  function SplinesOf(lss: seq<seq<Position>>, closed: bool): (r: seq<GeoSpline>)
    ensures |r| == |lss| && forall i :: 0 <= i < |lss| ==> r[i] == SplineOf(lss[i], closed)
  {
    seq(|lss|, i requires 0 <= i < |lss| => SplineOf(lss[i], closed))
  }

  function PolygonOf(rings: seq<seq<Position>>): (path: GeoPath)
    ensures |path.splines| == |rings|
    ensures forall i :: 0 <= i < |rings| ==> path.splines[i] == SplineOf(rings[i], true)
  {
    GeoPath(SplinesOf(rings, true))
  }

  function PolygonsOf(polygons: seq<seq<seq<Position>>>): (r: seq<GeoPath>)
    ensures |r| == |polygons| && forall i :: 0 <= i < |polygons| ==> r[i] == PolygonOf(polygons[i])
  {
    seq(|polygons|, i requires 0 <= i < |polygons| => PolygonOf(polygons[i]))
  }

  function PointShapes(points: seq<GeoPoint>): seq<GeoShape> {
    seq(|points|, i requires 0 <= i < |points| => PointShape(points[i]))
  }

  function SplineShapes(splines: seq<GeoSpline>): seq<GeoShape> {
    seq(|splines|, i requires 0 <= i < |splines| => SplineShape(splines[i]))
  }

  function PathShapes(paths: seq<GeoPath>): seq<GeoShape> {
    seq(|paths|, i requires 0 <= i < |paths| => PathShape(paths[i]))
  }

  /** `GeoJsonGeometry.toShape`: dispatch on the tag; an unknown tag throws. */
  function GeometryShape(g: Geometry): (r: Result<GeoShape, TypeError>)
    ensures Tag(g) !in GeometryTags ==> r == Failure(TypeError(ObjectText))
    ensures !g.GeometryCollection? && Tag(g) in GeometryTags ==> r.Ok?
    decreases g, 1
  {
    match g
    case Point(p) => Ok(PointShape(PointOf(p)))
    case MultiPoint(ps) => Ok(SetShape(PointShapes(PointsOf(ps))))
    case LineString(ps) => Ok(SplineShape(SplineOf(ps, false)))
    case MultiLineString(lss) => Ok(SetShape(SplineShapes(SplinesOf(lss, false))))
    case Polygon(rings) => Ok(PathShape(PolygonOf(rings)))
    case MultiPolygon(polygons) => Ok(SetShape(PathShapes(PolygonsOf(polygons))))
    case GeometryCollection(gs) =>
      (match CollectionShapes(g, gs)
       case Ok(shapes) => Ok(SetShape(shapes))
       case Failure(e) => Failure(e))
    case ForeignGeometry(_) => Failure(TypeError(ObjectText))
  }

  /** The shapes of the geometries `gs` of the collection `c`, in order; the first failure is thrown. */
  function CollectionShapes(c: Geometry, gs: seq<Geometry>): (r: Result<seq<GeoShape>, TypeError>)
    requires forall k :: 0 <= k < |gs| ==> gs[k] < c
    ensures r.Ok? ==> |r.value| == |gs|
    decreases c, 0, |gs|
  {
    if gs == [] then Ok([])
    else
      match GeometryShape(gs[0])
      case Failure(e) => Failure(e)
      case Ok(first) =>
        match CollectionShapes(c, gs[1..])
        case Failure(e) => Failure(e)
        case Ok(rest) => Ok([first] + rest)
  }

  /** `GeoJsonFeature.toShape`: null for a null geometry, else the geometry's shape. */
  function FeatureShape(f: Feature): (r: Result<Option<GeoShape>, TypeError>)
    ensures f.geometry.None? ==> r == Ok(None)
    ensures r.Ok? && r.value.Some? ==> f.geometry.Some? && GeometryShape(f.geometry.value) == Ok(r.value.value)
  {
    match f.geometry
    case None => Ok(None)
    case Some(g) =>
      (match GeometryShape(g)
       case Ok(s) => Ok(Some(s))
       case Failure(e) => Failure(e))
  }

  /** `GeoJsonFeatureCollection.toShapes`: one shape or null per feature, in order. */
  function FeatureShapes(fs: seq<Feature>): (r: Result<seq<Option<GeoShape>>, TypeError>)
    ensures r.Ok? ==> |r.value| == |fs|
  {
    if fs == [] then Ok([])
    else
      match FeatureShape(fs[0])
      case Failure(e) => Failure(e)
      case Ok(first) =>
        match FeatureShapes(fs[1..])
        case Failure(e) => Failure(e)
        case Ok(rest) => Ok([first] + rest)
  }

  /** `GeoJson.toShape`: dispatch on the tag of any GeoJSON object. */
  function ObjectShape(o: GeoJsonObject): (r: Result<Converted, TypeError>)
    ensures o.GeometryObject? ==> (r.Ok? <==> GeometryShape(o.geometry).Ok?)
    ensures o.GeometryObject? && r.Ok? ==> r.value == Shape(GeometryShape(o.geometry).value)
    ensures o.FeatureObject? ==> (r.Ok? <==> FeatureShape(o.feature).Ok?)
    ensures o.FeatureObject? && r.Ok? ==>
      r.value == (if FeatureShape(o.feature).value.Some? then Shape(FeatureShape(o.feature).value.value) else NoShape)
    ensures o.FeatureCollectionObject? ==> (r.Ok? <==> FeatureShapes(o.features).Ok?)
    ensures o.FeatureCollectionObject? && r.Ok? ==> r.value == Shapes(FeatureShapes(o.features).value)
  {
    match o
    case GeometryObject(g) =>
      (match GeometryShape(g)
       case Ok(s) => Ok(Shape(s))
       case Failure(e) => Failure(e))
    case FeatureObject(f) =>
      (match FeatureShape(f)
       case Ok(Some(s)) => Ok(Shape(s))
       case Ok(None) => Ok(NoShape)
       case Failure(e) => Failure(e))
    case FeatureCollectionObject(fs) =>
      (match FeatureShapes(fs)
       case Ok(shapes) => Ok(Shapes(shapes))
       case Failure(e) => Failure(e))
  }

  // ---------------------------------------------------------------------
  // The conversions, filling fresh arrays in loops

  /**
   * The spline of a line string or ring, built segment by segment while
   * carrying the previous position's coordinates.
   */
  method ToSpline(ps: seq<Position>, closed: bool) returns (spline: GeoSpline)
    ensures spline == SplineOf(ps, closed)
  {
    var n := |ps|;
    if n > 0 {
      var curves := new GeoSegment[n - 1];
      var position := ps[0];
      var lng, lat := position.lng, position.lat;
      for i := 1 to n
        invariant lng == ps[i - 1].lng && lat == ps[i - 1].lat
        invariant forall k :: 0 <= k < i - 1 ==> curves[k] == SegmentBetween(ps[k], ps[k + 1])
      {
        position := ps[i];
        curves[i - 1] := GeoSegment(lng, lat, position.lng, position.lat);
        lng, lat := position.lng, position.lat;
      }
      spline := GeoSpline(curves[..], closed);
    } else {
      spline := EmptySpline;
    }
  }

  /** `GeoJsonPoint.toShape`. */
  method PointToShape(position: Position) returns (point: GeoPoint)
    ensures point == PointOf(position)
  {
    point := GeoPoints.GeoPoint(position.lng, position.lat);
  }

  /** `GeoJsonMultiPoint.toShape`: one point per position, in order. */
  method MultiPointToShape(ps: seq<Position>) returns (points: seq<GeoPoint>)
    ensures points == PointsOf(ps)
  {
    var shapes := new GeoPoint[|ps|];
    for i := 0 to |ps|
      invariant forall k :: 0 <= k < i ==> shapes[k] == PointOf(ps[k])
    {
      var position := ps[i];
      shapes[i] := GeoPoints.GeoPoint(position.lng, position.lat);
    }
    points := shapes[..];
  }

  /** `GeoJsonMultiLineString.toShape`: one open spline per line string, in order. */
  method MultiLineStringToShape(lss: seq<seq<Position>>) returns (splines: seq<GeoSpline>)
    ensures splines == SplinesOf(lss, false)
  {
    var shapes := new GeoSpline[|lss|];
    for i := 0 to |lss|
      invariant forall k :: 0 <= k < i ==> shapes[k] == SplineOf(lss[k], false)
    {
      shapes[i] := ToSpline(lss[i], false);
    }
    splines := shapes[..];
  }

  /** `GeoJsonPolygon.toShape`: one closed spline per ring, in order. */
  method PolygonToShape(rings: seq<seq<Position>>) returns (path: GeoPath)
    ensures path == PolygonOf(rings)
  {
    var splines := new GeoSpline[|rings|];
    for i := 0 to |rings|
      invariant forall k :: 0 <= k < i ==> splines[k] == SplineOf(rings[k], true)
    {
      splines[i] := ToSpline(rings[i], true);
    }
    path := GeoPath(splines[..]);
  }

  /** `GeoJsonMultiPolygon.toShape`: one path per polygon, in order. */
  method MultiPolygonToShape(polygons: seq<seq<seq<Position>>>) returns (paths: seq<GeoPath>)
    ensures paths == PolygonsOf(polygons)
  {
    var shapes := new GeoPath[|polygons|];
    for i := 0 to |polygons|
      invariant forall k :: 0 <= k < i ==> shapes[k] == PolygonOf(polygons[k])
    {
      shapes[i] := PolygonToShape(polygons[i]);
    }
    paths := shapes[..];
  }

  /** `GeoJsonGeometry.toShape`, with `GeoJsonGeometryCollection.toShape` for collections. */
  method GeometryToShape(g: Geometry) returns (r: Result<GeoShape, TypeError>)
    ensures r == GeometryShape(g)
    decreases g
  {
    match g {
      case Point(p) =>
        var point := PointToShape(p);
        r := Ok(PointShape(point));
      case MultiPoint(ps) =>
        var points := MultiPointToShape(ps);
        r := Ok(SetShape(PointShapes(points)));
      case LineString(ps) =>
        var spline := ToSpline(ps, false);
        r := Ok(SplineShape(spline));
      case MultiLineString(lss) =>
        var splines := MultiLineStringToShape(lss);
        r := Ok(SetShape(SplineShapes(splines)));
      case Polygon(rings) =>
        var path := PolygonToShape(rings);
        r := Ok(PathShape(path));
      case MultiPolygon(polygons) =>
        var paths := MultiPolygonToShape(polygons);
        r := Ok(SetShape(PathShapes(paths)));
      case GeometryCollection(gs) =>
        var shapes := new GeoShape[|gs|](_ => SetShape([]));
        var i := 0;
        assert gs[0..] == gs;
        PrependNothing(CollectionShapes(g, gs));
        while i < |gs|
          invariant i <= |gs|
          invariant CollectionShapes(g, gs) == PrependShapes(shapes[..i], CollectionShapes(g, gs[i..]))
        {
          var s := GeometryToShape(gs[i]);
          if s.Failure? {
            CollectionFailsAt(g, gs, i);
            r := Failure(s.error);
            return;
          }
          CollectionStep(g, gs, i);
          shapes[i] := s.value;
          assert shapes[..i + 1] == shapes[..i] + [s.value];
          PrependAppend(shapes[..i], s.value, CollectionShapes(g, gs[i + 1..]));
          i := i + 1;
        }
        assert gs[i..] == [];
        assert CollectionShapes(g, gs[i..]) == Ok([]);
        assert shapes[..i] + [] == shapes[..i] == shapes[..];
        assert CollectionShapes(g, gs) == Ok(shapes[..]);
        r := Ok(SetShape(shapes[..]));
      case ForeignGeometry(_) =>
        r := Failure(TypeError(ObjectText));
    }
  }

  /** `prefix` put in front of the shapes of a successful result. */
  function PrependShapes(prefix: seq<GeoShape>, r: Result<seq<GeoShape>, TypeError>): Result<seq<GeoShape>, TypeError> {
    match r
    case Ok(rest) => Ok(prefix + rest)
    case Failure(e) => Failure(e)
  }

  lemma PrependNothing(r: Result<seq<GeoShape>, TypeError>)
    ensures PrependShapes([], r) == r
  {
    if r.Ok? {
      assert [] + r.value == r.value;
    }
  }

  lemma PrependAppend(prefix: seq<GeoShape>, s: GeoShape, r: Result<seq<GeoShape>, TypeError>)
    ensures PrependShapes(prefix + [s], r) == PrependShapes(prefix, PrependShapes([s], r))
  {
    if r.Ok? {
      assert prefix + [s] + r.value == prefix + ([s] + r.value);
    }
  }

  lemma CollectionStep(c: Geometry, gs: seq<Geometry>, i: nat)
    requires c.GeometryCollection? && gs == c.geometries
    requires i < |gs| && GeometryShape(gs[i]).Ok?
    ensures CollectionShapes(c, gs[i..]) == PrependShapes([GeometryShape(gs[i]).value], CollectionShapes(c, gs[i + 1..]))
  {
    assert gs[i..][0] == gs[i];
    assert gs[i..][1..] == gs[i + 1..];
  }

  lemma CollectionFailsAt(c: Geometry, gs: seq<Geometry>, i: nat)
    requires c.GeometryCollection? && gs == c.geometries
    requires i < |gs| && GeometryShape(gs[i]).Failure?
    ensures CollectionShapes(c, gs[i..]) == Failure(GeometryShape(gs[i]).error)
  {
    assert gs[i..][0] == gs[i];
  }

  // ---------------------------------------------------------------------
  // Properties of the conversions

  /** The point where a segment starts and the point where it ends. */
  function Start(c: GeoSegment): GeoPoint { GeoPoints.GeoPoint(c.lng0, c.lat0) }
  function End(c: GeoSegment): GeoPoint { GeoPoints.GeoPoint(c.lng1, c.lat1) }

  /** The positions a non-empty run of segments passes through: the first start, then every end. */
  function Vertices(curves: seq<GeoSegment>): (r: seq<GeoPoint>)
    requires |curves| > 0
    ensures |r| == |curves| + 1
  {
    [Start(curves[0])] + seq(|curves|, i requires 0 <= i < |curves| => End(curves[i]))
  }

  /**
   * A LineString of n >= 1 positions becomes an open spline of n - 1
   * segments; segment i runs from position i to position i + 1, so each
   * segment starts where the previous one ends.
   */
  lemma LineStringSpline(ps: seq<Position>)
    requires |ps| > 0
    ensures var s := SplineOf(ps, false);
      && !s.closed && |s.curves| == |ps| - 1
      && (forall i :: 0 <= i < |s.curves| ==>
            Start(s.curves[i]) == PointOf(ps[i]) && End(s.curves[i]) == PointOf(ps[i + 1]))
      && (forall i :: 0 < i < |s.curves| ==> Start(s.curves[i]) == End(s.curves[i - 1]))
  {
  }

  /**
   * With at least two positions nothing but the altitudes is lost: the
   * positions, as points, are the vertices of the spline.
   */
  lemma SplineVerticesRoundTrip(ps: seq<Position>, closed: bool)
    requires |ps| >= 2
    ensures |SplineOf(ps, closed).curves| > 0
    ensures Vertices(SplineOf(ps, closed).curves) == PointsOf(ps)
  {
    var cs := SplineOf(ps, closed).curves;
    forall i | 0 <= i < |ps|
      ensures Vertices(cs)[i] == PointsOf(ps)[i]
    {
      if i > 0 {
        assert Vertices(cs)[i] == End(cs[i - 1]);
      }
    }
  }

  /**
   * An empty LineString or ring becomes the empty spline. A single position
   * gives no segment either: as a LineString it becomes the empty spline,
   * as a ring a closed spline without curves.
   */
  lemma FewPositionsGiveNoSegments(p: Position)
    ensures SplineOf([], false) == EmptySpline && SplineOf([], true) == EmptySpline
    ensures SplineOf([p], false) == EmptySpline
    ensures SplineOf([p], true) == GeoSpline([], true) != EmptySpline
  {
  }

  /** A Polygon becomes a path with one closed spline per ring, in ring order. */
  lemma PolygonRings(rings: seq<seq<Position>>)
    ensures GeometryShape(Polygon(rings)).Ok?
    ensures var path := GeometryShape(Polygon(rings)).value.path;
      && |path.splines| == |rings|
      && forall i :: 0 <= i < |rings| ==>
           path.splines[i] == SplineOf(rings[i], true)
           && (|rings[i]| > 0 ==> path.splines[i].closed && |path.splines[i].curves| == |rings[i]| - 1)
  {
  }

  /**
   * The Multi* kinds keep the number and the order of their members; a
   * point keeps only the longitude and latitude of its position.
   */
  lemma MultiKindsPreserveOrder(ps: seq<Position>, lss: seq<seq<Position>>, polygons: seq<seq<seq<Position>>>)
    ensures var s := GeometryShape(MultiPoint(ps)).value.shapes;
      |s| == |ps| && forall i :: 0 <= i < |ps| ==> s[i] == PointShape(GeoPoints.GeoPoint(ps[i].lng, ps[i].lat))
    ensures var s := GeometryShape(MultiLineString(lss)).value.shapes;
      |s| == |lss| && forall i :: 0 <= i < |lss| ==> s[i] == SplineShape(SplineOf(lss[i], false))
    ensures var s := GeometryShape(MultiPolygon(polygons)).value.shapes;
      |s| == |polygons| && forall i :: 0 <= i < |polygons| ==> s[i] == PathShape(PolygonOf(polygons[i]))
  {
  }

  /** The altitude of a position never reaches the point. */
  lemma PointDropsAltitude(lng: Num, lat: Num, alt: Num)
    ensures GeometryShape(Point(Position(lng, lat, Some(alt)))) == GeometryShape(Point(Position(lng, lat, None)))
    ensures GeometryShape(Point(Position(lng, lat, Some(alt)))) == Ok(PointShape(GeoPoints.GeoPoint(lng, lat)))
  {
  }

  /** A geometry, or a collection somewhere inside it, of no known kind. */
  predicate HasForeign(g: Geometry)
    decreases g
  {
    match g
    case ForeignGeometry(_) => true
    case GeometryCollection(gs) => exists k :: 0 <= k < |gs| && HasForeign(gs[k])
    case _ => false
  }

  /**
   * A GeometryCollection keeps the number and order of its geometries,
   * converting each in turn, and throws as soon as one of them throws.
   */
  lemma {:induction false} CollectionShapesInOrder(c: Geometry, gs: seq<Geometry>)
    requires forall k :: 0 <= k < |gs| ==> gs[k] < c
    ensures CollectionShapes(c, gs).Ok? <==> forall k :: 0 <= k < |gs| ==> GeometryShape(gs[k]).Ok?
    ensures CollectionShapes(c, gs).Ok? ==>
      forall k :: 0 <= k < |gs| ==> CollectionShapes(c, gs).value[k] == GeometryShape(gs[k]).value
    decreases |gs|
  {
    if gs != [] {
      CollectionShapesInOrder(c, gs[1..]);
      assert forall k :: 1 <= k < |gs| ==> gs[1..][k - 1] == gs[k];
    }
  }

  /** Conversion throws exactly when the geometry holds one of no known kind. */
  lemma {:induction false} GeometryShapeFailsIffForeign(g: Geometry)
    ensures GeometryShape(g).Failure? <==> HasForeign(g)
    decreases g
  {
    match g
    case GeometryCollection(gs) =>
      CollectionShapesInOrder(g, gs);
      forall k | 0 <= k < |gs| ensures GeometryShape(gs[k]).Failure? <==> HasForeign(gs[k]) {
        GeometryShapeFailsIffForeign(gs[k]);
      }
    case _ =>
  }

  /** A Feature with null geometry converts to null; otherwise to its geometry's shape. */
  lemma FeatureShapeOfGeometry(f: Feature)
    ensures f.geometry.None? ==> FeatureShape(f) == Ok(None)
    ensures f.geometry.Some? && GeometryShape(f.geometry.value).Ok? ==>
      FeatureShape(f) == Ok(Some(GeometryShape(f.geometry.value).value))
    ensures f.geometry.Some? && GeometryShape(f.geometry.value).Failure? ==> FeatureShape(f).Failure?
  {
  }

  /** A FeatureCollection keeps the number and order of its features. */
  lemma {:induction false} FeatureShapesInOrder(fs: seq<Feature>)
    ensures FeatureShapes(fs).Ok? <==> forall k :: 0 <= k < |fs| ==> FeatureShape(fs[k]).Ok?
    ensures FeatureShapes(fs).Ok? ==>
      forall k :: 0 <= k < |fs| ==> FeatureShapes(fs).value[k] == FeatureShape(fs[k]).value
  {
    if fs != [] {
      FeatureShapesInOrder(fs[1..]);
      assert forall k :: 1 <= k < |fs| ==> fs[1..][k - 1] == fs[k];
    }
  }

  /**
   * `GeoJson.toShape` dispatches on the kind of object: a geometry to its
   * shape, a feature to its shape or null, a collection to its list; it
   * throws only for an object of no known kind.
   */
  lemma ObjectShapeDispatch(o: GeoJsonObject)
    ensures o.GeometryObject? ==>
      (ObjectShape(o).Failure? <==> HasForeign(o.geometry))
      && (ObjectShape(o).Ok? ==> ObjectShape(o).value == Shape(GeometryShape(o.geometry).value))
    ensures o.FeatureObject? && o.feature.geometry.None? ==> ObjectShape(o) == Ok(NoShape)
    ensures o.FeatureObject? && o.feature.geometry.Some? ==>
      (ObjectShape(o).Failure? <==> HasForeign(o.feature.geometry.value))
      && (ObjectShape(o).Ok? ==> ObjectShape(o).value == Shape(GeometryShape(o.feature.geometry.value).value))
    ensures o.FeatureCollectionObject? ==>
      (ObjectShape(o).Ok? <==> forall k :: 0 <= k < |o.features| ==> FeatureShape(o.features[k]).Ok?)
    ensures o.FeatureCollectionObject? && ObjectShape(o).Ok? ==>
      && |ObjectShape(o).value.shapes| == |o.features|
      && forall k :: 0 <= k < |o.features| ==> ObjectShape(o).value.shapes[k] == FeatureShape(o.features[k]).value
  {
    match o
    case GeometryObject(g) => GeometryShapeFailsIffForeign(g);
    case FeatureObject(f) =>
      if f.geometry.Some? {
        GeometryShapeFailsIffForeign(f.geometry.value);
      }
    case FeatureCollectionObject(fs) => FeatureShapesInOrder(fs);
  }

  // ---------------------------------------------------------------------
  // Runtime type guards on untyped values

  const CoordinateTags: set<string> :=
    {"Point", "MultiPoint", "LineString", "MultiLineString", "Polygon", "MultiPolygon"}

  /** `object.type === tag`. */
  predicate HasTag(v: JsValue, tag: string) {
    Get(v, "type") == Str(tag)
  }

  /**
   * The guards `GeoJsonPoint.is`, `GeoJsonMultiPoint.is`, `GeoJsonLineString.is`,
   * `GeoJsonMultiLineString.is`, `GeoJsonPolygon.is` and `GeoJsonMultiPolygon.is`:
   * an object with the kind's tag and an array of coordinates.
   */
  predicate KindIs(v: JsValue, tag: string)
    ensures KindIs(v, tag) && tag in CoordinateTags ==> GeometryIs(v)
  {
    IsObject(v) && HasTag(v, tag) && IsArray(Get(v, "coordinates"))
  }

  /** `GeoJsonGeometryCollection.is`. */
  predicate GeometryCollectionIs(v: JsValue)
    ensures GeometryCollectionIs(v) ==> GeometryIs(v)
  {
    IsObject(v) && HasTag(v, "GeometryCollection") && IsArray(Get(v, "geometries"))
  }

  /** `GeoJsonGeometry.is`. */
  predicate GeometryIs(v: JsValue)
    ensures GeometryIs(v) ==> Get(v, "type").Str? && Get(v, "type").s in GeometryTags
  {
    IsObject(v)
    && (((HasTag(v, "Point") || HasTag(v, "MultiPoint") || HasTag(v, "LineString")
          || HasTag(v, "MultiLineString") || HasTag(v, "Polygon") || HasTag(v, "MultiPolygon"))
         && IsArray(Get(v, "coordinates")))
        || (HasTag(v, "GeometryCollection") && IsArray(Get(v, "geometries"))))
  }

  /** `GeoJsonFeature.is`, as written: the geometry must pass `GeoJsonGeometry.is`. */
  predicate FeatureIs(v: JsValue)
    ensures FeatureIs(v) ==> !Get(v, "geometry").Null?
  {
    IsObject(v) && HasTag(v, "Feature")
    && GeometryIs(Get(v, "geometry"))
    && TypeOf(Get(v, "properties")) == "object"
  }

  /** `GeoJsonFeature.is` as section 3.2 of RFC 7946 and the declared type allow: a null geometry too. */
  predicate FeatureIsPerRfc(v: JsValue)
    ensures FeatureIs(v) ==> FeatureIsPerRfc(v)
  {
    IsObject(v) && HasTag(v, "Feature")
    && (Get(v, "geometry").Null? || GeometryIs(Get(v, "geometry")))
    && TypeOf(Get(v, "properties")) == "object"
  }

  /** `GeoJsonFeatureCollection.is`. */
  predicate FeatureCollectionIs(v: JsValue)
    ensures FeatureCollectionIs(v) ==> !GeometryIs(v) && !FeatureIs(v)
  {
    IsObject(v) && HasTag(v, "FeatureCollection") && IsArray(Get(v, "features"))
  }

  /** `GeoJson.is`. */
  predicate GeoJsonIs(v: JsValue)
    ensures GeoJsonIs(v) ==> IsObject(v) && Get(v, "type").Str? && Get(v, "type").s in ObjectTags
  {
    GeometryIs(v) || FeatureIs(v) || FeatureCollectionIs(v)
  }

  /**
   * The geometry guard holds exactly when the guard of one of the six
   * coordinate kinds holds, or the GeometryCollection guard does.
   */
  lemma GeometryIsIffSomeKind(v: JsValue)
    ensures GeometryIs(v) <==> (exists t :: t in CoordinateTags && KindIs(v, t)) || GeometryCollectionIs(v)
  {
    if GeometryIs(v) && !GeometryCollectionIs(v) {
      var t := Get(v, "type").s;
      assert t in CoordinateTags && KindIs(v, t);
    }
  }

  /** The three top-level guards exclude each other: they read different tags. */
  lemma GuardsDisjoint(v: JsValue)
    ensures !(GeometryIs(v) && FeatureIs(v))
    ensures !(GeometryIs(v) && FeatureCollectionIs(v))
    ensures !(FeatureIs(v) && FeatureCollectionIs(v))
  {
  }

  /** A Feature with a null geometry and null properties, as section 3.2 of RFC 7946 permits. */
  const NullGeometryFeature: JsValue :=
    Object(map["type" := Str("Feature"), "geometry" := Null, "properties" := Null])

  /**
   * The guard as written rejects a Feature whose geometry is null, although
   * the conversion handles exactly that case; the corrected guard accepts it.
   */
  lemma FeatureIsRejectsNullGeometry()
    ensures !FeatureIs(NullGeometryFeature) && !GeoJsonIs(NullGeometryFeature)
    ensures FeatureIsPerRfc(NullGeometryFeature)
    ensures FeatureShape(Feature(None)) == Ok(None)
  {
    assert Get(NullGeometryFeature, "geometry") == Null;
    assert Get(NullGeometryFeature, "type") == Str("Feature");
    assert Get(NullGeometryFeature, "properties") == Null;
  }

  /** The corrected guard accepts what the guard as written does, and besides only null geometries. */
  lemma FeatureIsPerRfcExtends(v: JsValue)
    ensures FeatureIs(v) ==> FeatureIsPerRfc(v)
    ensures FeatureIsPerRfc(v) && !FeatureIs(v) ==> Get(v, "geometry").Null?
  {
  }
}
