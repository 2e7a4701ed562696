/**
 * A geographic point given by a WGS84 longitude and latitude, as an
 * immutable value: its bounding box, containment, equality and the
 * conversions from the plain forms `{lng, lat}` and `[lng, lat]`.
 */
module GeoPoints {
  import opened Numbers
  import opened JsValues
  import opened Results

  datatype GeoPoint = GeoPoint(lng: Num, lat: Num) {

    function LngMin(): Num { lng }
    function LatMin(): Num { lat }
    function LngMax(): Num { lng }
    function LatMax(): Num { lat }

    /** `contains(lng, lat)`: both coordinates are strictly equal. */
    predicate ContainsAt(lng': Num, lat': Num)
      ensures ContainsAt(lng', lat') <==> lng.Fin? && lat.Fin? && lng' == lng && lat' == lat
    {
      StrictEq(lng, lng') && StrictEq(lat, lat')
    }

    /** `contains(shape)` once the argument has been converted to a shape. */
    predicate Contains(that: ShapeArg)
      ensures Contains(that) ==> lng.Fin? && lat.Fin?
      ensures that.PointArg? ==> (Contains(that) <==> ContainsAt(that.point.lng, that.point.lat))
    {
      match that
      case PointArg(q) => StrictEq(lng, q.lng) && StrictEq(lat, q.lat)
      case BoxArg(lngMin, latMin, lngMax, latMax) =>
        LessEq(lng, lngMin) && LessEq(lngMax, lng) && LessEq(lat, latMin) && LessEq(latMax, lat)
    }

    /** `toAny()`: the plain `{lng, lat}` form. */
    function ToAny(): (init: GeoPointInit)
      ensures FromInit(init) == this
    {
      GeoPointInit(lng, lat)
    }

    /** `equals(that)`: the same object, or another point with strictly equal coordinates. */
    predicate Equals(that: EqArg)
      ensures that.SameObject? ==> Equals(that)
      ensures that.NotAPoint? ==> !Equals(that)
      ensures that.OtherPoint? ==> (Equals(that) <==> lng.Fin? && lat.Fin? && that.point == this)
    {
      match that
      case SameObject => true
      case OtherPoint(q) => StrictEq(lng, q.lng) && StrictEq(lat, q.lat)
      case NotAPoint => false
    }
  }

  /** `GeoPointInit`: an object with numeric `lng` and `lat`. */
  datatype GeoPointInit = GeoPointInit(lng: Num, lat: Num)

  /** The argument of `contains(shape)`: a point, or any other shape seen through its bounding box. */
  datatype ShapeArg =
    | PointArg(point: GeoPoint)
    | BoxArg(lngMin: Num, latMin: Num, lngMax: Num, latMax: Num)

  /** The argument of `equals`: this very object, another point, or anything else. */
  datatype EqArg = SameObject | OtherPoint(point: GeoPoint) | NotAPoint

  /** What `fromAny` and the guards may receive: a `GeoPoint` instance or a plain value. */
  datatype AnyValue = Instance(point: GeoPoint) | Plain(value: JsValue)

  /** Thrown by `fromAny` for a value of no accepted form. */
  datatype TypeError = TypeError

  function FromInit(init: GeoPointInit): (p: GeoPoint)
    ensures p.lng == init.lng && p.lat == init.lat
  {
    GeoPoint(init.lng, init.lat)
  }

  /** `fromTuple([lng, lat])`: element 0 is the longitude, element 1 the latitude. */
  function FromTuple(tuple: (Num, Num)): (p: GeoPoint)
    ensures p.lng == tuple.0 && p.lat == tuple.1
  {
    GeoPoint(tuple.0, tuple.1)
  }

  /** `isInit`: an object whose `lng` and `lat` are numbers (a `GeoPoint` is one). */
  predicate IsInit(value: AnyValue)
    ensures value.Instance? ==> IsInit(value)
    ensures IsInit(value) && value.Plain? ==> value.value.Object? && !IsTuple(value)
  {
    match value
    case Instance(_) => true
    case Plain(v) =>
      IsObject(v) && TypeOf(Get(v, "lng")) == "number" && TypeOf(Get(v, "lat")) == "number"
  }

  /** `isTuple`: an array of exactly two numbers. */
  predicate IsTuple(value: AnyValue)
    ensures IsTuple(value) ==>
      && value.Plain? && value.value.Array? && |value.value.items| == 2
      && value.value.items[0].Number? && value.value.items[1].Number?
  {
    value.Plain? && IsArray(value.value) && |value.value.items| == 2
    && TypeOf(value.value.items[0]) == "number" && TypeOf(value.value.items[1]) == "number"
  }

  /** `isAny`: an instance, an init or a tuple. */
  predicate IsAny(value: AnyValue)
    ensures value.Instance? ==> IsAny(value)
    ensures IsAny(value) && value.Plain? ==> value.value.Object? || value.value.Array?
  {
    value.Instance? || IsInit(value) || IsTuple(value)
  }

  /** `fromAny`: an instance as it is, an init or a tuple converted, anything else thrown. */
  function FromAny(value: AnyValue): (r: Result<GeoPoint, TypeError>)
    ensures r.Ok? <==> IsAny(value)
    ensures value.Instance? ==> r == Ok(value.point)
    ensures value.Plain? && IsInit(value) ==>
      r == Ok(FromInit(GeoPointInit(Get(value.value, "lng").n, Get(value.value, "lat").n)))
    ensures IsTuple(value) ==>
      r == Ok(FromTuple((value.value.items[0].n, value.value.items[1].n)))
  {
    match value
    case Instance(p) => Ok(p)
    case Plain(v) =>
      if IsInit(value) then
        Ok(FromInit(GeoPointInit(Get(v, "lng").n, Get(v, "lat").n)))
      else if IsTuple(value) then
        Ok(FromTuple((v.items[0].n, v.items[1].n)))
      else
        Failure(TypeError)
  }

  /** The plain object `{lng, lat}` that `toAny` describes. */
  function InitObject(init: GeoPointInit): JsValue {
    Object(map["lng" := Number(init.lng), "lat" := Number(init.lat)])
  }

  /** The bounding box of a point is the point itself. */
  lemma BoundsCollapse(p: GeoPoint)
    ensures p.LngMin() == p.LngMax() == p.lng
    ensures p.LatMin() == p.LatMax() == p.lat
  {
  }

  /** `contains(lng, lat)`, `contains(point)` and `equals(point)` agree. */
  lemma ContainsAtIffEquals(p: GeoPoint, q: GeoPoint)
    ensures p.ContainsAt(q.lng, q.lat) <==> p.Contains(PointArg(q))
    ensures p.Contains(PointArg(q)) <==> p.Equals(OtherPoint(q))
    ensures p.Equals(OtherPoint(q)) <==> q.lng.Fin? && q.lat.Fin? && p == q
  {
  }

  /**
   * For a well-formed box, containment holds exactly when the box collapses
   * onto this point.
   */
  lemma ContainsBoxIffCollapsed(p: GeoPoint, lngMin: real, latMin: real, lngMax: real, latMax: real)
    requires lngMin <= lngMax && latMin <= latMax
    ensures p.Contains(BoxArg(Fin(lngMin), Fin(latMin), Fin(lngMax), Fin(latMax)))
        <==> p.lng == Fin(lngMin) && p.lng == Fin(lngMax) && p.lat == Fin(latMin) && p.lat == Fin(latMax)
  {
  }

  /** A point with a NaN coordinate contains nothing, not even itself. */
  lemma NaNPointContainsNothing(p: GeoPoint, that: ShapeArg)
    requires p.lng.NaN? || p.lat.NaN?
    ensures !p.Contains(that) && !p.Contains(PointArg(p))
  {
  }

  /**
   * Equality is reflexive through object identity only: a point with a NaN
   * coordinate equals itself but not an equal copy.
   */
  lemma EqualsNaNOnlyByIdentity(p: GeoPoint)
    requires p.lng.NaN?
    ensures p.Equals(SameObject) && !p.Equals(OtherPoint(p))
  {
  }

  /** `fromInit(p.toAny())` is `p`, and `toAny` inverts `fromInit`. */
  lemma InitRoundTrip(p: GeoPoint, init: GeoPointInit)
    ensures FromInit(p.ToAny()) == p
    ensures FromInit(init).ToAny() == init
  {
  }

  /** The plain forms of a point convert back to the point through `fromAny`. */
  lemma FromAnyRoundTrip(p: GeoPoint)
    ensures FromAny(Plain(InitObject(p.ToAny()))) == Ok(p)
    ensures FromAny(Plain(Array([Number(p.lng), Number(p.lat)]))) == Ok(p)
  {
    var v := InitObject(p.ToAny());
    assert Get(v, "lng") == Number(p.lng);
    assert Get(v, "lat") == Number(p.lat);
  }

  /** An array of three numbers (a position with altitude) is neither a tuple nor an init. */
  lemma FromAnyRejectsTriple(a: Num, b: Num, c: Num)
    ensures !IsTuple(Plain(Array([Number(a), Number(b), Number(c)])))
    ensures FromAny(Plain(Array([Number(a), Number(b), Number(c)]))).Failure?
  {
  }
}
