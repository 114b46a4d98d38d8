/** `GeoJson` (Realm.Search/GeoModels/GeoJson.cs): the shapes rendered as GeoJSON
    objects `{type, coordinates}`. The abstract class with its four subclasses becomes
    one datatype with a variant per subclass. */
module GeoJson {
  import opened Wrappers
  import opened Bson
  import opened GeoPoint
  import opened GeoLineString
  import opened GeoPolygon
  import opened GeoMultiPolygon

  datatype GeoJson =
    | PointShape(point: Point)
    | LineStringShape(lineString: LineString)
    | PolygonShape(polygon: Polygon)
    | MultiPolygonShape(multiPolygon: MultiPolygon)

  /** The subclasses' `Type` property; only MultiPolygon's fails. */
  function Type(g: GeoJson): (r: Result<string>)
    ensures r.Failure? <==> g.MultiPolygonShape?
    ensures g.PointShape? ==> r == Success("Point")
    ensures g.LineStringShape? ==> r == Success("LineString")
    ensures g.PolygonShape? ==> r == Success("Polygon")
  {
    match g
    case PointShape(_) => Success(PointType)
    case LineStringShape(_) => Success(LineStringType)
    case PolygonShape(_) => Success(PolygonType)
    case MultiPolygonShape(m) => GeoMultiPolygon.Type(m)
  }

  /** The subclasses' `RenderCoordinates`. */
  function RenderCoordinates(g: GeoJson): BsonValue
  {
    match g
    case PointShape(p) => GeoPoint.RenderCoordinates(p)
    case LineStringShape(l) => GeoLineString.RenderCoordinates(l)
    case PolygonShape(p) => GeoPolygon.RenderCoordinates(p)
    case MultiPolygonShape(m) => GeoMultiPolygon.RenderCoordinates(m)
  }

  /** `Render`: exactly `type` then `coordinates`; it fails exactly when `Type` does,
      so a multipolygon never renders. */
  function Render(g: GeoJson): (r: Result<BsonValue>)
    ensures r.Failure? <==> Type(g).Failure?
    ensures r.Failure? ==> r.error == Type(g).error
    ensures r.Success? ==> r.value.Doc? && Keys(r.value.elements) == ["type", "coordinates"]
    ensures r.Success? ==> Lookup(r.value.elements, "type") == Some(Str(Type(g).value))
    ensures r.Success? ==> Lookup(r.value.elements, "coordinates") == Some(RenderCoordinates(g))
  {
    var t :- Type(g);
    Success(Doc([("type", Str(t)), ("coordinates", RenderCoordinates(g))]))
  }

  /** `point.Render()`, which always succeeds. */
  function RenderPoint(p: Point): (r: BsonValue)
    ensures Render(PointShape(p)) == Success(r)
  {
    Doc([("type", Str(PointType)), ("coordinates", GeoPoint.RenderCoordinates(p))])
  }

  /** `polygon.Render()`, which always succeeds. */
  function RenderPolygon(p: Polygon): (r: BsonValue)
    ensures Render(PolygonShape(p)) == Success(r)
  {
    Doc([("type", Str(PolygonType)), ("coordinates", GeoPolygon.RenderCoordinates(p))])
  }

  /** Reads a GeoJSON Point object `{type: "Point", coordinates: [lon, lat]}`. */
  function ReadPoint(b: BsonValue): Option<Point>
  {
    if b.Doc? && Lookup(b.elements, "type") == Some(Str("Point")) && Lookup(b.elements, "coordinates").Some?
    then ReadPosition(Lookup(b.elements, "coordinates").value)
    else None
  }

  lemma ReadRenderedPoint(p: Point)
    ensures ReadPoint(RenderPoint(p)) == Some(p)
  {
    ReadRenderedPosition(p);
  }

  /** Reads a GeoJSON Polygon object back into its rings. */
  function ReadPolygon(b: BsonValue): Option<Polygon>
  {
    if b.Doc? && Lookup(b.elements, "type") == Some(Str("Polygon"))
       && Lookup(b.elements, "coordinates").Some? && Lookup(b.elements, "coordinates").value.Arr?
    then match ReadRings(Lookup(b.elements, "coordinates").value.items)
      case Some(rings) => Some(Polygon(rings))
      case None => None
    else None
  }

  lemma ReadRenderedPolygonObject(p: Polygon)
    ensures ReadPolygon(RenderPolygon(p)) == Some(p)
  {
    ReadRenderedPolygon(p);
  }
}
