/** `Circle` (Realm.Search/GeoModels/Circle.cs): a centre and a radius in meters,
    stored as given (a negative radius is not refused). It renders as an Atlas Search
    shape, not as a GeoJSON object. */
module GeoCircle {
  import opened Wrappers
  import opened Bson
  import opened GeoPoint
  import GeoJson

  datatype Circle = Circle(center: Point, radius: Double)

  /** `Render`: exactly `center` (the centre as a GeoJSON point) then `radius`. */
  function Render(c: Circle): (r: BsonValue)
    ensures r.Doc? && Keys(r.elements) == ["center", "radius"]
    ensures Lookup(r.elements, "center") == Some(GeoJson.RenderPoint(c.center))
    ensures Lookup(r.elements, "radius") == Some(Num(c.radius))
  {
    Doc([("center", GeoJson.RenderPoint(c.center)), ("radius", Num(c.radius))])
  }

  /** Reads a rendered circle back. */
  function ReadCircle(b: BsonValue): Option<Circle>
  {
    if b.Doc? && Lookup(b.elements, "center").Some? && Lookup(b.elements, "radius").Some?
       && Lookup(b.elements, "radius").value.Num?
    then match GeoJson.ReadPoint(Lookup(b.elements, "center").value)
      case Some(center) => Some(Circle(center, Lookup(b.elements, "radius").value.number))
      case None => None
    else None
  }

  lemma ReadRenderedCircle(c: Circle)
    ensures ReadCircle(Render(c)) == Some(c)
  {
    GeoJson.ReadRenderedPoint(c.center);
  }
}
