/** `Point` (Realm.Search/GeoModels/Point.cs): a latitude/longitude pair. */
module GeoPoint {
  import opened Wrappers
  import opened Bson

  datatype Point = Point(latitude: Double, longitude: Double)

  /** The GeoJSON type name of a point. */
  const PointType := "Point"

  /** `RenderCoordinates`: a GeoJSON position, which lists the longitude before the
      latitude (section 3.1.1 of RFC 7946). */
  function RenderCoordinates(p: Point): (r: BsonValue)
    ensures r.Arr? && |r.items| == 2
    ensures r.items[0] == Num(p.longitude) && r.items[1] == Num(p.latitude)
  {
    Arr([Num(p.longitude), Num(p.latitude)])
  }

  /** Reads an RFC 7946 position `[longitude, latitude]` back into a point. */
  function ReadPosition(b: BsonValue): Option<Point>
  {
    if b.Arr? && |b.items| == 2 && b.items[0].Num? && b.items[1].Num?
    then Some(Point(latitude := b.items[1].number, longitude := b.items[0].number))
    else None
  }

  lemma ReadRenderedPosition(p: Point)
    ensures ReadPosition(RenderCoordinates(p)) == Some(p)
  {
  }

  /** The argument of `Equals(object)`: a point, or any other object (null included). */
  datatype Object = PointObject(point: Point) | OtherObject

  /** `Equals`: another point with the same latitude and the same longitude. */
  function Equals(p: Point, obj: Object): (r: bool)
    ensures r <==> obj.PointObject? && obj.point == p
  {
    match obj
    case PointObject(q) => p.latitude == q.latitude && p.longitude == q.longitude
    case OtherObject => false
  }

  lemma EqualsSymmetric(p: Point, q: Point)
    ensures Equals(p, PointObject(q)) == Equals(q, PointObject(p))
  {
  }
}
