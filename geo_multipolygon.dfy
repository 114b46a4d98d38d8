/** `MultiPolygon` (Realm.Search/GeoModels/MultiPolygon.cs): one or more polygons. */
module GeoMultiPolygon {
  import opened Wrappers
  import opened Bson
  import GeoPolygon

  datatype MultiPolygon = MultiPolygon(polygons: seq<GeoPolygon.Polygon>)

  const NoPolygonsMessage := "At least one polygon must be provided."

  /** The constructor `MultiPolygon(params Polygon[] polygons)`: it refuses an empty
      list and otherwise keeps the polygons as given. */
  function NewMultiPolygon(polygons: seq<GeoPolygon.Polygon>): (r: Result<MultiPolygon>)
    ensures r.Success? <==> |polygons| > 0
    ensures r.Success? ==> r.value.polygons == polygons
    ensures r.Failure? ==> r.error == InvalidArgument(NoPolygonsMessage)
  {
    if |polygons| > 0 then Success(MultiPolygon(polygons))
    else Failure(InvalidArgument(NoPolygonsMessage))
  }

  /** The `Type` property, which throws NotImplementedException for every multipolygon. */
  function Type(m: MultiPolygon): (r: Result<string>)
    ensures r == Failure(NotImplemented)
  {
    Failure(NotImplemented)
  }

  /** `RenderCoordinates`: the coordinates of each polygon, in polygon order. */
  function RenderCoordinates(m: MultiPolygon): (r: BsonValue)
    ensures r.Arr? && |r.items| == |m.polygons|
    ensures forall i :: 0 <= i < |m.polygons| ==> r.items[i] == GeoPolygon.RenderCoordinates(m.polygons[i])
  {
    Arr(seq(|m.polygons|, i requires 0 <= i < |m.polygons| => GeoPolygon.RenderCoordinates(m.polygons[i])))
  }
}
