/** `GeoWithinDefinition` (Realm.Search/SearchDefinitions/GeoWithinDefinition.cs): the
    `geoWithin` operator. Each public constructor renders its shape once, at
    construction, and remembers the key the shape goes under; the private constructor
    hands the path and score to the base class `SearchDefinitionBase`, which is not part
    of this model. */
module GeoWithinDefinition {
  import opened Wrappers
  import opened Bson
  import PathDefinition
  import ScoreOptions
  import GeoCircle
  import GeoBox
  import GeoPolygon
  import GeoMultiPolygon
  import GeoJson

  /** `OperatorName` */
  const OperatorName := "geoWithin"

  /** The private constructor's state: the key, the rendered geometry, the path and the
      score. */
  datatype GeoWithinDefinition = GeoWithinDefinition(
    shapeKey: string,
    geometry: BsonValue,
    path: PathDefinition.PathDefinition,
    score: Option<ScoreOptions.ScoreOptions>)

  /** `GeoWithinDefinition(Circle circle, path, score = null)`: the circle, under `circle`. */
  function FromCircle(circle: GeoCircle.Circle, path: PathDefinition.PathDefinition,
                      score: Option<ScoreOptions.ScoreOptions> := None): (r: GeoWithinDefinition)
    ensures r.shapeKey == "circle" && r.path == path && r.score == score
    ensures r.geometry == GeoCircle.Render(circle)
    ensures GeoCircle.ReadCircle(r.geometry) == Some(circle)
  {
    GeoCircle.ReadRenderedCircle(circle);
    GeoWithinDefinition("circle", GeoCircle.Render(circle), path, score)
  }

  /** `GeoWithinDefinition(Box box, path, score = null)`: the box, under `box`. */
  function FromBox(box: GeoBox.Box, path: PathDefinition.PathDefinition,
                   score: Option<ScoreOptions.ScoreOptions> := None): (r: GeoWithinDefinition)
    ensures r.shapeKey == "box" && r.path == path && r.score == score
    ensures r.geometry == GeoBox.Render(box)
    ensures GeoBox.ReadBox(r.geometry) == Some(box)
  {
    GeoBox.ReadRenderedBox(box);
    GeoWithinDefinition("box", GeoBox.Render(box), path, score)
  }

  /** `GeoWithinDefinition(Polygon polygon, path, score = null)`: the polygon as a GeoJSON
      object, under `geometry`. */
  function FromPolygon(polygon: GeoPolygon.Polygon, path: PathDefinition.PathDefinition,
                       score: Option<ScoreOptions.ScoreOptions> := None): (r: GeoWithinDefinition)
    ensures r.shapeKey == "geometry" && r.path == path && r.score == score
    ensures GeoJson.Render(GeoJson.PolygonShape(polygon)) == Success(r.geometry)
    ensures GeoJson.ReadPolygon(r.geometry) == Some(polygon)
  {
    GeoJson.ReadRenderedPolygonObject(polygon);
    GeoWithinDefinition("geometry", GeoJson.RenderPolygon(polygon), path, score)
  }

  /** `GeoWithinDefinition(MultiPolygon multiPolygon, path, score = null)`: rendering the
      multipolygon throws, so no definition is ever made. */
  function FromMultiPolygon(multiPolygon: GeoMultiPolygon.MultiPolygon, path: PathDefinition.PathDefinition,
                            score: Option<ScoreOptions.ScoreOptions> := None): (r: Result<GeoWithinDefinition>)
    ensures r == Failure(NotImplemented)
  {
    match GeoJson.Render(GeoJson.MultiPolygonShape(multiPolygon))
    case Failure(e) => Failure(e)
    case Success(geometry) => Success(GeoWithinDefinition("geometry", geometry, path, score))
  }

  /** The document after `PopulateDefinition`: the geometry under the shape's key, and no
      other name changed; a key not yet present is added at the end. */
  function Populated(g: GeoWithinDefinition, baseDefinition: Elements): (r: Elements)
    ensures Lookup(r, g.shapeKey) == Some(g.geometry)
    ensures forall k :: k != g.shapeKey ==> Lookup(r, k) == Lookup(baseDefinition, k)
    ensures g.shapeKey !in Keys(baseDefinition) ==> Keys(r) == Keys(baseDefinition) + [g.shapeKey]
    ensures g.shapeKey in Keys(baseDefinition) ==> Keys(r) == Keys(baseDefinition)
  {
    Assign(baseDefinition, g.shapeKey, g.geometry)
  }

  /** `PopulateDefinition`: `baseDefinition[_type] = _geometry`, without the base
      population. */
  method PopulateDefinition(g: GeoWithinDefinition, baseDefinition: BsonDocument)
    modifies baseDefinition
    ensures baseDefinition.elements == Populated(g, old(baseDefinition.elements))
  {
    baseDefinition.Set(g.shapeKey, g.geometry);
  }
}
