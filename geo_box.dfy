/** `Box` (Realm.Search/GeoModels/Box.cs): two corner points, stored as given with no
    check that they are ordered. It renders as an Atlas Search shape; the key of the
    second corner is spelt `topRigth`, as in the source. */
module GeoBox {
  import opened Wrappers
  import opened Bson
  import opened GeoPoint
  import GeoJson

  datatype Box = Box(bottomLeft: Point, topRight: Point)

  /** `Render`: exactly `bottomLeft` then `topRigth`, each a GeoJSON point. */
  function Render(b: Box): (r: BsonValue)
    ensures r.Doc? && Keys(r.elements) == ["bottomLeft", "topRigth"]
    ensures Lookup(r.elements, "bottomLeft") == Some(GeoJson.RenderPoint(b.bottomLeft))
    ensures Lookup(r.elements, "topRigth") == Some(GeoJson.RenderPoint(b.topRight))
  {
    Doc([("bottomLeft", GeoJson.RenderPoint(b.bottomLeft)), ("topRigth", GeoJson.RenderPoint(b.topRight))])
  }

  /** Reads a rendered box back. */
  function ReadBox(v: BsonValue): Option<Box>
  {
    if v.Doc? && Lookup(v.elements, "bottomLeft").Some? && Lookup(v.elements, "topRigth").Some?
    then match (GeoJson.ReadPoint(Lookup(v.elements, "bottomLeft").value),
                GeoJson.ReadPoint(Lookup(v.elements, "topRigth").value))
      case (Some(bl), Some(tr)) => Some(Box(bl, tr))
      case _ => None
    else None
  }

  lemma ReadRenderedBox(b: Box)
    ensures ReadBox(Render(b)) == Some(b)
  {
    GeoJson.ReadRenderedPoint(b.bottomLeft);
    GeoJson.ReadRenderedPoint(b.topRight);
  }
}
