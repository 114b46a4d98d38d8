/** `LineString` (Realm.Search/GeoModels/LineString.cs): a sequence of points, taken
    as given by its constructor. */
module GeoLineString {
  import opened Wrappers
  import opened Bson
  import opened GeoPoint

  datatype LineString = LineString(points: seq<Point>)

  const LineStringType := "LineString"

  /** `RenderCoordinates`: one position per point, in point order. */
  function RenderCoordinates(ls: LineString): (r: BsonValue)
    ensures r.Arr? && |r.items| == |ls.points|
    ensures forall i :: 0 <= i < |ls.points| ==> r.items[i] == GeoPoint.RenderCoordinates(ls.points[i])
  {
    Arr(seq(|ls.points|, i requires 0 <= i < |ls.points| => GeoPoint.RenderCoordinates(ls.points[i])))
  }

  /** Reads a sequence of RFC 7946 positions back into points. */
  function ReadPositions(items: seq<BsonValue>): Option<seq<Point>>
  {
    if items == [] then Some([])
    else match (ReadPosition(items[0]), ReadPositions(items[1..]))
      case (Some(p), Some(ps)) => Some([p] + ps)
      case _ => None
  }

  /** The rendered coordinates read back as exactly the points of the line string. */
  lemma {:induction false} ReadRenderedLineString(ls: LineString)
    ensures ReadPositions(RenderCoordinates(ls).items) == Some(ls.points)
    decreases |ls.points|
  {
    var items := RenderCoordinates(ls).items;
    if ls.points != [] {
      var rest := LineString(ls.points[1..]);
      ReadRenderedLineString(rest);
      assert items[1..] == RenderCoordinates(rest).items;
      ReadRenderedPosition(ls.points[0]);
      assert [ls.points[0]] + rest.points == ls.points;
    }
  }
}
