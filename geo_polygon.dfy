/** `Polygon` (Realm.Search/GeoModels/Polygon.cs): one or more closed linear rings,
    checked when the polygon is constructed. */
module GeoPolygon {
  import opened Wrappers
  import opened Bson
  import opened GeoPoint
  import opened GeoLineString

  datatype Polygon = Polygon(rings: seq<LineString>)

  const PolygonType := "Polygon"

  const NoRingsMessage := "At least one closed linear ring must be provided."
  const TooFewPointsMessage := "There must be at least 4 points for the shape to be considered a ring."
  const NotClosedMessage := "The first and the last points must be equal for the ring to be closed."

  /** A ring the constructor accepts: more than three points, the first equal to the
      last. (The constructor's documentation speaks of three or more points; the check
      itself wants four, as section 3.1.6 of RFC 7946 does.) */
  predicate IsClosedRing(ring: LineString)
  {
    |ring.points| > 3 && Equals(ring.points[0], PointObject(ring.points[|ring.points| - 1]))
  }

  /** The first ring check that fails, in the order the constructor makes them: for each
      ring in turn, first its size, then whether it is closed. */
  function RingFailure(rings: seq<LineString>): (r: Option<Error>)
    ensures r.None? <==> forall i :: 0 <= i < |rings| ==> IsClosedRing(rings[i])
    ensures r.Some? ==> r.value in {InvalidArgument(TooFewPointsMessage), InvalidArgument(NotClosedMessage)}
  {
    if rings == [] then None
    else if |rings[0].points| <= 3 then Some(InvalidArgument(TooFewPointsMessage))
    else if !Equals(rings[0].points[0], PointObject(rings[0].points[|rings[0].points| - 1]))
    then Some(InvalidArgument(NotClosedMessage))
    else RingFailure(rings[1..])
  }

  /** `RingFailure` reports the first ring that is not closed, and for that ring the
      size check when it fails, the closing check otherwise. */
  lemma {:induction false} FirstBadRingReported(rings: seq<LineString>, j: nat)
    requires j < |rings| && !IsClosedRing(rings[j])
    requires forall i :: 0 <= i < j ==> IsClosedRing(rings[i])
    ensures RingFailure(rings) == Some(InvalidArgument(
              if |rings[j].points| <= 3 then TooFewPointsMessage else NotClosedMessage))
    decreases j
  {
    if j > 0 {
      assert IsClosedRing(rings[0]);
      FirstBadRingReported(rings[1..], j - 1);
    }
  }

  /** What `new Polygon(rings)` produces. */
  function PolygonFrom(rings: seq<LineString>): (r: Result<Polygon>)
    ensures r.Success? <==> |rings| > 0 && forall i :: 0 <= i < |rings| ==> IsClosedRing(rings[i])
    ensures r.Success? ==> r.value.rings == rings
    ensures |rings| == 0 ==> r == Failure(InvalidArgument(NoRingsMessage))
  {
    if |rings| == 0 then Failure(InvalidArgument(NoRingsMessage))
    else match RingFailure(rings)
      case Some(e) => Failure(e)
      case None => Success(Polygon(rings))
  }

  /** The validating constructor `Polygon(params LineString[] rings)`. */
  method NewPolygon(rings: seq<LineString>) returns (r: Result<Polygon>)
    ensures r == PolygonFrom(rings)
  {
    if |rings| == 0 {
      return Failure(InvalidArgument(NoRingsMessage));
    }
    var i := 0;
    while i < |rings|
      invariant 0 <= i <= |rings|
      invariant RingFailure(rings) == RingFailure(rings[i..])
    {
      var ring := rings[i];
      if |ring.points| <= 3 {
        return Failure(InvalidArgument(TooFewPointsMessage));
      }
      if !Equals(ring.points[0], PointObject(ring.points[|ring.points| - 1])) {
        return Failure(InvalidArgument(NotClosedMessage));
      }
      assert rings[i..][1..] == rings[i + 1..];
      i := i + 1;
    }
    return Success(Polygon(rings));
  }

  /** `RenderCoordinates`: the coordinates of each ring, in ring order. */
  function RenderCoordinates(p: Polygon): (r: BsonValue)
    ensures r.Arr? && |r.items| == |p.rings|
    ensures forall i :: 0 <= i < |p.rings| ==> r.items[i] == GeoLineString.RenderCoordinates(p.rings[i])
  {
    Arr(seq(|p.rings|, i requires 0 <= i < |p.rings| => GeoLineString.RenderCoordinates(p.rings[i])))
  }

  /** An RFC 7946 linear ring as rendered coordinates: four or more positions, the
      first equal to the last (section 3.1.6). */
  predicate IsLinearRing(b: BsonValue)
  {
    b.Arr? && |b.items| >= 4 && b.items[0] == b.items[|b.items| - 1]
  }

  /** Every ring of a constructed polygon renders as an RFC 7946 linear ring. */
  lemma ConstructedRingsAreLinearRings(rings: seq<LineString>)
    requires PolygonFrom(rings).Success?
    ensures forall i :: 0 <= i < |rings| ==> IsLinearRing(RenderCoordinates(PolygonFrom(rings).value).items[i])
  {
    var p := PolygonFrom(rings).value;
    forall i | 0 <= i < |rings|
      ensures IsLinearRing(RenderCoordinates(p).items[i])
    {
      assert IsClosedRing(rings[i]);
      var pts := rings[i].points;
      var c := GeoLineString.RenderCoordinates(rings[i]);
      assert c.items[0] == GeoPoint.RenderCoordinates(pts[0]);
      assert c.items[|c.items| - 1] == GeoPoint.RenderCoordinates(pts[|pts| - 1]);
    }
  }

  /** Reads the coordinates of a polygon back into its rings. */
  function ReadRings(items: seq<BsonValue>): Option<seq<LineString>>
  {
    if items == [] then Some([])
    else if !items[0].Arr? then None
    else match (ReadPositions(items[0].items), ReadRings(items[1..]))
      case (Some(ps), Some(rs)) => Some([LineString(ps)] + rs)
      case _ => None
  }

  lemma {:induction false} ReadRenderedPolygon(p: Polygon)
    ensures ReadRings(RenderCoordinates(p).items) == Some(p.rings)
    decreases |p.rings|
  {
    var items := RenderCoordinates(p).items;
    if p.rings != [] {
      var rest := Polygon(p.rings[1..]);
      ReadRenderedPolygon(rest);
      assert items[1..] == RenderCoordinates(rest).items;
      ReadRenderedLineString(p.rings[0]);
      assert [LineString(p.rings[0].points)] + rest.rings == p.rings;
    }
  }
}
