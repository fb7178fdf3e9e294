/**
 * Map geometry: the region a map shows (MKCoordinateRegion) and the
 * approximate comparison that keeps the app and the map widget from
 * re-sending a region that differs only by re-projection jitter.
 * Degrees are modelled as `real`, so the comparison is exact arithmetic.
 */
module Geo {

  /** A point in degrees (CLLocationCoordinate2D). */
  datatype Coordinate = Coordinate(latitude: real, longitude: real)

  /** Degrees of latitude and longitude a region covers (MKCoordinateSpan). */
  datatype Span = Span(latitudeDelta: real, longitudeDelta: real)

  /** The rectangle a map shows: a centre and a span. */
  datatype Region = Region(center: Coordinate, span: Span)

  /** Largest difference, per field, that still counts as "the same region". */
  const Tolerance: real := 0.0001

  function Abs(x: real): (r: real)
    ensures r >= 0.0 && (r == x || r == -x)
  {
    if x < 0.0 then -x else x
  }

  /** A region the map can show covers a positive area. */
  predicate ValidRegion(r: Region)
  {
    r.span.latitudeDelta > 0.0 && r.span.longitudeDelta > 0.0
  }

  /** The four fields a comparison looks at, in the order it reads them. */
  function Fields(r: Region): seq<real>
  {
    [r.center.latitude, r.center.longitude, r.span.latitudeDelta, r.span.longitudeDelta]
  }

  /** Two reals within the tolerance of each other. */
  predicate Close(x: real, y: real)
  {
    Abs(x - y) < Tolerance
  }

  /** Region comparison used before re-sending a region to the map. */
  function IsApproximatelyEqual(a: Region, b: Region): (r: bool)
    ensures a == b ==> r
  {
    Close(a.center.latitude, b.center.latitude)
    && Close(a.center.longitude, b.center.longitude)
    && Close(a.span.latitudeDelta, b.span.latitudeDelta)
    && Close(a.span.longitudeDelta, b.span.longitudeDelta)
  }

  /** The comparison holds exactly when every one of the four fields is close. */
  lemma ApproxEqualIffAllFieldsClose(a: Region, b: Region)
    ensures IsApproximatelyEqual(a, b) <==>
            forall k :: 0 <= k < 4 ==> Abs(Fields(a)[k] - Fields(b)[k]) < Tolerance
  {
    if forall k :: 0 <= k < 4 ==> Abs(Fields(a)[k] - Fields(b)[k]) < Tolerance {
      assert Close(Fields(a)[0], Fields(b)[0]) && Close(Fields(a)[1], Fields(b)[1]);
      assert Close(Fields(a)[2], Fields(b)[2]) && Close(Fields(a)[3], Fields(b)[3]);
    }
  }

  /** One field at least the tolerance apart makes the regions different. */
  lemma ApproxEqualFailsOnAnyFarField(a: Region, b: Region, k: nat)
    requires k < 4 && Abs(Fields(a)[k] - Fields(b)[k]) >= Tolerance
    ensures !IsApproximatelyEqual(a, b)
  {
    ApproxEqualIffAllFieldsClose(a, b);
  }

  lemma ApproxEqualSymmetric(a: Region, b: Region)
    ensures IsApproximatelyEqual(a, b) == IsApproximatelyEqual(b, a)
  {
  }

  /**
   * The comparison is not transitive: two moves, each below the tolerance,
   * can add up to one that is not.
   */
  lemma ApproxEqualNotTransitive()
    ensures var s := Span(0.01, 0.01);
            var a := Region(Coordinate(0.0, 0.0), s);
            var b := Region(Coordinate(0.00006, 0.0), s);
            var c := Region(Coordinate(0.00012, 0.0), s);
            IsApproximatelyEqual(a, b) && IsApproximatelyEqual(b, c) && !IsApproximatelyEqual(a, c)
  {
  }
}
