/** Coordinates in degrees and the planar geometry the app applies to them. */
module Geo {

  /** A `{"lat": ..., "lng": ...}` point; floats are modelled as reals. */
  datatype Point = Point(lat: real, lng: real)

  function Abs(x: real): (r: real)
    ensures r >= 0.0
    ensures r == x || r == -x
  {
    if x < 0.0 then -x else x
  }

  /** The bounds checked before a driver is requested (both ends inclusive). */
  predicate InBounds(p: Point) {
    -90.0 <= p.lat <= 90.0 && -180.0 <= p.lng <= 180.0
  }

  /**
   * Square of the planar distance in raw degrees: `math.hypot(dlat, dlng)`
   * squared. No latitude correction is applied, as in the app.
   */
  function SqDist(a: Point, b: Point): (r: real)
    ensures r >= 0.0
    ensures a == b ==> r == 0.0
  {
    var dlat, dlng := a.lat - b.lat, a.lng - b.lng;
    SquareNonNegative(dlat);
    SquareNonNegative(dlng);
    dlat * dlat + dlng * dlng
  }

  lemma SquareNonNegative(x: real)
    ensures x * x >= 0.0
  {
  }

  lemma MulPositive(x: real, y: real)
    requires x > 0.0 && y > 0.0
    ensures x * y > 0.0
  {
  }

  /**
   * Comparing squared distances orders points exactly as comparing the
   * distances themselves: for non-negative roots x and y, x <= y iff x*x <= y*y.
   * This is why the click handler may be modelled without square roots.
   */
  lemma RootOrder(x: real, y: real)
    requires x >= 0.0 && y >= 0.0
    ensures x <= y <==> x * x <= y * y
  {
    if x < y {
      MulPositive(y - x, y + x);
      assert y * y - x * x == (y - x) * (y + x);
    } else if y < x {
      MulPositive(x - y, x + y);
      assert x * x - y * y == (x - y) * (x + y);
    }
  }
}
