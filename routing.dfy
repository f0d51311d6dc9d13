/**
 * Driving route between pickup and dropoff: the handling of an OSRM `/route`
 * answer and the straight-line estimate used when routing fails.
 */
module Routing {
  import opened Wrappers
  import opened Geo
  import opened Http

  /** The first route of an OSRM answer: metres, seconds and GeoJSON `[lon, lat]` pairs. */
  datatype OsrmRoute = OsrmRoute(distance: real, duration: real, coordinates: seq<seq<real>>)

  /** The JSON body: `code` (None when absent) and `routes` (empty when absent). */
  datatype OsrmBody = OsrmBody(code: Option<string>, routes: seq<OsrmRoute>)

  /**
   * One HTTP exchange with the routing server: a response with its status and
   * its body (None when the body is not JSON of the shape above), or a failure
   * before any response (timeout, refused connection).
   */
  datatype OsrmReply = Response(status: int, body: Option<OsrmBody>) | TransportFailure

  /** Distance in km, duration in minutes and the path as latitude/longitude points. */
  datatype Route = Route(distanceKm: real, durationMin: real, path: seq<Point>)

  /**
   * `[[c[1], c[0]] for c in coords]`: every `[lon, lat]` pair becomes a
   * latitude/longitude point; a pair with fewer than two elements raises, modelled as None.
   */
  function SwapPairs(coords: seq<seq<real>>): (r: Option<seq<Point>>)
    ensures r.Some? <==> forall i :: 0 <= i < |coords| ==> |coords[i]| >= 2
    ensures r.Some? ==> |r.value| == |coords|
    ensures r.Some? ==> forall i :: 0 <= i < |coords| ==> r.value[i] == Point(coords[i][1], coords[i][0])
  {
    if |coords| == 0 then Some([])
    else if |coords[0]| < 2 then None
    else match SwapPairs(coords[1..])
      case None => None
      case Some(rest) => Some([Point(coords[0][1], coords[0][0])] + rest)
  }

  /** The inverse direction: latitude/longitude points back to `[lon, lat]` pairs. */
  function LonLatPairs(path: seq<Point>): (coords: seq<seq<real>>)
    ensures |coords| == |path|
  {
    seq(|path|, i requires 0 <= i < |path| => [path[i].lng, path[i].lat])
  }

  /** Swapping twice gives back the GeoJSON pairs, when every pair is exactly `[lon, lat]`. */
  lemma SwapRoundTrip(coords: seq<seq<real>>)
    requires forall i :: 0 <= i < |coords| ==> |coords[i]| == 2
    ensures SwapPairs(coords).Some? && LonLatPairs(SwapPairs(coords).value) == coords
  {
    var path := SwapPairs(coords).value;
    forall i | 0 <= i < |coords|
      ensures LonLatPairs(path)[i] == coords[i]
    {
      assert coords[i] == [coords[i][0], coords[i][1]];
    }
  }

  /** And the other way round: any path survives a trip through GeoJSON order. */
  lemma SwapInverse(path: seq<Point>)
    ensures SwapPairs(LonLatPairs(path)) == Some(path)
  {
    var coords := LonLatPairs(path);
    assert forall i :: 0 <= i < |coords| ==> |coords[i]| == 2;
    var back := SwapPairs(coords).value;
    forall i | 0 <= i < |path|
      ensures back[i] == path[i]
    {
      assert coords[i] == [path[i].lng, path[i].lat];
    }
    assert back == path;
  }

  /**
   * A reply `call_osrm_route` turns into a route: a non-error status, a readable
   * body with code "Ok" and at least one route, and a first route whose every
   * coordinate pair has two elements.
   */
  predicate Usable(reply: OsrmReply) {
    && reply.Response? && !IsHttpError(reply.status) && reply.body.Some?
    && reply.body.value.code == Some("Ok") && reply.body.value.routes != []
    && forall i :: 0 <= i < |reply.body.value.routes[0].coordinates| ==>
         |reply.body.value.routes[0].coordinates[i]| >= 2
  }

  /** The response handling of `call_osrm_route`. */
  function FetchRoute(reply: OsrmReply): (r: Result<Route, HttpError>)
    ensures r.Success? <==> Usable(reply)
    ensures reply.TransportFailure? ==> r == Failure(Transport)
    ensures reply.Response? && reply.status == 429 ==> r == Failure(RateLimited)
    ensures reply.Response? && reply.status != 429 && IsHttpError(reply.status) ==>
              r == Failure(HttpStatus(reply.status))
    ensures reply.Response? && !IsHttpError(reply.status) && !Usable(reply) ==> r == Failure(Malformed)
    ensures r.Success? ==>
              var route := reply.body.value.routes[0];
              && r.value.distanceKm * 1000.0 == route.distance
              && r.value.durationMin * 60.0 == route.duration
              && |r.value.path| == |route.coordinates|
              && forall i :: 0 <= i < |route.coordinates| ==>
                   r.value.path[i] == Point(route.coordinates[i][1], route.coordinates[i][0])
  {
    match reply
    case TransportFailure => Failure(Transport)
    case Response(status, body) =>
      if status == 429 then Failure(RateLimited)
      else if IsHttpError(status) then Failure(HttpStatus(status))
      else match body
        case None => Failure(Malformed)
        case Some(data) =>
          if data.code != Some("Ok") || |data.routes| == 0 then Failure(Malformed)
          else
            var route := data.routes[0];
            match SwapPairs(route.coordinates)
            case None => Failure(Malformed)
            case Some(path) => Success(Route(route.distance / 1000.0, route.duration / 60.0, path))
  }

  /** Degrees to kilometres in the straight-line estimate (1 degree taken as 111 km). */
  const KmPerDegree: real := 111.0

  /** Assumed average speed of the straight-line estimate, in km/h. */
  const FallbackSpeedKmh: real := 22.0

  /**
   * The estimate used when routing fails. `hypot` is `math.dist(pickup, dropoff)`,
   * the planar distance in degrees, given by the caller since the model has no
   * square roots.
   */
  function Fallback(pickup: Point, dropoff: Point, hypot: real): Route {
    var km := hypot * KmPerDegree;
    Route(km, km / (FallbackSpeedKmh / 60.0), [pickup, dropoff])
  }

  /**
   * The straight-line estimate: a two-point path from pickup to dropoff, a distance
   * of 111 km per degree of planar distance, and a duration at 22 km/h.
   */
  lemma FallbackEstimate(pickup: Point, dropoff: Point, hypot: real)
    requires hypot >= 0.0 && hypot * hypot == SqDist(pickup, dropoff)
    ensures var r := Fallback(pickup, dropoff, hypot);
      && r.path == [pickup, dropoff]
      && r.distanceKm >= 0.0
      && r.distanceKm * r.distanceKm == KmPerDegree * KmPerDegree * SqDist(pickup, dropoff)
      && r.durationMin * FallbackSpeedKmh == r.distanceKm * 60.0
      && r.durationMin >= 0.0
  {
    var km := hypot * KmPerDegree;
    assert km * km == KmPerDegree * KmPerDegree * (hypot * hypot);
  }

  /** What the request flow uses: the OSRM route, or the estimate and the error that caused it. */
  datatype Routed = Routed(route: Route, failure: Option<HttpError>)

  /** The `try`/`except` around `call_osrm_route`: its route, or on any error the estimate. */
  function ComputeRoute(pickup: Point, dropoff: Point, hypot: real, reply: OsrmReply): (r: Routed)
    ensures r.failure.None? <==> Usable(reply)
    ensures Usable(reply) ==> r.route == FetchRoute(reply).value
    ensures !Usable(reply) ==> r.route == Fallback(pickup, dropoff, hypot) && r.failure == Some(FetchRoute(reply).error)
  {
    match FetchRoute(reply)
    case Success(route) => Routed(route, None)
    case Failure(e) => Routed(Fallback(pickup, dropoff, hypot), Some(e))
  }

  /** Any routing error, a 429 among them, yields the two-point straight-line estimate. */
  lemma FailureFallsBack(pickup: Point, dropoff: Point, hypot: real, reply: OsrmReply)
    requires FetchRoute(reply).Failure?
    ensures ComputeRoute(pickup, dropoff, hypot, reply) ==
              Routed(Fallback(pickup, dropoff, hypot), Some(FetchRoute(reply).error))
    ensures ComputeRoute(pickup, dropoff, hypot, reply).route.path == [pickup, dropoff]
    ensures reply.Response? && reply.status == 429 ==>
              ComputeRoute(pickup, dropoff, hypot, reply).failure == Some(RateLimited)
  {
  }
}
