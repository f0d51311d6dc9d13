/**
 * The "Request a driver" action: validate, then route (or estimate), then
 * compute the local fare and ask the prediction endpoint.
 */
module Request {
  import opened Wrappers
  import opened Geo
  import opened Validation
  import opened Routing
  import opened Fare

  /**
   * The error list, shown instead of any call; or the trip details shown before
   * the result map, when drawing that map raises because the route has no point
   * (the run ends there, before the fare call); or everything the trip details show.
   */
  datatype Outcome =
    | Rejected(errors: seq<ValidationError>)
    | MapFailed(routed: Routed, localFare: real)
    | Quoted(routed: Routed, localFare: real, payload: Payload, remote: RemoteFare)

  /**
   * The request block for the current endpoints. `hypot` is the planar degree
   * distance between them; `osrm` and `fareReply` are what the two servers
   * would answer, and are consulted only when validation passes.
   */
  function PlanRequest(pickup: Point, dropoff: Point, passengers: int, hypot: real, datetimeText: string,
                       osrm: OsrmReply, fareReply: FareReply): Outcome
  {
    var errs := Errors(pickup, dropoff, passengers);
    if errs != [] then Rejected(errs)
    else
      var routed := ComputeRoute(pickup, dropoff, hypot, osrm);
      var localFare := LocalFare(routed.route.distanceKm, passengers);
      if routed.route.path == [] then MapFailed(routed, localFare)
      else Quoted(routed, localFare, MakePayload(pickup, dropoff, datetimeText, passengers), RemoteOutcome(fareReply))
  }

  /** The request is rejected exactly when some input is invalid, with between one and three errors. */
  lemma RejectedIffInvalid(pickup: Point, dropoff: Point, passengers: int, hypot: real, datetimeText: string,
                           osrm: OsrmReply, fareReply: FareReply)
    ensures var o := PlanRequest(pickup, dropoff, passengers, hypot, datetimeText, osrm, fareReply);
      && (o.Rejected? <==> !(InBounds(pickup) && InBounds(dropoff) && passengers >= 1))
      && (o.Rejected? ==> o.errors == Errors(pickup, dropoff, passengers) && 1 <= |o.errors| <= 3)
  {
    ErrorsCharacterised(pickup, dropoff, passengers);
  }

  /** A rejected request makes no call: its outcome does not depend on what the servers would answer. */
  lemma RejectedMakesNoCalls(pickup: Point, dropoff: Point, passengers: int, hypot: real, datetimeText: string,
                             osrm: OsrmReply, fareReply: FareReply, osrm': OsrmReply, fareReply': FareReply)
    requires PlanRequest(pickup, dropoff, passengers, hypot, datetimeText, osrm, fareReply).Rejected?
    ensures PlanRequest(pickup, dropoff, passengers, hypot, datetimeText, osrm, fareReply) ==
            PlanRequest(pickup, dropoff, passengers, hypot, datetimeText, osrm', fareReply')
  {
  }

  /**
   * An accepted request prices the route it obtained and sends both endpoints
   * and the passenger count to the predictor. With a usable OSRM answer that
   * route is OSRM's; after a routing error it is the straight-line estimate,
   * whose distance is 111 km per degree when `hypot` is the true planar distance.
   */
  lemma QuotedTrip(pickup: Point, dropoff: Point, passengers: int, hypot: real, datetimeText: string,
                   osrm: OsrmReply, fareReply: FareReply)
    requires PlanRequest(pickup, dropoff, passengers, hypot, datetimeText, osrm, fareReply).Quoted?
    ensures var o := PlanRequest(pickup, dropoff, passengers, hypot, datetimeText, osrm, fareReply);
      && InBounds(pickup) && InBounds(dropoff) && passengers >= 1
      && o.localFare == LocalFare(o.routed.route.distanceKm, passengers)
      && o.localFare >= BaseFare
      && PayloadPickup(o.payload) == pickup && PayloadDropoff(o.payload) == dropoff
      && o.payload.passengerCount == passengers
      && o.remote == RemoteOutcome(fareReply)
      && o.routed.route.path != []
      && (Usable(osrm) ==> o.routed.route == FetchRoute(osrm).value &&
                           o.localFare == LocalFare(FetchRoute(osrm).value.distanceKm, passengers))
      && (!Usable(osrm) ==> o.routed.route.path == [pickup, dropoff] &&
                            o.routed.failure == Some(FetchRoute(osrm).error))
      && (!Usable(osrm) && hypot >= 0.0 && hypot * hypot == SqDist(pickup, dropoff) ==>
            && o.routed.route.distanceKm >= 0.0
            && o.routed.route.distanceKm * o.routed.route.distanceKm ==
               KmPerDegree * KmPerDegree * SqDist(pickup, dropoff))
  {
    RejectedIffInvalid(pickup, dropoff, passengers, hypot, datetimeText, osrm, fareReply);
    LocalFareBase(PlanRequest(pickup, dropoff, passengers, hypot, datetimeText, osrm, fareReply).routed.route.distanceKm, passengers);
    if !Usable(osrm) && hypot >= 0.0 && hypot * hypot == SqDist(pickup, dropoff) {
      FallbackEstimate(pickup, dropoff, hypot);
    }
  }

  /**
   * Drawing the result map indexes the first point of the path, outside any
   * `try`. An OSRM route with an empty geometry therefore ends the run after the
   * trip details: the fare call is never made. The straight-line estimate always
   * has two points, so only a usable OSRM answer can lead there.
   */
  lemma EmptyPathStopsBeforeFareCall(pickup: Point, dropoff: Point, passengers: int, hypot: real,
                                     datetimeText: string, osrm: OsrmReply, fareReply: FareReply,
                                     fareReply': FareReply)
    ensures var o := PlanRequest(pickup, dropoff, passengers, hypot, datetimeText, osrm, fareReply);
      && (o.MapFailed? <==>
            InBounds(pickup) && InBounds(dropoff) && passengers >= 1 &&
            Usable(osrm) && osrm.body.value.routes[0].coordinates == [])
      && (o.MapFailed? ==>
            && o.routed == Routed(FetchRoute(osrm).value, None)
            && o.localFare == LocalFare(FetchRoute(osrm).value.distanceKm, passengers)
            && o == PlanRequest(pickup, dropoff, passengers, hypot, datetimeText, osrm, fareReply'))
  {
    ErrorsCharacterised(pickup, dropoff, passengers);
  }

  /** A latitude of 95 is refused before any call. */
  lemma Latitude95Rejected(dropoff: Point, hypot: real, datetimeText: string, osrm: OsrmReply, fareReply: FareReply)
    requires InBounds(dropoff)
    ensures PlanRequest(Point(95.0, -73.9855), dropoff, 1, hypot, datetimeText, osrm, fareReply) ==
            Rejected([OutOfBounds(Pickup)])
  {
    ErrorsCharacterised(Point(95.0, -73.9855), dropoff, 1);
    var pts := [(Pickup, Point(95.0, -73.9855)), (Dropoff, dropoff)];
    assert pts[..1] == [(Pickup, Point(95.0, -73.9855))] && pts[..1][..0] == [];
    assert PointErrors(pts[..1]) == [OutOfBounds(Pickup)];
    assert PointErrors(pts) == [OutOfBounds(Pickup)];
  }
}
