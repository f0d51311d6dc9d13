/** The checks run before a driver is requested; no routing or fare call happens unless they all pass. */
module Validation {
  import opened Geo

  datatype Endpoint = Pickup | Dropoff

  /** One message of the error list: an endpoint out of bounds, or fewer than one passenger. */
  datatype ValidationError = OutOfBounds(endpoint: Endpoint) | TooFewPassengers

  /** The errors the endpoint loop appends for the given named points, in order. */
  function PointErrors(points: seq<(Endpoint, Point)>): seq<ValidationError> {
    if |points| == 0 then []
    else
      var (name, pt) := points[|points| - 1];
      PointErrors(points[..|points| - 1]) + (if InBounds(pt) then [] else [OutOfBounds(name)])
  }

  /** The complete error list of the request block. */
  function Errors(pickup: Point, dropoff: Point, passengers: int): seq<ValidationError> {
    PointErrors([(Pickup, pickup), (Dropoff, dropoff)]) + (if passengers < 1 then [TooFewPassengers] else [])
  }

  /**
   * One entry per endpoint out of bounds and one for too few passengers, so at
   * most three, and none exactly when every input is valid.
   */
  lemma ErrorsCharacterised(pickup: Point, dropoff: Point, passengers: int)
    ensures |Errors(pickup, dropoff, passengers)| <= 3
    ensures Errors(pickup, dropoff, passengers) == [] <==>
              InBounds(pickup) && InBounds(dropoff) && passengers >= 1
    ensures OutOfBounds(Pickup) in Errors(pickup, dropoff, passengers) <==> !InBounds(pickup)
    ensures OutOfBounds(Dropoff) in Errors(pickup, dropoff, passengers) <==> !InBounds(dropoff)
    ensures TooFewPassengers in Errors(pickup, dropoff, passengers) <==> passengers < 1
  {
    var pts := [(Pickup, pickup), (Dropoff, dropoff)];
    assert pts[..1] == [(Pickup, pickup)] && pts[..1][..0] == [];
    assert PointErrors(pts[..1]) == (if InBounds(pickup) then [] else [OutOfBounds(Pickup)]);
    assert PointErrors(pts) ==
             (if InBounds(pickup) then [] else [OutOfBounds(Pickup)]) +
             (if InBounds(dropoff) then [] else [OutOfBounds(Dropoff)]);
  }

  /** The validation block: loop over the two named endpoints, then check the passenger count. */
  method Validate(pickup: Point, dropoff: Point, passengers: int) returns (errs: seq<ValidationError>)
    ensures errs == Errors(pickup, dropoff, passengers)
    ensures |errs| <= 3
    ensures errs == [] <==> InBounds(pickup) && InBounds(dropoff) && passengers >= 1
  {
    errs := [];
    var points := [(Pickup, pickup), (Dropoff, dropoff)];
    for i := 0 to |points|
      invariant errs == PointErrors(points[..i])
    {
      var (name, pt) := points[i];
      assert points[..i + 1][..i] == points[..i];
      if !(-90.0 <= pt.lat <= 90.0 && -180.0 <= pt.lng <= 180.0) {
        errs := errs + [OutOfBounds(name)];
      }
    }
    assert points[..|points|] == points;
    if passengers < 1 {
      errs := errs + [TooFewPassengers];
    }
    ErrorsCharacterised(pickup, dropoff, passengers);
  }
}
