/**
 * Fares: the local heuristic, the request payload sent to the prediction
 * endpoint, and how its JSON answer is read.
 */
module Fare {
  import opened Wrappers
  import opened Geo
  import opened Http

  // ---------------------------------------------------------------------------
  // Local heuristic: `3.0 + 1.8 * max(d, 0) + max(0, p - 1) * 0.5`
  // ---------------------------------------------------------------------------

  const BaseFare: real := 3.0
  const PerKm: real := 1.8
  const ExtraPassengerFee: real := 0.5

  function MaxReal(a: real, b: real): real {
    if a >= b then a else b
  }

  function MaxInt(a: int, b: int): int {
    if a >= b then a else b
  }

  /** `local_fare_estimate` over reals, before its rounding to cents. */
  function LocalFare(distanceKm: real, passengers: int): real {
    BaseFare + PerKm * MaxReal(distanceKm, 0.0) + MaxInt(0, passengers - 1) as real * ExtraPassengerFee
  }

  /** The fare never drops below the base fare, and is exactly the base fare for a null trip with one passenger. */
  lemma LocalFareBase(distanceKm: real, passengers: int)
    ensures LocalFare(distanceKm, passengers) >= BaseFare
    ensures distanceKm <= 0.0 && passengers <= 1 ==> LocalFare(distanceKm, passengers) == BaseFare
  {
  }

  /** Negative distances are charged as zero distance. */
  lemma LocalFareClampsDistance(distanceKm: real, passengers: int)
    requires distanceKm <= 0.0
    ensures LocalFare(distanceKm, passengers) == LocalFare(0.0, passengers)
  {
  }

  /** More distance or more passengers never makes a trip cheaper. */
  lemma LocalFareMonotone(d1: real, d2: real, p1: int, p2: int)
    requires d1 <= d2 && p1 <= p2
    ensures LocalFare(d1, p1) <= LocalFare(d2, p2)
  {
  }

  /** The two documented examples: 0 km with one passenger, and 10 km with three. */
  lemma LocalFareExamples()
    ensures LocalFare(0.0, 1) == 3.0
    ensures LocalFare(10.0, 3) == 22.0
  {
  }

  // ---------------------------------------------------------------------------
  // Request payload
  // ---------------------------------------------------------------------------

  /** The six query parameters of the prediction request; the timestamp text is formatted by the caller. */
  datatype Payload = Payload(
    pickupDatetime: string,
    pickupLongitude: real,
    pickupLatitude: real,
    dropoffLongitude: real,
    dropoffLatitude: real,
    passengerCount: int)

  function MakePayload(pickup: Point, dropoff: Point, datetimeText: string, passengers: int): Payload {
    Payload(datetimeText, pickup.lng, pickup.lat, dropoff.lng, dropoff.lat, passengers)
  }

  function PayloadPickup(p: Payload): Point {
    Point(p.pickupLatitude, p.pickupLongitude)
  }

  function PayloadDropoff(p: Payload): Point {
    Point(p.dropoffLatitude, p.dropoffLongitude)
  }

  /** The payload carries both endpoints unswapped (latitude is latitude) and the passenger count. */
  lemma PayloadRoundTrip(pickup: Point, dropoff: Point, datetimeText: string, passengers: int)
    ensures PayloadPickup(MakePayload(pickup, dropoff, datetimeText, passengers)) == pickup
    ensures PayloadDropoff(MakePayload(pickup, dropoff, datetimeText, passengers)) == dropoff
    ensures MakePayload(pickup, dropoff, datetimeText, passengers).passengerCount == passengers
  {
  }

  // ---------------------------------------------------------------------------
  // Reading the answer: `result.get("fare") or result.get("prediction") or result.get("y_pred")`
  // ---------------------------------------------------------------------------

  /** A JSON value, as far as its truthiness and its conversion by `float()` matter. */
  datatype JValue = JNull | JBool(b: bool) | JNum(x: real) | JStr(s: string) | JArray(size: nat) | JObject(size: nat)

  /** Python truthiness of a decoded JSON value. */
  predicate Truthy(v: JValue) {
    match v
    case JNull => false
    case JBool(b) => b
    case JNum(x) => x != 0.0
    case JStr(s) => s != ""
    case JArray(n) => n > 0
    case JObject(n) => n > 0
  }

  /** `dict.get`: a missing key reads as None. */
  function Get(response: map<string, JValue>, key: string): JValue {
    if key in response then response[key] else JNull
  }

  /** Python's `a or b`. */
  function Or(a: JValue, b: JValue): JValue {
    if Truthy(a) then a else b
  }

  /** The keys consulted, in order. */
  const FareKeys: seq<string> := ["fare", "prediction", "y_pred"]

  /** The expression of the app. */
  function ChooseFare(response: map<string, JValue>): JValue {
    Or(Or(Get(response, "fare"), Get(response, "prediction")), Get(response, "y_pred"))
  }

  /** Reference reading of an ordered key list: the first truthy value, else the value of the last key. */
  function FirstTruthyKey(response: map<string, JValue>, keys: seq<string>): JValue
    requires |keys| > 0
  {
    if |keys| == 1 || Truthy(Get(response, keys[0])) then Get(response, keys[0])
    else FirstTruthyKey(response, keys[1..])
  }

  /** The app's `or` chain is the ordered key list read from the front. */
  lemma ChooseFareIsKeyScan(response: map<string, JValue>)
    ensures ChooseFare(response) == FirstTruthyKey(response, FareKeys)
  {
    var fare, prediction, yPred := Get(response, "fare"), Get(response, "prediction"), Get(response, "y_pred");
    assert FareKeys[1..] == ["prediction", "y_pred"] && ["prediction", "y_pred"][1..] == ["y_pred"];
    assert FirstTruthyKey(response, ["y_pred"]) == yPred;
    assert FirstTruthyKey(response, ["prediction", "y_pred"]) == Or(prediction, yPred);
    assert FirstTruthyKey(response, FareKeys) == Or(fare, Or(prediction, yPred));
  }

  /**
   * The chosen value is truthy iff some fare key holds a truthy value, and then it
   * is the value of the first such key; otherwise it is whatever `y_pred` holds.
   */
  lemma ChooseFarePriority(response: map<string, JValue>)
    ensures Truthy(ChooseFare(response)) <==> exists k :: k in FareKeys && Truthy(Get(response, k))
    ensures Truthy(Get(response, "fare")) ==> ChooseFare(response) == response["fare"]
    ensures !Truthy(Get(response, "fare")) && Truthy(Get(response, "prediction")) ==>
              ChooseFare(response) == response["prediction"]
    ensures !Truthy(Get(response, "fare")) && !Truthy(Get(response, "prediction")) ==>
              ChooseFare(response) == Get(response, "y_pred")
  {
    assert forall k :: k in FareKeys <==> k == "fare" || k == "prediction" || k == "y_pred";
  }

  /** A key outside the list, such as `pred`, never influences the choice. */
  lemma OtherKeysIgnored(response: map<string, JValue>, key: string, v: JValue)
    requires key !in FareKeys
    ensures ChooseFare(response[key := v]) == ChooseFare(response)
  {
    assert key != "fare" && key != "prediction" && key != "y_pred";
  }

  /** A zero fare is falsy, so it is passed over: on its own it reads as "no fare key". */
  lemma ZeroFareIsSkipped(later: real)
    ensures ChooseFare(map["fare" := JNum(0.0)]) == JNull
    ensures ChooseFare(map["fare" := JNum(0.0), "prediction" := JNum(later)]) ==
              (if later != 0.0 then JNum(later) else JNull)
  {
  }

  /** The answer of the prediction endpoint, as `call_fare_api` sees it. */
  datatype FareReply = Answer(status: int, body: Option<map<string, JValue>>) | NoAnswer

  /**
   * What is shown: the API fare (a number, or text handed to `float()`), the
   * "no fare key" warning, a failed call (`Malformed` when the body is not a JSON
   * object), or a chosen value `float()` rejects. Every case also shows the
   * local estimate.
   */
  datatype RemoteFare =
    | ApiFare(amount: real)
    | ApiFareText(text: string)
    | NoFareKey
    | FareFailed(error: HttpError)
    | FareNotANumber

  /** The part of the request flow from the API call to the fare shown. */
  function RemoteOutcome(reply: FareReply): (r: RemoteFare)
    ensures r == FareFailed(Transport) <==> reply.NoAnswer?
    ensures r == FareFailed(RateLimited) <==> reply.Answer? && reply.status == 429
    ensures reply.Answer? && reply.status != 429 && IsHttpError(reply.status) ==>
              r == FareFailed(HttpStatus(reply.status))
    ensures r == FareFailed(Malformed) <==>
              reply.Answer? && !IsHttpError(reply.status) && reply.body.None?
    ensures r == NoFareKey <==>
              reply.Answer? && !IsHttpError(reply.status) &&
              reply.body.Some? && ChooseFare(reply.body.value) == JNull
  {
    match reply
    case NoAnswer => FareFailed(Transport)
    case Answer(status, body) =>
      if status == 429 then FareFailed(RateLimited)
      else if IsHttpError(status) then FareFailed(HttpStatus(status))
      else match body
        case None => FareFailed(Malformed)
        case Some(response) =>
          match ChooseFare(response)
          case JNull => NoFareKey
          case JNum(x) => ApiFare(x)
          case JBool(b) => ApiFare(if b then 1.0 else 0.0)
          case JStr(s) => ApiFareText(s)
          case JArray(_) => FareNotANumber
          case JObject(_) => FareNotANumber
  }

  /** A usable answer shows the number under the first fare key whose value is truthy. */
  lemma RemoteFareShown(status: int, response: map<string, JValue>, j: nat, x: real)
    requires !IsHttpError(status)
    requires j < |FareKeys| && Get(response, FareKeys[j]) == JNum(x) && x != 0.0
    requires forall i :: 0 <= i < j ==> !Truthy(Get(response, FareKeys[i]))
    ensures RemoteOutcome(Answer(status, Some(response))) == ApiFare(x)
  {
    ChooseFarePriority(response);
    assert FareKeys[0] == "fare" && FareKeys[1] == "prediction" && FareKeys[2] == "y_pred";
    assert ChooseFare(response) == JNum(x) by {
      if j == 0 {
      } else if j == 1 {
        assert !Truthy(Get(response, FareKeys[0]));
      } else {
        assert !Truthy(Get(response, FareKeys[0])) && !Truthy(Get(response, FareKeys[1]));
      }
    }
  }
}
