# NY taxi trip state — a Dafny model

This project models the decision logic inside the Streamlit taxi‑fare app
(`app.py`). The app tracks a two‑endpoint trip: a pickup and a dropoff, each with
an address label and a query text. The model covers:

- **Click resolution.** A map click is compared with the last processed click,
  using an epsilon of 1e‑10 per coordinate. A new click moves whichever marker is
  nearer by planar distance in degrees; a tie goes to the pickup. The moved
  marker's address and query become the click's coordinate label.
- **Reset.** The reset button restores the NYC defaults: Times Square and Central
  Park South.
- **Autocomplete.** Calls are throttled per field with a 0.6 s cooldown and gated
  on three characters after `strip()`. The provider is Mapbox if its token is set,
  else LocationIQ, else none. Mapbox features are normalised into
  `{label, lat, lng}` suggestions.
- **Routing.** An OSRM answer is turned into km, minutes and a lat/lon path. When
  it fails, a straight‑line fallback is used instead.
- **Fares.** The local fare heuristic, the prediction payload, and the tolerant
  reading of the predictor's answer.
- **Request validation.** Bounds and passenger checks run before any call is made.

Layout, one module per component:

| file | module | contents |
|---|---|---|
| wrappers.dfy | `Wrappers` | `Option`, `Result` |
| http.dfy | `Http` | the failure kinds shared by the three web services |
| geo.dfy | `Geo` | points, bounds, squared planar distance |
| autocomplete.dfy | `Autocomplete` | label fallback, feature normalisation (a loop), provider choice, the `strip()` gate |
| routing.dfy | `Routing` | OSRM answer handling, coordinate swap, straight‑line fallback |
| fare.dfy | `Fare` | local fare, payload, fare‑key selection, remote outcome |
| validation.dfy | `Validation` | request validation (a loop over the two endpoints) |
| request.dfy | `Request` | the "Request a driver" flow as a function |
| trip.dfy | `TripState` | the trip record as a value (`Trip`) with one function per action, and the `Session` class whose methods update the record field by field |

Each `Session` method is proved against the function of the same action on `Trip`
(`ensures State() == ResolveClick(old(State()), click)` and so on). The
properties are proved as lemmas about those functions.

Modelling choices:

- **Numbers.** Floats are `real`.
- **Nearest marker.** The click handler compares `math.hypot` values; the model
  compares squared distances, which gives the same order (`Geo.RootOrder`).
- **Coordinate labels.** A label is `Text(s)` or `CoordLabel(lat, lng)`; the
  `:.6f` formatting is not modelled.
- **Clicks.** A click is `Option<Point>`. `None` means no click, or a click whose
  coordinates do not convert with `float()`.
- **Provider tokens.** They become booleans.
- **Clock.** `time.time()` becomes the parameter `now`.
- **HTTP answers.** Mapbox, LocationIQ, OSRM and the fare predictor are inputs.
  Each is a datatype holding the status, the parsed body, or a transport failure.
  A 429 is its own error tag.
- **Fallback distance.** It uses `math.dist`. The model has no square root, so the
  caller passes that value as `hypot`. The fallback lemma assumes
  `hypot >= 0 && hypot * hypot == SqDist(pickup, dropoff)`.
- **Behaviour of the code worth noting:**
  - The fare keys read are `fare`, `prediction` and `y_pred` only; a `pred` key is
    ignored (`Fare.OtherKeysIgnored`).
  - The first *truthy* value is chosen, not the first present one. A fare of `0`
    is passed over, and on its own it reads as "no fare key"
    (`Fare.ZeroFareIsSkipped`).
  - Reset does not clear the two autocomplete timestamps.

## Model

| member | source | states |
|---|---|---|
| Geo.SqDist | app.py:312-313 | the squared planar distance is non‑negative and zero for a point and itself |
| Geo.RootOrder | app.py:312-314 | comparing squared distances orders clicks exactly as comparing `hypot` values |
| Autocomplete.FirstNonEmptyIsFirst | app.py:134 | an `or` chain yields the first truthy candidate, and the default only when none is truthy |
| Autocomplete.LabelFallback | app.py:133-134 | a label is `full_address`, else `name`, else `place_name`, else the query `q` |
| Autocomplete.NormaliseFeatures | app.py:127-136 | the loop's output equals the normalisation of the whole feature list and is never longer than it |
| Autocomplete.NormalisedAppend | app.py:128-135 | normalising a concatenation normalises each part in order |
| Autocomplete.NormalisedLength | app.py:128-131 | output length ≤ input length, with equality iff every feature has ≥ 2 coordinates |
| Autocomplete.NormalisedMembers | app.py:128-135 | every suggestion is the conversion of a feature with coordinates, and every such feature is converted |
| Autocomplete.NormalisedPointwise | app.py:132-135 | with no malformed feature, suggestion i has lat = coords[1], lng = coords[0] of feature i |
| Autocomplete.ChosenProvider | app.py:174-185 | Mapbox iff its token is set; LocationIQ iff only its token is set; none iff neither is |
| Autocomplete.Fetch | app.py:173-185 | a failure or a missing provider gives an empty list; "no provider" iff no token is set; a warning names the chosen provider |
| Autocomplete.ProviderPreference | app.py:174-183 | with a Mapbox token the LocationIQ answer is irrelevant, and without one the Mapbox answer is |
| Autocomplete.FetchedFromChosen | app.py:173-183 | the list is the chosen provider's normalised result, or empty with a warning carrying its error |
| Autocomplete.TrimStart | app.py:213 | `lstrip` leaves a suffix that starts with a non‑space, having removed only whitespace |
| Autocomplete.TrimEnd | app.py:213 | `rstrip` leaves a prefix that ends with a non‑space, having removed only whitespace |
| Autocomplete.Strip | app.py:213 | `strip` is the slice between leading and trailing whitespace, and neither end of it is whitespace |
| Autocomplete.QueryGate | app.py:213-214 | a blank query, or one under three characters, never triggers suggestions |
| Routing.SwapPairs | app.py:347-348 | same length as the geometry; point i is `(c[1], c[0])`; fails iff some pair has fewer than 2 elements |
| Routing.SwapRoundTrip | app.py:347-348 | for exact `[lon, lat]` pairs, swapping back gives the original geometry |
| Routing.SwapInverse | app.py:347-348 | any lat/lon path survives conversion to `[lon, lat]` pairs and back |
| Routing.FetchRoute | app.py:337-349 | success iff the status is not an error, the body is readable with code "Ok" and a route, and every pair has 2 elements; a transport failure, 429, another 4xx/5xx and any other unusable reply each give their own error; on success km·1000 = metres, min·60 = seconds, and the path is the swapped geometry |
| Routing.ComputeRoute | app.py:391-407 | a usable OSRM answer gives its route with no error; any other gives the straight‑line estimate and the fetch's error |
| Routing.FallbackEstimate | app.py:399-407 | path is `[pickup, dropoff]`; distance ≥ 0 and its square is 111² × squared degree distance; duration × 22 = distance × 60 |
| Routing.FailureFallsBack | app.py:397-407 | any routing error, a 429 included, gives the straight two‑point estimate and records the error (the 429 raise is at app.py:338-339) |
| Fare.LocalFareBase | app.py:351-353 | the fare is ≥ 3.0, and exactly 3.0 when distance ≤ 0 and passengers ≤ 1 |
| Fare.LocalFareClampsDistance | app.py:353 | a negative distance is charged as zero |
| Fare.LocalFareMonotone | app.py:351-353 | the fare does not decrease with distance or with passengers |
| Fare.LocalFareExamples | app.py:351-353 | 0 km with 1 passenger costs 3.0; 10 km with 3 passengers costs 22.0 |
| Fare.PayloadRoundTrip | app.py:355-364 | the payload's coordinates read back as pickup and dropoff, unswapped, with the passenger count |
| Fare.ChooseFareIsKeyScan | app.py:436 | the `or` chain equals reading the key list `fare, prediction, y_pred` from the front |
| Fare.ChooseFarePriority | app.py:436 | truthy iff some fare key is truthy; `fare` wins, then `prediction`, else whatever `y_pred` holds |
| Fare.OtherKeysIgnored | app.py:436 | keys outside the three (such as `pred`) never change the choice |
| Fare.ZeroFareIsSkipped | app.py:436-437 | a zero fare is falsy: alone it reads as absent, and a later non‑zero key wins over it |
| Fare.RemoteOutcome | app.py:432-446 | transport error iff no answer; the 429 message iff status 429; another 4xx/5xx gives that status; "not a JSON object" iff a non‑error answer has no readable body; "no fare key" iff a readable answer's chosen value is null |
| Fare.RemoteFareShown | app.py:435-439 | a usable answer shows the number under the first truthy fare key |
| Validation.ErrorsCharacterised | app.py:381-386 | one error per endpoint out of bounds and one for passengers < 1: at most 3, and none iff all inputs are valid |
| Validation.Validate | app.py:381-386 | the loop produces exactly that error list; ≤ 3 entries; empty iff all inputs are valid |
| Request.RejectedIffInvalid | app.py:387-389 | the request is rejected iff some input is invalid, listing 1 to 3 errors |
| Request.RejectedMakesNoCalls | app.py:387-390 | a rejected request does not depend on any server answer: routing is attempted only after validation passes |
| Request.QuotedTrip | app.py:390-409 | an accepted request prices its route with the local fare (≥ 3.0) and sends both endpoints; the route is OSRM's when its answer is usable, else `[pickup, dropoff]` with the error, 111 km per degree when `hypot` is the true distance |
| Request.EmptyPathStopsBeforeFareCall | app.py:416-432 | the run stops at the result map, before the fare call, iff a valid request gets a usable OSRM route with no points; what is shown then does not depend on the fare server |
| Request.Latitude95Rejected | app.py:382-384 | a pickup at latitude 95 is rejected with exactly one error and no call |
| TripState.ResetRestoresDefaults | app.py:256-265 | reset gives the initial record except the autocomplete times, and is idempotent |
| TripState.ClickDedup | app.py:300-311 | no click changes nothing; a click changes the record iff it differs from the last by more than 1e‑10 in a coordinate; a new click becomes the last click |
| TripState.ClickMovesNearest | app.py:312-321 | a new click moves the pickup if its squared distance is ≤ the dropoff's, else the dropoff; only that endpoint and its labels change; never both endpoints |
| TripState.TieGoesToPickup | app.py:314-317 | an equidistant click moves the pickup and leaves the dropoff |
| TripState.RepeatedClickIsIgnored | app.py:309-311 | the same click reported again changes nothing further |
| TripState.ClickKeepsBounds | app.py:312-321 | in‑bounds clicks keep both endpoints in bounds |
| TripState.ResetForgetsLastClick | app.py:265 | after a reset any click is processed |
| TripState.SuggestThrottle | app.py:167-190 | within 0.6 s nothing changes; otherwise the field's time becomes `now`, its list becomes the provider's result, and nothing else changes |
| TripState.CooldownSuppressesSecondCall | app.py:169-171 | a second call for a field within 0.6 s of one that went through does nothing |
| TripState.SuggestLeavesOtherField | app.py:187-190 | a call never changes the other field's list or time |
| TripState.ShortQueryOnlyRecorded | app.py:207-214 | a query under three characters after stripping only records the text |
| TripState.Session.constructor | app.py:79-103 | a new session holds the initial record |
| TripState.Session.ResetPoints | app.py:256-265 | the record after the button is the reset of the record before it |
| TripState.Session.HandleClick | app.py:300-322 | the in‑place handler leaves the record `ResolveClick` prescribes |
| TripState.Session.GetSuggestions | app.py:162-190 | the in‑place update and its notice are those of `Suggest` |
| TripState.Session.TypeQuery | app.py:207-214 | recording the query and the gated call give the record of `EditQuery` |
| TripState.Session.RequestDriver | app.py:380-409 | the outcome is `PlanRequest` of the current endpoints |

## Left out

- Page layout, widgets, markdown and CSS, `st.rerun`, and map rendering with folium: these are UI with no decision logic.
- Choosing a suggestion in the select box (app.py:216-224, 237-245): the value comes from a widget, so it is not modelled.
- HTTP calls, timeouts and `raise_for_status`: each server's answer is an input datatype. A body whose JSON lacks a key the code indexes (raising `KeyError`) is folded into "malformed". A Mapbox feature whose geometry is null, or whose coordinates are not numbers, makes the Python call raise; it is folded into a provider error for the whole reply.
- LocationIQ parsing (app.py:156-159): its answer is given already parsed, or as an error.
- Reading the tokens from the environment, and `time.time()`: these are parameters.
- `@st.cache_data` on the routing call: framework caching, not modelled.
- `init_state` on a session where only some keys exist: the constructor models the first run, where every key is missing.
- Float behaviour (NaN, infinities, rounding): reals are exact.
- Fare.LocalFare: returns the unrounded real; the final `round(…, 2)` is not modelled.
- `float()` applied to a text fare: the outcome records the text (`ApiFareText`) rather than parsing it.
- The `:.6f` coordinate labels and the `strftime` timestamp: the label is `CoordLabel(lat, lng)`, and the timestamp text is a parameter.
- Routing.FallbackEstimate: `math.dist` is the parameter `hypot`, characterised by `hypot ≥ 0` and `hypot² = SqDist`. The model does not state that a zero distance implies equal endpoints.
