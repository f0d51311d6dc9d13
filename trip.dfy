/**
 * The session's trip record: the two endpoints with their address and query
 * labels, the last processed map click, and per field the autocomplete
 * suggestions and the time of the last autocomplete call. `Trip` is its value,
 * the functions below say how each action changes it, and `Session` is the
 * record updated in place, field by field, as the app does.
 */
module TripState {
  import opened Wrappers
  import opened Geo
  import opened Autocomplete
  import opened Routing
  import opened Fare
  import opened Request
  import Validation

  /**
   * An address or query text: free text, or the coordinate label
   * `f"{lat:.6f}, {lng:.6f}"` written for a clicked point (formatting abstracted).
   */
  datatype Label = Text(text: string) | CoordLabel(lat: real, lng: real)

  /** Times Square. */
  const DefaultPickup: Point := Point(40.7580, -73.9855)
  /** Central Park South. */
  const DefaultDropoff: Point := Point(40.7676, -73.9817)
  const DefaultPickupAddress: Label := Text("Times Square, New York, NY")
  const DefaultDropoffAddress: Label := Text("Central Park South, New York, NY")

  /** Two clicks closer than this in both coordinates are the same click. */
  const ClickEpsilon: real := 0.0000000001

  /** Minimum time, in seconds, between two autocomplete calls for one field. */
  const AutocompleteCooldown: real := 0.6

  datatype Trip = Trip(
    pickup: Point,
    dropoff: Point,
    pickupAddress: Label,
    dropoffAddress: Label,
    pickupQuery: Label,
    dropoffQuery: Label,
    lastClick: Option<Point>,
    pickupSuggestions: seq<Suggestion>,
    dropoffSuggestions: seq<Suggestion>,
    pickupLastAutocomplete: real,
    dropoffLastAutocomplete: real)

  /** The record `init_state` creates in a fresh session: NYC defaults, queries equal to the addresses. */
  function Initial(): Trip {
    Trip(DefaultPickup, DefaultDropoff, DefaultPickupAddress, DefaultDropoffAddress,
         DefaultPickupAddress, DefaultDropoffAddress, None, [], [], 0.0, 0.0)
  }

  // ---------------------------------------------------------------------------
  // Reset
  // ---------------------------------------------------------------------------

  /** The "Reset points" button: everything back to the defaults except the two autocomplete times. */
  function ResetTrip(t: Trip): Trip {
    t.(pickup := DefaultPickup, dropoff := DefaultDropoff,
       pickupAddress := DefaultPickupAddress, dropoffAddress := DefaultDropoffAddress,
       pickupQuery := DefaultPickupAddress, dropoffQuery := DefaultDropoffAddress,
       pickupSuggestions := [], dropoffSuggestions := [], lastClick := None)
  }

  /** Reset gives the initial record, keeping only the throttle times; resetting twice is resetting once. */
  lemma ResetRestoresDefaults(t: Trip)
    ensures ResetTrip(t) == Initial().(pickupLastAutocomplete := t.pickupLastAutocomplete,
                                       dropoffLastAutocomplete := t.dropoffLastAutocomplete)
    ensures ResetTrip(ResetTrip(t)) == ResetTrip(t)
    ensures ResetTrip(Initial()) == Initial()
    ensures InBounds(ResetTrip(t).pickup) && InBounds(ResetTrip(t).dropoff)
  {
  }

  // ---------------------------------------------------------------------------
  // Map click: deduplicate, then move the nearest marker
  // ---------------------------------------------------------------------------

  /** The click is processed: there is no previous click, or it differs by more than epsilon in a coordinate. */
  predicate IsNewClick(last: Option<Point>, c: Point) {
    last.None? || Abs(last.value.lat - c.lat) > ClickEpsilon || Abs(last.value.lng - c.lng) > ClickEpsilon
  }

  /**
   * The click handler. `click` is None when the map reports no click or its
   * coordinates do not convert to floats.
   */
  function ResolveClick(t: Trip, click: Option<Point>): Trip {
    match click
    case None => t
    case Some(c) =>
      if !IsNewClick(t.lastClick, c) then t
      else if SqDist(c, t.pickup) <= SqDist(c, t.dropoff) then
        t.(lastClick := Some(c), pickup := c,
           pickupAddress := CoordLabel(c.lat, c.lng), pickupQuery := CoordLabel(c.lat, c.lng))
      else
        t.(lastClick := Some(c), dropoff := c,
           dropoffAddress := CoordLabel(c.lat, c.lng), dropoffQuery := CoordLabel(c.lat, c.lng))
  }

  /** Suggestions and autocomplete times are the same in both records. */
  predicate SameAutocomplete(t: Trip, t': Trip) {
    && t'.pickupSuggestions == t.pickupSuggestions && t'.dropoffSuggestions == t.dropoffSuggestions
    && t'.pickupLastAutocomplete == t.pickupLastAutocomplete
    && t'.dropoffLastAutocomplete == t.dropoffLastAutocomplete
  }

  /** The pickup moved to c and was relabelled; the dropoff and its labels did not change. */
  predicate MovedPickup(t: Trip, t': Trip, c: Point) {
    && t'.pickup == c && t'.pickupAddress == CoordLabel(c.lat, c.lng) && t'.pickupQuery == t'.pickupAddress
    && t'.dropoff == t.dropoff && t'.dropoffAddress == t.dropoffAddress && t'.dropoffQuery == t.dropoffQuery
    && t'.lastClick == Some(c) && SameAutocomplete(t, t')
  }

  /** The dropoff moved to c and was relabelled; the pickup and its labels did not change. */
  predicate MovedDropoff(t: Trip, t': Trip, c: Point) {
    && t'.dropoff == c && t'.dropoffAddress == CoordLabel(c.lat, c.lng) && t'.dropoffQuery == t'.dropoffAddress
    && t'.pickup == t.pickup && t'.pickupAddress == t.pickupAddress && t'.pickupQuery == t.pickupQuery
    && t'.lastClick == Some(c) && SameAutocomplete(t, t')
  }

  /**
   * Deduplication: a click changes the record iff it is new, and a new click
   * becomes the last click. No click at all changes nothing.
   */
  lemma ClickDedup(t: Trip, c: Point)
    ensures ResolveClick(t, None) == t
    ensures ResolveClick(t, Some(c)) == t <==> !IsNewClick(t.lastClick, c)
    ensures IsNewClick(t.lastClick, c) ==> ResolveClick(t, Some(c)).lastClick == Some(c)
  {
    if IsNewClick(t.lastClick, c) && t.lastClick.Some? {
      assert t.lastClick.value != c;
    }
  }

  /**
   * A new click moves the nearer marker: the pickup when its squared distance
   * is at most the dropoff's (ties go to the pickup), else the dropoff.
   * Exactly that endpoint and its address and query change.
   */
  lemma ClickMovesNearest(t: Trip, c: Point)
    requires IsNewClick(t.lastClick, c)
    ensures SqDist(c, t.pickup) <= SqDist(c, t.dropoff) ==> MovedPickup(t, ResolveClick(t, Some(c)), c)
    ensures SqDist(c, t.pickup) > SqDist(c, t.dropoff) ==> MovedDropoff(t, ResolveClick(t, Some(c)), c)
    ensures MovedPickup(t, ResolveClick(t, Some(c)), c) || MovedDropoff(t, ResolveClick(t, Some(c)), c)
    ensures ResolveClick(t, Some(c)).pickup == t.pickup || ResolveClick(t, Some(c)).dropoff == t.dropoff
  {
  }

  /** A click exactly as far from both markers moves the pickup. */
  lemma TieGoesToPickup(t: Trip, c: Point)
    requires IsNewClick(t.lastClick, c) && SqDist(c, t.pickup) == SqDist(c, t.dropoff)
    ensures MovedPickup(t, ResolveClick(t, Some(c)), c)
    ensures ResolveClick(t, Some(c)).dropoff == t.dropoff
  {
  }

  /** The same click reported again on the next run changes nothing more. */
  lemma RepeatedClickIsIgnored(t: Trip, c: Point)
    ensures ResolveClick(ResolveClick(t, Some(c)), Some(c)) == ResolveClick(t, Some(c))
  {
    var t' := ResolveClick(t, Some(c));
    if IsNewClick(t.lastClick, c) {
      assert t'.lastClick == Some(c);
      assert Abs(c.lat - c.lat) == 0.0 && Abs(c.lng - c.lng) == 0.0;
    }
  }

  /** Clicks inside the valid range keep both endpoints inside it. */
  lemma ClickKeepsBounds(t: Trip, click: Option<Point>)
    requires InBounds(t.pickup) && InBounds(t.dropoff)
    requires click.Some? ==> InBounds(click.value)
    ensures InBounds(ResolveClick(t, click).pickup) && InBounds(ResolveClick(t, click).dropoff)
  {
  }

  /** After a reset there is no last click, so any click is processed. */
  lemma ResetForgetsLastClick(t: Trip, c: Point)
    ensures IsNewClick(ResetTrip(t).lastClick, c)
    ensures ResolveClick(ResetTrip(t), Some(c)).lastClick == Some(c)
  {
  }

  // ---------------------------------------------------------------------------
  // Autocomplete
  // ---------------------------------------------------------------------------

  /** The new record and what was surfaced to the user. */
  datatype Step = Step(trip: Trip, notice: Notice)

  function LastAutocomplete(t: Trip, isPickup: bool): real {
    if isPickup then t.pickupLastAutocomplete else t.dropoffLastAutocomplete
  }

  function Suggestions(t: Trip, isPickup: bool): seq<Suggestion> {
    if isPickup then t.pickupSuggestions else t.dropoffSuggestions
  }

  /** The throttle of `get_suggestions`: the field was queried less than the cooldown ago. */
  predicate Throttled(t: Trip, isPickup: bool, now: real) {
    now - LastAutocomplete(t, isPickup) < AutocompleteCooldown
  }

  /** `get_suggestions(q, is_pickup)` at time `now`. */
  function Suggest(t: Trip, q: string, isPickup: bool, now: real, env: Providers): Step {
    if Throttled(t, isPickup, now) then Step(t, Quiet)
    else
      var fetched := Fetch(q, env);
      if isPickup then
        Step(t.(pickupLastAutocomplete := now, pickupSuggestions := fetched.suggestions), fetched.notice)
      else
        Step(t.(dropoffLastAutocomplete := now, dropoffSuggestions := fetched.suggestions), fetched.notice)
  }

  /** t' differs from t at most in the given field's suggestion list and autocomplete time. */
  predicate OnlyFieldAutocompleteChanged(t: Trip, t': Trip, isPickup: bool) {
    if isPickup then
      t' == t.(pickupSuggestions := t'.pickupSuggestions, pickupLastAutocomplete := t'.pickupLastAutocomplete)
    else
      t' == t.(dropoffSuggestions := t'.dropoffSuggestions, dropoffLastAutocomplete := t'.dropoffLastAutocomplete)
  }

  /**
   * Within the cooldown nothing changes and nothing is shown. Otherwise the
   * field's time becomes `now`, its list becomes the provider's result, and
   * nothing else in the record changes.
   */
  lemma SuggestThrottle(t: Trip, q: string, isPickup: bool, now: real, env: Providers)
    ensures Throttled(t, isPickup, now) ==> Suggest(t, q, isPickup, now, env) == Step(t, Quiet)
    ensures !Throttled(t, isPickup, now) ==>
              var s := Suggest(t, q, isPickup, now, env);
              && LastAutocomplete(s.trip, isPickup) == now
              && Suggestions(s.trip, isPickup) == Fetch(q, env).suggestions
              && s.notice == Fetch(q, env).notice
              && OnlyFieldAutocompleteChanged(t, s.trip, isPickup)
  {
  }

  /** A second call for the same field within the cooldown of a call that went through is suppressed. */
  lemma CooldownSuppressesSecondCall(t: Trip, q: string, q': string, isPickup: bool,
                                     now: real, now': real, env: Providers, env': Providers)
    requires !Throttled(t, isPickup, now)
    requires now <= now' < now + AutocompleteCooldown
    ensures var first := Suggest(t, q, isPickup, now, env).trip;
            Suggest(first, q', isPickup, now', env') == Step(first, Quiet)
  {
  }

  /** A call for one field never touches the other field's list or time, throttled or not. */
  lemma SuggestLeavesOtherField(t: Trip, q: string, isPickup: bool, now: real, env: Providers)
    ensures var t' := Suggest(t, q, isPickup, now, env).trip;
            Suggestions(t', !isPickup) == Suggestions(t, !isPickup) &&
            LastAutocomplete(t', !isPickup) == LastAutocomplete(t, !isPickup)
  {
  }

  /** The text input: the query becomes the typed text, and suggestions are asked for the stripped text if it is long enough. */
  function EditQuery(t: Trip, raw: string, isPickup: bool, now: real, env: Providers): Step {
    var t1 := if isPickup then t.(pickupQuery := Text(raw)) else t.(dropoffQuery := Text(raw));
    if ShouldSuggest(raw) then Suggest(t1, Strip(raw), isPickup, now, env) else Step(t1, Quiet)
  }

  /** A query shorter than three characters after stripping only records the text. */
  lemma ShortQueryOnlyRecorded(t: Trip, raw: string, isPickup: bool, now: real, env: Providers)
    requires !ShouldSuggest(raw)
    ensures EditQuery(t, raw, isPickup, now, env) ==
            Step(if isPickup then t.(pickupQuery := Text(raw)) else t.(dropoffQuery := Text(raw)), Quiet)
  {
  }

  // ---------------------------------------------------------------------------
  // The record updated in place
  // ---------------------------------------------------------------------------

  /** `st.session_state`'s trip keys, one field each. */
  class Session {
    var pickup: Point
    var dropoff: Point
    var pickupAddress: Label
    var dropoffAddress: Label
    var pickupQuery: Label
    var dropoffQuery: Label
    var lastClick: Option<Point>
    var pickupSuggestions: seq<Suggestion>
    var dropoffSuggestions: seq<Suggestion>
    var pickupLastAutocomplete: real
    var dropoffLastAutocomplete: real

    /** The value of the record. */
    function State(): Trip
      reads this
    {
      Trip(pickup, dropoff, pickupAddress, dropoffAddress, pickupQuery, dropoffQuery, lastClick,
           pickupSuggestions, dropoffSuggestions, pickupLastAutocomplete, dropoffLastAutocomplete)
    }

    /** `init_state` on a new session. */
    constructor ()
      ensures State() == Initial()
    {
      pickup := DefaultPickup;
      dropoff := DefaultDropoff;
      pickupAddress := DefaultPickupAddress;
      dropoffAddress := DefaultDropoffAddress;
      lastClick := None;
      pickupQuery := pickupAddress;
      dropoffQuery := dropoffAddress;
      pickupSuggestions := [];
      dropoffSuggestions := [];
      pickupLastAutocomplete := 0.0;
      dropoffLastAutocomplete := 0.0;
    }

    /** The "Reset points" button. */
    method ResetPoints()
      modifies this
      ensures State() == ResetTrip(old(State()))
    {
      pickup := DefaultPickup;
      dropoff := DefaultDropoff;
      pickupAddress := DefaultPickupAddress;
      dropoffAddress := DefaultDropoffAddress;
      pickupQuery := pickupAddress;
      dropoffQuery := dropoffAddress;
      pickupSuggestions := [];
      dropoffSuggestions := [];
      lastClick := None;
    }

    /** The map click handler. */
    method HandleClick(click: Option<Point>)
      modifies this
      ensures State() == ResolveClick(old(State()), click)
    {
      if click.None? {
        return;
      }
      var c := click.value;
      var last := lastClick;
      if last.None? || Abs(last.value.lat - c.lat) > ClickEpsilon || Abs(last.value.lng - c.lng) > ClickEpsilon {
        lastClick := Some(c);
        var dPick := SqDist(c, pickup);
        var dDrop := SqDist(c, dropoff);
        if dPick <= dDrop {
          pickup := c;
          pickupAddress := CoordLabel(c.lat, c.lng);
          pickupQuery := pickupAddress;
        } else {
          dropoff := c;
          dropoffAddress := CoordLabel(c.lat, c.lng);
          dropoffQuery := dropoffAddress;
        }
      }
    }

    /** `get_suggestions`: throttle, stamp the time, ask the chosen provider, replace that field's list. */
    method GetSuggestions(q: string, isPickup: bool, now: real, env: Providers) returns (notice: Notice)
      modifies this
      ensures Step(State(), notice) == Suggest(old(State()), q, isPickup, now, env)
    {
      var last := if isPickup then pickupLastAutocomplete else dropoffLastAutocomplete;
      if now - last < AutocompleteCooldown {
        return Quiet;
      }
      if isPickup {
        pickupLastAutocomplete := now;
      } else {
        dropoffLastAutocomplete := now;
      }
      var suggestions: seq<Suggestion> := [];
      notice := Quiet;
      if env.hasMapboxToken {
        match env.mapbox
        case Success(features) =>
          suggestions := NormaliseFeatures(q, features);
        case Failure(e) =>
          notice := ProviderFailed(Mapbox, e);
      } else if env.hasLocationIqToken {
        match env.locationIq
        case Success(items) =>
          suggestions := items;
        case Failure(e) =>
          notice := ProviderFailed(LocationIQ, e);
      } else {
        notice := NoProviderConfigured;
      }
      if isPickup {
        pickupSuggestions := suggestions;
      } else {
        dropoffSuggestions := suggestions;
      }
    }

    /** One of the two address inputs: record the text, then ask for suggestions if it is long enough. */
    method TypeQuery(raw: string, isPickup: bool, now: real, env: Providers) returns (notice: Notice)
      modifies this
      ensures Step(State(), notice) == EditQuery(old(State()), raw, isPickup, now, env)
    {
      if isPickup {
        pickupQuery := Text(raw);
      } else {
        dropoffQuery := Text(raw);
      }
      notice := Quiet;
      var stripped := Strip(raw);
      if |stripped| >= 3 {
        notice := GetSuggestions(stripped, isPickup, now, env);
      }
    }

    /** The "Request a driver" button, for the current endpoints. */
    method RequestDriver(passengers: int, hypot: real, datetimeText: string,
                         osrm: OsrmReply, fareReply: FareReply) returns (o: Outcome)
      ensures o == PlanRequest(pickup, dropoff, passengers, hypot, datetimeText, osrm, fareReply)
    {
      var errs := Validation.Validate(pickup, dropoff, passengers);
      if errs != [] {
        return Rejected(errs);
      }
      var routed := ComputeRoute(pickup, dropoff, hypot, osrm);
      var localEstimate := LocalFare(routed.route.distanceKm, passengers);
      if routed.route.path == [] {
        return MapFailed(routed, localEstimate);
      }
      var payload := MakePayload(pickup, dropoff, datetimeText, passengers);
      o := Quoted(routed, localEstimate, payload, RemoteOutcome(fareReply));
    }
  }
}
