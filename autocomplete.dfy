/**
 * Address autocomplete: the query gate in front of the provider call, the
 * provider preference (Mapbox, then LocationIQ, then none) and the
 * normalisation of Mapbox features into suggestions.
 */
module Autocomplete {
  import opened Wrappers
  import opened Http

  /** `{"label": ..., "lat": ..., "lng": ...}`, the common shape of every provider's results; `text` is the label. */
  datatype Suggestion = Suggestion(text: string, lat: real, lng: real)

  /**
   * One Mapbox Geocoding v6 feature as the normaliser reads it.
   * `coordinates` is None when `geometry` is absent or its `coordinates` key is
   * absent or null. A null `geometry` makes the Python lookup raise; that reply
   * is a provider error, not a feature. A label candidate is None when its key
   * is absent or null.
   * `placeName` is read from the feature itself, the other two from its properties.
   */
  datatype Feature = Feature(
    coordinates: Option<seq<real>>,
    fullAddress: Option<string>,
    name: Option<string>,
    placeName: Option<string>)

  // ---------------------------------------------------------------------------
  // Label fallback: `full_address or name or place_name or q`
  // ---------------------------------------------------------------------------

  /** Python truthiness of an optional string: present and not empty. */
  predicate NonEmpty(s: Option<string>) {
    s.Some? && s.value != ""
  }

  /** `c0 or c1 or ... or default`: the first truthy candidate, else the default. */
  function FirstNonEmpty(candidates: seq<Option<string>>, default: string): string
  {
    if |candidates| == 0 then default
    else if NonEmpty(candidates[0]) then candidates[0].value
    else FirstNonEmpty(candidates[1..], default)
  }

  /** The `or` chain yields the first truthy candidate, and the default only when none is truthy. */
  lemma {:induction false} FirstNonEmptyIsFirst(candidates: seq<Option<string>>, default: string)
    ensures (forall i :: 0 <= i < |candidates| ==> !NonEmpty(candidates[i])) ==>
              FirstNonEmpty(candidates, default) == default
    ensures forall i :: (0 <= i < |candidates| && NonEmpty(candidates[i]) &&
                         (forall j :: 0 <= j < i ==> !NonEmpty(candidates[j]))) ==>
              FirstNonEmpty(candidates, default) == candidates[i].value
  {
    if |candidates| > 0 && !NonEmpty(candidates[0]) {
      var rest := candidates[1..];
      FirstNonEmptyIsFirst(rest, default);
      forall i | 0 <= i < |candidates| && NonEmpty(candidates[i]) &&
                 (forall j :: 0 <= j < i ==> !NonEmpty(candidates[j]))
        ensures FirstNonEmpty(candidates, default) == candidates[i].value
      {
        assert rest[i - 1] == candidates[i];
        assert forall j :: 0 <= j < i - 1 ==> rest[j] == candidates[j + 1];
      }
    }
  }

  function LabelCandidates(f: Feature): seq<Option<string>> {
    [f.fullAddress, f.name, f.placeName]
  }

  function LabelOf(q: string, f: Feature): string {
    FirstNonEmpty(LabelCandidates(f), q)
  }

  /** The label falls back through `full_address`, `name`, `place_name`, then the query itself. */
  lemma LabelFallback(q: string, f: Feature)
    ensures NonEmpty(f.fullAddress) ==> LabelOf(q, f) == f.fullAddress.value
    ensures !NonEmpty(f.fullAddress) && NonEmpty(f.name) ==> LabelOf(q, f) == f.name.value
    ensures !NonEmpty(f.fullAddress) && !NonEmpty(f.name) && NonEmpty(f.placeName) ==> LabelOf(q, f) == f.placeName.value
    ensures !NonEmpty(f.fullAddress) && !NonEmpty(f.name) && !NonEmpty(f.placeName) ==> LabelOf(q, f) == q
  {
    var c := LabelCandidates(f);
    FirstNonEmptyIsFirst(c, q);
    assert c[0] == f.fullAddress && c[1] == f.name && c[2] == f.placeName;
  }

  // ---------------------------------------------------------------------------
  // Feature normalisation
  // ---------------------------------------------------------------------------

  /** Kept by the loop: `coords` is truthy and has at least two elements. */
  predicate HasCoordinates(f: Feature) {
    f.coordinates.Some? && |f.coordinates.value| >= 2
  }

  /** The suggestion for a kept feature: GeoJSON `[lon, lat]` becomes lat/lng. */
  function Convert(q: string, f: Feature): Suggestion
    requires HasCoordinates(f)
  {
    Suggestion(LabelOf(q, f), f.coordinates.value[1], f.coordinates.value[0])
  }

  function Kept(q: string, f: Feature): seq<Suggestion> {
    if HasCoordinates(f) then [Convert(q, f)] else []
  }

  /** What the normalisation loop appends, feature by feature, as a specification. */
  function Normalised(q: string, features: seq<Feature>): seq<Suggestion>
  {
    if |features| == 0 then []
    else Normalised(q, features[..|features| - 1]) + Kept(q, features[|features| - 1])
  }

  /** Normalising a concatenation normalises the parts independently, in order. */
  lemma {:induction false} NormalisedAppend(q: string, a: seq<Feature>, b: seq<Feature>)
    ensures Normalised(q, a + b) == Normalised(q, a) + Normalised(q, b)
  {
    if |b| > 0 {
      var b' := b[..|b| - 1];
      assert (a + b)[..|a + b| - 1] == a + b';
      assert (a + b)[|a + b| - 1] == b[|b| - 1];
      NormalisedAppend(q, a, b');
    } else {
      assert a + b == a;
    }
  }

  /** The output is never longer than the input; it is shorter exactly when a feature lacks coordinates. */
  lemma {:induction false} NormalisedLength(q: string, features: seq<Feature>)
    ensures |Normalised(q, features)| <= |features|
    ensures |Normalised(q, features)| == |features| <==>
              forall i :: 0 <= i < |features| ==> HasCoordinates(features[i])
  {
    if |features| > 0 {
      var init := features[..|features| - 1];
      NormalisedLength(q, init);
      assert forall i :: 0 <= i < |init| ==> init[i] == features[i];
    }
  }

  /** Every suggestion comes from a feature with coordinates, and every such feature yields one. */
  lemma {:induction false} NormalisedMembers(q: string, features: seq<Feature>)
    ensures forall s :: s in Normalised(q, features) ==>
              exists f :: f in features && HasCoordinates(f) && Convert(q, f) == s
    ensures forall f :: f in features && HasCoordinates(f) ==> Convert(q, f) in Normalised(q, features)
  {
    if |features| > 0 {
      var init, last := features[..|features| - 1], features[|features| - 1];
      NormalisedMembers(q, init);
      assert features == init + [last];
      assert forall f :: f in init ==> f in features;
    }
  }

  /** When no feature is malformed, suggestion i is the conversion of feature i. */
  lemma {:induction false} NormalisedPointwise(q: string, features: seq<Feature>)
    requires forall i :: 0 <= i < |features| ==> HasCoordinates(features[i])
    ensures |Normalised(q, features)| == |features|
    ensures forall i :: 0 <= i < |features| ==> Normalised(q, features)[i] == Convert(q, features[i])
  {
    if |features| > 0 {
      var init := features[..|features| - 1];
      NormalisedPointwise(q, init);
    }
  }

  /** The loop of `autocomplete_mapbox`: skip features without coordinates, append the rest. */
  method NormaliseFeatures(q: string, features: seq<Feature>) returns (out: seq<Suggestion>)
    ensures out == Normalised(q, features)
    ensures |out| <= |features|
  {
    out := [];
    for i := 0 to |features|
      invariant out == Normalised(q, features[..i])
    {
      var feat := features[i];
      assert features[..i + 1] == features[..i] + [feat];
      assert features[..i + 1][..i] == features[..i];
      if feat.coordinates.None? || |feat.coordinates.value| < 2 {
        continue;
      }
      var coords := feat.coordinates.value;
      var lon, lat := coords[0], coords[1];
      var text := LabelOf(q, feat);
      out := out + [Suggestion(text, lat, lon)];
    }
    assert features[..|features|] == features;
    NormalisedLength(q, features);
  }

  // ---------------------------------------------------------------------------
  // Provider choice
  // ---------------------------------------------------------------------------

  datatype Provider = Mapbox | LocationIQ

  /** What `get_suggestions` surfaces besides the list: nothing, a warning, or the "no provider" notice. */
  datatype Notice = Quiet | ProviderFailed(provider: Provider, error: HttpError) | NoProviderConfigured

  /**
   * The configuration (which tokens are set) and what each provider would
   * answer for the current query. LocationIQ's answer is already parsed;
   * a parse failure of it is one of its errors.
   */
  datatype Providers = Providers(
    hasMapboxToken: bool,
    hasLocationIqToken: bool,
    mapbox: Result<seq<Feature>, HttpError>,
    locationIq: Result<seq<Suggestion>, HttpError>)

  /** Mapbox first, then LocationIQ, by presence of a credential. */
  function ChosenProvider(env: Providers): (p: Option<Provider>)
    ensures p == Some(Mapbox) <==> env.hasMapboxToken
    ensures p == Some(LocationIQ) <==> !env.hasMapboxToken && env.hasLocationIqToken
    ensures p == None <==> !env.hasMapboxToken && !env.hasLocationIqToken
  {
    if env.hasMapboxToken then Some(Mapbox)
    else if env.hasLocationIqToken then Some(LocationIQ)
    else None
  }

  datatype Fetched = Fetched(suggestions: seq<Suggestion>, notice: Notice)

  /** `autocomplete_mapbox` around its loop: no token means no results. */
  function MapboxSuggestions(q: string, hasToken: bool, reply: Result<seq<Feature>, HttpError>): Result<seq<Suggestion>, HttpError>
  {
    if !hasToken then Success([])
    else match reply
      case Success(features) => Success(Normalised(q, features))
      case Failure(e) => Failure(e)
  }

  /** `autocomplete_locationiq`, its parsing abstracted into the reply. */
  function LocationIqSuggestions(hasToken: bool, reply: Result<seq<Suggestion>, HttpError>): Result<seq<Suggestion>, HttpError>
  {
    if !hasToken then Success([]) else reply
  }

  /** The provider part of `get_suggestions`: one provider, errors degrade to an empty list and a warning. */
  function Fetch(q: string, env: Providers): (r: Fetched)
    ensures r.notice != Quiet ==> r.suggestions == []
    ensures r.notice == NoProviderConfigured <==> ChosenProvider(env) == None
    ensures r.notice.ProviderFailed? ==> ChosenProvider(env) == Some(r.notice.provider)
  {
    match ChosenProvider(env)
    case Some(Mapbox) =>
      (match MapboxSuggestions(q, env.hasMapboxToken, env.mapbox)
       case Success(s) => Fetched(s, Quiet)
       case Failure(e) => Fetched([], ProviderFailed(Mapbox, e)))
    case Some(LocationIQ) =>
      (match LocationIqSuggestions(env.hasLocationIqToken, env.locationIq)
       case Success(s) => Fetched(s, Quiet)
       case Failure(e) => Fetched([], ProviderFailed(LocationIQ, e)))
    case None => Fetched([], NoProviderConfigured)
  }

  /** With a Mapbox token, LocationIQ is never consulted; without one, Mapbox is never consulted. */
  lemma ProviderPreference(q: string, env: Providers,
                           otherMapbox: Result<seq<Feature>, HttpError>,
                           otherLocationIq: Result<seq<Suggestion>, HttpError>)
    ensures env.hasMapboxToken ==> Fetch(q, env) == Fetch(q, env.(locationIq := otherLocationIq))
    ensures !env.hasMapboxToken ==> Fetch(q, env) == Fetch(q, env.(mapbox := otherMapbox))
  {
  }

  /** Mapbox results are exactly the normalised features; LocationIQ results are passed through. */
  lemma FetchedFromChosen(q: string, env: Providers)
    ensures ChosenProvider(env) == Some(Mapbox) && env.mapbox.Success? ==>
              Fetch(q, env) == Fetched(Normalised(q, env.mapbox.value), Quiet)
    ensures ChosenProvider(env) == Some(LocationIQ) && env.locationIq.Success? ==>
              Fetch(q, env) == Fetched(env.locationIq.value, Quiet)
    ensures ChosenProvider(env) == Some(Mapbox) && env.mapbox.Failure? ==>
              Fetch(q, env) == Fetched([], ProviderFailed(Mapbox, env.mapbox.error))
    ensures ChosenProvider(env) == Some(LocationIQ) && env.locationIq.Failure? ==>
              Fetch(q, env) == Fetched([], ProviderFailed(LocationIQ, env.locationIq.error))
  {
  }

  // ---------------------------------------------------------------------------
  // Query gate: `len(query.strip()) >= 3`
  // ---------------------------------------------------------------------------

  /** The characters Python's `str.isspace` accepts, hence those `str.strip()` removes. */
  predicate IsSpace(c: char) {
    c == ' ' || ('\t' <= c <= '\r') || ('\U{1C}' <= c <= '\U{1F}') ||
    c == '\U{85}' || c == '\U{A0}' || c == '\U{1680}' || ('\U{2000}' <= c <= '\U{200A}') ||
    c == '\U{2028}' || c == '\U{2029}' || c == '\U{202F}' || c == '\U{205F}' || c == '\U{3000}'
  }

  /** `s.lstrip()`: the suffix of s left after dropping leading whitespace. */
  function TrimStart(s: string): (r: string)
    ensures |r| <= |s| && r == s[|s| - |r|..]
    ensures forall i :: 0 <= i < |s| - |r| ==> IsSpace(s[i])
    ensures r == [] || !IsSpace(r[0])
  {
    if s != [] && IsSpace(s[0]) then TrimStart(s[1..]) else s
  }

  /** `s.rstrip()`: the prefix of s left after dropping trailing whitespace. */
  function TrimEnd(s: string): (r: string)
    ensures |r| <= |s| && r == s[..|r|]
    ensures forall i :: |r| <= i < |s| ==> IsSpace(s[i])
    ensures r == [] || !IsSpace(r[|r| - 1])
  {
    if s != [] && IsSpace(s[|s| - 1]) then TrimEnd(s[..|s| - 1]) else s
  }

  /** Number of leading whitespace characters of s. */
  function Leading(s: string): nat {
    |s| - |TrimStart(s)|
  }

  /** `s.strip()`: the slice of s between its leading and its trailing whitespace. */
  function Strip(s: string): (r: string)
    ensures Leading(s) + |r| <= |s| && r == s[Leading(s)..Leading(s) + |r|]
    ensures forall i :: 0 <= i < Leading(s) ==> IsSpace(s[i])
    ensures forall i :: Leading(s) + |r| <= i < |s| ==> IsSpace(s[i])
    ensures r == [] || (!IsSpace(r[0]) && !IsSpace(r[|r| - 1]))
  {
    var t := TrimStart(s);
    var r := TrimEnd(t);
    assert forall i :: |r| <= i < |t| ==> t[i] == s[Leading(s) + i];
    r
  }

  /** The call site only asks for suggestions when the stripped query has at least three characters. */
  predicate ShouldSuggest(raw: string) {
    |Strip(raw)| >= 3
  }

  /** A query of blanks, or of fewer than three characters, is never sent. */
  lemma QueryGate(raw: string)
    ensures (forall i :: 0 <= i < |raw| ==> IsSpace(raw[i])) ==> !ShouldSuggest(raw)
    ensures |raw| < 3 ==> !ShouldSuggest(raw)
  {
    var r := Strip(raw);
    if r != [] {
      assert r[0] == raw[Leading(raw)];
    }
  }
}
