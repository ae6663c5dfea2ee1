/** The browser's API helpers: the geocoding calls with their fixed fallback answers, the
    generic time-to-live call cache, and the coordinate formatter. */
module Api {
  import opened Wrappers
  import opened Places
  import opened TtlCache

  /** What `geocodeApi.forward(query)` resolves with: the backend's answer, or two fixed
      suggestions around Delhi when the request fails. */
  function ForwardReply(query: string, upstream: Outcome<seq<Place>>): (r: seq<Place>)
    ensures upstream.Ok? ==> r == upstream.value
    ensures upstream.Fail? ==> r == ForwardFallback(query)
  {
    match upstream
    case Ok(data) => data
    case Fail => ForwardFallback(query)
  }

  function ForwardFallback(query: string): (r: seq<Place>)
    ensures |r| == 2
    ensures r[0] == Place(query + ", New Delhi, India", 28.6139, 77.2090, None)
    ensures r[1] == Place(query + ", Delhi, India", 28.7041, 77.1025, None)
  {
    [Place(query + ", New Delhi, India", 28.6139, 77.2090, None),
     Place(query + ", Delhi, India", 28.7041, 77.1025, None)]
  }

  /** The fixed suggestions are the client geocoder's built-in records with the query in front. */
  lemma ForwardFallbackAgreesWithClient(query: string)
    ensures ForwardFallback(query) == WithQuery(ClientFallbackData, query)
  {
    var w := WithQuery(ClientFallbackData, query);
    assert w[0].display == query + ", " + "New Delhi, India" == query + ", New Delhi, India";
    assert w[1].display == query + ", " + "Delhi, India" == query + ", Delhi, India";
  }

  /** What `geocodeApi.reverse(lat, lng)` resolves with: the backend's place, or a plain text. */
  datatype ReverseAnswer = Located(place: Place) | Text(text: string)

  function ReverseReply(upstream: Outcome<Place>): (r: ReverseAnswer)
    ensures r.Located? <==> upstream.Ok?
    ensures upstream.Ok? ==> r.place == upstream.value
    ensures upstream.Fail? ==> r.text == "Unknown location"
  {
    match upstream
    case Ok(place) => Located(place)
    case Fail => Text("Unknown location")
  }

  /** `formatCoordinates(coords)`; `fixed6` stands for `toFixed(6)`. Only missing coordinates
      give the empty text. */
  function FormatCoordinates(coords: Option<LatLng>, fixed6: real -> string): (r: string)
    ensures r == "" <==> coords.None?
    ensures coords.Some? ==> r == "Lat: " + fixed6(coords.value.lat) + ", Lng: " + fixed6(coords.value.lng)
  {
    match coords
    case None => ""
    case Some(p) => "Lat: " + fixed6(p.lat) + ", Lng: " + fixed6(p.lng)
  }

  /** `cachedApiCall(key, apiCall)` over the module's `cache` Map. */
  class CallCache<T> {
    var cache: map<string, Entry<T>>
    /** The keys for which `apiCall` has been invoked, in order. */
    var calls: seq<string>

    constructor ()
      ensures cache == map[] && calls == []
    {
      cache := map[];
      calls := [];
    }

    /** `now` is read once, before the call, and is also the stamp of the new entry. A
        rejected call rejects this call too and stores nothing. */
    method CachedApiCall(key: string, now: int, call: Outcome<T>) returns (r: Outcome<T>)
      modifies this
      ensures match Lookup(old(cache), key, now)
        case Some(data) => r == Ok(data) && cache == old(cache) && calls == old(calls)
        case None =>
          calls == old(calls) + [key] && r == call &&
          cache == (if call.Ok? then Store(old(cache), key, call.value, now) else old(cache))
    {
      var cached := Lookup(cache, key, now);
      if cached.Some? {
        return Ok(cached.value);
      }
      calls := calls + [key];
      match call
      case Ok(data) =>
        cache := Store(cache, key, data, now);
        r := Ok(data);
      case Fail =>
        r := Fail;
    }
  }
}
