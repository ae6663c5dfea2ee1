/** The browser-side geocoder: a module-level `Map` of timestamped answers with a five-minute
    time-to-live in front of the backend's geocoding endpoints, and built-in records as the
    answer when a request fails. The clock is read once before the request (to test the
    entry) and once after it resolves (to stamp the new entry): `now` and `doneAt`. */
module GeocodeClient {
  import opened Wrappers
  import opened Places
  import opened TtlCache

  /** A request to the backend's geocoding endpoints. */
  datatype Request = ForwardRequest(query: string) | ReverseRequest(lat: real, lng: real)

  class Client {
    var cache: map<string, Entry<Answer>>
    /** Every backend request made so far, in order. */
    var requests: seq<Request>
    const numberText: real -> string

    ghost predicate Valid()
      reads this
    {
      forall k :: k in cache ==> FitsKey(k, cache[k].data)
    }

    constructor (numberText: real -> string)
      ensures Valid() && cache == map[] && requests == [] && this.numberText == numberText
    {
      this.numberText := numberText;
      cache := map[];
      requests := [];
    }

    /** `forward(query)`. */
    method Forward(query: string, now: int, doneAt: int, upstream: Outcome<seq<Place>>) returns (r: seq<Place>)
      requires Valid()
      modifies this
      ensures Valid()
      ensures var key := ForwardKey(query);
        match Lookup(old(cache), key, now)
        case Some(hit) =>
          r == hit.items && cache == old(cache) && requests == old(requests)
        case None =>
          requests == old(requests) + [ForwardRequest(query)] &&
          match upstream
          case Ok(data) => r == data && cache == Store(old(cache), key, PlaceList(data), doneAt)
          case Fail => r == WithQuery(ClientFallbackData, query) && cache == old(cache)
    {
      var key := ForwardKey(query);
      var cached := Lookup(cache, key, now);
      if cached.Some? {
        r := cached.value.items;
        return;
      }
      requests := requests + [ForwardRequest(query)];
      match upstream
      case Ok(data) =>
        cache := Store(cache, key, PlaceList(data), doneAt);
        r := data;
      case Fail =>
        r := WithQuery(ClientFallbackData, query);
    }

    /** `reverse(lat, lng)`. */
    method Reverse(lat: real, lng: real, now: int, doneAt: int, upstream: Outcome<Place>) returns (r: Place)
      requires Valid()
      modifies this
      ensures Valid()
      ensures var key := ReverseKey(numberText, lat, lng);
        match Lookup(old(cache), key, now)
        case Some(hit) =>
          r == hit.place && cache == old(cache) && requests == old(requests)
        case None =>
          requests == old(requests) + [ReverseRequest(lat, lng)] &&
          match upstream
          case Ok(data) => r == data && cache == Store(old(cache), key, Single(data), doneAt)
          case Fail => r == ApproximateNear(ClientFallbackData, lat, lng) && cache == old(cache)
    {
      var key := ReverseKey(numberText, lat, lng);
      var cached := Lookup(cache, key, now);
      if cached.Some? {
        r := cached.value.place;
        return;
      }
      requests := requests + [ReverseRequest(lat, lng)];
      match upstream
      case Ok(data) =>
        cache := Store(cache, key, Single(data), doneAt);
        r := data;
      case Fail =>
        r := ApproximateNear(ClientFallbackData, lat, lng);
    }
  }

  /** A successful forward lookup stamped at `doneAt` answers a repeat at `later` from the
      cache, without a request, whenever `later - doneAt` is below the time-to-live. */
  method RepeatWithinTtlIsCached(c: Client, query: string, now: int, doneAt: int, later: int,
                                 data: seq<Place>, second: Outcome<seq<Place>>)
    returns (first: seq<Place>, again: seq<Place>)
    requires c.Valid()
    requires Lookup(c.cache, ForwardKey(query), now).None?
    requires later - doneAt < Ttl
    modifies c
    ensures first == again == data
    ensures c.requests == old(c.requests) + [ForwardRequest(query)]
  {
    first := c.Forward(query, now, doneAt, Ok(data));
    StoredEntryAnswersWithinTtl(old(c.cache), ForwardKey(query), PlaceList(data), doneAt, later);
    again := c.Forward(query, later, later, second);
  }
}
