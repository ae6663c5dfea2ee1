/** The server's geocoding service: a keyed result cache in front of the public geocoding
    service, one rate-limiter token per upstream request, and the built-in records as the
    answer when the upstream request fails. */
module GeocodeService {
  import opened Wrappers
  import opened Places

  /** An upstream request, as the service sends it. */
  datatype Request = Search(query: string) | Reverse(lat: real, lng: real)

  class Service {
    /** The result cache (entry expiry is not modelled). */
    var cache: map<string, Answer>
    /** How many tokens have been taken from the rate limiter. */
    var tokensTaken: nat
    /** Every upstream request made so far, in order. */
    var requests: seq<Request>
    /** How JavaScript prints a number inside a template string. */
    const numberText: real -> string

    ghost predicate Valid()
      reads this
    {
      forall k :: k in cache ==> FitsKey(k, cache[k])
    }

    constructor (numberText: real -> string)
      ensures Valid()
      ensures cache == map[] && tokensTaken == 0 && requests == []
      ensures this.numberText == numberText
    {
      this.numberText := numberText;
      cache := map[];
      tokensTaken := 0;
      requests := [];
    }

    /** `forwardGeocode(query)`; `upstream` is what the search request would resolve with. */
    method ForwardGeocode(query: string, upstream: Outcome<seq<RawPlace>>) returns (r: seq<Place>)
      requires Valid()
      modifies this
      ensures Valid()
      ensures var key := ForwardKey(query);
        if key in old(cache) then
          // a hit answers the stored value and touches neither the limiter nor the network
          r == old(cache)[key].items &&
          cache == old(cache) && tokensTaken == old(tokensTaken) && requests == old(requests)
        else
          tokensTaken == old(tokensTaken) + 1 && requests == old(requests) + [Search(query)] &&
          match upstream
          case Ok(items) => r == FromRawAll(items) && cache == old(cache)[key := PlaceList(r)]
          case Fail => r == WithQuery(ServerFallbackData, query) && cache == old(cache)
    {
      var key := ForwardKey(query);
      if key in cache {
        r := cache[key].items;
        return;
      }
      TakeToken();
      requests := requests + [Search(query)];
      match upstream
      case Ok(items) =>
        r := FromRawAll(items);
        cache := cache[key := PlaceList(r)];
      case Fail =>
        r := WithQuery(ServerFallbackData, query);
    }

    /** `reverseGeocode(lat, lng)`; `upstream` is what the reverse request would resolve with. */
    method ReverseGeocode(lat: real, lng: real, upstream: Outcome<RawPlace>) returns (r: Place)
      requires Valid()
      modifies this
      ensures Valid()
      ensures var key := ReverseKey(numberText, lat, lng);
        if key in old(cache) then
          r == old(cache)[key].place &&
          cache == old(cache) && tokensTaken == old(tokensTaken) && requests == old(requests)
        else
          tokensTaken == old(tokensTaken) + 1 && requests == old(requests) + [Reverse(lat, lng)] &&
          match upstream
          case Ok(item) => r == FromRaw(item) && cache == old(cache)[key := Single(r)]
          case Fail => r == ApproximateNear(ServerFallbackData, lat, lng) && cache == old(cache)
    {
      var key := ReverseKey(numberText, lat, lng);
      if key in cache {
        r := cache[key].place;
        return;
      }
      TakeToken();
      requests := requests + [Reverse(lat, lng)];
      match upstream
      case Ok(item) =>
        r := FromRaw(item);
        cache := cache[key := Single(r)];
      case Fail =>
        r := ApproximateNear(ServerFallbackData, lat, lng);
    }

    /** `limiter.removeTokens(1)`; waiting for the token is not modelled. */
    method TakeToken()
      modifies this`tokensTaken
      ensures tokensTaken == old(tokensTaken) + 1
    {
      tokensTaken := tokensTaken + 1;
    }
  }

  /** Two forward calls for one query: the second is answered from the cache with the first
      call's successful result, and only one upstream request and one token are spent. */
  method RepeatedForwardIsCached(s: Service, query: string, items: seq<RawPlace>, second: Outcome<seq<RawPlace>>)
    returns (first: seq<Place>, again: seq<Place>)
    requires s.Valid() && ForwardKey(query) !in s.cache
    modifies s
    ensures first == again == FromRawAll(items)
    ensures s.requests == old(s.requests) + [Search(query)] && s.tokensTaken == old(s.tokensTaken) + 1
  {
    first := s.ForwardGeocode(query, Ok(items));
    again := s.ForwardGeocode(query, second);
  }
}
