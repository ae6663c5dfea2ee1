/** Place records as the geocoding layers exchange them, the built-in fallback records,
    the nearest-record choice and the cache keys shared by the server and the client. */
module Places {
  import opened Wrappers

  /** A point given as latitude and longitude (the `{lat, lng}` object of the application). */
  datatype LatLng = LatLng(lat: real, lng: real)

  /** Structured address details as the geocoding service returns them (field name to text). */
  type AddressDetails = map<string, string>

  /** A place as the application passes it around: `{display, lat, lng, address}`. */
  datatype Place = Place(display: string, lat: real, lng: real, address: Option<AddressDetails>)

  /** One item of the geocoding service's JSON answer (`display_name`, `lat`, `lon`, `address`),
      with the numeric fields already read as numbers. */
  datatype RawPlace = RawPlace(displayName: string, lat: real, lon: real, address: Option<AddressDetails>)

  /** What a geocoding endpoint answers: an array of places (forward) or one place (reverse). */
  datatype Answer = PlaceList(items: seq<Place>) | Single(place: Place)

  /** The shape of the mapping from an upstream item to the application's place. */
  function FromRaw(item: RawPlace): (p: Place)
    ensures p.display == item.displayName && p.address == item.address
    ensures p.lat == item.lat && p.lng == item.lon
  {
    Place(item.displayName, item.lat, item.lon, item.address)
  }

  /** `response.data.map(item => ...)`: the same items, in the same order, each reshaped. */
  function FromRawAll(items: seq<RawPlace>): (r: seq<Place>)
    ensures |r| == |items|
    ensures forall i :: 0 <= i < |items| ==> r[i] == FromRaw(items[i])
  {
    seq(|items|, i requires 0 <= i < |items| => FromRaw(items[i]))
  }

  /** The two built-in records of the server service (with address details). */
  const ServerFallbackData: seq<Place> := [
    Place("New Delhi, India", 28.6139, 77.2090,
          Some(map["city" := "New Delhi", "state" := "Delhi", "country" := "India"])),
    Place("Delhi, India", 28.7041, 77.1025,
          Some(map["city" := "Delhi", "state" := "Delhi", "country" := "India"]))
  ]

  /** The two built-in records of the client geocoder (without address details). */
  const ClientFallbackData: seq<Place> := [
    Place("New Delhi, India", 28.6139, 77.2090, None),
    Place("Delhi, India", 28.7041, 77.1025, None)
  ]

  /** Squared Euclidean distance in (lat, lng) space; the square root the source takes is
      monotone, so comparing squares makes the same choices. */
  function SqDistance(p: Place, lat: real, lng: real): real {
    (p.lat - lat) * (p.lat - lat) + (p.lng - lng) * (p.lng - lng)
  }

  /** Index of the record that `records.reduce((prev, curr) => prevDist < currDist ? prev : curr)`
      yields: a keeper survives only while strictly closer, so the LAST record at the minimal
      distance is chosen. */
  function NearestIndex(records: seq<Place>, lat: real, lng: real): (k: nat)
    requires |records| > 0
    ensures k < |records|
    ensures forall j :: 0 <= j < |records| ==> SqDistance(records[k], lat, lng) <= SqDistance(records[j], lat, lng)
    ensures forall j :: k < j < |records| ==> SqDistance(records[k], lat, lng) < SqDistance(records[j], lat, lng)
    decreases |records|
  {
    if |records| == 1 then 0
    else
      var prev := NearestIndex(records[..|records| - 1], lat, lng);
      var last := |records| - 1;
      if SqDistance(records[prev], lat, lng) < SqDistance(records[last], lat, lng) then prev else last
  }

  /** The forward fallback: every record, in order, with the query put in front of its name. */
  function WithQuery(records: seq<Place>, query: string): (r: seq<Place>)
    ensures |r| == |records|
    ensures forall i :: 0 <= i < |records| ==>
      r[i].display == query + ", " + records[i].display &&
      r[i].lat == records[i].lat && r[i].lng == records[i].lng && r[i].address == records[i].address
  {
    seq(|records|, i requires 0 <= i < |records| => records[i].(display := query + ", " + records[i].display))
  }

  /** The reverse fallback: the nearest record (the last one on a tie), but located at the
      requested point and named as an approximation. */
  function ApproximateNear(records: seq<Place>, lat: real, lng: real): (r: Place)
    requires |records| > 0
    ensures r.lat == lat && r.lng == lng
    ensures exists k :: (0 <= k < |records| &&
      r.display == "Approximate location near " + records[k].display && r.address == records[k].address &&
      (forall j :: 0 <= j < |records| ==> SqDistance(records[k], lat, lng) <= SqDistance(records[j], lat, lng)) &&
      forall j :: k < j < |records| ==> SqDistance(records[k], lat, lng) < SqDistance(records[j], lat, lng))
  {
    var nearest := records[NearestIndex(records, lat, lng)];
    nearest.(lat := lat, lng := lng, display := "Approximate location near " + nearest.display)
  }

  /** With the two built-in records: on an exact tie "Delhi, India" (the later record) is chosen. */
  lemma TieGoesToLaterRecord(lat: real, lng: real)
    requires SqDistance(ServerFallbackData[0], lat, lng) == SqDistance(ServerFallbackData[1], lat, lng)
    ensures NearestIndex(ServerFallbackData, lat, lng) == 1
    ensures ApproximateNear(ServerFallbackData, lat, lng).display == "Approximate location near Delhi, India"
  {
  }

  // Cache keys

  const ForwardPrefix := "forward:"
  const ReversePrefix := "reverse:"

  function ForwardKey(query: string): (k: string)
    ensures IsForwardKey(k) && !IsReverseKey(k)
  {
    ForwardPrefix + query
  }

  /** `reverse:${lat},${lng}`; how JavaScript prints a number is the parameter `numberText`. */
  function ReverseKey(numberText: real -> string, lat: real, lng: real): (k: string)
    ensures IsReverseKey(k) && !IsForwardKey(k)
  {
    ReversePrefix + numberText(lat) + "," + numberText(lng)
  }

  predicate IsForwardKey(k: string) {
    |k| >= |ForwardPrefix| && k[..|ForwardPrefix|] == ForwardPrefix
  }

  predicate IsReverseKey(k: string) {
    |k| >= |ReversePrefix| && k[..|ReversePrefix|] == ReversePrefix
  }

  /** Forward and reverse lookups never share a cache entry. */
  lemma KeysNeverCollide(numberText: real -> string, query: string, lat: real, lng: real)
    ensures ForwardKey(query) != ReverseKey(numberText, lat, lng)
  {
  }

  /** Distinct queries have distinct forward keys. */
  lemma ForwardKeyInjective(q1: string, q2: string)
    ensures ForwardKey(q1) == ForwardKey(q2) <==> q1 == q2
  {
    if ForwardKey(q1) == ForwardKey(q2) {
      assert q1 == ForwardKey(q1)[|ForwardPrefix|..] == ForwardKey(q2)[|ForwardPrefix|..] == q2;
    }
  }

  /** A cache value is of the kind its key's prefix announces. */
  predicate FitsKey(k: string, v: Answer) {
    (IsForwardKey(k) ==> v.PlaceList?) && (IsReverseKey(k) ==> v.Single?)
  }
}
