/** How the map component reads its `coordinates` input: a GeoJSON `[lng, lat]` array or a
    `{lat, lng}` object becomes a Leaflet `[lat, lng]` position; anything else leaves the
    default centre. A marker is drawn only when both numbers are present. */
module AddressMap {
  import opened Wrappers
  import opened Places

  /** A JavaScript value where a coordinate is expected. */
  datatype Value = Undefined | Num(x: real) | NotNumber

  /** The `coordinates` input: absent (`null`/`undefined`), an array, an object with possibly
      missing `lat`/`lng` properties, or some other value. */
  datatype Coordinates = Absent | Array(items: seq<Value>) | Object(lat: Value, lng: Value) | Other

  /** `[lat, lng]` as handed to Leaflet. */
  datatype Position = Position(lat: Value, lng: Value)

  /** What the component shows: the centre, the two readouts (`None` is `'N/A'`; the six-digit
      formatting is not modelled) and whether a marker is drawn. */
  datatype View = View(position: Position, latDisplay: Option<real>, lngDisplay: Option<real>, marker: bool)

  /** New Delhi. */
  const DefaultCentre := Position(Num(28.6139), Num(77.2090))

  /** `coordinates[i]` (undefined past the end). */
  function At(items: seq<Value>, i: nat): Value {
    if i < |items| then items[i] else Undefined
  }

  function Display(v: Value): (d: Option<real>)
    ensures d.Some? <==> v.Num?
    ensures d.Some? ==> d.value == v.x
  {
    if v.Num? then Some(v.x) else None
  }

  function ViewOf(c: Coordinates): (v: View)
    ensures c.Absent? || c.Other? ==> v.position == DefaultCentre && !v.marker
    ensures c.Array? ==> v.position == Position(At(c.items, 1), At(c.items, 0))
    ensures c.Object? && c.lat != Undefined && c.lng != Undefined ==> v.position == Position(c.lat, c.lng)
    ensures c.Object? && (c.lat == Undefined || c.lng == Undefined) ==> v.position == DefaultCentre && !v.marker
    ensures v.marker <==> (c.Array? && At(c.items, 1).Num? && At(c.items, 0).Num?) ||
                          (c.Object? && c.lat.Num? && c.lng.Num?)
    ensures v.marker ==> v.position.lat.Num? && v.position.lng.Num? &&
                         v.latDisplay == Some(v.position.lat.x) && v.lngDisplay == Some(v.position.lng.x)
  {
    var (position, latDisplay, lngDisplay) :=
      match c
      case Array(items) => (Position(At(items, 1), At(items, 0)), Display(At(items, 1)), Display(At(items, 0)))
      case Object(lat, lng) =>
        if lat != Undefined && lng != Undefined then (Position(lat, lng), Display(lat), Display(lng))
        else (DefaultCentre, None, None)
      case _ => (DefaultCentre, None, None);
    View(position, latDisplay, lngDisplay, c != Absent && latDisplay.Some? && lngDisplay.Some?)
  }

  /** A GeoJSON Position `[lng, lat]` is shown at `[lat, lng]`, with a marker. */
  lemma GeoJsonPositionRoundTrip(p: LatLng)
    ensures ViewOf(Array([Num(p.lng), Num(p.lat)])) == View(Position(Num(p.lat), Num(p.lng)), Some(p.lat), Some(p.lng), true)
  {
  }

  /** `handleMapClick`: a click is passed on, as `{lat, lng}`, only when a handler is given. */
  function ForwardClick(hasHandler: bool, click: LatLng): (r: Option<LatLng>)
    ensures r.Some? <==> hasHandler
    ensures r.Some? ==> r.value == click
  {
    if hasHandler then Some(click) else None
  }
}
