# Company registry: geocoding, search filter and registration form, in Dafny

This project models the core of a small company registry: a web form where a signed-in user
registers a company, with its address and map location, and a search page that filters the
registered companies. It covers four parts.

* **Geocoding.** There are three layers:
  * the server's `GeocodeService`: a result cache, a one-token-per-request rate limiter, and two
    built-in Delhi records as the answer when the upstream request fails;
  * the browser's `GeocodeClient`: a five-minute time-to-live (TTL) cache of timestamped answers;
  * the browser's `geocodeApi` helpers and the generic `cachedApiCall`.
* **The stored company document.** The schema's trimming, lower-casing, length limits, email and
  hours patterns, and the GeoJSON `Point` location.
* **The advanced-search filter.** A case-insensitive text search plus location and
  opening/closing-hour filters.
* **The registration page and the map component.** Field edits, error flags, address suggestions,
  map interaction, submission, the duplicate-email alert and the form reset.

Most modules follow one source file; `Places` and `TtlCache` hold what several files share:

| module | models |
|---|---|
| `Places` | the place records, the fallback records, the nearest-record choice and the cache keys, shared by the server service, the browser geocoder and `geocodeApi` |
| `TtlCache` | the timestamped entries and freshness rule shared by the browser geocoder and `cachedApiCall` |
| `GeocodeService` | the server service |
| `GeocodeClient` | the browser geocoder |
| `Api` | `geocodeApi`, `cachedApiCall` and `formatCoordinates` |
| `CompanySchema` | the document schema |
| `AdvancedSearch` | the filter |
| `AddressMap` | how the map reads its input |
| `Registration` | the page |

Two modules are shared: `Text` holds the JavaScript string operations the code relies on
(`toLowerCase`, `includes`, `<` on strings, `trim`), and `TimeOfDay` holds `HH:MM` times.

Objects whose state changes are classes:

* `GeocodeService.Service`
* `GeocodeClient.Client`
* `Api.CallCache`
* `Registration.RegistrationPage`, whose `State()` snapshot is a datatype.

Their methods state the whole new state, and the properties are proved about the functions those
contracts use.

The outside world enters as parameters:

* each network answer is an `Outcome` (`Ok(value)` or `Fail`);
* each clock reading is an integer;
* JavaScript's number-to-text conversion is a function parameter.

## Model

| member | source | states |
|---|---|---|
| `Places.FromRaw` | server/services/geocodeService.js:109-114 | an upstream item becomes a place with its `display_name`, its `lat`, its `lon` as `lng`, and its address details |
| `Places.FromRawAll` | server/services/geocodeService.js:67-72 | the forward results are the upstream items in the same order and number, each reshaped by `FromRaw` |
| `Places.NearestIndex` | server/services/geocodeService.js:123-127 | the reduce picks a record at minimal distance from the requested point, and every later record is strictly farther (on a tie the last record wins) |
| `Places.ServerFallbackData` | server/services/geocodeService.js:22-43 | the server's two built-in records: New Delhi at 28.6139, 77.2090 and Delhi at 28.7041, 77.1025, each with city, state and country |
| `Places.ClientFallbackData` | client/src/utils/geocode.js:9-20 | the browser geocoder's same two records, without address details |
| `Places.SqDistance` | server/services/geocodeService.js:124-125 | the squared distance in (lat, lng) between a record and the requested point; the source's square root is left out since it does not change which record is nearer |
| `Places.WithQuery` | server/services/geocodeService.js:81-84 | the forward fallback keeps every built-in record in order, with position and address unchanged and the name prefixed by `query + ", "` |
| `Places.ApproximateNear` | server/services/geocodeService.js:129-134 | the reverse fallback sits at the requested point and is named "Approximate location near " plus the name of a nearest built-in record, whose address it carries; every later record is strictly farther, so on a tie the last one is named |
| `Places.TieGoesToLaterRecord` | server/services/geocodeService.js:123-127 | with the two built-in records, a point equally far from both gets "Delhi, India", the second record |
| `Places.ForwardKey` | server/services/geocodeService.js:47 | a forward key carries the `forward:` prefix and never the reverse prefix |
| `Places.ReverseKey` | server/services/geocodeService.js:89 | a reverse key carries the `reverse:` prefix and never the forward prefix |
| `Places.KeysNeverCollide` | server/services/geocodeService.js:89 | no forward lookup and no reverse lookup share a cache entry |
| `Places.ForwardKeyInjective` | server/services/geocodeService.js:47 | two queries share a forward cache entry exactly when they are equal |
| `GeocodeService.Service.constructor` | server/services/geocodeService.js:21-44 | a new service has an empty cache, no tokens taken and no requests made |
| `GeocodeService.Service.ForwardGeocode` | server/services/geocodeService.js:46-86 | a cached query is answered from the cache without a token or a request; otherwise one token and one search request are spent, a success is cached and returned reshaped, and a failure returns the query-prefixed fallback and caches nothing; every cache entry stays of its key's kind |
| `GeocodeService.Service.ReverseGeocode` | server/services/geocodeService.js:88-136 | the same for a point: a hit is answered from the cache; a miss spends one token and one request; a success is cached; a failure returns the approximate nearest built-in record and caches nothing |
| `GeocodeService.Service.TakeToken` | server/services/geocodeService.js:55 | each upstream request takes exactly one limiter token |
| `GeocodeService.RepeatedForwardIsCached` | server/services/geocodeService.js:46-76 | after a successful search, repeating the query returns the same results and spends no further token or request |
| `TtlCache.Lookup` | client/src/utils/geocode.js:27-30 | an entry answers exactly when it exists and is strictly younger than five minutes, and then with its stored data |
| `TtlCache.Store` | client/src/utils/geocode.js:36-39 | storing sets the key's entry to the data and timestamp, adds only that key, and leaves every other entry as it was |
| `TtlCache.StoredEntryAnswersWithinTtl` | client/src/utils/geocode.js:28 | a stored entry answers a later lookup for its key exactly while less than the TTL has passed; at exactly the TTL it misses |
| `TtlCache.StoreKeepsOtherKeys` | client/src/utils/geocode.js:36-39 | storing under one key changes no lookup under another key |
| `GeocodeClient.Client.constructor` | client/src/utils/geocode.js:8-21 | a new client has an empty cache and has made no requests |
| `GeocodeClient.Client.Forward` | client/src/utils/geocode.js:23-50 | a fresh entry is answered without a request; otherwise one backend request is made, a success is stored stamped with the time the answer arrived, and a failure returns the query-prefixed built-in records and stores nothing |
| `GeocodeClient.Client.Reverse` | client/src/utils/geocode.js:52-87 | the same for a point; a failure returns the approximate nearest built-in record |
| `GeocodeClient.RepeatWithinTtlIsCached` | client/src/utils/geocode.js:23-41 | a query repeated less than five minutes after its successful answer arrived gets the same data without a second request |
| `Api.ForwardReply` | client/src/utils/api.js:47-64 | `geocodeApi.forward` resolves with the backend's answer, or with the two fixed suggestions when the request fails |
| `Api.ForwardFallback` | client/src/utils/api.js:59-62 | the fixed suggestions are exactly the two query-prefixed Delhi places, with no address details |
| `Api.ForwardFallbackAgreesWithClient` | client/src/utils/api.js:59-62 | the fixed suggestions equal the browser geocoder's own forward fallback for the same query |
| `Api.ReverseReply` | client/src/utils/api.js:65-79 | `geocodeApi.reverse` yields a place exactly when the request succeeds, and otherwise the text "Unknown location" |
| `Api.FormatCoordinates` | client/src/utils/api.js:99-102 | missing coordinates, and only those, give the empty text; otherwise the text is "Lat: …, Lng: …" with both values at six decimals |
| `Api.CallCache.constructor` | client/src/utils/api.js:82-83 | the call cache starts empty, with no calls made |
| `Api.CallCache.CachedApiCall` | client/src/utils/api.js:85-96 | a fresh entry is returned without calling; otherwise the call is made once and its outcome returned, and only a successful outcome is stored, stamped with the time read before the call |
| `Text.LowerChar` | client/src/pages/AdvancedSearch.jsx:43 | lower-casing turns each capital letter into its small letter and leaves every other character alone |
| `Text.Lower` | client/src/pages/AdvancedSearch.jsx:43 | `toLowerCase` keeps the length and lower-cases character by character |
| `Text.LowerIdempotent` | client/src/pages/AdvancedSearch.jsx:43-44 | lower-casing twice is lower-casing once |
| `Text.LowerOfEmpty` | client/src/pages/Registration.jsx:252 | a lower-cased text is empty exactly when the text is |
| `Text.LessThanAtFirstDifference` | client/src/pages/AdvancedSearch.jsx:52 | two same-length strings compare as their first differing characters do |
| `Text.LessThanIrreflexive` | client/src/pages/AdvancedSearch.jsx:52 | no string is smaller than itself, so `s >= s` holds |
| `Text.TrimStart` | server/models/Company.js:7 | removes exactly the leading white space |
| `Text.TrimEnd` | server/models/Company.js:7 | removes exactly the trailing white space |
| `Text.Trim` | server/models/Company.js:7 | the result is a block of the input with only white space before and after it, and it neither starts nor ends with white space: exactly the leading and trailing white space is removed |
| `Text.Contains` | client/src/pages/AdvancedSearch.jsx:43 | `includes`: the second text occurs in the first as a contiguous block |
| `Text.ContainsTransitive` | client/src/pages/AdvancedSearch.jsx:43-48 | a text containing a block that contains another text contains that text too |
| `Text.ContainsPrefix` | client/src/pages/AdvancedSearch.jsx:43 | every text contains its own beginning |
| `Text.LowerAppend` | client/src/pages/AdvancedSearch.jsx:43 | lower-casing a concatenation lower-cases each part |
| `Text.LessThan` | client/src/pages/AdvancedSearch.jsx:52 | string `<`: lexicographic on character codes, a proper prefix being smaller |
| `Text.TrimIdempotent` | server/models/Company.js:7 | trimming twice is trimming once |
| `Text.LowerTrimCommute` | server/models/Company.js:20-21 | trimming then lower-casing gives the same as lower-casing then trimming |
| `TimeOfDay.MinutesOf` | client/src/pages/Registration.jsx:105-109 | a padded `HH:MM` time denotes a minute of the day whose hour and minute are its two fields |
| `TimeOfDay.ParseClock` | client/src/pages/Registration.jsx:105-109 | a time value is a valid time exactly when it is a padded `HH:MM` with hour at most 23 and minute at most 59, and then denotes that minute of the day |
| `TimeOfDay.MinutesOfInjective` | client/src/pages/Registration.jsx:105-109 | two padded times denote the same minute exactly when they are the same text |
| `TimeOfDay.StringOrderIsTimeOrder` | client/src/pages/AdvancedSearch.jsx:51-57 | on padded times, string `<` is exactly the order of the times of day |
| `AdvancedSearch.FilterCompanies` | client/src/pages/AdvancedSearch.jsx:40-61 | the filtered list keeps the original order and holds each kept company as often as the input does, and no other company |
| `AdvancedSearch.FilteredCompanies` | client/src/pages/AdvancedSearch.jsx:40-61 | when `companies` is not an array the result is empty, otherwise it is the filter of the array |
| `AdvancedSearch.KeptExactlyWhenMatching` | client/src/pages/AdvancedSearch.jsx:41-59 | a company is in the result exactly when it is in the input and meets the search term and all three filters |
| `AdvancedSearch.NoCriteriaKeepsAll` | client/src/pages/AdvancedSearch.jsx:42-57 | with an empty search term and no filters every company is kept, in order |
| `AdvancedSearch.MissingFieldsNeverMatch` | client/src/pages/AdvancedSearch.jsx:42-49 | a company without name and address never matches a non-empty search term, and one without an address never matches a location filter |
| `AdvancedSearch.KeepsIgnoresCase` | client/src/pages/AdvancedSearch.jsx:42-49 | the text search and the location filter ignore the letter case of the criteria and of the company's fields |
| `AdvancedSearch.FilterIgnoresCriteriaCase` | client/src/pages/AdvancedSearch.jsx:42-49 | the whole filtered list is the same whatever the letter case of the search term and the location |
| `AdvancedSearch.FieldIncludes` | client/src/pages/AdvancedSearch.jsx:43-48 | `field?.toLowerCase().includes(term.toLowerCase())`: the field is present and its lower-cased text contains the lower-cased term |
| `AdvancedSearch.MatchesSearch` | client/src/pages/AdvancedSearch.jsx:42-45 | an empty term matches every company; otherwise the lower-cased name or address must contain the lower-cased term, and a missing field never does |
| `AdvancedSearch.MatchesLocation` | client/src/pages/AdvancedSearch.jsx:47-49 | an empty location matches every company; otherwise the lower-cased address must contain it |
| `AdvancedSearch.MatchesOpening` | client/src/pages/AdvancedSearch.jsx:51-53 | an empty bound matches every company; otherwise the opening hours must be present and not string-smaller than the bound |
| `AdvancedSearch.MatchesClosing` | client/src/pages/AdvancedSearch.jsx:55-57 | an empty bound matches every company; otherwise the closing hours must be present and not string-greater than the bound |
| `AdvancedSearch.Keeps` | client/src/pages/AdvancedSearch.jsx:41-59 | the filter callback: all four criteria hold |
| `AdvancedSearch.Narrows` | client/src/pages/AdvancedSearch.jsx:40-61 | the second set of criteria is at least as demanding: each text criterion, ignoring case, contains the first one (or the first was empty), and each hour bound is unchanged or fills an empty one |
| `AdvancedSearch.TypingMoreNarrows` | client/src/pages/AdvancedSearch.jsx:42-49 | typing more characters after the search term or the location text narrows the criteria |
| `AdvancedSearch.NarrowingNeverEnlarges` | client/src/pages/AdvancedSearch.jsx:40-61 | narrowing the criteria (for example typing more characters into the search term or the location, or filling in an empty hour bound) gives a sub-list of the previous result, so never a longer one |
| `AdvancedSearch.FieldIncludesRefined` | client/src/pages/AdvancedSearch.jsx:43-48 | a field that contains the narrower text contains the wider one |
| `AdvancedSearch.NarrowerKeepsFewer` | client/src/pages/AdvancedSearch.jsx:41-59 | a company kept under narrower criteria is kept under the wider ones |
| `AdvancedSearch.SubsequenceNoLonger` | client/src/pages/AdvancedSearch.jsx:40-61 | a sub-list is never longer than the list it is taken from |
| `AdvancedSearch.HourBoundsCompareTimes` | client/src/pages/AdvancedSearch.jsx:51-57 | for padded times the opening filter keeps companies opening at or after the bound, and the closing filter keeps those closing at or before it |
| `CompanySchema.HoursPatternIsClockShape` | server/models/Company.js:49 | the hours pattern accepts exactly a one- or two-digit hour up to 23, a colon and a two-digit minute up to 59 |
| `CompanySchema.HoursPatternExamples` | server/models/Company.js:49 | "24:00" and "12:60" are refused; "9:05", "09:05" and "23:59" are accepted |
| `CompanySchema.PaddedClockMatchesPattern` | server/models/Company.js:46-55 | every padded `HH:MM` time passes the hours pattern |
| `CompanySchema.EmailHasOneAt` | server/models/Company.js:22 | an address the email pattern accepts contains exactly one `@` |
| `CompanySchema.EmailEndsWithShortSuffix` | server/models/Company.js:22 | an accepted address ends with a dot and two or three word characters |
| `CompanySchema.EmailExample` | server/models/Company.js:22 | "info@acme.co.in" is accepted |
| `CompanySchema.NormaliseEmail` | server/models/Company.js:20-21 | the stored email is the trimmed, lower-cased input, in either order |
| `CompanySchema.NormaliseEmailIdempotent` | server/models/Company.js:20-21 | normalising a stored email leaves it unchanged |
| `CompanySchema.Validate` | server/models/Company.js:3-56 | a saved document has trimmed non-empty names within 50, 50 and 100 characters, a trimmed non-empty address, a trimmed lower-case email the pattern accepts, unchanged hours and a `Point` location; a refused document fails one of the schema's checks |
| `CompanySchema.ValidateIdempotent` | server/models/Company.js:3-56 | saving an already saved document accepts it unchanged |
| `CompanySchema.NormaliseIdempotent` | server/models/Company.js:3-56 | applying the schema's trim and lower-case setters to a normalised document changes nothing |
| `CompanySchema.MatchesHoursPattern` | server/models/Company.js:49 | the hours pattern: an hour of one digit, of two digits starting with 0 or 1, or 20 to 23, then a colon, a digit 0 to 5 and a digit |
| `CompanySchema.IsEmail` | server/models/Company.js:22 | the email pattern: a word run, an `@`, a word run, then one or more groups of a dot and two or three word characters |
| `CompanySchema.Normalise` | server/models/Company.js:7-33 | the setters: the names, the company name and the address trimmed, the email trimmed and lower-cased |
| `CompanySchema.CoordinatesNotInspected` | server/models/Company.js:41-44 | whether a document conforms does not depend on what its coordinates array holds; an empty array is accepted |
| `CompanySchema.Conforms` | server/models/Company.js:3-56 | the validators: every required text present, the length limits, the email and hours patterns, and a `Point` location; the coordinates array only has to be there, and may be empty |
| `AddressMap.Display` | client/src/components/AddressMap.jsx:38-43 | a readout is shown exactly for a numeric value, and shows that value |
| `AddressMap.ViewOf` | client/src/components/AddressMap.jsx:24-80 | an array is read as `[lng, lat]` and an object with both properties as `{lat, lng}`; anything else, or an object missing a property, leaves the New Delhi centre; a marker is drawn exactly when both values are numbers, and its readouts are those numbers |
| `AddressMap.GeoJsonPositionRoundTrip` | client/src/components/AddressMap.jsx:35-39 | a GeoJSON position `[lng, lat]` is shown at `(lat, lng)`, with both readouts and a marker |
| `AddressMap.ForwardClick` | client/src/components/AddressMap.jsx:47-54 | a click reaches the page exactly when a handler is given, and with the clicked point |
| `Registration.DefaultForm` | client/src/pages/Registration.jsx:78-87 | the initial form, also restored by a reset: empty texts, the user's email, 09:00 to 17:00 and no point |
| `Registration.SetField` | client/src/pages/Registration.jsx:113 | an edit sets the named input to the new value and leaves every other input and the point alone |
| `Registration.ClearError` | client/src/pages/Registration.jsx:114 | an edit clears the edited input's flag and the time flag, and leaves the other flags alone |
| `Registration.ValidateTime` | client/src/pages/Registration.jsx:105-109 | `validateTime`: both values are times and closing is strictly later |
| `Registration.ClosingNotAfterOpening` | client/src/pages/Registration.jsx:216-218 | the submit guard `closing <= opening`: both values are times and closing is not later |
| `Registration.TimeChecksAgree` | client/src/pages/Registration.jsx:105-109 | on valid times, `validateTime` holds exactly when the submit guard `closing <= opening` does not; an unreadable time passes the guard and fails `validateTime` |
| `Registration.FormErrors` | client/src/pages/Registration.jsx:196-210 | the form has no error exactly when all five text inputs are non-empty, a point is chosen and closing is strictly after opening |
| `Registration.BuildDocument` | client/src/pages/Registration.jsx:232-244 | the document copies the seven text inputs and stores the point as a `Point` with coordinates `[lng, lat]` |
| `Registration.ValidatedHoursMatchSchema` | client/src/pages/Registration.jsx:196-244 | the hours of a form that passes `validateForm` also pass the schema's hours pattern |
| `Registration.MapInput` | client/src/pages/Registration.jsx:423-427 | the form's map gets no coordinates before a point is chosen, and the point as `{lat, lng}` after |
| `Registration.StoredMapInput` | client/src/pages/AdvancedSearch.jsx:118-119 | a stored company's map gets its `location.coordinates` array as it is |
| `Registration.SubmittedLocationRoundTrip` | client/src/pages/Registration.jsx:240-243 | the `[lng, lat]` sent to the backend is shown by the map at the chosen point, with a marker, exactly as the form's own map shows it |
| `Registration.DuplicateMessageIgnoresCase` | client/src/pages/Registration.jsx:250-256 | recognising a duplicate-email message ignores letter case |
| `Registration.DuplicateMessageExample` | client/src/pages/Registration.jsx:250-256 | "Email already EXISTS" is recognised as a duplicate email |
| `Registration.OtherDuplicateIsNotEmailDuplicate` | client/src/pages/Registration.jsx:250-256 | "Name is a duplicate" is not, since it does not mention the email |
| `Registration.IsDuplicateMessage` | client/src/pages/Registration.jsx:251-256 | the lower-cased message contains "email" and one of "exists", "duplicate" or "unique" |
| `Registration.FailureAlert` | client/src/pages/Registration.jsx:249-260 | a rejection shows the duplicate alert exactly when the message is a duplicate-email message, and otherwise shows the server's message, or "Failed to register company" when there is none |
| `Registration.AfterReset` | client/src/pages/Registration.jsx:266-289 | a reset restores the initial form with the user's email, clears all flags and suggestions, makes the map non-interactive, re-keys the map and leaves the suggestion list's visibility alone |
| `Registration.ResetIdempotent` | client/src/pages/Registration.jsx:266-289 | resetting twice is resetting once |
| `Registration.RegistrationPage.constructor` | client/src/pages/Registration.jsx:78-103 | the page starts with the initial form (the user's email, 09:00 to 17:00, no point), no flags, no suggestions and a non-interactive map keyed by the clock |
| `Registration.RegistrationPage.HandleChange` | client/src/pages/Registration.jsx:111-121 | an edit updates the input and the flags; an address longer than two characters requests suggestions for it, and a shorter one clears them |
| `Registration.RegistrationPage.ReceiveSuggestions` | client/src/pages/Registration.jsx:123-135 | the suggestions become `geocodeApi.forward`'s answer and are shown |
| `Registration.RegistrationPage.HandleSuggestionClick` | client/src/pages/Registration.jsx:137-150 | choosing a suggestion sets the address and the point from it, clears their flags, hides the list, and makes the map interactive and re-keyed |
| `Registration.RegistrationPage.HandleMapClick` | client/src/pages/Registration.jsx:152-158 | a map click sets the point and clears its flag, and nothing else |
| `Registration.RegistrationPage.EnableMap` | client/src/pages/Registration.jsx:429-433 | clicking the overlay makes the map interactive, and nothing else |
| `Registration.RegistrationPage.MapClicked` | client/src/pages/Registration.jsx:421-428 | a click on the shown map sets the point only while the map is interactive, and otherwise changes nothing |
| `Registration.RegistrationPage.ValidateForm` | client/src/pages/Registration.jsx:196-210 | records the form's errors and reports success exactly when every input is filled, a point is chosen and the times are in order |
| `Registration.RegistrationPage.ResetForm` | client/src/pages/Registration.jsx:266-289 | the new state is the reset state |
| `Registration.RegistrationPage.HandleSubmit` | client/src/pages/Registration.jsx:212-264 | the time order is checked first (flag and alert, nothing sent), then the whole form (flags and alert, nothing sent); only a valid form is sent, as its document; acceptance resets the form with the success alert, and rejection keeps the form and shows the failure alert |

## Left out

- Network, axios, the backend's HTTP routes and the authorisation interceptor. Each upstream answer is an `Ok`/`Fail` parameter, so whether a request would succeed is not modelled.
- The public geocoding service's answer format. An answer that `response.data.map` cannot read fails inside the same `try`, so it is folded into `Fail`.
- `GeocodeService.Service.ForwardGeocode` and `GeocodeService.Service.ReverseGeocode`: the node-cache entries of both kinds expire after 300 seconds, but the model's server cache never expires.
- `GeocodeService.Service.TakeToken`: the limiter's waiting for one token per second is not modelled, only the count of tokens taken.
- Floating point. Coordinates are `real`; `parseFloat`, `Math.sqrt` and `Math.pow` are not modelled. The nearest record is chosen by squared distance, which orders records the same way the square root does.
- How JavaScript prints a number in a template string (the reverse cache key) is a function parameter, and so is `toFixed(6)` in `Api.FormatCoordinates`.
- `AddressMap.ViewOf`: the map's readouts are kept as "a number or N/A"; the six-digit `toFixed(6)` text of the popup is not modelled.
- `Text.Lower`: only the basic Latin letters are lower-cased; the full Unicode case mapping of `toLowerCase` is not modelled.
- Strings are sequences of characters, not of UTF-16 code units, so `value.length` counts characters.
- `TimeOfDay.ParseClock`: only padded `HH:MM` is read as a time. Other text that `new Date("2000-01-01T" + s)` also accepts, such as `HH:MM:SS`, is treated as an invalid date, and so is `24:00`.
- `Registration.RegistrationPage.HandleChange`: for the hours inputs, `handleChange` also writes an `errors.openingHours` or `errors.closingHours` key that nothing reads; it is not modelled.
- The `catch` branch of `fetchAddressSuggestions` is not modelled, because `geocodeApi.forward` never rejects.
- `GeocodeService.Service.ForwardGeocode`, `GeocodeService.Service.ReverseGeocode`, `GeocodeClient.Client.Forward`, `GeocodeClient.Client.Reverse`, `Api.CallCache.CachedApiCall` and `Registration.RegistrationPage.HandleSubmit`: the cache lookup, the request and the store are one step. In the source they are separated by `await`, so two overlapping misses on the same key both pass the lookup, each takes a token and sends a request, and the store that finishes last wins; those interleavings are not modelled.
- Asynchrony: state is updated when each awaited answer arrives, modelled as separate method calls, so overlapping suggestion requests and their order of arrival are not modelled.
- `isSubmitting` (which only disables the button), the sign-in gate and its pop-ups, the alerts' wording and animations, and all rendering beyond what the map shows.
- The map's fly-to animation, its zoom, its tiles and its marker icons.
- The database: the unique index on `email`, the `2dsphere` index, timestamps, and Mongoose's type casting of the document's values.
- `CompanySchema.Validate`: the `2dsphere` index, which refuses an empty or malformed coordinates array when the document is inserted, is not modelled; the schema itself only requires the array to be present, and the element types are not checked.
- The remainder of the advanced-search page: fetching the companies, the loading and error states, and the result cards.
