/** The registration page: the form record and its error flags, the edits that change them, the
    checks run on submit, the document sent to the backend and how a rejection is reported. */
module Registration {
  import opened Wrappers
  import opened Text
  import opened TimeOfDay
  import opened Places
  import CompanySchema
  import AddressMap
  import Api

  datatype FormData = FormData(firstName: string, lastName: string, email: string,
                               companyName: string, address: string,
                               openingHours: string, closingHours: string,
                               coordinates: Option<LatLng>)

  /** One flag per input that can be flagged; `time` flags the pair of hours. */
  datatype Errors = Errors(firstName: bool, lastName: bool, email: bool, companyName: bool,
                           address: bool, coordinates: bool, time: bool)

  const NoErrors := Errors(false, false, false, false, false, false, false)

  /** The `name` attributes of the form's inputs. */
  datatype Field = FirstName | LastName | Email | CompanyName | Address | OpeningHours | ClosingHours

  /** The initial form; the email is the signed-in user's primary address, or empty. */
  function DefaultForm(userEmail: string): FormData {
    FormData("", "", userEmail, "", "", "09:00", "17:00", None)
  }

  function FieldValue(f: FormData, name: Field): string {
    match name
    case FirstName => f.firstName
    case LastName => f.lastName
    case Email => f.email
    case CompanyName => f.companyName
    case Address => f.address
    case OpeningHours => f.openingHours
    case ClosingHours => f.closingHours
  }

  /** `{...prev, [name]: value}` on the form. */
  function SetField(f: FormData, name: Field, value: string): (r: FormData)
    ensures FieldValue(r, name) == value
    ensures forall other :: other != name ==> FieldValue(r, other) == FieldValue(f, other)
    ensures r.coordinates == f.coordinates
  {
    match name
    case FirstName => f.(firstName := value)
    case LastName => f.(lastName := value)
    case Email => f.(email := value)
    case CompanyName => f.(companyName := value)
    case Address => f.(address := value)
    case OpeningHours => f.(openingHours := value)
    case ClosingHours => f.(closingHours := value)
  }

  /** The error flag of an input (the hours inputs share `time`). */
  function FieldError(e: Errors, name: Field): bool {
    match name
    case FirstName => e.firstName
    case LastName => e.lastName
    case Email => e.email
    case CompanyName => e.companyName
    case Address => e.address
    case OpeningHours => e.time
    case ClosingHours => e.time
  }

  /** `{...prev, [name]: false, time: false}` on the errors. */
  function ClearError(e: Errors, name: Field): (r: Errors)
    ensures !FieldError(r, name) && !r.time && r.coordinates == e.coordinates
    ensures forall other :: other != name && other != OpeningHours && other != ClosingHours ==>
      FieldError(r, other) == FieldError(e, other)
  {
    match name
    case FirstName => e.(firstName := false, time := false)
    case LastName => e.(lastName := false, time := false)
    case Email => e.(email := false, time := false)
    case CompanyName => e.(companyName := false, time := false)
    case Address => e.(address := false, time := false)
    case OpeningHours => e.(time := false)
    case ClosingHours => e.(time := false)
  }

  /** `validateTime`: both values denote times and closing is strictly later. */
  predicate ValidateTime(opening: string, closing: string) {
    ParseClock(opening).Some? && ParseClock(closing).Some? &&
    ParseClock(closing).value > ParseClock(opening).value
  }

  /** The first check of `handleSubmit`, `closing <= opening`; false when either is not a time. */
  predicate ClosingNotAfterOpening(opening: string, closing: string) {
    ParseClock(opening).Some? && ParseClock(closing).Some? &&
    ParseClock(closing).value <= ParseClock(opening).value
  }

  /** The two time checks are complementary on valid times; an unreadable time passes the
      first and fails the second. */
  lemma TimeChecksAgree(opening: string, closing: string)
    ensures IsPaddedClock(opening) && IsPaddedClock(closing) ==>
      (ValidateTime(opening, closing) <==> !ClosingNotAfterOpening(opening, closing))
    ensures ValidateTime(opening, closing) <==>
      IsPaddedClock(opening) && IsPaddedClock(closing) && MinutesOf(closing) > MinutesOf(opening)
    ensures !(IsPaddedClock(opening) && IsPaddedClock(closing)) ==>
      !ValidateTime(opening, closing) && !ClosingNotAfterOpening(opening, closing)
  {
  }

  /** The errors `validateForm` computes. */
  function FormErrors(f: FormData): (r: Errors)
    ensures r == NoErrors <==>
      f.firstName != "" && f.lastName != "" && f.email != "" && f.companyName != "" &&
      f.address != "" && f.coordinates.Some? && ValidateTime(f.openingHours, f.closingHours)
  {
    Errors(f.firstName == "", f.lastName == "", f.email == "", f.companyName == "", f.address == "",
           f.coordinates.None?, !ValidateTime(f.openingHours, f.closingHours))
  }

  /** The document sent to the backend; the location is a GeoJSON Point, longitude first. */
  function BuildDocument(f: FormData): (d: CompanySchema.CompanyDoc)
    requires f.coordinates.Some?
    ensures d.location.kind == CompanySchema.PointType
    ensures d.location.coordinates == [f.coordinates.value.lng, f.coordinates.value.lat]
    ensures d.firstName == f.firstName && d.lastName == f.lastName && d.email == f.email
    ensures d.companyName == f.companyName && d.address == f.address
    ensures d.openingHours == f.openingHours && d.closingHours == f.closingHours
  {
    CompanySchema.CompanyDoc(f.firstName, f.lastName, f.email, f.companyName, f.address,
                             f.openingHours, f.closingHours,
                             CompanySchema.GeoPoint("Point", [f.coordinates.value.lng, f.coordinates.value.lat]))
  }

  /** Hours that pass `validateTime` also pass the schema's hours pattern. */
  lemma ValidatedHoursMatchSchema(f: FormData)
    requires FormErrors(f) == NoErrors
    ensures CompanySchema.MatchesHoursPattern(BuildDocument(f).openingHours)
    ensures CompanySchema.MatchesHoursPattern(BuildDocument(f).closingHours)
  {
    CompanySchema.PaddedClockMatchesPattern(f.openingHours);
    CompanySchema.PaddedClockMatchesPattern(f.closingHours);
  }

  /** What the map is given while the form is open: `formData.coordinates`. */
  function MapInput(f: FormData): (c: AddressMap.Coordinates)
    ensures f.coordinates.None? ==> c == AddressMap.Absent
    ensures f.coordinates.Some? ==> c == AddressMap.Object(AddressMap.Num(f.coordinates.value.lat), AddressMap.Num(f.coordinates.value.lng))
  {
    match f.coordinates
    case None => AddressMap.Absent
    case Some(p) => AddressMap.Object(AddressMap.Num(p.lat), AddressMap.Num(p.lng))
  }

  /** What the search page gives the map for a stored company: its `location.coordinates` array. */
  function StoredMapInput(d: CompanySchema.CompanyDoc): (c: AddressMap.Coordinates)
    ensures c.Array? && |c.items| == |d.location.coordinates|
    ensures forall i :: 0 <= i < |c.items| ==> c.items[i] == AddressMap.Num(d.location.coordinates[i])
  {
    AddressMap.Array(seq(|d.location.coordinates|, i requires 0 <= i < |d.location.coordinates| =>
                           AddressMap.Num(d.location.coordinates[i])))
  }

  /** Round trip: the `[lng, lat]` the form sends comes back from the map as `[lat, lng]`, at the
      same place and with the same marker the form's own map shows. */
  lemma SubmittedLocationRoundTrip(f: FormData)
    requires f.coordinates.Some?
    ensures AddressMap.ViewOf(StoredMapInput(BuildDocument(f))) == AddressMap.ViewOf(MapInput(f))
    ensures AddressMap.ViewOf(MapInput(f)).position ==
      AddressMap.Position(AddressMap.Num(f.coordinates.value.lat), AddressMap.Num(f.coordinates.value.lng))
    ensures AddressMap.ViewOf(MapInput(f)).marker
  {
    var p := f.coordinates.value;
    assert StoredMapInput(BuildDocument(f)) == AddressMap.Array([AddressMap.Num(p.lng), AddressMap.Num(p.lat)]);
    AddressMap.GeoJsonPositionRoundTrip(p);
  }

  /** The rejection message names the email and says it exists, is a duplicate or is unique. */
  predicate IsDuplicateMessage(message: string) {
    var m := Lower(message);
    Contains(m, "email") && (Contains(m, "exists") || Contains(m, "duplicate") || Contains(m, "unique"))
  }

  lemma DuplicateMessageIgnoresCase(message: string)
    ensures IsDuplicateMessage(Lower(message)) == IsDuplicateMessage(message)
  {
    LowerIdempotent(message);
  }

  lemma DuplicateMessageExample()
    ensures IsDuplicateMessage("Email already EXISTS")
  {
    var m := Lower("Email already EXISTS");
    assert m == "email already exists";
    assert OccursAt(m, "email", 0) && OccursAt(m, "exists", 14);
  }

  /** A message that does not name the email is not a duplicate, whatever else it says. */
  lemma OtherDuplicateIsNotEmailDuplicate()
    ensures !IsDuplicateMessage("Name is a duplicate")
  {
    var n := Lower("Name is a duplicate");
    assert n == "name is a duplicate";
    forall i | 0 <= i <= |n| - 5
      ensures !OccursAt(n, "email", i)
    {
      assert n[i..i + 5][0] == n[i] && n[i..i + 5][1] == n[i + 1];
    }
  }

  datatype Alert = SuccessAlert | ValidationAlert(message: string) | DuplicateAlert

  const TimeOrderMessage := "Closing time must be after opening time!"
  const IncompleteMessage := "Please fill in all required fields correctly!"
  const GenericFailureMessage := "Failed to register company"

  /** The alert for a rejected submission, given the server's message (empty when it sent none). */
  function FailureAlert(message: string): (a: Alert)
    ensures a == DuplicateAlert <==> IsDuplicateMessage(message)
    ensures a != DuplicateAlert ==> a == ValidationAlert(if message == "" then GenericFailureMessage else message)
  {
    if IsDuplicateMessage(message) then DuplicateAlert
    else ValidationAlert(if message == "" then GenericFailureMessage else message)
  }

  /** How the backend answers the registration request. */
  datatype RegisterReply = Registered | Rejected(message: string)

  /** A snapshot of the page's state. */
  datatype PageState = PageState(formData: FormData, errors: Errors, addressSuggestions: seq<Place>,
                                 showSuggestions: bool, isMapInteractive: bool, mapKey: int)

  /** The state `resetForm` leaves (it does not touch `showSuggestions`). */
  function AfterReset(s: PageState, userEmail: string, now: int): (r: PageState)
    ensures r.formData == DefaultForm(userEmail) && r.errors == NoErrors && r.addressSuggestions == []
    ensures !r.isMapInteractive && r.mapKey == now && r.showSuggestions == s.showSuggestions
  {
    PageState(DefaultForm(userEmail), NoErrors, [], s.showSuggestions, false, now)
  }

  /** Resetting twice leaves the same state as resetting once. */
  lemma ResetIdempotent(s: PageState, userEmail: string, now: int)
    ensures AfterReset(AfterReset(s, userEmail, now), userEmail, now) == AfterReset(s, userEmail, now)
  {
  }

  class RegistrationPage {
    var formData: FormData
    var errors: Errors
    var addressSuggestions: seq<Place>
    var showSuggestions: bool
    var isMapInteractive: bool
    /** Re-keys the map component; set from the clock. */
    var mapKey: int
    const userEmail: string

    function State(): PageState
      reads this
    {
      PageState(formData, errors, addressSuggestions, showSuggestions, isMapInteractive, mapKey)
    }

    constructor (userEmail: string, now: int)
      ensures this.userEmail == userEmail
      ensures State() == PageState(DefaultForm(userEmail), NoErrors, [], false, false, now)
    {
      this.userEmail := userEmail;
      formData := DefaultForm(userEmail);
      errors := NoErrors;
      addressSuggestions := [];
      showSuggestions := false;
      isMapInteractive := false;
      mapKey := now;
    }

    /** `handleChange`: sets the edited input and clears its flag and the time flag. An address
        longer than two characters asks for suggestions (the returned query); a shorter one
        clears them. */
    method HandleChange(name: Field, value: string) returns (fetch: Option<string>)
      modifies this
      ensures fetch == if name == Address && |value| > 2 then Some(value) else None
      ensures State() == old(State()).(formData := SetField(old(formData), name, value),
                                       errors := ClearError(old(errors), name),
                                       addressSuggestions := if name == Address && |value| <= 2 then []
                                                             else old(addressSuggestions))
    {
      formData := SetField(formData, name, value);
      errors := ClearError(errors, name);
      fetch := None;
      if name == Address && |value| > 2 {
        fetch := Some(value);
      } else if name == Address {
        addressSuggestions := [];
      }
    }

    /** The end of `fetchAddressSuggestions(query)`: `geocodeApi.forward` never rejects, so the
        suggestions are its answer and the list is shown. */
    method ReceiveSuggestions(query: string, upstream: Outcome<seq<Place>>)
      modifies this
      ensures State() == old(State()).(addressSuggestions := Api.ForwardReply(query, upstream),
                                       showSuggestions := true)
    {
      addressSuggestions := Api.ForwardReply(query, upstream);
      showSuggestions := true;
    }

    /** `handleSuggestionClick`: the address and the point come from the suggestion. */
    method HandleSuggestionClick(suggestion: Place, now: int)
      modifies this
      ensures State() == old(State()).(
        formData := old(formData).(address := suggestion.display,
                                   coordinates := Some(LatLng(suggestion.lat, suggestion.lng))),
        errors := old(errors).(address := false, coordinates := false),
        showSuggestions := false, isMapInteractive := true, mapKey := now)
    {
      formData := formData.(address := suggestion.display,
                            coordinates := Some(LatLng(suggestion.lat, suggestion.lng)));
      errors := errors.(address := false, coordinates := false);
      showSuggestions := false;
      isMapInteractive := true;
      mapKey := now;
    }

    /** `handleMapClick`: only the point and its flag change. */
    method HandleMapClick(point: LatLng)
      modifies this
      ensures State() == old(State()).(formData := old(formData).(coordinates := Some(point)),
                                       errors := old(errors).(coordinates := false))
    {
      formData := formData.(coordinates := Some(point));
      errors := errors.(coordinates := false);
    }

    /** A click on the overlay of a map that is not yet interactive. */
    method EnableMap()
      modifies this
      ensures State() == old(State()).(isMapInteractive := true)
    {
      isMapInteractive := true;
    }

    /** A click on the map, which is shown only once an address is entered: the map is given
        `handleMapClick` only while it is interactive. */
    method MapClicked(point: LatLng)
      requires formData.address != ""
      modifies this
      ensures old(isMapInteractive) ==>
        State() == old(State()).(formData := old(formData).(coordinates := Some(point)),
                                 errors := old(errors).(coordinates := false))
      ensures !old(isMapInteractive) ==> State() == old(State())
    {
      var forwarded := AddressMap.ForwardClick(isMapInteractive, point);
      if forwarded.Some? {
        HandleMapClick(forwarded.value);
      }
    }

    /** `validateForm`: records the errors and reports whether there are none. */
    method ValidateForm() returns (ok: bool)
      modifies this
      ensures ok <==> old(formData).firstName != "" && old(formData).lastName != "" &&
                      old(formData).email != "" && old(formData).companyName != "" &&
                      old(formData).address != "" && old(formData).coordinates.Some? &&
                      ValidateTime(old(formData).openingHours, old(formData).closingHours)
      ensures State() == old(State()).(errors := FormErrors(old(formData)))
    {
      errors := FormErrors(formData);
      ok := errors == NoErrors;
    }

    /** `resetForm`. */
    method ResetForm(now: int)
      modifies this
      ensures State() == AfterReset(old(State()), userEmail, now)
    {
      formData := DefaultForm(userEmail);
      errors := NoErrors;
      addressSuggestions := [];
      isMapInteractive := false;
      mapKey := now;
    }

    /** `handleSubmit`: the time order is checked first, then the whole form; only a valid form
        is sent, and the backend's answer decides the alert. */
    method HandleSubmit(reply: RegisterReply, now: int) returns (sent: Option<CompanySchema.CompanyDoc>, alert: Alert)
      modifies this
      ensures var f := old(formData);
        if ClosingNotAfterOpening(f.openingHours, f.closingHours) then
          sent == None && alert == ValidationAlert(TimeOrderMessage) &&
          State() == old(State()).(errors := old(errors).(time := true))
        else if FormErrors(f) != NoErrors then
          sent == None && alert == ValidationAlert(IncompleteMessage) &&
          State() == old(State()).(errors := FormErrors(f))
        else
          f.coordinates.Some? && sent == Some(BuildDocument(f)) &&
          match reply
          case Registered => alert == SuccessAlert && State() == AfterReset(old(State()), userEmail, now)
          case Rejected(message) => alert == FailureAlert(message) && State() == old(State()).(errors := NoErrors)
    {
      if ClosingNotAfterOpening(formData.openingHours, formData.closingHours) {
        errors := errors.(time := true);
        return None, ValidationAlert(TimeOrderMessage);
      }
      var ok := ValidateForm();
      if !ok {
        return None, ValidationAlert(IncompleteMessage);
      }
      var document := BuildDocument(formData);
      sent := Some(document);
      match reply
      case Registered =>
        ResetForm(now);
        alert := SuccessAlert;
      case Rejected(message) =>
        alert := FailureAlert(message);
    }
  }
}
