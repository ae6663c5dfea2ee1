/** The stored company document and the checks and normalisations the document schema applies
    before a company is saved. */
module CompanySchema {
  import opened Wrappers
  import opened Text
  import opened TimeOfDay

  const FirstNameMaxLength := 50
  const LastNameMaxLength := 50
  const CompanyNameMaxLength := 100
  /** The only value the `location.type` enumeration allows. */
  const PointType := "Point"

  /** A GeoJSON Point: `coordinates` is a Position, longitude first (section 3.1.1 of RFC 7946). */
  datatype GeoPoint = GeoPoint(kind: string, coordinates: seq<real>)

  datatype CompanyDoc = CompanyDoc(firstName: string, lastName: string, email: string,
                                   companyName: string, address: string,
                                   openingHours: string, closingHours: string, location: GeoPoint)

  // The hours pattern ^([0-1]?[0-9]|2[0-3]):[0-5][0-9]$

  /** The hour alternative `[0-1]?[0-9]|2[0-3]`. */
  predicate HourAlternative(h: string) {
    (|h| == 1 && IsDigit(h[0])) ||
    (|h| == 2 && '0' <= h[0] <= '1' && IsDigit(h[1])) ||
    (|h| == 2 && h[0] == '2' && '0' <= h[1] <= '3')
  }

  /** The whole string matches the hours pattern. */
  predicate MatchesHoursPattern(s: string) {
    |s| >= 4 && HourAlternative(s[..|s| - 3]) &&
    s[|s| - 3] == ':' && '0' <= s[|s| - 2] <= '5' && IsDigit(s[|s| - 1])
  }

  predicate AllDigits(s: string) {
    forall i :: 0 <= i < |s| ==> IsDigit(s[i])
  }

  /** The value of a decimal numeral. */
  function NumeralValue(s: string): (n: int)
    requires AllDigits(s)
    ensures n >= 0
    decreases |s|
  {
    if s == [] then 0 else 10 * NumeralValue(s[..|s| - 1]) + DigitValue(s[|s| - 1])
  }

  lemma NumeralValueOfTwo(s: string)
    requires |s| == 2 && AllDigits(s)
    ensures NumeralValue(s) == 10 * DigitValue(s[0]) + DigitValue(s[1])
  {
    var first := s[..1];
    assert first[..0] == [] && first[0] == s[0];
    assert NumeralValue(first) == DigitValue(s[0]);
    assert s[..|s| - 1] == first;
  }

  /** An hour of one or two digits up to 23, a colon, and two minute digits up to 59. */
  predicate ClockShape(s: string) {
    (|s| == 4 || |s| == 5) &&
    var k := |s| - 3;
    AllDigits(s[..k]) && NumeralValue(s[..k]) <= 23 && s[k] == ':' &&
    AllDigits(s[k + 1..]) && NumeralValue(s[k + 1..]) <= 59
  }

  /** What the hours pattern accepts, stated as numbers. */
  lemma HoursPatternIsClockShape(s: string)
    ensures MatchesHoursPattern(s) <==> ClockShape(s)
  {
    if |s| == 4 || |s| == 5 {
      var k := |s| - 3;
      var h, m := s[..k], s[k + 1..];
      if AllDigits(m) {
        NumeralValueOfTwo(m);
      }
      if |h| == 2 && AllDigits(h) {
        NumeralValueOfTwo(h);
      }
      if |h| == 1 && AllDigits(h) {
        assert h[..0] == [];
      }
      assert s[|s| - 2] == m[0] && s[|s| - 1] == m[1];
    }
  }

  lemma HoursPatternExamples()
    ensures !MatchesHoursPattern("24:00") && !MatchesHoursPattern("12:60")
    ensures MatchesHoursPattern("9:05") && MatchesHoursPattern("09:05") && MatchesHoursPattern("23:59")
  {
    assert "9:05"[..1] == "9";
    assert "09:05"[..2] == "09";
    assert "23:59"[..2] == "23";
    assert "24:00"[..2] == "24";
  }

  /** Every zero-padded clock time passes the hours pattern. */
  lemma PaddedClockMatchesPattern(s: string)
    requires IsPaddedClock(s)
    ensures MatchesHoursPattern(s)
  {
    assert s[..2] == [s[0], s[1]];
  }

  // The email pattern ^\w+([.-]?\w+)*@\w+([.-]?\w+)*(\.\w{2,3})+$

  predicate IsSeparator(c: char) { c == '.' || c == '-' }

  /** `\w+([.-]?\w+)*`: word characters, single dots or dashes between them. */
  predicate IsWordRun(s: string) {
    |s| > 0 && IsWordChar(s[0]) && IsWordChar(s[|s| - 1]) &&
    (forall i :: 0 <= i < |s| ==> IsWordChar(s[i]) || IsSeparator(s[i])) &&
    (forall i :: 0 <= i < |s| - 1 ==> IsWordChar(s[i]) || IsWordChar(s[i + 1]))
  }

  /** `(\.\w{2,3})+`: one or more groups of a dot and two or three word characters. */
  predicate IsDotGroups(s: string)
    decreases |s|
  {
    |s| >= 3 && s[0] == '.' && IsWordChar(s[1]) && IsWordChar(s[2]) &&
    (|s| == 3 || IsDotGroups(s[3..]) || (IsWordChar(s[3]) && (|s| == 4 || IsDotGroups(s[4..]))))
  }

  /** The pattern matches with the `@` at `at` and the trailing groups starting at `groups`. */
  predicate EmailSplit(s: string, at: int, groups: int) {
    0 <= at < groups < |s| && s[at] == '@' &&
    IsWordRun(s[..at]) && IsWordRun(s[at + 1..groups]) && IsDotGroups(s[groups..])
  }

  predicate IsEmail(s: string) {
    exists at, groups | 0 <= at < groups < |s| :: EmailSplit(s, at, groups)
  }

  lemma {:induction false} DotGroupsChars(s: string)
    requires IsDotGroups(s)
    ensures forall i :: 0 <= i < |s| ==> IsWordChar(s[i]) || s[i] == '.'
    decreases |s|
  {
    if |s| > 3 && IsDotGroups(s[3..]) {
      DotGroupsChars(s[3..]);
      assert forall i :: 3 <= i < |s| ==> s[i] == s[3..][i - 3];
    } else if |s| > 4 {
      DotGroupsChars(s[4..]);
      assert forall i :: 4 <= i < |s| ==> s[i] == s[4..][i - 4];
    }
  }

  /** An accepted email has exactly one `@`. */
  lemma EmailHasOneAt(s: string)
    requires IsEmail(s)
    ensures exists at :: 0 <= at < |s| && s[at] == '@' && forall k :: 0 <= k < |s| && s[k] == '@' ==> k == at
  {
    var at, groups :| 0 <= at < groups < |s| && EmailSplit(s, at, groups);
    DotGroupsChars(s[groups..]);
    forall k | 0 <= k < |s| && k != at
      ensures s[k] != '@'
    {
      if k < at {
        assert s[k] == s[..at][k];
      } else if k < groups {
        assert s[k] == s[at + 1..groups][k - at - 1];
      } else {
        assert s[k] == s[groups..][k - groups];
      }
    }
  }

  /** The text after the last `.` (all of `s` when it has none). */
  function AfterLastDot(s: string): string
    decreases |s|
  {
    if s == [] then []
    else if s[|s| - 1] == '.' then []
    else AfterLastDot(s[..|s| - 1]) + [s[|s| - 1]]
  }

  lemma {:induction false} AfterLastDotOfSuffix(x: string, y: string)
    requires '.' in y
    ensures AfterLastDot(x + y) == AfterLastDot(y)
    decreases |y|
  {
    var xy := x + y;
    if y[|y| - 1] != '.' {
      var y' := y[..|y| - 1];
      assert '.' in y' by {
        var i :| 0 <= i < |y| && y[i] == '.';
        assert i < |y| - 1 && y'[i] == '.';
      }
      assert xy[..|xy| - 1] == x + y';
      AfterLastDotOfSuffix(x, y');
    }
  }

  lemma {:induction false} AfterLastDotOfGroup(g: string)
    requires '.' !in g
    ensures AfterLastDot("." + g) == g
    decreases |g|
  {
    if g != [] {
      assert ("." + g)[..|g|] == "." + g[..|g| - 1];
      AfterLastDotOfGroup(g[..|g| - 1]);
    }
  }

  /** The `(\.\w{2,3})+` tail of the email pattern ends in a group of two or three word
      characters after the last dot. */
  lemma {:induction false} DotGroupsEndWithShortGroup(s: string)
    requires IsDotGroups(s)
    ensures 2 <= |AfterLastDot(s)| <= 3
    ensures forall i :: 0 <= i < |AfterLastDot(s)| ==> IsWordChar(AfterLastDot(s)[i])
    decreases |s|
  {
    if |s| > 3 && IsDotGroups(s[3..]) {
      assert s == s[..3] + s[3..] && s[3..][0] == '.';
      AfterLastDotOfSuffix(s[..3], s[3..]);
      DotGroupsEndWithShortGroup(s[3..]);
    } else if |s| > 4 {
      assert s == s[..4] + s[4..] && s[4..][0] == '.';
      AfterLastDotOfSuffix(s[..4], s[4..]);
      DotGroupsEndWithShortGroup(s[4..]);
    } else {
      assert s == "." + s[1..];
      AfterLastDotOfGroup(s[1..]);
    }
  }

  /** In an accepted email the text after the last dot is two or three word characters. */
  lemma EmailEndsWithShortSuffix(s: string)
    requires IsEmail(s)
    ensures 2 <= |AfterLastDot(s)| <= 3
    ensures forall i :: 0 <= i < |AfterLastDot(s)| ==> IsWordChar(AfterLastDot(s)[i])
  {
    var at, groups :| 0 <= at < groups < |s| && EmailSplit(s, at, groups);
    assert s == s[..groups] + s[groups..] && s[groups..][0] == '.';
    AfterLastDotOfSuffix(s[..groups], s[groups..]);
    DotGroupsEndWithShortGroup(s[groups..]);
  }

  lemma EmailExample()
    ensures IsEmail("info@acme.co.in")
  {
    var s := "info@acme.co.in";
    assert s[..4] == "info" && s[5..9] == "acme" && s[9..] == ".co.in";
    assert ".co.in"[3..] == ".in";
    assert EmailSplit(s, 4, 9);
  }

  // Normalisation done by the schema's `trim` and `lowercase` options

  /** The stored form of an email: trimmed and lower-cased. */
  function NormaliseEmail(s: string): (r: string)
    ensures r == Lower(Trim(s)) && r == Trim(Lower(s))
  {
    LowerTrimCommute(s);
    Lower(Trim(s))
  }

  lemma NormaliseEmailIdempotent(s: string)
    ensures NormaliseEmail(NormaliseEmail(s)) == NormaliseEmail(s)
  {
    var t := Trim(s);
    LowerTrimCommute(Lower(t));
    LowerIdempotent(t);
    TrimIdempotent(s);
    LowerTrimCommute(t);
  }

  /** The document as it is stored: text fields trimmed, the email also lower-cased. */
  function Normalise(doc: CompanyDoc): CompanyDoc {
    doc.(firstName := Trim(doc.firstName), lastName := Trim(doc.lastName),
         email := NormaliseEmail(doc.email), companyName := Trim(doc.companyName),
         address := Trim(doc.address))
  }

  /** The checks of the schema on a normalised document: required values present, the length
      limits, the email and hours patterns and the location type. */
  predicate Conforms(d: CompanyDoc) {
    d.firstName != "" && |d.firstName| <= FirstNameMaxLength &&
    d.lastName != "" && |d.lastName| <= LastNameMaxLength &&
    IsEmail(d.email) &&
    d.companyName != "" && |d.companyName| <= CompanyNameMaxLength &&
    d.address != "" &&
    d.location.kind == PointType &&
    MatchesHoursPattern(d.openingHours) && MatchesHoursPattern(d.closingHours)
  }

  /** Saving a document: normalise it, then accept it only if every check passes. */
  function Validate(doc: CompanyDoc): (r: Option<CompanyDoc>)
    ensures r.Some? ==>
      r.value.email == NormaliseEmail(doc.email) && IsEmail(r.value.email) &&
      r.value.firstName == Trim(doc.firstName) && 0 < |r.value.firstName| <= FirstNameMaxLength &&
      r.value.lastName == Trim(doc.lastName) && 0 < |r.value.lastName| <= LastNameMaxLength &&
      r.value.companyName == Trim(doc.companyName) && 0 < |r.value.companyName| <= CompanyNameMaxLength &&
      r.value.address == Trim(doc.address) && r.value.address != "" &&
      r.value.openingHours == doc.openingHours && r.value.closingHours == doc.closingHours &&
      r.value.location == doc.location && r.value.location.kind == PointType
    ensures r.Some? ==> Conforms(r.value)
    ensures r.None? ==> !Conforms(Normalise(doc))
  {
    var d := Normalise(doc);
    if Conforms(d) then Some(d) else None
  }

  /** Normalising a normalised document changes nothing. */
  lemma NormaliseIdempotent(doc: CompanyDoc)
    ensures Normalise(Normalise(doc)) == Normalise(doc)
  {
    TrimIdempotent(doc.firstName);
    TrimIdempotent(doc.lastName);
    TrimIdempotent(doc.companyName);
    TrimIdempotent(doc.address);
    NormaliseEmailIdempotent(doc.email);
  }

  /** A stored document is already in stored form: saving it again accepts it unchanged. */
  lemma ValidateIdempotent(doc: CompanyDoc)
    requires Validate(doc).Some?
    ensures Validate(Validate(doc).value) == Validate(doc)
  {
    var d := Normalise(doc);
    assert Validate(doc) == Some(d) && Conforms(d);
    NormaliseIdempotent(doc);
    assert Validate(d) == Some(Normalise(d));
  }

  /** `required` on the `[Number]` coordinates array asks only that the array be there: the
      schema accepts a document whatever its coordinates hold, the empty array included. */
  lemma CoordinatesNotInspected(d: CompanyDoc)
    ensures Conforms(d) == Conforms(d.(location := d.location.(coordinates := [])))
  {
  }
}
