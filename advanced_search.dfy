/** The company list filter of the advanced search page: a company stays when it matches the
    search term, the location filter and both hour bounds; an empty criterion matches all. */
module AdvancedSearch {
  import opened Wrappers
  import opened Text
  import opened TimeOfDay

  /** The fields of a stored company the filter reads; any of them may be missing. */
  datatype Company = Company(companyName: Option<string>, address: Option<string>,
                             openingHours: Option<string>, closingHours: Option<string>)

  datatype Filters = Filters(location: string, openingTime: string, closingTime: string)

  const NoFilters := Filters("", "", "")

  /** `field?.toLowerCase().includes(term.toLowerCase())`: a missing field never matches. */
  predicate FieldIncludes(field: Option<string>, term: string) {
    field.Some? && Contains(Lower(field.value), Lower(term))
  }

  predicate MatchesSearch(c: Company, searchTerm: string) {
    searchTerm == "" || FieldIncludes(c.companyName, searchTerm) || FieldIncludes(c.address, searchTerm)
  }

  predicate MatchesLocation(c: Company, location: string) {
    location == "" || FieldIncludes(c.address, location)
  }

  /** `company.openingHours >= openingTime`, i.e. not `openingHours < openingTime`; a missing
      value compares false. */
  predicate MatchesOpening(c: Company, openingTime: string) {
    openingTime == "" || (c.openingHours.Some? && !LessThan(c.openingHours.value, openingTime))
  }

  /** `company.closingHours <= closingTime`, i.e. not `closingTime < closingHours`. */
  predicate MatchesClosing(c: Company, closingTime: string) {
    closingTime == "" || (c.closingHours.Some? && !LessThan(closingTime, c.closingHours.value))
  }

  predicate Keeps(c: Company, searchTerm: string, f: Filters) {
    MatchesSearch(c, searchTerm) && MatchesLocation(c, f.location) &&
    MatchesOpening(c, f.openingTime) && MatchesClosing(c, f.closingTime)
  }

  /** `a` is `b` with some elements left out, the rest in their order. */
  predicate IsSubsequence<T(==)>(a: seq<T>, b: seq<T>)
    decreases |b|
  {
    if b == [] then a == []
    else (a != [] && a[0] == b[0] && IsSubsequence(a[1..], b[1..])) || IsSubsequence(a, b[1..])
  }

  /** `companies.filter(...)`: the kept companies, in their order, each as often as it occurs. */
  function FilterCompanies(companies: seq<Company>, searchTerm: string, f: Filters): (r: seq<Company>)
    ensures IsSubsequence(r, companies)
    ensures forall c :: multiset(r)[c] == if Keeps(c, searchTerm, f) then multiset(companies)[c] else 0
    decreases |companies|
  {
    if companies == [] then []
    else
      var rest := FilterCompanies(companies[1..], searchTerm, f);
      assert companies == [companies[0]] + companies[1..];
      if Keeps(companies[0], searchTerm, f) then
        assert ([companies[0]] + rest)[1..] == rest;
        [companies[0]] + rest
      else
        rest
  }

  /** `filteredCompanies`: anything but an array of companies gives no result. */
  function FilteredCompanies(companies: Option<seq<Company>>, searchTerm: string, f: Filters): (r: seq<Company>)
    ensures companies.None? ==> r == []
    ensures companies.Some? ==> r == FilterCompanies(companies.value, searchTerm, f)
  {
    match companies
    case None => []
    case Some(list) => FilterCompanies(list, searchTerm, f)
  }

  /** A company is in the result exactly when it is in the list and meets every criterion. */
  lemma KeptExactlyWhenMatching(companies: seq<Company>, searchTerm: string, f: Filters, c: Company)
    ensures c in FilterCompanies(companies, searchTerm, f) <==> c in companies && Keeps(c, searchTerm, f)
  {
    var r := FilterCompanies(companies, searchTerm, f);
    assert c in r <==> multiset(r)[c] > 0;
    assert c in companies <==> multiset(companies)[c] > 0;
  }

  /** With no search term and no filters every company is kept, in order. */
  lemma {:induction false} NoCriteriaKeepsAll(companies: seq<Company>)
    ensures FilterCompanies(companies, "", NoFilters) == companies
    decreases |companies|
  {
    if companies != [] {
      NoCriteriaKeepsAll(companies[1..]);
    }
  }

  /** Missing fields: no name and no address never match a search term; no address never
      matches a location. */
  lemma MissingFieldsNeverMatch(c: Company, searchTerm: string, location: string)
    ensures c.companyName.None? && c.address.None? && searchTerm != "" ==> !MatchesSearch(c, searchTerm)
    ensures c.address.None? && location != "" ==> !MatchesLocation(c, location)
  {
  }

  function LowerField(field: Option<string>): Option<string> {
    match field
    case None => None
    case Some(s) => Some(Lower(s))
  }

  /** Upper- and lower-case are not told apart, neither in the criteria nor in the fields. */
  lemma KeepsIgnoresCase(c: Company, searchTerm: string, f: Filters)
    ensures Keeps(c, Lower(searchTerm), f.(location := Lower(f.location))) == Keeps(c, searchTerm, f)
    ensures Keeps(c.(companyName := LowerField(c.companyName), address := LowerField(c.address)), searchTerm, f)
         == Keeps(c, searchTerm, f)
  {
    LowerIdempotent(searchTerm);
    LowerIdempotent(f.location);
    LowerOfEmpty(searchTerm);
    LowerOfEmpty(f.location);
    if c.companyName.Some? { LowerIdempotent(c.companyName.value); }
    if c.address.Some? { LowerIdempotent(c.address.value); }
  }

  /** Filtering with lower-cased criteria gives the same list. */
  lemma {:induction false} FilterIgnoresCriteriaCase(companies: seq<Company>, searchTerm: string, f: Filters)
    ensures FilterCompanies(companies, Lower(searchTerm), f.(location := Lower(f.location)))
         == FilterCompanies(companies, searchTerm, f)
    decreases |companies|
  {
    if companies != [] {
      KeepsIgnoresCase(companies[0], searchTerm, f);
      FilterIgnoresCriteriaCase(companies[1..], searchTerm, f);
    }
  }

  /** The later text criterion contains the earlier one, ignoring case (an empty earlier one
      is contained in anything). */
  predicate RefinesText(text: string, text': string) {
    text == "" || Contains(Lower(text'), Lower(text))
  }

  /** The second set of criteria is at least as demanding as the first: each text criterion
      has had characters added around it (or was empty), and each hour bound is the first's or
      replaces an empty one. */
  predicate Narrows(term: string, f: Filters, term': string, f': Filters) {
    RefinesText(term, term') && RefinesText(f.location, f'.location) &&
    (f.openingTime == "" || f'.openingTime == f.openingTime) &&
    (f.closingTime == "" || f'.closingTime == f.closingTime)
  }

  /** Typing more characters after the search term or the location narrows the criteria. */
  lemma TypingMoreNarrows(term: string, more: string, f: Filters, moreLocation: string)
    ensures Narrows(term, f, term + more, f.(location := f.location + moreLocation))
  {
    LowerAppend(term, more);
    ContainsPrefix(Lower(term), Lower(more));
    LowerAppend(f.location, moreLocation);
    ContainsPrefix(Lower(f.location), Lower(moreLocation));
  }

  /** Narrowing the criteria never enlarges the result: the new result is a subsequence of
      the old one. */
  lemma {:induction false} NarrowingNeverEnlarges(companies: seq<Company>, term: string, f: Filters, term': string, f': Filters)
    requires Narrows(term, f, term', f')
    ensures IsSubsequence(FilterCompanies(companies, term', f'), FilterCompanies(companies, term, f))
    ensures |FilterCompanies(companies, term', f')| <= |FilterCompanies(companies, term, f)|
    decreases |companies|
  {
    if companies != [] {
      NarrowingNeverEnlarges(companies[1..], term, f, term', f');
      var narrow, wide := FilterCompanies(companies[1..], term', f'), FilterCompanies(companies[1..], term, f);
      var c := companies[0];
      NarrowerKeepsFewer(c, term, f, term', f');
      if Keeps(c, term', f') {
        assert ([c] + narrow)[1..] == narrow && ([c] + wide)[1..] == wide;
      } else if Keeps(c, term, f) {
        assert ([c] + wide)[1..] == wide;
      }
    }
    SubsequenceNoLonger(FilterCompanies(companies, term', f'), FilterCompanies(companies, term, f));
  }

  /** A field that contains the refined text contains the original text. */
  lemma FieldIncludesRefined(field: Option<string>, text: string, text': string)
    requires text != "" && RefinesText(text, text')
    ensures FieldIncludes(field, text') ==> FieldIncludes(field, text)
  {
    if FieldIncludes(field, text') {
      ContainsTransitive(Lower(field.value), Lower(text'), Lower(text));
    }
  }

  /** A company kept under the narrower criteria is kept under the wider ones. */
  lemma NarrowerKeepsFewer(c: Company, term: string, f: Filters, term': string, f': Filters)
    requires Narrows(term, f, term', f')
    ensures Keeps(c, term', f') ==> Keeps(c, term, f)
  {
    if term != "" {
      FieldIncludesRefined(c.companyName, term, term');
      FieldIncludesRefined(c.address, term, term');
      assert |Lower(term')| >= |Lower(term)| > 0;
    }
    if f.location != "" {
      FieldIncludesRefined(c.address, f.location, f'.location);
      assert |Lower(f'.location)| >= |Lower(f.location)| > 0;
    }
  }

  lemma {:induction false} SubsequenceNoLonger<T>(a: seq<T>, b: seq<T>)
    requires IsSubsequence(a, b)
    ensures |a| <= |b|
    decreases |b|
  {
    if b != [] {
      if a != [] && a[0] == b[0] && IsSubsequence(a[1..], b[1..]) {
        SubsequenceNoLonger(a[1..], b[1..]);
      } else {
        SubsequenceNoLonger(a, b[1..]);
      }
    }
  }

  /** For zero-padded `HH:MM` values the hour bounds compare times of day. */
  lemma HourBoundsCompareTimes(c: Company, f: Filters)
    requires f.openingTime != "" && f.closingTime != ""
    requires IsPaddedClock(f.openingTime) && IsPaddedClock(f.closingTime)
    requires c.openingHours.Some? && IsPaddedClock(c.openingHours.value)
    requires c.closingHours.Some? && IsPaddedClock(c.closingHours.value)
    ensures MatchesOpening(c, f.openingTime) <==> MinutesOf(c.openingHours.value) >= MinutesOf(f.openingTime)
    ensures MatchesClosing(c, f.closingTime) <==> MinutesOf(c.closingHours.value) <= MinutesOf(f.closingTime)
  {
    StringOrderIsTimeOrder(c.openingHours.value, f.openingTime);
    StringOrderIsTimeOrder(f.closingTime, c.closingHours.value);
  }
}
