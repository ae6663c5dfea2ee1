/** Clock times written `HH:MM`, as an HTML time input produces them. The browser's date
    parser is consulted with `2000-01-01T` prepended; the model accepts exactly the
    zero-padded 24-hour form and reads it as minutes since midnight. */
module TimeOfDay {
  import opened Wrappers
  import opened Text

  const MinutesPerDay := 24 * 60

  function TwoDigits(a: char, b: char): (n: int)
    requires IsDigit(a) && IsDigit(b)
    ensures 0 <= n <= 99
  {
    10 * DigitValue(a) + DigitValue(b)
  }

  /** `HH:MM` with two digits each, an hour up to 23 and a minute up to 59. */
  predicate IsPaddedClock(s: string) {
    |s| == 5 && IsDigit(s[0]) && IsDigit(s[1]) && s[2] == ':' && IsDigit(s[3]) && IsDigit(s[4]) &&
    TwoDigits(s[0], s[1]) <= 23 && TwoDigits(s[3], s[4]) <= 59
  }

  function Hour(s: string): int
    requires IsPaddedClock(s)
  {
    TwoDigits(s[0], s[1])
  }

  function Minute(s: string): int
    requires IsPaddedClock(s)
  {
    TwoDigits(s[3], s[4])
  }

  function MinutesOf(s: string): (m: int)
    requires IsPaddedClock(s)
    ensures 0 <= m < MinutesPerDay
    ensures m / 60 == Hour(s) && m % 60 == Minute(s)
  {
    Hour(s) * 60 + Minute(s)
  }

  /** The instant `new Date('2000-01-01T' + s)` denotes, relative to that midnight; `None` is an
      Invalid Date, against which every comparison is false. */
  function ParseClock(s: string): (r: Option<int>)
    ensures r.Some? <==> IsPaddedClock(s)
    ensures r.Some? ==> 0 <= r.value < MinutesPerDay && r.value == MinutesOf(s)
  {
    if IsPaddedClock(s) then Some(MinutesOf(s)) else None
  }

  /** The hour/minute pair is determined by the minutes count, so two padded clock strings
      denote the same time exactly when they are equal. */
  lemma MinutesOfInjective(a: string, b: string)
    requires IsPaddedClock(a) && IsPaddedClock(b)
    ensures MinutesOf(a) == MinutesOf(b) <==> a == b
  {
    if MinutesOf(a) == MinutesOf(b) {
      assert Hour(a) == Hour(b) && Minute(a) == Minute(b);
      assert a[0] == b[0] && a[1] == b[1] && a[3] == b[3] && a[4] == b[4];
    }
  }

  /** For zero-padded clock strings JavaScript's string order is the order of the times. */
  lemma StringOrderIsTimeOrder(a: string, b: string)
    requires IsPaddedClock(a) && IsPaddedClock(b)
    ensures LessThan(a, b) <==> MinutesOf(a) < MinutesOf(b)
  {
    if a == b {
      LessThanIrreflexive(a);
    } else if a[0] != b[0] {
      LessThanAtFirstDifference(a, b, 0);
    } else if a[1] != b[1] {
      LessThanAtFirstDifference(a, b, 1);
    } else if a[3] != b[3] {
      LessThanAtFirstDifference(a, b, 3);
    } else {
      assert a[4] != b[4];
      LessThanAtFirstDifference(a, b, 4);
    }
  }
}
