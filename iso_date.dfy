/**
 * `LocalDate.parse(text)` with its default formatter `ISO_LOCAL_DATE`, for the
 * unsigned four-digit-year form: an ISO 8601 calendar date in extended format,
 * `YYYY-MM-DD` (section 5.6 of RFC 3339, `full-date`), resolved strictly, so the day
 * must exist in the month of the proleptic Gregorian calendar (section 5.7 and
 * Appendix C of RFC 3339).
 */
module IsoDate {

  import opened Errors

  /** A `LocalDate`: year, month-of-year and day-of-month. */
  datatype Date = Date(year: int, month: int, day: int)

  /** The proleptic Gregorian leap-year rule. */
  predicate IsLeapYear(y: int)
  {
    y % 4 == 0 && (y % 100 != 0 || y % 400 == 0)
  }

  function DaysInMonth(y: int, m: int): (n: int)
    requires 1 <= m <= 12
    ensures 28 <= n <= 31
    ensures n == 29 <==> m == 2 && IsLeapYear(y)
    ensures n == 28 <==> m == 2 && !IsLeapYear(y)
    ensures n == 30 <==> m in {4, 6, 9, 11}
  {
    if m == 2 then (if IsLeapYear(y) then 29 else 28)
    else if m == 4 || m == 6 || m == 9 || m == 11 then 30
    else 31
  }

  /** A day that exists: month 1 to 12, day 1 up to the length of that month. */
  predicate IsCalendarDate(d: Date)
  {
    1 <= d.month <= 12 && 1 <= d.day <= DaysInMonth(d.year, d.month)
  }

  /** The years the four-digit form can spell. */
  predicate HasFourDigitYear(d: Date)
  {
    0 <= d.year <= 9999
  }

  // ----------------- digits -----------------

  /** `ISO_LOCAL_DATE` reads the ASCII digits `0`..`9` only. */
  predicate IsDigit(c: char) { '0' <= c <= '9' }

  function DigitValue(c: char): (n: nat)
    requires IsDigit(c)
    ensures n <= 9
  {
    c as int - '0' as int
  }

  function DigitChar(n: nat): (c: char)
    requires n <= 9
    ensures IsDigit(c) && DigitValue(c) == n
  {
    ('0' as int + n) as char
  }

  /** The lexical shape `dddd-dd-dd`: ten characters, digits except the two hyphens. */
  predicate HasDateShape(s: string)
  {
    |s| == 10 && s[4] == '-' && s[7] == '-' &&
    forall i | 0 <= i < 10 && i != 4 && i != 7 :: IsDigit(s[i])
  }

  /** The two-digit number at positions `i` and `i + 1`. */
  function TwoDigits(s: string, i: nat): (n: nat)
    requires i + 2 <= |s| && IsDigit(s[i]) && IsDigit(s[i + 1])
    ensures n <= 99
  {
    DigitValue(s[i]) * 10 + DigitValue(s[i + 1])
  }

  /** The number spelled by the first four characters. */
  function FourDigits(s: string): (n: nat)
    requires 4 <= |s| && IsDigit(s[0]) && IsDigit(s[1]) && IsDigit(s[2]) && IsDigit(s[3])
    ensures n <= 9999
  {
    TwoDigits(s, 0) * 100 + TwoDigits(s, 2)
  }

  /** The year, month and day fields of a text of the date shape, before any range check. */
  function Fields(s: string): Date
    requires HasDateShape(s)
  {
    Date(FourDigits(s), TwoDigits(s, 5), TwoDigits(s, 8))
  }

  // ----------------- parse and format -----------------

  /**
   * `LocalDate.parse`: `None` where it throws `DateTimeParseException`, both for a
   * text of the wrong shape and for fields that name no calendar day.
   */
  function ParseIsoDate(s: string): (r: Option<Date>)
    ensures r.Some? ==> IsCalendarDate(r.value) && HasFourDigitYear(r.value)
    ensures r.Some? ==> HasDateShape(s) && FormatIsoDate(r.value) == s
    ensures r.None? <==> !HasDateShape(s) || !IsCalendarDate(Fields(s))
  {
    if !HasDateShape(s) then None
    else
      var d := Fields(s);
      if !IsCalendarDate(d) then None
      else
        FormatFields(s);
        Some(d)
  }

  /** `n` as exactly two digits, zero-padded. */
  function PadTwo(n: nat): (t: string)
    requires n <= 99
    ensures |t| == 2 && IsDigit(t[0]) && IsDigit(t[1]) && TwoDigits(t, 0) == n
  {
    [DigitChar(n / 10), DigitChar(n % 10)]
  }

  /** A date in the four-digit form that `LocalDate.toString` prints, `YYYY-MM-DD`. */
  function FormatIsoDate(d: Date): (t: string)
    requires IsCalendarDate(d) && HasFourDigitYear(d)
    ensures HasDateShape(t)
  {
    PadTwo(d.year / 100) + PadTwo(d.year % 100) + "-" + PadTwo(d.month) + "-" + PadTwo(d.day)
  }

  /** Each digit pair of a text of the date shape is the padded form of its value. */
  lemma PadTwoOfTwoDigits(s: string, i: nat)
    requires i + 2 <= |s| && IsDigit(s[i]) && IsDigit(s[i + 1])
    ensures PadTwo(TwoDigits(s, i)) == s[i..i + 2]
  {
  }

  /** Formatting the fields read from a text of the date shape spells that text again. */
  lemma FormatFields(s: string)
    requires HasDateShape(s) && IsCalendarDate(Fields(s))
    ensures FormatIsoDate(Fields(s)) == s
  {
    var d := Fields(s);
    assert d.year / 100 == TwoDigits(s, 0) && d.year % 100 == TwoDigits(s, 2);
    PadTwoOfTwoDigits(s, 0);
    PadTwoOfTwoDigits(s, 2);
    PadTwoOfTwoDigits(s, 5);
    PadTwoOfTwoDigits(s, 8);
    assert s == s[0..2] + s[2..4] + "-" + s[5..7] + "-" + s[8..10];
  }

  /** Reading the fields of a formatted date gives the date back. */
  lemma FieldsOfFormat(d: Date)
    requires IsCalendarDate(d) && HasFourDigitYear(d)
    ensures Fields(FormatIsoDate(d)) == d
  {
    var t := FormatIsoDate(d);
    assert t[0..2] == PadTwo(d.year / 100) && t[2..4] == PadTwo(d.year % 100);
    assert t[5..7] == PadTwo(d.month) && t[8..10] == PadTwo(d.day);
    assert TwoDigits(t, 0) == TwoDigits(t[0..2], 0);
    assert TwoDigits(t, 2) == TwoDigits(t[2..4], 0);
    assert TwoDigits(t, 5) == TwoDigits(t[5..7], 0);
    assert TwoDigits(t, 8) == TwoDigits(t[8..10], 0);
  }

  /** Every calendar day with a four-digit year parses back from its printed form. */
  lemma ParseFormatRoundTrip(d: Date)
    requires IsCalendarDate(d) && HasFourDigitYear(d)
    ensures ParseIsoDate(FormatIsoDate(d)) == Some(d)
  {
    FieldsOfFormat(d);
  }

  /** `LocalDate.parse` accepts a text exactly when it is the printed form of a calendar day, which it returns. */
  lemma ParseIsoDateCharacterisation(s: string, d: Date)
    ensures ParseIsoDate(s) == Some(d) <==> IsCalendarDate(d) && HasFourDigitYear(d) && s == FormatIsoDate(d)
  {
    if IsCalendarDate(d) && HasFourDigitYear(d) && s == FormatIsoDate(d) {
      ParseFormatRoundTrip(d);
    }
  }

  // ----------------- examples -----------------

  /** The compact form `20230101` is not of the date shape. */
  lemma CompactFormIsRejected()
    ensures ParseIsoDate("20230101") == None
  {
    assert "20230101"[4] != '-';
  }

  /** February 2023 has 28 days, so neither `2023-02-30` nor `2023-02-29` exists. */
  lemma NonexistentFebruaryDaysAreRejected()
    ensures ParseIsoDate("2023-02-30") == None
    ensures ParseIsoDate("2023-02-29") == None
  {
    assert Fields("2023-02-30") == Date(2023, 2, 30);
    assert Fields("2023-02-29") == Date(2023, 2, 29);
  }

  /** April has 30 days and there is no month 13. */
  lemma OutOfRangeFieldsAreRejected()
    ensures ParseIsoDate("2023-04-31") == None
    ensures ParseIsoDate("2023-13-01") == None
  {
    assert Fields("2023-04-31") == Date(2023, 4, 31);
    assert Fields("2023-13-01") == Date(2023, 13, 1);
  }

  /** 2024 is a leap year, so `2024-02-29` is a day. */
  lemma LeapDayIsAccepted()
    ensures ParseIsoDate("2024-02-29") == Some(Date(2024, 2, 29))
  {
    assert Fields("2024-02-29") == Date(2024, 2, 29);
  }

  /** The date of the historical-rates example. */
  lemma NewYear2023IsAccepted()
    ensures ParseIsoDate("2023-01-01") == Some(Date(2023, 1, 1))
  {
    assert Fields("2023-01-01") == Date(2023, 1, 1);
  }
}
