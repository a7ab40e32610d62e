/** Calendar dates as `datetime.fromisoformat` reads them from the front of
    an ISO 8601 timestamp and as `strftime('%d.%m.%y')` prints them. */
module IsoDate {
  import opened Wrappers
  import opened PyJson
  import opened PyStr

  datatype Date = Date(year: int, month: int, day: int)

  predicate IsLeapYear(y: int) {
    y % 4 == 0 && (y % 100 != 0 || y % 400 == 0)
  }

  function DaysInMonth(y: int, m: int): int
    requires 1 <= m <= 12
  {
    if m == 2 then (if IsLeapYear(y) then 29 else 28)
    else if m == 4 || m == 6 || m == 9 || m == 11 then 30
    else 31
  }

  /** A date `datetime` can represent: years 1 to 9999 of the proleptic
      Gregorian calendar. */
  predicate ValidDate(d: Date) {
    && 1 <= d.year <= 9999
    && 1 <= d.month <= 12
    && 1 <= d.day <= DaysInMonth(d.year, d.month)
  }

  /** The extended calendar-date layout `YYYY-MM-DD`. */
  predicate IsoLayout(t: string)
    requires |t| == 10
  {
    AllDigits(t[..4]) && t[4] == '-' && AllDigits(t[5..7]) && t[7] == '-' && AllDigits(t[8..])
  }

  /** `YYYY-MM-DD` for a date. */
  function FormatIso(d: Date): (t: string)
    requires ValidDate(d)
    ensures |t| == 10
  {
    Pad4(d.year) + "-" + Pad2(d.month) + "-" + Pad2(d.day)
  }

  /** The date part of `datetime.fromisoformat(s)`: the first ten characters
      must spell a valid date as `YYYY-MM-DD`; whatever follows them (a
      separator and the time of day) does not change the date. A malformed
      or out-of-range date raises ValueError. */
  function FromIsoFormat(s: string): (r: Result<Date, PyExc>)
    ensures r.Success? ==> ValidDate(r.value) && |s| >= 10 && s[..10] == FormatIso(r.value)
    ensures r.Failure? ==> r.error == ValueError
  {
    if |s| < 10 || !IsoLayout(s[..10]) then Failure(ValueError)
    else
      var t := s[..10];
      var d := Date(DigitsValue(t[..4]), DigitsValue(t[5..7]), DigitsValue(t[8..]));
      if ValidDate(d) then
        Pad4Of(t[..4]);
        Pad2Of(t[5..7]);
        Pad2Of(t[8..]);
        assert t == t[..4] + "-" + t[5..7] + "-" + t[8..];
        Success(d)
      else Failure(ValueError)
  }

  /** Every valid date, written as `YYYY-MM-DD` and followed by anything,
      reads back as itself. */
  lemma FromIsoFormatRoundTrip(d: Date, rest: string)
    requires ValidDate(d)
    ensures FromIsoFormat(FormatIso(d) + rest) == Success(d)
  {
    var s := FormatIso(d) + rest;
    var t := s[..10];
    assert t == FormatIso(d);
    assert t[..4] == Pad4(d.year);
    assert t[5..7] == Pad2(d.month);
    assert t[8..] == Pad2(d.day);
  }

  /** `strftime('%d.%m.%y')`: two-digit day, month and year of the century,
      separated by dots. */
  function DdMmYy(d: Date): (t: string)
    requires ValidDate(d)
    ensures |t| == 8 && t[2] == '.' && t[5] == '.'
    ensures AllDigits(t[..2]) && DigitsValue(t[..2]) == d.day
    ensures AllDigits(t[3..5]) && DigitsValue(t[3..5]) == d.month
    ensures AllDigits(t[6..]) && DigitsValue(t[6..]) == d.year % 100
  {
    var t := Pad2(d.day) + "." + Pad2(d.month) + "." + Pad2(d.year % 100);
    assert t[..2] == Pad2(d.day);
    assert t[3..5] == Pad2(d.month);
    assert t[6..] == Pad2(d.year % 100);
    t
  }
}
