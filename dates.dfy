/** Calendar dates and instants: Python's `date` (with `isoformat`), the tuple
    comparisons used for ages, and aware `datetime` values as epoch microseconds. */
module Dates {
  import opened Wrappers
  import opened Text

  /** A (year, month, day) triple; `ValidDate` says when it is a Python `date`. */
  datatype Date = Date(year: int, month: int, day: int)

  predicate IsLeapYear(y: int)
  {
    y % 4 == 0 && (y % 100 != 0 || y % 400 == 0)
  }

  function DaysInMonth(y: int, m: int): int
  {
    if m == 2 then (if IsLeapYear(y) then 29 else 28)
    else if m == 4 || m == 6 || m == 9 || m == 11 then 30
    else 31
  }

  /** Python's `date` range: years 1 to 9999 and real calendar days. */
  predicate ValidDate(d: Date)
  {
    1 <= d.year <= 9999 && 1 <= d.month <= 12 && 1 <= d.day <= DaysInMonth(d.year, d.month)
  }

  type CalendarDate = d: Date | ValidDate(d) witness Date(1, 1, 1)

  /** The tuple comparison `(a.month, a.day) < (b.month, b.day)`. */
  predicate MonthDayBefore(a: Date, b: Date)
  {
    a.month < b.month || (a.month == b.month && a.day < b.day)
  }

  /** Date order: `(a.year, a.month, a.day) < (b.year, b.month, b.day)`. */
  predicate Before(a: Date, b: Date)
  {
    a.year < b.year || (a.year == b.year && MonthDayBefore(a, b))
  }

  /** `date.isoformat()`, i.e. `"%04d-%02d-%02d"`: always ten characters with
      dashes at positions 4 and 7. */
  function IsoFormat(d: CalendarDate): (s: string)
    ensures |s| == 10 && s[4] == '-' && s[7] == '-'
  {
    DecimalLength(d.year, 4);
    DecimalLength(d.month, 2);
    DecimalLength(d.day, 2);
    PadDecimal(d.year, 4) + "-" + PadDecimal(d.month, 2) + "-" + PadDecimal(d.day, 2)
  }

  /** `date.fromisoformat` on the `YYYY-MM-DD` form: the inverse of `IsoFormat`. */
  function ParseIsoDate(s: string): Option<CalendarDate>
  {
    if |s| == 10 && s[4] == '-' && s[7] == '-'
       && AllDigits(s[..4]) && AllDigits(s[5..7]) && AllDigits(s[8..]) then
      var d := Date(ParseDigits(s[..4]), ParseDigits(s[5..7]), ParseDigits(s[8..]));
      if ValidDate(d) then Some(d) else None
    else None
  }

  /** `IsoFormat` loses nothing: parsing its output gives the date back. */
  lemma IsoFormatRoundTrip(d: CalendarDate)
    ensures ParseIsoDate(IsoFormat(d)) == Some(d)
  {
    var y, m, dd := PadDecimal(d.year, 4), PadDecimal(d.month, 2), PadDecimal(d.day, 2);
    DecimalLength(d.year, 4);
    DecimalLength(d.month, 2);
    DecimalLength(d.day, 2);
    var s := IsoFormat(d);
    assert s == y + "-" + m + "-" + dd;
    assert s[..4] == y && s[5..7] == m && s[8..] == dd;
    PadDecimalRoundTrip(d.year, 4);
    PadDecimalRoundTrip(d.month, 2);
    PadDecimalRoundTrip(d.day, 2);
  }

  /** An aware `datetime`, as microseconds since the Unix epoch. */
  datatype Timestamp = Timestamp(micros: int)

  const MicrosPerMinute: int := 60 * 1000000
}
