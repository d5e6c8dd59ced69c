/**
 * The month range helper of the shared utilities: the first and last calendar
 * day of a date's month, as ISO 8601 calendar dates (YYYY-MM-DD). Dates are
 * proleptic Gregorian, months are numbered from 0 as JavaScript's `Date`
 * numbers them, and a date built from out-of-range fields is normalised the
 * way the `Date` constructor does it.
 */
module Dates {
  import opened Wrappers
  import opened Text

  /** A calendar day: `month` runs from 0 (January) to 11, `day` from 1. */
  datatype CalendarDate = CalendarDate(year: int, month: int, day: int)

  predicate IsLeapYear(year: int)
  {
    year % 4 == 0 && (year % 100 != 0 || year % 400 == 0)
  }

  function DaysInMonth(year: int, month: int): (n: int)
    requires 0 <= month < 12
    ensures 28 <= n <= 31
  {
    if month == 1 then (if IsLeapYear(year) then 29 else 28)
    else if month == 3 || month == 5 || month == 8 || month == 10 then 30
    else 31
  }

  predicate ValidDate(d: CalendarDate)
  {
    0 <= d.month < 12 && 1 <= d.day <= DaysInMonth(d.year, d.month)
  }

  /** The month before `month` of `year`, as (year, month). */
  function PreviousMonth(year: int, month: int): (int, int)
    requires 0 <= month < 12
  {
    if month == 0 then (year - 1, 11) else (year, month - 1)
  }

  /**
   * The year `new Date(year, month, day)` starts from: a year from 0 to 99
   * stands for 1900 + year; any other year is taken as it is.
   */
  function FullYear(year: int): int
  {
    if 0 <= year <= 99 then 1900 + year else year
  }

  /** `new Date(year, month, day)`: the two-digit year rule, then the normalisation of the fields. */
  function NewDate(year: int, month: int, day: int): (d: CalendarDate)
    ensures ValidDate(d)
  {
    MakeDate(FullYear(year), month, day)
  }

  /**
   * The normalisation of the fields once the year is fixed: a month outside
   * 0..11 carries into the year, and a day outside the month carries into the
   * neighbouring months, so day 0 is the last day of the month before.
   */
  function MakeDate(year: int, month: int, day: int): (d: CalendarDate)
    ensures ValidDate(d)
    decreases if day < 1 then 1 else 0, if day < 1 then -day else day
  {
    var y, m := year + month / 12, month % 12;
    if day < 1 then
      var (py, pm) := PreviousMonth(y, m);
      MakeDate(py, pm, day + DaysInMonth(py, pm))
    else if day > DaysInMonth(y, m) then
      MakeDate(y, m + 1, day - DaysInMonth(y, m))
    else
      CalendarDate(y, m, day)
  }

  /** Building a date from the fields of a valid date gives that date back. */
  lemma MakeValidDate(d: CalendarDate)
    requires ValidDate(d)
    ensures MakeDate(d.year, d.month, d.day) == d
  {
  }

  /** Day 0 of the month after `month` is the last day of `month`, December included. */
  lemma DayZeroIsLastDay(year: int, month: int)
    requires 0 <= month < 12
    ensures MakeDate(year, month + 1, 0) == CalendarDate(year, month, DaysInMonth(year, month))
  {
    var y, m := year + (month + 1) / 12, (month + 1) % 12;
    assert (y, m) == (if month == 11 then (year + 1, 0) else (year, month + 1));
    assert PreviousMonth(y, m) == (year, month);
  }

  /** The day after the last day of a month is the first day of the next month. */
  lemma LastDayIsLast(year: int, month: int)
    requires 0 <= month < 12
    ensures MakeDate(year, month, DaysInMonth(year, month) + 1) ==
              (if month == 11 then CalendarDate(year + 1, 0, 1) else CalendarDate(year, month + 1, 1))
  {
  }

  /** The months of a year add up to 366 days in a leap year and 365 otherwise. */
  lemma YearLength(year: int)
    ensures DaysInYear(year, 12) == if IsLeapYear(year) then 366 else 365
  {
    var feb := DaysInMonth(year, 1);
    assert DaysInYear(year, 1) == 31;
    assert DaysInYear(year, 2) == 31 + feb;
    assert DaysInYear(year, 3) == 62 + feb;
    assert DaysInYear(year, 4) == 92 + feb;
    assert DaysInYear(year, 5) == 123 + feb;
    assert DaysInYear(year, 6) == 153 + feb;
    assert DaysInYear(year, 7) == 184 + feb;
    assert DaysInYear(year, 8) == 215 + feb;
    assert DaysInYear(year, 9) == 245 + feb;
    assert DaysInYear(year, 10) == 276 + feb;
    assert DaysInYear(year, 11) == 306 + feb;
  }

  /** The number of days in the first `months` months of `year`. */
  function DaysInYear(year: int, months: nat): int
    requires months <= 12
  {
    if months == 0 then 0 else DaysInYear(year, months - 1) + DaysInMonth(year, months - 1)
  }

  // ----- ISO 8601 calendar dates

  function Digit(n: int): char
    requires 0 <= n < 10
  {
    "0123456789"[n]
  }

  function DigitValue(c: char): Option<int>
  {
    if '0' <= c <= '9' then Some(c as int - '0' as int) else None
  }

  /** `n` in `width` decimal digits, with leading zeros. */
  function Padded(n: nat, width: nat): (s: string)
    ensures |s| == width
  {
    if width == 0 then "" else Padded(n / 10, width - 1) + [Digit(n % 10)]
  }

  /** The value of a string of decimal digits. */
  function DigitsValue(s: string): Option<nat>
  {
    if s == [] then Some(0)
    else
      var p, d := DigitsValue(s[..|s| - 1]), DigitValue(s[|s| - 1]);
      if p.Some? && d.Some? then Some(p.value * 10 + d.value) else None
  }

  function Pow10(k: nat): (p: nat)
    ensures p >= 1
  {
    if k == 0 then 1 else 10 * Pow10(k - 1)
  }

  /** Reading back `width` padded digits gives the number. */
  lemma {:induction false} PaddedValue(n: nat, width: nat)
    requires n < Pow10(width)
    ensures DigitsValue(Padded(n, width)) == Some(n)
  {
    if width > 0 {
      var s := Padded(n, width);
      assert s[..|s| - 1] == Padded(n / 10, width - 1);
      PaddedValue(n / 10, width - 1);
      assert DigitValue(Digit(n % 10)) == Some(n % 10);
    }
  }

  /** Padding the value of a string of digits gives the string back. */
  lemma {:induction false} ValuePadded(s: string)
    requires DigitsValue(s).Some?
    ensures DigitsValue(s).value < Pow10(|s|)
    ensures Padded(DigitsValue(s).value, |s|) == s
  {
    if s != [] {
      var p := s[..|s| - 1];
      ValuePadded(p);
      var v, d := DigitsValue(p).value, DigitValue(s[|s| - 1]).value;
      assert (v * 10 + d) / 10 == v && (v * 10 + d) % 10 == d;
      assert Digit(d) == s[|s| - 1];
      assert s == p + [s[|s| - 1]];
    }
  }

  /** The first ten characters of `toISOString`: `YYYY-MM-DD`. */
  function ISODate(d: CalendarDate): (s: string)
    requires ValidDate(d) && 0 <= d.year <= 9999
    ensures |s| == 10 && s[4] == '-' && s[7] == '-'
  {
    Padded(d.year, 4) + "-" + Padded(d.month + 1, 2) + "-" + Padded(d.day, 2)
  }

  /** Reading a `YYYY-MM-DD` string; `None` unless it names a real calendar day. */
  function ParseISODate(s: string): Option<CalendarDate>
  {
    if |s| != 10 || s[4] != '-' || s[7] != '-' then None
    else
      var y, m, d := DigitsValue(s[..4]), DigitsValue(s[5..7]), DigitsValue(s[8..]);
      if y.None? || m.None? || d.None? then None
      else
        var date := CalendarDate(y.value, m.value - 1, d.value);
        if ValidDate(date) then Some(date) else None
  }

  /** Rendering a date and reading it back gives the date. */
  lemma ParseRendered(d: CalendarDate)
    requires ValidDate(d) && 0 <= d.year <= 9999
    ensures ParseISODate(ISODate(d)) == Some(d)
  {
    var s := ISODate(d);
    assert s[..4] == Padded(d.year, 4);
    assert s[5..7] == Padded(d.month + 1, 2);
    assert s[8..] == Padded(d.day, 2);
    PaddedValue(d.year, 4);
    PaddedValue(d.month + 1, 2);
    PaddedValue(d.day, 2);
  }

  /** A string that reads as a date is exactly that date's rendering. */
  lemma RenderedParse(s: string)
    requires ParseISODate(s).Some?
    ensures 0 <= ParseISODate(s).value.year <= 9999
    ensures ISODate(ParseISODate(s).value) == s
  {
    var d := ParseISODate(s).value;
    FieldsRender(s);
    assert d.year == DigitsValue(s[..4]).value && d.month + 1 == DigitsValue(s[5..7]).value;
    assert d.day == DigitsValue(s[8..]).value;
  }

  /** Three digit fields separated by dashes are the padded rendering of their values. */
  lemma FieldsRender(s: string)
    requires |s| == 10 && s[4] == '-' && s[7] == '-'
    requires DigitsValue(s[..4]).Some? && DigitsValue(s[5..7]).Some? && DigitsValue(s[8..]).Some?
    ensures DigitsValue(s[..4]).value < 10000
    ensures s == Padded(DigitsValue(s[..4]).value, 4) + "-" + Padded(DigitsValue(s[5..7]).value, 2) + "-" +
                 Padded(DigitsValue(s[8..]).value, 2)
  {
    ValuePadded(s[..4]);
    ValuePadded(s[5..7]);
    ValuePadded(s[8..]);
    assert s == s[..4] + "-" + s[5..7] + "-" + s[8..];
  }

  // ----- getMonthDateRange

  datatype DateRange = DateRange(start: string, end: string)

  /** Two days of the same month share their `YYYY-MM-` prefix. */
  lemma SameMonthPrefix(a: CalendarDate, b: CalendarDate)
    requires ValidDate(a) && ValidDate(b) && 0 <= a.year <= 9999
    requires a.year == b.year && a.month == b.month
    ensures ISODate(a)[..8] == ISODate(b)[..8]
  {
    assert ISODate(a)[..8] == Padded(a.year, 4) + "-" + Padded(a.month + 1, 2) + "-";
    assert ISODate(b)[..8] == Padded(b.year, 4) + "-" + Padded(b.month + 1, 2) + "-";
  }

  /**
   * The first and last day of the month of `date`, built with the `Date`
   * constructor, so a year from 0 to 99 becomes 1900 + year. The year is
   * limited to those that `toISOString` renders as four digits `YYYY`.
   */
  function MonthDateRange(date: CalendarDate): (r: DateRange)
    requires 0 <= date.month < 12 && 0 <= date.year <= 9999
    ensures ParseISODate(r.start) == Some(CalendarDate(FullYear(date.year), date.month, 1))
    ensures ParseISODate(r.end) ==
              Some(CalendarDate(FullYear(date.year), date.month, DaysInMonth(FullYear(date.year), date.month)))
    ensures r.start[..8] == r.end[..8]
  {
    var year := FullYear(date.year);
    var firstDay := NewDate(date.year, date.month, 1);
    var lastDay := NewDate(date.year, date.month + 1, 0);
    MakeValidDate(CalendarDate(year, date.month, 1));
    DayZeroIsLastDay(year, date.month);
    ParseRendered(firstDay);
    ParseRendered(lastDay);
    SameMonthPrefix(firstDay, lastDay);
    DateRange(ISODate(firstDay), ISODate(lastDay))
  }

  /** A date in the years 0 to 99 gets the range of the same month in 1900 to 1999. */
  lemma TwoDigitYears(date: CalendarDate)
    requires 0 <= date.month < 12 && 0 <= date.year <= 99
    ensures MonthDateRange(date) == MonthDateRange(date.(year := 1900 + date.year))
    ensures ParseISODate(MonthDateRange(date).start) == Some(CalendarDate(1900 + date.year, date.month, 1))
  {
    var later := date.(year := 1900 + date.year);
    var r, q := MonthDateRange(date), MonthDateRange(later);
    assert FullYear(later.year) == FullYear(date.year);
    RenderedParse(r.start);
    RenderedParse(q.start);
    RenderedParse(r.end);
    RenderedParse(q.end);
  }

  /** The range runs forward: the start comes strictly before the end in string order. */
  lemma RangeIsOrdered(date: CalendarDate)
    requires 0 <= date.month < 12 && 0 <= date.year <= 9999
    ensures var r := MonthDateRange(date);
            LessEq(r.start, r.end) && r.start != r.end
  {
    var year, r := FullYear(date.year), MonthDateRange(date);
    RenderedParse(r.start);
    RenderedParse(r.end);
    FirstBeforeLate(CalendarDate(year, date.month, 1), CalendarDate(year, date.month, DaysInMonth(year, date.month)));
  }

  /** The first of a month renders before any day of it from the 10th on. */
  lemma FirstBeforeLate(a: CalendarDate, b: CalendarDate)
    requires ValidDate(a) && ValidDate(b) && 0 <= a.year <= 9999
    requires a.year == b.year && a.month == b.month && a.day == 1 && b.day >= 10
    ensures LessEq(ISODate(a), ISODate(b)) && ISODate(a) != ISODate(b)
  {
    var s, t := ISODate(a), ISODate(b);
    SameMonthPrefix(a, b);
    assert s[8..] == Padded(1, 2) == "01";
    assert t[8..] == Padded(b.day, 2);
    assert t[8] == Digit(b.day / 10);
    assert LessEq(s[8..], t[8..]);
    assert s == s[..8] + s[8..] && t == t[..8] + t[8..];
    LessEqSamePrefix(s[..8], s[8..], t[8..]);
  }
}
