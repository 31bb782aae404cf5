/**
 * The calendar checks that Python's `date(year, month, day)` makes before
 * `generate_report` goes on, and the day numbers (proleptic Gregorian
 * ordinals, 0001-01-01 is day 1, as `date.toordinal`) that the model uses
 * for the `date` part of a timestamp and in the commission and promotion
 * keys.
 */
module Calendar {
  import opened Wrappers

  const MinYear := 1
  const MaxYear := 9999

  datatype Date = Date(year: int, month: int, day: int)

  /** The last date `date` can represent: adding a day to it overflows. */
  const MaxDate := Date(MaxYear, 12, 31)

  predicate IsLeapYear(y: int)
  {
    y % 4 == 0 && (y % 100 != 0 || y % 400 == 0)
  }

  function DaysInMonth(y: int, m: int): int
    requires 1 <= m <= 12
  {
    if m == 2 then (if IsLeapYear(y) then 29 else 28)
    else if m == 4 || m == 6 || m == 9 || m == 11 then 30
    else 31
  }

  function DaysInYear(y: int): int
  {
    if IsLeapYear(y) then 366 else 365
  }

  /** What `date(year, month, day)` accepts without raising ValueError. */
  predicate IsValid(d: Date)
  {
    MinYear <= d.year <= MaxYear && 1 <= d.month <= 12 && 1 <= d.day <= DaysInMonth(d.year, d.month)
  }

  /** The range of a C `int`, into which `date` converts each argument before checking it. */
  const CIntMin := -0x8000_0000
  const CIntMax := 0x7fff_ffff

  /** An argument `date` can convert: absent (rejected later) or an integer that fits a C `int`. */
  predicate FitsCInt(x: Option<int>)
  {
    x.Some? ==> CIntMin <= x.value <= CIntMax
  }

  /**
   * `date(year, month, day)`: a date for three integers naming a real day,
   * None where Python raises TypeError (an argument that is not an integer,
   * such as None or "") or ValueError (out of range). An integer outside
   * the C `int` range makes `date` raise OverflowError instead, which is
   * not one of these; `FitsCInt` states which arguments avoid it.
   */
  function MakeDate(year: Option<int>, month: Option<int>, day: Option<int>): (r: Option<Date>)
    ensures r.Some? ==> IsValid(r.value)
    ensures r.Some? <==> year.Some? && month.Some? && day.Some? && IsValid(Date(year.value, month.value, day.value))
    ensures r.Some? ==> r.value == Date(year.value, month.value, day.value)
  {
    if year.None? || month.None? || day.None? then None
    else
      var d := Date(year.value, month.value, day.value);
      if IsValid(d) then Some(d) else None
  }

  /** Days in the years before `y`, as Python's `_days_before_year`. */
  function DaysBeforeYear(y: int): int
    requires y >= 1
  {
    var p := y - 1;
    p * 365 + p / 4 - p / 100 + p / 400
  }

  /** Days in the months of year `y` before month `m`. */
  function DaysBeforeMonth(y: int, m: int): int
    requires 1 <= m <= 12
  {
    [0, 31, 59, 90, 120, 151, 181, 212, 243, 273, 304, 334][m - 1]
      + (if m > 2 && IsLeapYear(y) then 1 else 0)
  }

  /** `date.toordinal()`. */
  function ToOrdinal(d: Date): int
    requires IsValid(d)
  {
    DaysBeforeYear(d.year) + DaysBeforeMonth(d.year, d.month) + d.day
  }

  /** `d + timedelta(days=1)`, for every date but the last one. */
  function NextDay(d: Date): (r: Date)
    requires IsValid(d) && d != MaxDate
    ensures IsValid(r)
  {
    if d.day < DaysInMonth(d.year, d.month) then Date(d.year, d.month, d.day + 1)
    else if d.month < 12 then Date(d.year, d.month + 1, 1)
    else Date(d.year + 1, 1, 1)
  }

  lemma DivStep4(y: int)
    requires y >= 1
    ensures y / 4 - (y - 1) / 4 == if y % 4 == 0 then 1 else 0
  {
  }

  lemma DivStep100(y: int)
    requires y >= 1
    ensures y / 100 - (y - 1) / 100 == if y % 100 == 0 then 1 else 0
  {
  }

  lemma DivStep400(y: int)
    requires y >= 1
    ensures y / 400 - (y - 1) / 400 == if y % 400 == 0 then 1 else 0
  {
  }

  lemma Mod400Mod100(y: int)
    requires y % 400 == 0
    ensures y % 100 == 0
  {
    var k := y / 400;
    assert y == 400 * k;
    assert y == 100 * (4 * k);
  }

  lemma Mod100Mod4(y: int)
    requires y % 100 == 0
    ensures y % 4 == 0
  {
    var k := y / 100;
    assert y == 100 * k;
    assert y == 4 * (25 * k);
  }

  /** A year holds 366 days when it is a leap year and 365 otherwise. */
  lemma DaysBeforeNextYear(y: int)
    requires y >= 1
    ensures DaysBeforeYear(y + 1) == DaysBeforeYear(y) + DaysInYear(y)
  {
    var a, b, c := y / 4 - (y - 1) / 4, y / 100 - (y - 1) / 100, y / 400 - (y - 1) / 400;
    assert DaysBeforeYear(y + 1) - DaysBeforeYear(y) == 365 + a - b + c;
    DivStep4(y);
    DivStep100(y);
    DivStep400(y);
    if y % 400 == 0 {
      Mod400Mod100(y);
    }
    if y % 100 == 0 {
      Mod100Mod4(y);
    }
  }

  lemma DaysBeforeNextMonth(y: int, m: int)
    requires 1 <= m < 12
    ensures DaysBeforeMonth(y, m + 1) == DaysBeforeMonth(y, m) + DaysInMonth(y, m)
  {
  }

  /** The day after `d` has the next day number: `date + timedelta(days=1)` is ordinal + 1. */
  lemma NextDayOrdinal(d: Date)
    requires IsValid(d) && d != MaxDate
    ensures ToOrdinal(NextDay(d)) == ToOrdinal(d) + 1
  {
    if d.day == DaysInMonth(d.year, d.month) {
      if d.month < 12 {
        DaysBeforeNextMonth(d.year, d.month);
      } else {
        DaysBeforeNextYear(d.year);
      }
    }
  }

  /** The day numbers of a year's dates run from just after the previous years up to the next year's start. */
  lemma OrdinalWithinYear(d: Date)
    requires IsValid(d)
    ensures DaysBeforeYear(d.year) < ToOrdinal(d) <= DaysBeforeYear(d.year + 1)
  {
    DaysBeforeNextYear(d.year);
  }

  lemma {:induction false} DaysBeforeYearMonotone(y1: int, y2: int)
    requires 1 <= y1 <= y2
    ensures DaysBeforeYear(y1) <= DaysBeforeYear(y2)
    decreases y2 - y1
  {
    if y1 < y2 {
      DaysBeforeNextYear(y1);
      DaysBeforeYearMonotone(y1 + 1, y2);
    }
  }

  lemma {:induction false} DaysBeforeMonthMonotone(y: int, m1: int, m2: int)
    requires 1 <= m1 < m2 <= 12
    ensures DaysBeforeMonth(y, m1) + DaysInMonth(y, m1) <= DaysBeforeMonth(y, m2)
    decreases m2 - m1
  {
    DaysBeforeNextMonth(y, m1);
    if m1 + 1 < m2 {
      DaysBeforeMonthMonotone(y, m1 + 1, m2);
    }
  }

  /** Earlier dates have smaller day numbers. */
  lemma OrdinalOrdered(a: Date, b: Date)
    requires IsValid(a) && IsValid(b)
    requires a.year < b.year || (a.year == b.year && (a.month < b.month || (a.month == b.month && a.day < b.day)))
    ensures ToOrdinal(a) < ToOrdinal(b)
  {
    if a.year < b.year {
      OrdinalWithinYear(a);
      OrdinalWithinYear(b);
      DaysBeforeYearMonotone(a.year + 1, b.year);
    } else if a.month < b.month {
      DaysBeforeMonthMonotone(a.year, a.month, b.month);
    }
  }

  /** Distinct dates have distinct day numbers, so keying by day number loses nothing. */
  lemma OrdinalInjective(a: Date, b: Date)
    requires IsValid(a) && IsValid(b) && ToOrdinal(a) == ToOrdinal(b)
    ensures a == b
  {
    if a.year < b.year || (a.year == b.year && (a.month < b.month || (a.month == b.month && a.day < b.day))) {
      OrdinalOrdered(a, b);
    } else if b.year < a.year || (a.year == b.year && (b.month < a.month || (a.month == b.month && b.day < a.day))) {
      OrdinalOrdered(b, a);
    }
  }

  /** Day numbers agree with Python's: 0001-01-01 is day 1. */
  lemma FirstOrdinal()
    ensures ToOrdinal(Date(MinYear, 1, 1)) == 1
  {
  }

  /** The day number Python gives the date of the report fixture. */
  lemma FixtureOrdinal()
    ensures ToOrdinal(Date(2020, 1, 1)) == 737425
  {
    assert DaysBeforeYear(2020) == 737424;
  }

  /** The day number Python gives the last representable date. */
  lemma LastOrdinal()
    ensures ToOrdinal(MaxDate) == 3652059
  {
    assert DaysBeforeYear(MaxYear) == 3651694;
    assert !IsLeapYear(MaxYear);
  }

  /** Gregorian leap years and the rejected inputs of the tests. */
  lemma ValidityExamples()
    ensures MakeDate(Some(2020), Some(2), Some(29)).Some?
    ensures MakeDate(Some(2000), Some(2), Some(29)).Some?
    ensures MakeDate(Some(2019), Some(2), Some(29)).None?
    ensures MakeDate(Some(1900), Some(2), Some(29)).None?
    ensures MakeDate(Some(2020), Some(13), Some(1)).None?
    ensures MakeDate(Some(2020), Some(12), Some(40)).None?
    ensures MakeDate(Some(0), Some(1), Some(1)).None?
    ensures MakeDate(None, None, None).None?
  {
  }
}
