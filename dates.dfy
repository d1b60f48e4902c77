/**
 * Proleptic Gregorian calendar arithmetic, as Python's `datetime.date`
 * performs it: the ordinal day count (0001-01-01 is day 1), adding and
 * subtracting days (`date ± timedelta(days=n)`), `weekday()` with Monday = 0,
 * `strftime('%A').lower()` and the ISO 8601 week number of `isocalendar()`.
 */
module Dates {

  datatype Date = Date(year: int, month: int, day: int)

  predicate IsLeap(y: int)
  {
    y % 4 == 0 && (y % 100 != 0 || y % 400 == 0)
  }

  function DaysInMonth(y: int, m: int): (n: int)
    requires 1 <= m <= 12
    ensures 28 <= n <= 31
  {
    if m == 2 then (if IsLeap(y) then 29 else 28)
    else if m == 4 || m == 6 || m == 9 || m == 11 then 30
    else 31
  }

  function DaysInYear(y: int): int
  {
    if IsLeap(y) then 366 else 365
  }

  predicate Valid(d: Date)
  {
    1 <= d.month <= 12 && 1 <= d.day <= DaysInMonth(d.year, d.month)
  }

  /** A date that exists on the calendar. */
  type CalDate = d: Date | Valid(d) witness Date(2000, 1, 1)

  /** Days in the years before `y` (CPython's _days_before_year). */
  function DaysBeforeYear(y: int): int
  {
    var p := y - 1;
    365 * p + p / 4 - p / 100 + p / 400
  }

  /** Days in the months of year `y` before month `m` (CPython's _days_before_month). */
  function DaysBeforeMonth(y: int, m: int): int
    requires 1 <= m <= 12
  {
    var base :=
      if m == 1 then 0 else if m == 2 then 31 else if m == 3 then 59
      else if m == 4 then 90 else if m == 5 then 120 else if m == 6 then 151
      else if m == 7 then 181 else if m == 8 then 212 else if m == 9 then 243
      else if m == 10 then 273 else if m == 11 then 304 else 334;
    base + (if m > 2 && IsLeap(y) then 1 else 0)
  }

  /** `date.toordinal()`: 0001-01-01 is 1. */
  function Ordinal(d: CalDate): int
  {
    DaysBeforeYear(d.year) + DaysBeforeMonth(d.year, d.month) + d.day
  }

  /** `date.weekday()`: Monday is 0, Sunday is 6. */
  function Weekday(d: CalDate): (w: int)
    ensures 0 <= w < 7
  {
    (Ordinal(d) + 6) % 7
  }

  const WeekdayNames: seq<string> :=
    ["monday", "tuesday", "wednesday", "thursday", "friday", "saturday", "sunday"]

  /** `date.strftime('%A').lower()` in the C locale. */
  function WeekdayName(d: CalDate): string
  {
    WeekdayNames[Weekday(d)]
  }

  // ---------------------------------------------------------------------------
  // Moving by days

  function NextDay(d: CalDate): CalDate
  {
    if d.day < DaysInMonth(d.year, d.month) then Date(d.year, d.month, d.day + 1)
    else if d.month < 12 then Date(d.year, d.month + 1, 1)
    else Date(d.year + 1, 1, 1)
  }

  function PrevDay(d: CalDate): CalDate
  {
    if d.day > 1 then Date(d.year, d.month, d.day - 1)
    else if d.month > 1 then Date(d.year, d.month - 1, DaysInMonth(d.year, d.month - 1))
    else Date(d.year - 1, 12, 31)
  }

  /** `d + timedelta(days=n)`, for positive and negative `n`. */
  function AddDays(d: CalDate, n: int): CalDate
    decreases if n >= 0 then n else -n
  {
    if n == 0 then d
    else if n > 0 then AddDays(NextDay(d), n - 1)
    else AddDays(PrevDay(d), n + 1)
  }

  // ---------------------------------------------------------------------------
  // ISO 8601 week numbers (section 3.2.2 of ISO 8601-1:2019), as CPython
  // computes them

  /** The ordinal of the Monday that starts ISO week 1 of `y`. */
  function IsoWeek1Monday(y: int): int
  {
    Week1Monday(Ordinal(Date(y, 1, 1)))
  }

  /**
   * The Monday of the week holding the year's first Thursday, given the
   * ordinal of 1 January (CPython's _isoweek1monday).
   */
  function Week1Monday(first: int): int
  {
    var firstWeekday := (first + 6) % 7;
    var monday := first - firstWeekday;
    if firstWeekday > 3 then monday + 7 else monday
  }

  /** `date.isocalendar()[1]`. */
  function IsoWeek(d: CalDate): int
  {
    WeekNumber(Ordinal(d), IsoWeek1Monday(d.year - 1), IsoWeek1Monday(d.year), IsoWeek1Monday(d.year + 1))
  }

  /**
   * The week number of ordinal `today` given the week-1 Mondays of the
   * previous, current and next year: before the current year's week 1 it
   * belongs to the previous ISO year, and late December on or after the next
   * year's week-1 Monday is already week 1.
   */
  function WeekNumber(today: int, previous: int, current: int, next: int): int
  {
    var week := (today - current) / 7;
    if week < 0 then (today - previous) / 7 + 1
    else if week >= 52 && today >= next then 1
    else week + 1
  }

  // ---------------------------------------------------------------------------
  // Facts about the day count

  lemma DivStep4(p: int)
    ensures (p + 1) / 4 - p / 4 == if (p + 1) % 4 == 0 then 1 else 0
  {
  }

  lemma DivStep100(p: int)
    ensures (p + 1) / 100 - p / 100 == if (p + 1) % 100 == 0 then 1 else 0
  {
  }

  lemma DivStep400(p: int)
    ensures (p + 1) / 400 - p / 400 == if (p + 1) % 400 == 0 then 1 else 0
  {
  }

  lemma LeapDivisibility(y: int)
    ensures y % 400 == 0 ==> y % 100 == 0
    ensures y % 100 == 0 ==> y % 4 == 0
  {
    if y % 400 == 0 {
      var q := y / 400;
      assert y == 100 * (4 * q);
      assert y / 100 == 4 * q;
    }
    if y % 100 == 0 {
      var q := y / 100;
      assert y == 4 * (25 * q);
      assert y / 4 == 25 * q;
    }
  }

  /** Each year adds its own length to the count. */
  lemma DaysBeforeYearStep(y: int)
    ensures DaysBeforeYear(y + 1) == DaysBeforeYear(y) + DaysInYear(y)
  {
    DivStep4(y - 1);
    DivStep100(y - 1);
    DivStep400(y - 1);
    LeapDivisibility(y);
  }

  lemma DaysBeforeMonthStep(y: int, m: int)
    requires 1 <= m < 12
    ensures DaysBeforeMonth(y, m + 1) == DaysBeforeMonth(y, m) + DaysInMonth(y, m)
  {
  }

  lemma DaysBeforeDecember(y: int)
    ensures DaysBeforeMonth(y, 12) + 31 == DaysInYear(y)
  {
  }

  /** The next calendar day is the next ordinal. */
  lemma OrdinalNext(d: CalDate)
    ensures Ordinal(NextDay(d)) == Ordinal(d) + 1
  {
    if d.day == DaysInMonth(d.year, d.month) {
      if d.month < 12 {
        DaysBeforeMonthStep(d.year, d.month);
      } else {
        DaysBeforeYearStep(d.year);
        DaysBeforeDecember(d.year);
      }
    }
  }

  lemma OrdinalPrev(d: CalDate)
    ensures Ordinal(PrevDay(d)) == Ordinal(d) - 1
  {
    if d.day == 1 {
      if d.month > 1 {
        DaysBeforeMonthStep(d.year, d.month - 1);
      } else {
        DaysBeforeYearStep(d.year - 1);
        DaysBeforeDecember(d.year - 1);
      }
    }
  }

  /** Adding `n` days adds `n` to the ordinal. */
  lemma AddDaysOrdinal(d: CalDate, n: int)
    ensures Ordinal(AddDays(d, n)) == Ordinal(d) + n
  {
    if n >= 0 {
      ForwardOrdinal(d, n);
    } else {
      BackwardOrdinal(d, 0 - n);
    }
  }

  lemma {:induction false} ForwardOrdinal(d: CalDate, n: nat)
    ensures Ordinal(AddDays(d, n)) == Ordinal(d) + n
    decreases n
  {
    if n > 0 {
      var e := NextDay(d);
      assert AddDays(d, n) == AddDays(e, n - 1);
      ForwardOrdinal(e, n - 1);
      OrdinalNext(d);
    }
  }

  lemma {:induction false} BackwardOrdinal(d: CalDate, n: nat)
    ensures Ordinal(AddDays(d, 0 - n)) == Ordinal(d) - n
    decreases n
  {
    if n > 0 {
      var e := PrevDay(d);
      assert AddDays(d, 0 - n) == AddDays(e, 1 - n);
      BackwardOrdinal(e, n - 1);
      OrdinalPrev(d);
    }
  }

  /** Moving `n` days moves the weekday by `n` modulo 7. */
  lemma AddDaysWeekday(d: CalDate, n: int)
    ensures Weekday(AddDays(d, n)) == (Weekday(d) + n) % 7
  {
    AddDaysOrdinal(d, n);
    ModShift(Ordinal(d) + 6, n);
  }

  lemma ModShift(o: int, n: int)
    ensures (o + n) % 7 == (o % 7 + n) % 7
  {
    var q := o / 7;
    assert o == 7 * q + o % 7;
    assert o + n == 7 * q + (o % 7 + n);
  }

  /** Calendar order: earlier year, then earlier month, then earlier day. */
  predicate Before(a: Date, b: Date)
  {
    a.year < b.year
    || (a.year == b.year && a.month < b.month)
    || (a.year == b.year && a.month == b.month && a.day < b.day)
  }

  lemma {:induction false} DaysBeforeYearMonotone(a: int, b: int)
    requires a <= b
    ensures DaysBeforeYear(a) + DaysInYear(a) * (if a < b then 1 else 0) <= DaysBeforeYear(b)
    decreases b - a
  {
    if a < b {
      DaysBeforeYearStep(a);
      if a + 1 < b {
        DaysBeforeYearMonotone(a + 1, b);
      }
    }
  }

  lemma {:induction false} DaysBeforeMonthMonotone(y: int, a: int, b: int)
    requires 1 <= a < b <= 12
    ensures DaysBeforeMonth(y, a) + DaysInMonth(y, a) <= DaysBeforeMonth(y, b)
  {
  }

  /** The ordinal count follows calendar order, so it is one-to-one. */
  lemma OrdinalMonotone(a: CalDate, b: CalDate)
    requires Before(a, b)
    ensures Ordinal(a) < Ordinal(b)
  {
    if a.year < b.year {
      DaysBeforeYearMonotone(a.year, b.year);
      DaysBeforeDecember(a.year);
      assert DaysBeforeMonth(a.year, a.month) + a.day <= DaysBeforeMonth(a.year, 12) + 31;
    } else if a.month < b.month {
      DaysBeforeMonthMonotone(a.year, a.month, b.month);
    }
  }

  lemma OrdinalInjective(a: CalDate, b: CalDate)
    requires Ordinal(a) == Ordinal(b)
    ensures a == b
  {
    if Before(a, b) { OrdinalMonotone(a, b); }
    else if Before(b, a) { OrdinalMonotone(b, a); }
  }

  /** Going forward `n` days and back `m` is going `n - m`. */
  lemma AddDaysCompose(d: CalDate, n: int, m: int)
    ensures AddDays(AddDays(d, n), m) == AddDays(d, n + m)
  {
    AddDaysOrdinal(d, n);
    AddDaysOrdinal(AddDays(d, n), m);
    AddDaysOrdinal(d, n + m);
    OrdinalInjective(AddDays(AddDays(d, n), m), AddDays(d, n + m));
  }

  // ---------------------------------------------------------------------------
  // ISO week facts

  lemma Week1MondayFacts(first: int)
    ensures Week1Monday(first) % 7 == 1
    ensures first - 3 <= Week1Monday(first) <= first + 3
  {
    var w := (first + 6) % 7;
    assert first + 6 == 7 * ((first + 6) / 7) + w;
  }

  lemma IsoWeek1MondayFacts(y: int)
    ensures IsoWeek1Monday(y) % 7 == 1
    ensures Ordinal(Date(y, 1, 1)) - 3 <= IsoWeek1Monday(y) <= Ordinal(Date(y, 1, 1)) + 3
  {
    Week1MondayFacts(Ordinal(Date(y, 1, 1)));
  }

  /** Consecutive ISO years are 52 or 53 weeks long. */
  lemma IsoYearLength(y: int)
    ensures IsoWeek1Monday(y + 1) - IsoWeek1Monday(y) == 364
         || IsoWeek1Monday(y + 1) - IsoWeek1Monday(y) == 371
  {
    IsoWeek1MondayFacts(y);
    IsoWeek1MondayFacts(y + 1);
    DaysBeforeYearStep(y);
    assert Ordinal(Date(y + 1, 1, 1)) - Ordinal(Date(y, 1, 1)) == DaysInYear(y);
    SevenApart(IsoWeek1Monday(y), IsoWeek1Monday(y + 1));
  }

  lemma SevenApart(a: int, b: int)
    requires a % 7 == 1 && b % 7 == 1 && 359 <= b - a <= 372
    ensures b - a == 364 || b - a == 371
  {
    assert a == 7 * (a / 7) + 1 && b == 7 * (b / 7) + 1;
    var k := b / 7 - a / 7;
    assert b - a == 7 * k;
  }

  /** ISO week numbers run from 1 to 53. */
  lemma IsoWeekRange(d: CalDate)
    ensures 1 <= IsoWeek(d) <= 53
  {
    var w := WeekNumber(Ordinal(d), IsoWeek1Monday(d.year - 1), IsoWeek1Monday(d.year), IsoWeek1Monday(d.year + 1));
    assert IsoWeek(d) == w;
    IsoWeekInputs(d);
    WeekNumberRange(Ordinal(d), IsoWeek1Monday(d.year - 1), IsoWeek1Monday(d.year), IsoWeek1Monday(d.year + 1));
    assert 1 <= w <= 53;
  }

  /** A date lies at most three days before its year's week-1 Monday, and ISO years are 52 or 53 weeks. */
  lemma IsoWeekInputs(d: CalDate)
    ensures var y := d.year;
      && (IsoWeek1Monday(y) - IsoWeek1Monday(y - 1) == 364 || IsoWeek1Monday(y) - IsoWeek1Monday(y - 1) == 371)
      && (IsoWeek1Monday(y + 1) - IsoWeek1Monday(y) == 364 || IsoWeek1Monday(y + 1) - IsoWeek1Monday(y) == 371)
      && Ordinal(d) >= IsoWeek1Monday(y) - 3
  {
    var y := d.year;
    IsoWeek1MondayFacts(y);
    IsoYearLength(y);
    IsoYearLength(y - 1);
    assert y - 1 + 1 == y;
    assert Ordinal(d) >= Ordinal(Date(y, 1, 1));
  }

  lemma WeekNumberRange(today: int, previous: int, current: int, next: int)
    requires current - previous == 364 || current - previous == 371
    requires next - current == 364 || next - current == 371
    requires today >= current - 3
    ensures 1 <= WeekNumber(today, previous, current, next) <= 53
  {
  }
}
