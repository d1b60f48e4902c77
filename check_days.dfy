/**
 * The smart scheduler's check-day rule: a property is checked on the day
 * after its rent fell due. Here the due day is the text a property record of
 * the SQLite schema holds (a lower-case weekday name, or digits for a
 * monthly day); an integer due day only reaches the monthly branch.
 */
module CheckDays {
  import opened Common
  import opened Dates
  import opened Domain

  /**
   * The day of month a monthly property falls due on: the digits of the due
   * day when it is all ASCII digits, otherwise the first. An integer due day
   * has no `isdigit`; the exception this raises is caught and also selects
   * the first.
   */
  function MonthlyDueDay(dueDay: DueDay): (n: nat)
  {
    if dueDay.DayName? && AllDigits(dueDay.name) then ParseNat(dueDay.name).value else 1
  }

  /** `_should_check_property_today`, for the day rent was due (yesterday). */
  predicate ShouldCheck(p: Property, yesterday: CalDate)
  {
    if p.frequency == "weekly" then
      p.dueDay == DayName(WeekdayName(yesterday))
    else if p.frequency == "fortnightly" then
      p.dueDay == DayName(WeekdayName(yesterday)) && IsoWeek(yesterday) % 2 == 0
    else if p.frequency == "monthly" then
      yesterday.day == MonthlyDueDay(p.dueDay)
    else
      false
  }

  /** The weekday names are pairwise distinct. */
  lemma WeekdayNamesDistinct(i: int, j: int)
    requires 0 <= i < 7 && 0 <= j < 7 && WeekdayNames[i] == WeekdayNames[j]
    ensures i == j
  {
  }

  /** Two days share their name exactly when they share their weekday. */
  lemma SameName(a: CalDate, b: CalDate)
    ensures WeekdayName(a) == WeekdayName(b) <==> Weekday(a) == Weekday(b)
  {
    if WeekdayName(a) == WeekdayName(b) {
      WeekdayNamesDistinct(Weekday(a), Weekday(b));
    }
  }

  /**
   * A weekly property whose due day is a weekday name fires on exactly one
   * day of any seven consecutive days: the day with that name.
   */
  lemma WeeklyOncePerWeek(p: Property, start: CalDate)
    requires p.frequency == "weekly" && p.dueDay.DayName? && p.dueDay.name in WeekdayNames
    ensures exists k :: 0 <= k < 7 && ShouldCheck(p, AddDays(start, k))
    ensures forall k1, k2 ::
      (0 <= k1 < 7 && 0 <= k2 < 7 && ShouldCheck(p, AddDays(start, k1)) && ShouldCheck(p, AddDays(start, k2)))
      ==> k1 == k2
  {
    WeeklyFires(p, start);
    forall k1, k2 | 0 <= k1 < 7 && 0 <= k2 < 7
      && ShouldCheck(p, AddDays(start, k1)) && ShouldCheck(p, AddDays(start, k2))
      ensures k1 == k2
    {
      WeeklySameDay(p, start, k1, k2);
    }
  }

  lemma WeeklyFires(p: Property, start: CalDate)
    requires p.frequency == "weekly" && p.dueDay.DayName? && p.dueDay.name in WeekdayNames
    ensures exists k :: 0 <= k < 7 && ShouldCheck(p, AddDays(start, k))
  {
    var w :| 0 <= w < 7 && WeekdayNames[w] == p.dueDay.name;
    var k := (w - Weekday(start)) % 7;
    WeekdayReached(start, w);
    assert WeekdayName(AddDays(start, k)) == p.dueDay.name;
    assert ShouldCheck(p, AddDays(start, k));
  }

  lemma WeeklySameDay(p: Property, start: CalDate, k1: int, k2: int)
    requires p.frequency == "weekly"
    requires 0 <= k1 < 7 && 0 <= k2 < 7
    requires ShouldCheck(p, AddDays(start, k1)) && ShouldCheck(p, AddDays(start, k2))
    ensures k1 == k2
  {
    SameName(AddDays(start, k1), AddDays(start, k2));
    AddDaysWeekday(start, k1);
    AddDaysWeekday(start, k2);
    OneWeekApart(Weekday(start), k1, k2);
  }

  lemma WeekdayReached(start: CalDate, w: int)
    requires 0 <= w < 7
    ensures Weekday(AddDays(start, (w - Weekday(start)) % 7)) == w
  {
    AddDaysWeekday(start, (w - Weekday(start)) % 7);
    ModBack(Weekday(start), w);
  }

  /** Adding the forward distance from weekday `a` to weekday `w` lands on `w`. */
  lemma ModBack(a: int, w: int)
    requires 0 <= a < 7 && 0 <= w < 7
    ensures (a + (w - a) % 7) % 7 == w
  {
  }

  lemma OneWeekApart(w: int, k1: int, k2: int)
    requires 0 <= k1 < 7 && 0 <= k2 < 7 && (w + k1) % 7 == (w + k2) % 7
    ensures k1 == k2
  {
  }

  /** A weekly or fortnightly due day that names no weekday never fires. */
  lemma UnknownWeekdayNeverFires(p: Property, yesterday: CalDate)
    requires p.frequency == "weekly" || p.frequency == "fortnightly"
    requires !(p.dueDay.DayName? && p.dueDay.name in WeekdayNames)
    ensures !ShouldCheck(p, yesterday)
  {
    assert WeekdayName(yesterday) in WeekdayNames;
  }

  /**
   * The fortnightly days are the weekly days that fall in an even ISO week,
   * so a fortnightly property is never checked on a day its weekly
   * counterpart is not.
   */
  lemma FortnightlyWithinWeekly(p: Property, yesterday: CalDate)
    requires p.frequency == "fortnightly"
    ensures ShouldCheck(p, yesterday)
        <==> ShouldCheck(p.(frequency := "weekly"), yesterday) && IsoWeek(yesterday) % 2 == 0
  {
  }

  /**
   * A monthly property fires on the day of month its digits give, or on the
   * first when the due day is not all digits; never on any other day.
   */
  lemma MonthlyDays(p: Property, yesterday: CalDate)
    requires p.frequency == "monthly"
    ensures p.dueDay.DayName? && AllDigits(p.dueDay.name) ==>
      (ShouldCheck(p, yesterday) <==> ParseNat(p.dueDay.name) == Some(yesterday.day))
    ensures !(p.dueDay.DayName? && AllDigits(p.dueDay.name)) ==>
      (ShouldCheck(p, yesterday) <==> yesterday.day == 1)
  {
  }

  /** A monthly day beyond the end of the month never fires in that month: "31" in a 30-day month. */
  lemma MonthlyBeyondMonthEnd(p: Property, yesterday: CalDate)
    requires p.frequency == "monthly"
    requires MonthlyDueDay(p.dueDay) > DaysInMonth(yesterday.year, yesterday.month)
    ensures !ShouldCheck(p, yesterday)
  {
  }

  lemma ThirtyFirstInThirtyDayMonth(p: Property, yesterday: CalDate)
    requires p.frequency == "monthly" && p.dueDay == DayName("31")
    requires DaysInMonth(yesterday.year, yesterday.month) == 30
    ensures !ShouldCheck(p, yesterday)
  {
    assert ParseNat("31") == Some(31) by {
      ParseNatToString(31);
      assert NatToString(31) == "31";
    }
    MonthlyBeyondMonthEnd(p, yesterday);
  }

  /** Only the three known frequencies are ever checked. */
  lemma UnknownFrequencyNeverFires(p: Property, yesterday: CalDate)
    requires p.frequency != "weekly" && p.frequency != "fortnightly" && p.frequency != "monthly"
    ensures !ShouldCheck(p, yesterday)
  {
  }

  /**
   * ISO week parity is not a fortnight: 2020 has 53 ISO weeks, so a Friday
   * fortnightly property checked for 25 December 2020 (week 52) is next
   * checked for 15 January 2021 (week 2), three weeks later; the Fridays of
   * weeks 53 and 1 between them are skipped.
   */
  lemma FortnightlyGapAtYearEnd(p: Property)
    requires p.frequency == "fortnightly" && p.dueDay == DayName("friday")
    ensures ShouldCheck(p, Date(2020, 12, 25))
    ensures !ShouldCheck(p, Date(2021, 1, 1))
    ensures !ShouldCheck(p, Date(2021, 1, 8))
    ensures ShouldCheck(p, Date(2021, 1, 15))
    ensures Ordinal(Date(2021, 1, 15)) - Ordinal(Date(2020, 12, 25)) == 21
  {
    IsoWeek1Mondays();
    assert Ordinal(Date(2020, 12, 25)) == 737784;
    assert Ordinal(Date(2021, 1, 1)) == 737791;
    assert Ordinal(Date(2021, 1, 8)) == 737798;
    assert Ordinal(Date(2021, 1, 15)) == 737805;
    assert IsoWeek(Date(2020, 12, 25)) == 52;
    assert IsoWeek(Date(2021, 1, 1)) == 53;
    assert IsoWeek(Date(2021, 1, 8)) == 1;
    assert IsoWeek(Date(2021, 1, 15)) == 2;
  }

  /** The first Mondays of ISO weeks 1 of 2020, 2021 and 2022. */
  lemma IsoWeek1Mondays()
    ensures DaysBeforeYear(2020) == 737424 && DaysBeforeYear(2021) == 737790 && DaysBeforeYear(2022) == 738155
    ensures IsoWeek1Monday(2020) == 737423
    ensures IsoWeek1Monday(2021) == 737794
    ensures IsoWeek1Monday(2022) == 738158
  {
    assert Ordinal(Date(2020, 1, 1)) == 737425;
    assert Ordinal(Date(2021, 1, 1)) == 737791;
    assert Ordinal(Date(2022, 1, 1)) == 738156;
  }
}
