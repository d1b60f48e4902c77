/**
 * The rent checker: from a property's frequency and due day it works out the
 * date rent was last due, looks for bank transactions within a day of that
 * date whose amount is within a tolerance of the rent, and marks those it
 * finds as matched.
 */
module RentChecking {
  import opened Common
  import opened Dates
  import opened Domain
  import Sorting

  /**
   * The tolerance as the decimal `units / 10^scale` that `Decimal(str(f))`
   * makes of the float fraction `f`; the default 0.1 is Tolerance(1, 1).
   */
  datatype Tolerance = Tolerance(units: int, scale: nat)

  const DefaultTolerance := Tolerance(1, 1)

  function Min(a: int, b: int): int
  {
    if a <= b then a else b
  }

  /** The day `j` days before `ref`. */
  function DaysBack(ref: CalDate, j: int): CalDate
  {
    AddDays(ref, -j)
  }

  /**
   * The latest day, `ref` included and at most `period - 1` days back, whose
   * weekday is `(dueDay - 1) % 7`: how weekly and fortnightly rent dates are
   * found.
   */
  function MostRecent(ref: CalDate, dueDay: int, period: int): CalDate
    requires period > 0
  {
    DaysBack(ref, (Weekday(ref) - (dueDay - 1)) % period)
  }

  /** The day `min(dueDay, 28)` of the month rent last fell due in. */
  function MonthlyDate(ref: CalDate, dueDay: int): CalDate
    requires dueDay >= 1
  {
    var day := Min(dueDay, 28);
    if ref.day >= dueDay then Date(ref.year, ref.month, day)
    else if ref.month == 1 then Date(ref.year - 1, 12, day)
    else Date(ref.year, ref.month - 1, day)
  }

  /**
   * `calculate_expected_rent_date`. None where Python raises: a monthly or
   * weekly due day held as a weekday name cannot take part in `min` or `-`,
   * and a monthly due day below 1 is not a day of any month.
   */
  function ExpectedRentDate(p: Property, ref: CalDate): (r: Option<CalDate>)
    ensures r.None? <==>
      (p.frequency == "monthly" && (p.dueDay.DayName? || p.dueDay.n < 1))
      || ((p.frequency == "weekly" || p.frequency == "fortnightly") && p.dueDay.DayName?)
    ensures r.Some? && p.frequency != "monthly" && p.frequency != "weekly" && p.frequency != "fortnightly"
      ==> r.value == ref
  {
    if p.frequency == "monthly" then
      match p.dueDay
      case DayName(_) => None
      case DayNumber(n) => if n < 1 then None else Some(MonthlyDate(ref, n))
    else if p.frequency == "weekly" then
      match p.dueDay
      case DayName(_) => None
      case DayNumber(n) => Some(MostRecent(ref, n, 7))
    else if p.frequency == "fortnightly" then
      match p.dueDay
      case DayName(_) => None
      case DayNumber(n) => Some(MostRecent(ref, n, 14))
    else Some(ref)
  }

  /**
   * Weekly rent was last due on the most recent day, `ref` included, whose
   * weekday is `due_day - 1` (Monday is 0): no later day up to `ref` has it.
   */
  lemma ExpectedWeekly(p: Property, ref: CalDate)
    requires p.frequency == "weekly" && p.dueDay.DayNumber?
    ensures ExpectedRentDate(p, ref).Some?
    ensures var e := ExpectedRentDate(p, ref).value;
      && 0 <= Ordinal(ref) - Ordinal(e) <= 6
      && Weekday(e) == (p.dueDay.n - 1) % 7
      && forall j :: 0 <= j < Ordinal(ref) - Ordinal(e) ==>
           Weekday(DaysBack(ref, j)) != (p.dueDay.n - 1) % 7
  {
    MostRecentWeekly(ref, p.dueDay.n);
  }

  lemma MostRecentWeekly(ref: CalDate, dueDay: int)
    ensures var e := MostRecent(ref, dueDay, 7);
      && 0 <= Ordinal(ref) - Ordinal(e) <= 6
      && Weekday(e) == (dueDay - 1) % 7
      && forall j :: 0 <= j < Ordinal(ref) - Ordinal(e) ==>
           Weekday(DaysBack(ref, j)) != (dueDay - 1) % 7
  {
    var w := Weekday(ref);
    var target := dueDay - 1;
    var k := (w - target) % 7;
    var e := MostRecent(ref, dueDay, 7);
    assert e == AddDays(ref, -k);
    assert Ordinal(e) == Ordinal(ref) - k by {
      AddDaysOrdinal(ref, -k);
    }
    assert Weekday(e) == target % 7 by {
      AddDaysWeekday(ref, -k);
      BackToWeekday(w, target, k, 7);
    }
    forall j | 0 <= j < k
      ensures Weekday(DaysBack(ref, j)) != target % 7
    {
      AddDaysWeekday(ref, -j);
      EarlierNotWeekday(w, target, k, j);
    }
  }

  /**
   * Fortnightly rent falls on the same weekday as weekly rent, 0 to 13 days
   * back: the weekly date itself or the week before it.
   */
  lemma ExpectedFortnightly(p: Property, ref: CalDate)
    requires p.frequency == "fortnightly" && p.dueDay.DayNumber?
    ensures ExpectedRentDate(p, ref).Some?
    ensures var e := ExpectedRentDate(p, ref).value;
      var weekly := ExpectedRentDate(p.(frequency := "weekly"), ref).value;
      && 0 <= Ordinal(ref) - Ordinal(e) <= 13
      && Weekday(e) == (p.dueDay.n - 1) % 7
      && (e == weekly || e == AddDays(weekly, -7))
  {
    MostRecentFortnightly(ref, p.dueDay.n);
  }

  lemma MostRecentFortnightly(ref: CalDate, dueDay: int)
    ensures var e := MostRecent(ref, dueDay, 14);
      var weekly := MostRecent(ref, dueDay, 7);
      && 0 <= Ordinal(ref) - Ordinal(e) <= 13
      && Weekday(e) == (dueDay - 1) % 7
      && (e == weekly || e == AddDays(weekly, -7))
  {
    var w := Weekday(ref);
    var target := dueDay - 1;
    var k := (w - target) % 14;
    var e := MostRecent(ref, dueDay, 14);
    assert e == AddDays(ref, -k);
    assert Ordinal(e) == Ordinal(ref) - k by {
      AddDaysOrdinal(ref, -k);
    }
    assert Weekday(e) == target % 7 by {
      AddDaysWeekday(ref, -k);
      BackToWeekday(w, target, k, 14);
    }
    FortnightOrWeek(ref, w - target);
  }

  lemma FortnightOrWeek(ref: CalDate, x: int)
    ensures DaysBack(ref, x % 14) == DaysBack(ref, x % 7)
         || DaysBack(ref, x % 14) == AddDays(DaysBack(ref, x % 7), -7)
  {
    FortnightSplit(x);
    if x % 14 != x % 7 {
      AddDaysCompose(ref, -(x % 7), -7);
      assert -(x % 7) + -7 == -(x % 14);
    }
  }

  lemma BackToWeekday(w: int, target: int, k: int, period: int)
    requires period == 7 || period == 14
    requires k == (w - target) % period
    ensures (w + -k) % 7 == target % 7
  {
    var q := (w - target) / period;
    assert w - target == period * q + k;
    var c := if period == 7 then q else 2 * q;
    assert w - k == target + 7 * c;
    ModSeven(target, c);
  }

  lemma ModSeven(x: int, c: int)
    ensures (x + 7 * c) % 7 == x % 7
  {
    var b := x / 7;
    assert x == 7 * b + x % 7;
    assert x + 7 * c == 7 * (b + c) + x % 7;
  }

  lemma EarlierNotWeekday(w: int, target: int, k: int, j: int)
    requires k == (w - target) % 7 && 0 <= j < k
    ensures (w + -j) % 7 != target % 7
  {
    var q := (w - target) / 7;
    var b := target / 7;
    var t7 := target % 7;
    assert w - target == 7 * q + k;
    assert target == 7 * b + t7;
    assert w - j == 7 * (b + q) + (t7 + k - j);
    if t7 + k - j < 7 {
      assert (w - j) % 7 == t7 + k - j;
    } else {
      assert w - j == 7 * (b + q + 1) + (t7 + k - j - 7);
      assert (w - j) % 7 == t7 + k - j - 7;
    }
  }

  lemma FortnightSplit(x: int)
    ensures x % 14 == x % 7 || x % 14 == x % 7 + 7
  {
    var q := x / 14;
    assert x == 14 * q + x % 14;
    if x % 14 < 7 {
      assert x == 7 * (2 * q) + x % 14;
    } else {
      assert x == 7 * (2 * q + 1) + (x % 14 - 7);
    }
  }

  /**
   * Monthly rent falls on day `min(due_day, 28)`: of the reference month
   * when that month's due day has been reached, otherwise of the month
   * before (December of the year before for January); never after `ref`.
   */
  lemma ExpectedMonthly(p: Property, ref: CalDate)
    requires p.frequency == "monthly" && p.dueDay.DayNumber? && p.dueDay.n >= 1
    ensures ExpectedRentDate(p, ref).Some?
    ensures var e := ExpectedRentDate(p, ref).value;
      && e.day == Min(p.dueDay.n, 28)
      && (ref.day >= p.dueDay.n ==> e.year == ref.year && e.month == ref.month)
      && (ref.day < p.dueDay.n && ref.month > 1 ==> e.year == ref.year && e.month == ref.month - 1)
      && (ref.day < p.dueDay.n && ref.month == 1 ==> e.year == ref.year - 1 && e.month == 12)
      && Ordinal(e) <= Ordinal(ref)
  {
    var e := MonthlyDate(ref, p.dueDay.n);
    if e != ref {
      OrdinalMonotone(e, ref);
    }
  }

  /**
   * `is_rent_payment`: |actual - expected| <= expected * tolerance, in exact
   * decimal arithmetic on cents.
   */
  predicate IsRentPayment(actualCents: int, expectedCents: int, tol: Tolerance)
  {
    Abs(actualCents - expectedCents) * Pow10(tol.scale) <= expectedCents * tol.units
  }

  /**
   * The accepted amounts form the closed band around the rent, its two ends
   * included; with the default tolerance, 90% to 110% of the rent.
   */
  lemma IsRentPaymentBand(actualCents: int, expectedCents: int, tol: Tolerance)
    ensures IsRentPayment(actualCents, expectedCents, tol) <==>
      && actualCents * Pow10(tol.scale) >= expectedCents * (Pow10(tol.scale) - tol.units)
      && actualCents * Pow10(tol.scale) <= expectedCents * (Pow10(tol.scale) + tol.units)
    ensures tol == DefaultTolerance ==>
      (IsRentPayment(actualCents, expectedCents, tol) <==>
        9 * expectedCents <= 10 * actualCents <= 11 * expectedCents)
  {
    BandArith(actualCents, expectedCents, Pow10(tol.scale), tol.units);
    if tol == DefaultTolerance {
      assert Pow10(1) == 10;
      BandArith(actualCents, expectedCents, 10, 1);
    }
  }

  lemma BandArith(a: int, e: int, s: int, u: int)
    requires s > 0
    ensures Abs(a - e) * s <= e * u <==> a * s >= e * (s - u) && a * s <= e * (s + u)
  {
    var x, y, w := a * s, e * s, e * u;
    assert e * (s - u) == y - w;
    assert e * (s + u) == y + w;
    if a >= e {
      assert Abs(a - e) * s == (a - e) * s == x - y;
    } else {
      assert Abs(a - e) * s == (e - a) * s == y - x;
    }
  }

  /** The matching transactions of `ts`, in order. */
  function Matching(ts: seq<Transaction>, rentCents: int, tol: Tolerance): (r: seq<Transaction>)
    ensures forall t :: t in r <==> t in ts && IsRentPayment(t.amountCents, rentCents, tol)
  {
    if ts == [] then []
    else
      var last := ts[|ts| - 1];
      assert ts == ts[..|ts| - 1] + [last];
      Matching(ts[..|ts| - 1], rentCents, tol)
      + (if IsRentPayment(last.amountCents, rentCents, tol) then [last] else [])
  }

  lemma MatchingStep(ts: seq<Transaction>, i: nat, rentCents: int, tol: Tolerance)
    requires i < |ts|
    ensures Matching(ts[..i + 1], rentCents, tol)
         == Matching(ts[..i], rentCents, tol)
            + (if IsRentPayment(ts[i].amountCents, rentCents, tol) then [ts[i]] else [])
  {
    assert ts[..i + 1][..i] == ts[..i];
  }

  lemma {:induction false} MatchingMap(ts: seq<Transaction>, rentCents: int, tol: Tolerance)
    ensures Sorting.Map(SetMatched, Matching(ts, rentCents, tol))
         == Matching(Sorting.Map(SetMatched, ts), rentCents, tol)
  {
    if ts != [] {
      var n := |ts| - 1;
      var m := Sorting.Map(SetMatched, ts);
      MatchingMap(ts[..n], rentCents, tol);
      assert m[..n] == Sorting.Map(SetMatched, ts[..n]);
      var keep := IsRentPayment(ts[n].amountCents, rentCents, tol);
      var tail := if keep then [ts[n]] else [];
      assert Matching(m, rentCents, tol)
          == Matching(m[..n], rentCents, tol) + (if keep then [m[n]] else []);
      MapConcat(Matching(ts[..n], rentCents, tol), tail);
      assert Sorting.Map(SetMatched, tail) == if keep then [m[n]] else [];
    }
  }

  /** Keeping some transactions of a list in date order leaves them in date order. */
  lemma {:induction false} MatchingSorted(ts: seq<Transaction>, rentCents: int, tol: Tolerance)
    requires Sorting.SortedBy(ts, DateDescending)
    ensures Sorting.SortedBy(Matching(ts, rentCents, tol), DateDescending)
    decreases |ts|
  {
    if ts != [] {
      var n := |ts| - 1;
      var m := Matching(ts[..n], rentCents, tol);
      assert Sorting.SortedBy(ts[..n], DateDescending);
      MatchingSorted(ts[..n], rentCents, tol);
      forall x | x in m ensures DateDescending(x) <= DateDescending(ts[n]) {
        var i :| 0 <= i < n && ts[..n][i] == x;
        assert ts[i] == x;
      }
      var r := m + (if IsRentPayment(ts[n].amountCents, rentCents, tol) then [ts[n]] else []);
      forall i, j | 0 <= i < j < |r| ensures DateDescending(r[i]) <= DateDescending(r[j]) {
        if j >= |m| {
          assert r[i] in m;
        }
      }
    }
  }

  /** The ids of a list of transactions. */
  function Ids(ts: seq<Transaction>): set<nat>
  {
    set t | t in ts :: t.id
  }

  lemma IdsAppend(a: seq<Transaction>, t: Transaction)
    ensures Ids(a + [t]) == Ids(a) + {t.id}
  {
    forall x ensures x in Ids(a + [t]) <==> x in Ids(a) + {t.id} {
      if x in Ids(a + [t]) {
        var u :| u in a + [t] && u.id == x;
      }
      if x in Ids(a) {
        var u :| u in a && u.id == x;
        assert u in a + [t];
      }
      if x == t.id {
        assert t in a + [t];
      }
    }
  }

  /** One step of the marking loop, on the table and on the returned list. */
  lemma MarkStep(rows: seq<Transaction>, before: seq<Transaction>, t: Transaction)
    ensures MarkIds(MarkIds(rows, Ids(before)), {t.id}) == MarkIds(rows, Ids(before + [t]))
    ensures Sorting.Map(SetMatched, before + [t]) == Sorting.Map(SetMatched, before) + [SetMatched(t)]
  {
    MarkIdsUnion(rows, Ids(before), {t.id});
    IdsAppend(before, t);
    MapConcat(before, [t]);
    assert Sorting.Map(SetMatched, [t]) == [SetMatched(t)];
  }

  /** Lists that agree once marked hold the same ids. */
  lemma IdsOfMarked(a: seq<Transaction>, b: seq<Transaction>)
    requires Sorting.Map(SetMatched, a) == Sorting.Map(SetMatched, b)
    ensures Ids(a) == Ids(b)
  {
    forall x | x in Ids(a) ensures x in Ids(b) {
      var t :| t in a && t.id == x;
      var i :| 0 <= i < |a| && a[i] == t;
      assert Sorting.Map(SetMatched, b)[i] == SetMatched(t);
      assert b[i] in b;
    }
    forall x | x in Ids(b) ensures x in Ids(a) {
      var t :| t in b && t.id == x;
      var i :| 0 <= i < |b| && b[i] == t;
      assert Sorting.Map(SetMatched, a)[i] == SetMatched(t);
      assert a[i] in a;
    }
  }

  lemma MapMembership(m: seq<Transaction>)
    ensures forall t :: t in Sorting.Map(SetMatched, m) <==> exists u :: u in m && t == SetMatched(u)
  {
    var r := Sorting.Map(SetMatched, m);
    forall t ensures t in r <==> exists u :: u in m && t == SetMatched(u) {
      if t in r {
        var i :| 0 <= i < |r| && r[i] == t;
        assert m[i] in m;
      }
      if exists u :: u in m && t == SetMatched(u) {
        var u :| u in m && t == SetMatched(u);
        var i :| 0 <= i < |m| && m[i] == u;
        assert r[i] == t;
      }
    }
  }

  lemma MapSorted(m: seq<Transaction>)
    requires Sorting.SortedBy(m, DateDescending)
    ensures Sorting.SortedBy(Sorting.Map(SetMatched, m), DateDescending)
  {
    var r := Sorting.Map(SetMatched, m);
    forall i, j | 0 <= i < j < |r| ensures DateDescending(r[i]) <= DateDescending(r[j]) {
      assert DateDescending(r[i]) == DateDescending(m[i]);
      assert DateDescending(r[j]) == DateDescending(m[j]);
    }
  }

  /** One entry of the check's report. */
  datatype CheckResult = CheckResult(
    propertyId: int,
    propertyName: string,
    expectedDate: CalDate,
    rentReceived: bool,
    matchedTransactions: seq<Transaction>,
    expectedAmountCents: int,
    daysOverdue: Option<int>)

  /** The transactions the check looks at: within one day of `e`, latest first. */
  function Window(rows: seq<Transaction>, connected: bool, p: Property, e: CalDate): seq<Transaction>
  {
    if !connected then [] else DateRange(rows, p.id, AddDays(e, -1), AddDays(e, 1))
  }

  /** A transaction of `p` dated within one day of `e`. */
  predicate NearDue(t: Transaction, p: Property, e: CalDate)
  {
    t.propertyId == p.id && Ordinal(e) - 1 <= Ordinal(t.date) <= Ordinal(e) + 1
  }

  /** ... whose amount matches the rent. */
  predicate Qualifies(t: Transaction, p: Property, e: CalDate, tol: Tolerance)
  {
    NearDue(t, p, e) && IsRentPayment(t.amountCents, p.rentCents, tol)
  }

  lemma WindowSpec(rows: seq<Transaction>, connected: bool, p: Property, e: CalDate)
    ensures forall t :: t in Window(rows, connected, p, e) <==> connected && t in rows && NearDue(t, p, e)
    ensures Sorting.SortedBy(Window(rows, connected, p, e), DateDescending)
  {
    if connected {
      AddDaysOrdinal(e, -1);
      AddDaysOrdinal(e, 1);
      DateRangeSpec(rows, p.id, AddDays(e, -1), AddDays(e, 1));
    }
  }

  const DateError := "expected rent date cannot be computed for this due day"

  /** What `check_rent_for_property` reports when the table holds `rows`. */
  function CheckSpec(rows: seq<Transaction>, connected: bool, p: Property, d: CalDate, tol: Tolerance): Result<CheckResult>
  {
    match ExpectedRentDate(p, d)
    case None => Err(DateError)
    case Some(e) =>
      var m := Matching(Window(rows, connected, p, e), p.rentCents, tol);
      Ok(CheckResult(p.id, p.name, e, |m| > 0, Sorting.Map(SetMatched, m), p.rentCents, None))
  }

  /** The ids a check marks as matched. */
  function CheckMarks(rows: seq<Transaction>, connected: bool, p: Property, d: CalDate, tol: Tolerance): set<nat>
  {
    match ExpectedRentDate(p, d)
    case None => {}
    case Some(e) => Ids(Matching(Window(rows, connected, p, e), p.rentCents, tol))
  }

  /**
   * Rent counts as received exactly when the table holds a transaction of
   * the property dated within one day of the expected date whose amount
   * matches; the report lists every such transaction, marked, latest first.
   */
  lemma CheckSpecReceived(rows: seq<Transaction>, connected: bool, p: Property, d: CalDate, tol: Tolerance)
    requires CheckSpec(rows, connected, p, d, tol).Ok?
    ensures var r := CheckSpec(rows, connected, p, d, tol).value;
      var e := ExpectedRentDate(p, d).value;
      && r.expectedDate == e
      && (r.rentReceived <==> connected && exists t :: t in rows && Qualifies(t, p, e, tol))
      && (forall t :: t in r.matchedTransactions <==>
            connected && exists u :: u in rows && Qualifies(u, p, e, tol) && t == SetMatched(u))
      && Sorting.SortedBy(r.matchedTransactions, DateDescending)
  {
    var e := ExpectedRentDate(p, d).value;
    var w := Window(rows, connected, p, e);
    var m := Matching(w, p.rentCents, tol);
    WindowSpec(rows, connected, p, e);
    MatchingSorted(w, p.rentCents, tol);
    MapSorted(m);
    MapMembership(m);
    assert forall u :: u in m <==> connected && u in rows && Qualifies(u, p, e, tol);
    if |m| > 0 {
      assert m[0] in m;
    }
  }

  /**
   * Marks left by earlier checks do not change what a check reports: the
   * matched flag is the only column marking writes, and the report shows
   * every listed transaction as matched.
   */
  lemma CheckSpecIgnoresMarks(rows: seq<Transaction>, ids: set<nat>, connected: bool, p: Property, d: CalDate, tol: Tolerance)
    ensures CheckSpec(MarkIds(rows, ids), connected, p, d, tol) == CheckSpec(rows, connected, p, d, tol)
    ensures CheckMarks(MarkIds(rows, ids), connected, p, d, tol) == CheckMarks(rows, connected, p, d, tol)
  {
    match ExpectedRentDate(p, d)
    case None =>
    case Some(e) =>
      var a := Window(MarkIds(rows, ids), connected, p, e);
      var b := Window(rows, connected, p, e);
      if connected {
        MarkIdsDateRange(rows, ids, p.id, AddDays(e, -1), AddDays(e, 1));
      }
      assert Sorting.Map(SetMatched, a) == Sorting.Map(SetMatched, b);
      MatchingMap(a, p.rentCents, tol);
      MatchingMap(b, p.rentCents, tol);
      IdsOfMarked(Matching(a, p.rentCents, tol), Matching(b, p.rentCents, tol));
  }

  /**
   * The report of `check_all_properties_for_user` for the table `rows`: an
   * error as soon as one property's expected date cannot be computed,
   * otherwise one entry per property, in order, each what checking that
   * property alone against `rows` reports.
   */
  function CheckAllSpec(rows: seq<Transaction>, connected: bool, props: seq<Property>, d: CalDate, tol: Tolerance): Result<seq<CheckResult>>
  {
    if exists j :: 0 <= j < |props| && ExpectedRentDate(props[j], d).None? then Err(DateError)
    else Ok(seq(|props|, j requires 0 <= j < |props| => CheckSpec(rows, connected, props[j], d, tol).value))
  }

  /** A check that fails on one property fails the whole report. */
  lemma CheckAllSpecErr(rows: seq<Transaction>, connected: bool, props: seq<Property>, i: nat, d: CalDate, tol: Tolerance)
    requires i < |props| && CheckSpec(rows, connected, props[i], d, tol).Err?
    ensures CheckSpec(rows, connected, props[i], d, tol) == Err(DateError)
    ensures CheckAllSpec(rows, connected, props, d, tol) == Err(DateError)
  {
    assert ExpectedRentDate(props[i], d).None?;
  }

  /** The report built one property at a time, as the loop builds it. */
  function CheckEach(rows: seq<Transaction>, connected: bool, props: seq<Property>, d: CalDate, tol: Tolerance): (r: Result<seq<CheckResult>>)
    ensures r.Ok? ==> |r.value| == |props|
  {
    if props == [] then Ok([])
    else
      var n := |props| - 1;
      var init := CheckEach(rows, connected, props[..n], d, tol);
      var last := CheckSpec(rows, connected, props[n], d, tol);
      if init.Err? then init
      else if last.Err? then Err(last.error)
      else Ok(init.value + [last.value])
  }

  lemma CheckEachStep(rows: seq<Transaction>, connected: bool, props: seq<Property>, i: nat, d: CalDate, tol: Tolerance, results: seq<CheckResult>, one: CheckResult)
    requires i < |props|
    requires CheckEach(rows, connected, props[..i], d, tol) == Ok(results)
    requires CheckSpec(rows, connected, props[i], d, tol) == Ok(one)
    ensures CheckEach(rows, connected, props[..i + 1], d, tol) == Ok(results + [one])
  {
    assert props[..i + 1][..i] == props[..i];
  }

  lemma {:induction false} CheckEachAt(rows: seq<Transaction>, connected: bool, props: seq<Property>, j: nat, d: CalDate, tol: Tolerance)
    requires CheckEach(rows, connected, props, d, tol).Ok? && j < |props|
    ensures CheckSpec(rows, connected, props[j], d, tol) == Ok(CheckEach(rows, connected, props, d, tol).value[j])
  {
    var n := |props| - 1;
    if j < n {
      CheckEachAt(rows, connected, props[..n], j, d, tol);
      assert props[..n][j] == props[j];
    }
  }

  /** When every property checks, the report is their results in order. */
  lemma CheckAllSpecOk(rows: seq<Transaction>, connected: bool, props: seq<Property>, d: CalDate, tol: Tolerance, results: seq<CheckResult>)
    requires CheckEach(rows, connected, props, d, tol) == Ok(results)
    ensures CheckAllSpec(rows, connected, props, d, tol) == Ok(results)
  {
    forall j | 0 <= j < |props|
      ensures ExpectedRentDate(props[j], d).Some?
      ensures results[j] == CheckSpec(rows, connected, props[j], d, tol).value
    {
      CheckEachAt(rows, connected, props, j, d, tol);
    }
    assert results == seq(|props|, j requires 0 <= j < |props| =>
      CheckSpec(rows, connected, props[j], d, tol).value);
  }

  /**
   * How many properties `check_all_properties_for_user` checks before the
   * first one whose expected date cannot be computed: all of them when
   * every expected date can be.
   */
  function CheckedBeforeError(props: seq<Property>, d: CalDate): (n: nat)
    ensures n <= |props|
    ensures forall j :: 0 <= j < n ==> ExpectedRentDate(props[j], d).Some?
    ensures n < |props| ==> ExpectedRentDate(props[n], d).None?
  {
    if props == [] || ExpectedRentDate(props[0], d).None? then 0
    else
      var n := 1 + CheckedBeforeError(props[1..], d);
      assert forall j :: 1 <= j < n ==> props[j] == props[1..][j - 1];
      n
  }

  /** Every id the checks of `props` mark. */
  function CheckAllMarks(rows: seq<Transaction>, connected: bool, props: seq<Property>, d: CalDate, tol: Tolerance): set<nat>
  {
    if props == [] then {}
    else
      var n := |props| - 1;
      CheckAllMarks(rows, connected, props[..n], d, tol) + CheckMarks(rows, connected, props[n], d, tol)
  }

  lemma CheckAllMarksExtend(rows: seq<Transaction>, connected: bool, props: seq<Property>, i: nat, d: CalDate, tol: Tolerance)
    requires i < |props|
    ensures CheckAllMarks(rows, connected, props[..i + 1], d, tol)
         == CheckAllMarks(rows, connected, props[..i], d, tol) + CheckMarks(rows, connected, props[i], d, tol)
  {
    assert props[..i + 1][..i] == props[..i];
  }

  /** The overdue entries of a report, each tagged with the days overdue. */
  function Overdue(results: seq<CheckResult>, daysOverdue: int): (r: seq<CheckResult>)
    ensures |r| <= |results|
  {
    if results == [] then []
    else
      var n := |results| - 1;
      Overdue(results[..n], daysOverdue)
      + (if results[n].rentReceived then [] else [results[n].(daysOverdue := Some(daysOverdue))])
  }

  /**
   * An entry is overdue exactly when its check found no rent; overdue
   * entries carry the days overdue.
   */
  lemma {:induction false} OverdueSpec(results: seq<CheckResult>, daysOverdue: int)
    ensures forall x :: x in Overdue(results, daysOverdue) <==>
      exists y :: y in results && !y.rentReceived && x == y.(daysOverdue := Some(daysOverdue))
    ensures forall x :: x in Overdue(results, daysOverdue) ==>
      !x.rentReceived && x.daysOverdue == Some(daysOverdue)
  {
    if results != [] {
      var n := |results| - 1;
      OverdueSpec(results[..n], daysOverdue);
      assert results == results[..n] + [results[n]];
    }
  }

  /** The checker; `tolerance` is fixed when it is made. */
  class RentChecker {
    const tolerance: Tolerance

    constructor (tolerance: Tolerance := DefaultTolerance)
      ensures this.tolerance == tolerance
    {
      this.tolerance := tolerance;
    }

    /**
     * `check_rent_for_property`: `checkDate` None stands for today. Marks
     * each matching transaction and reports them.
     */
    method CheckRentForProperty(store: TransactionStore, p: Property, checkDate: Option<CalDate>, today: CalDate)
      returns (r: Result<CheckResult>)
      requires store.Valid()
      modifies store
      ensures store.Valid() && store.nextId == old(store.nextId)
      ensures var d := if checkDate.Some? then checkDate.value else today;
        && r == CheckSpec(old(store.rows), store.connected, p, d, tolerance)
        && store.rows == MarkIds(old(store.rows), CheckMarks(old(store.rows), store.connected, p, d, tolerance))
    {
      var d: CalDate := if checkDate.Some? then checkDate.value else today;
      var expected := ExpectedRentDate(p, d);
      if expected.None? {
        assert MarkIds(store.rows, {}) == store.rows;
        return Err(DateError);
      }
      var e := expected.value;
      var transactions := store.RangeQuery(p.id, AddDays(e, -1), AddDays(e, 1));
      assert transactions == Window(store.rows, store.connected, p, e);
      var matched := MarkMatching(store, transactions, p.rentCents);
      r := Ok(CheckResult(p.id, p.name, e, |matched| > 0, matched, p.rentCents, None));
    }

    /**
     * The loop of `check_rent_for_property`: marks each transaction of `ts`
     * whose amount matches and returns those transactions, marked.
     */
    method MarkMatching(store: TransactionStore, ts: seq<Transaction>, rentCents: int)
      returns (matched: seq<Transaction>)
      requires store.Valid() && (|ts| > 0 ==> store.connected)
      modifies store
      ensures store.Valid() && store.nextId == old(store.nextId)
      ensures matched == Sorting.Map(SetMatched, Matching(ts, rentCents, tolerance))
      ensures store.rows == MarkIds(old(store.rows), Ids(Matching(ts, rentCents, tolerance)))
    {
      ghost var rows0 := store.rows;
      matched := [];
      var i := 0;
      while i < |ts|
        invariant 0 <= i <= |ts|
        invariant store.Valid() && store.nextId == old(store.nextId)
        invariant matched == Sorting.Map(SetMatched, Matching(ts[..i], rentCents, tolerance))
        invariant store.rows == MarkIds(rows0, Ids(Matching(ts[..i], rentCents, tolerance)))
      {
        var t := ts[i];
        ghost var before := Matching(ts[..i], rentCents, tolerance);
        MatchingStep(ts, i, rentCents, tolerance);
        if IsRentPayment(t.amountCents, rentCents, tolerance) {
          ghost var cur := store.rows;
          var ok := store.MarkAsMatched(t.id);
          assert store.rows == MarkIds(cur, {t.id});
          matched := matched + [if ok then SetMatched(t) else t];
          MarkStep(rows0, before, t);
        }
        i := i + 1;
      }
      assert ts[..i] == ts;
    }

    /** `check_all_properties_for_user`, given the user's properties in order. */
    method CheckAllPropertiesForUser(store: TransactionStore, props: seq<Property>, checkDate: Option<CalDate>, today: CalDate)
      returns (r: Result<seq<CheckResult>>)
      requires store.Valid()
      modifies store
      ensures store.Valid() && store.nextId == old(store.nextId)
      ensures var d := if checkDate.Some? then checkDate.value else today;
        && r == CheckAllSpec(old(store.rows), store.connected, props, d, tolerance)
        && (r.Ok? ==>
              store.rows == MarkIds(old(store.rows), CheckAllMarks(old(store.rows), store.connected, props, d, tolerance)))
      ensures var d := if checkDate.Some? then checkDate.value else today;
        var n := CheckedBeforeError(props, d);
        && (r.Ok? <==> n == |props|)
        && (r.Err? ==>
              store.rows == MarkIds(old(store.rows), CheckAllMarks(old(store.rows), store.connected, props[..n], d, tolerance)))
    {
      var d: CalDate := if checkDate.Some? then checkDate.value else today;
      ghost var rows0 := store.rows;
      var results: seq<CheckResult> := [];
      var i := 0;
      while i < |props|
        invariant 0 <= i <= |props|
        invariant store.Valid() && store.nextId == old(store.nextId)
        invariant CheckEach(rows0, store.connected, props[..i], d, tolerance) == Ok(results)
        invariant store.rows == MarkIds(rows0, CheckAllMarks(rows0, store.connected, props[..i], d, tolerance))
        invariant i <= CheckedBeforeError(props, d)
      {
        var one := CheckNext(store, props, i, d, rows0, results);
        if one.Err? {
          return Err(one.error);
        }
        results := results + [one.value];
        i := i + 1;
      }
      assert props[..i] == props;
      CheckAllSpecOk(rows0, store.connected, props, d, tolerance, results);
      r := Ok(results);
    }

    /**
     * One turn of the loop of `check_all_properties_for_user`: checks
     * `props[i]` on a table that already carries the marks of the checks
     * before it, which do not change its result.
     */
    method CheckNext(store: TransactionStore, props: seq<Property>, i: nat, d: CalDate, ghost rows0: seq<Transaction>, ghost results: seq<CheckResult>)
      returns (one: Result<CheckResult>)
      requires i < |props| && store.Valid()
      requires CheckEach(rows0, store.connected, props[..i], d, tolerance) == Ok(results)
      requires store.rows == MarkIds(rows0, CheckAllMarks(rows0, store.connected, props[..i], d, tolerance))
      requires i <= CheckedBeforeError(props, d)
      modifies store
      ensures store.Valid() && store.nextId == old(store.nextId)
      ensures one.Err? ==> one == Err(DateError) && CheckAllSpec(rows0, store.connected, props, d, tolerance) == Err(DateError)
      ensures one.Ok? <==> ExpectedRentDate(props[i], d).Some?
      ensures one.Ok? ==> i < CheckedBeforeError(props, d)
      ensures one.Err? ==>
        && CheckedBeforeError(props, d) == i
        && store.rows == MarkIds(rows0, CheckAllMarks(rows0, store.connected, props[..i], d, tolerance))
      ensures one.Ok? ==> CheckEach(rows0, store.connected, props[..i + 1], d, tolerance) == Ok(results + [one.value])
      ensures store.rows == MarkIds(rows0, CheckAllMarks(rows0, store.connected, props[..i + 1], d, tolerance))
    {
      ghost var marks := CheckAllMarks(rows0, store.connected, props[..i], d, tolerance);
      ghost var newMarks := CheckMarks(rows0, store.connected, props[i], d, tolerance);
      CheckSpecIgnoresMarks(rows0, marks, store.connected, props[i], d, tolerance);
      one := CheckRentForProperty(store, props[i], Some(d), d);
      MarkIdsUnion(rows0, marks, newMarks);
      CheckAllMarksExtend(rows0, store.connected, props, i, d, tolerance);
      if one.Err? {
        CheckAllSpecErr(rows0, store.connected, props, i, d, tolerance);
        assert CheckedBeforeError(props, d) == i;
        assert CheckMarks(rows0, store.connected, props[i], d, tolerance) == {};
      } else {
        CheckEachStep(rows0, store.connected, props, i, d, tolerance, results, one.value);
      }
    }

    /**
     * `get_overdue_rent`: checks every property as of `daysOverdue` days
     * before today and keeps the entries without rent, tagged.
     */
    method GetOverdueRent(store: TransactionStore, props: seq<Property>, daysOverdue: int, today: CalDate)
      returns (r: Result<seq<CheckResult>>)
      requires store.Valid()
      modifies store
      ensures store.Valid() && store.nextId == old(store.nextId)
      ensures var all := CheckAllSpec(old(store.rows), store.connected, props, AddDays(today, -daysOverdue), tolerance);
        && r.Ok? == all.Ok?
        && (r.Ok? ==> r.value == Overdue(all.value, daysOverdue))
      ensures var d := AddDays(today, -daysOverdue);
        var all := CheckAllSpec(old(store.rows), store.connected, props, d, tolerance);
        && (all.Ok? ==>
              store.rows == MarkIds(old(store.rows), CheckAllMarks(old(store.rows), store.connected, props, d, tolerance)))
        && (all.Err? ==>
              var n := CheckedBeforeError(props, d);
              store.rows == MarkIds(old(store.rows), CheckAllMarks(old(store.rows), store.connected, props[..n], d, tolerance)))
    {
      var checkDate := AddDays(today, -daysOverdue);
      var results := CheckAllPropertiesForUser(store, props, Some(checkDate), today);
      if results.Err? {
        return Err(results.error);
      }
      var overdue := TagOverdue(results.value, daysOverdue);
      r := Ok(overdue);
    }
  }

  /** The filter-and-tag loop of `get_overdue_rent`. */
  method TagOverdue(all: seq<CheckResult>, daysOverdue: int) returns (overdue: seq<CheckResult>)
    ensures overdue == Overdue(all, daysOverdue)
  {
    overdue := [];
    var i := 0;
    while i < |all|
      invariant 0 <= i <= |all|
      invariant overdue == Overdue(all[..i], daysOverdue)
    {
      assert all[..i + 1][..i] == all[..i];
      if !all[i].rentReceived {
        overdue := overdue + [all[i].(daysOverdue := Some(daysOverdue))];
      }
      i := i + 1;
    }
    assert all[..i] == all;
  }
}
