/**
 * Proleptic-Gregorian calendar days and the parts of Go's `time` package the
 * calendar relies on: `time.Date` with its carrying of out-of-range months and
 * days, `Weekday`, `Before`/`After`, `Sub` and adding whole days.
 *
 * A `Date` stands for midnight of that day; a `Time` adds the second of the day.
 * Day numbers ("ordinals") count from 0001-01-01, which is day 0.
 */
module Dates {

  /** A year/month/day triple; it need not name a real day. */
  datatype Ymd = Ymd(year: int, month: int, day: int)

  predicate IsLeapYear(y: int) {
    y % 4 == 0 && (y % 100 != 0 || y % 400 == 0)
  }

  function DaysInYear(y: int): int {
    if IsLeapYear(y) then 366 else 365
  }

  function DaysInMonth(y: int, m: int): (n: int)
    requires 1 <= m <= 12
    ensures 28 <= n <= 31
  {
    if m == 2 then (if IsLeapYear(y) then 29 else 28)
    else if m == 4 || m == 6 || m == 9 || m == 11 then 30
    else 31
  }

  predicate IsValid(d: Ymd) {
    1 <= d.month <= 12 && 1 <= d.day <= DaysInMonth(d.year, d.month)
  }

  /** A real calendar day. */
  type Date = d: Ymd | IsValid(d) witness Ymd(1, 1, 1)

  /** Seconds since midnight. */
  type Clock = s: int | 0 <= s < 86400

  /** An instant: a day and a time of day (locations are not modelled). */
  datatype Time = Time(date: Date, clock: Clock)

  /** Go's zero `time.Time{}`: 0001-01-01 00:00:00. */
  const ZeroTime: Time := Time(Ymd(1, 1, 1), 0)

  const Sunday := 0
  const Saturday := 6

  /** Number of days from 0001-01-01 to January 1 of year `y`. */
  function DaysBeforeYear(y: int): int {
    var k := y - 1;
    365 * k + k / 4 - k / 100 + k / 400
  }

  /** Number of days in year `y` before the first of month `m`. */
  function DaysBeforeMonth(y: int, m: int): int
    requires 1 <= m <= 12
  {
    var base := [0, 31, 59, 90, 120, 151, 181, 212, 243, 273, 304, 334][m - 1];
    if IsLeapYear(y) && m >= 3 then base + 1 else base
  }

  /**
   * The day number Go assigns to `time.Date(y, m, d, ...)`: the month is first
   * brought into 1..12 by carrying whole years, then the day is added linearly.
   */
  function CivilDays(y: int, m: int, d: int): int {
    var y1 := y + (m - 1) / 12;
    var m1 := (m - 1) % 12 + 1;
    DaysBeforeYear(y1) + DaysBeforeMonth(y1, m1) + d - 1
  }

  function Ordinal(d: Date): int {
    CivilDays(d.year, d.month, d.day)
  }

  lemma DivStep(y: int, n: int)
    requires n == 4 || n == 100 || n == 400
    ensures y / n - (y - 1) / n == if y % n == 0 then 1 else 0
  {
    var q, r := (y - 1) / n, (y - 1) % n;
    assert y - 1 == n * q + r;
    if r == n - 1 {
      assert y == n * (q + 1) + 0;
    } else {
      assert y == n * q + (r + 1);
    }
  }

  lemma YearLength(y: int)
    ensures DaysBeforeYear(y + 1) == DaysBeforeYear(y) + DaysInYear(y)
  {
    DivStep(y, 4);
    DivStep(y, 100);
    DivStep(y, 400);
    assert DaysBeforeYear(y + 1) == 365 * y + y / 4 - y / 100 + y / 400;
    assert DaysBeforeYear(y) == 365 * (y - 1) + (y - 1) / 4 - (y - 1) / 100 + (y - 1) / 400;
  }

  /** For a month already in 1..12 no year is carried. */
  lemma CivilDaysInRange(y: int, m: int, d: int)
    requires 1 <= m <= 12
    ensures CivilDays(y, m, d) == DaysBeforeYear(y) + DaysBeforeMonth(y, m) + d - 1
  {
    assert (m - 1) / 12 == 0 && (m - 1) % 12 == m - 1;
  }

  /** Carrying a month into the year does not change the day number. */
  lemma CarryMonth(y: int, m: int, d: int)
    ensures 1 <= (m - 1) % 12 + 1 <= 12
    ensures CivilDays(y, m, d) == CivilDays(y + (m - 1) / 12, (m - 1) % 12 + 1, d)
  {
    CivilDaysInRange(y + (m - 1) / 12, (m - 1) % 12 + 1, d);
  }

  /** Borrowing the previous month's length for a day below 1. */
  lemma CarryBack(y: int, m: int, d: int)
    requires 1 <= m <= 12
    ensures var py := if m == 1 then y - 1 else y;
            var pm := if m == 1 then 12 else m - 1;
            CivilDays(py, pm, d + DaysInMonth(py, pm)) == CivilDays(y, m, d)
  {
    var py := if m == 1 then y - 1 else y;
    var pm := if m == 1 then 12 else m - 1;
    MonthLength(py, pm);
    YearLength(py);
    CivilDaysInRange(py, pm, d + DaysInMonth(py, pm));
    CivilDaysInRange(y, m, d);
  }

  /** Moving a day past the month's end into the next month. */
  lemma CarryForward(y: int, m: int, d: int)
    requires 1 <= m <= 12
    ensures var ny := if m == 12 then y + 1 else y;
            var nm := if m == 12 then 1 else m + 1;
            CivilDays(ny, nm, d - DaysInMonth(y, m)) == CivilDays(y, m, d)
  {
    var ny := if m == 12 then y + 1 else y;
    var nm := if m == 12 then 1 else m + 1;
    MonthLength(y, m);
    YearLength(y);
    CivilDaysInRange(ny, nm, d - DaysInMonth(y, m));
    CivilDaysInRange(y, m, d);
  }

  lemma MonthLength(y: int, m: int)
    requires 1 <= m <= 12
    ensures m < 12 ==> DaysBeforeMonth(y, m) + DaysInMonth(y, m) == DaysBeforeMonth(y, m + 1)
    ensures m == 12 ==> DaysBeforeMonth(y, m) + DaysInMonth(y, m) == DaysInYear(y)
  {
  }

  /**
   * Go's `time.Date(y, m, d, 0, 0, 0, 0, loc)`: a month outside 1..12 carries
   * into the year and a day outside the month carries into the neighbouring
   * months. The result is the real day with Go's day number, and a triple that
   * already names a real day is returned unchanged.
   */
  function FromCivil(y: int, m: int, d: int): (r: Date)
    ensures Ordinal(r) == CivilDays(y, m, d)
    ensures IsValid(Ymd(y, m, d)) ==> r == Ymd(y, m, d)
  {
    CarryMonth(y, m, d);
    if 1 <= m <= 12 then
      assert (m - 1) / 12 == 0 && (m - 1) % 12 + 1 == m;
      CarryDays(y, m, d)
    else
      CarryDays(y + (m - 1) / 12, (m - 1) % 12 + 1, d)
  }

  /** The day-carrying part of `FromCivil`, for a month already in 1..12. */
  function CarryDays(y: int, m: int, d: int): (r: Date)
    requires 1 <= m <= 12
    ensures Ordinal(r) == CivilDays(y, m, d)
    ensures IsValid(Ymd(y, m, d)) ==> r == Ymd(y, m, d)
    decreases if d < 1 then 1 else 0, if d < 1 then -d else d
  {
    if d < 1 then
      CarryBack(y, m, d);
      CarryDays(if m == 1 then y - 1 else y, if m == 1 then 12 else m - 1,
                d + DaysInMonth(if m == 1 then y - 1 else y, if m == 1 then 12 else m - 1))
    else if d > DaysInMonth(y, m) then
      CarryForward(y, m, d);
      CarryDays(if m == 12 then y + 1 else y, if m == 12 then 1 else m + 1, d - DaysInMonth(y, m))
    else
      CivilDaysInRange(y, m, d);
      Ymd(y, m, d)
  }

  /** `t.Weekday()` for midnight of `d`, Sunday being 0 (0001-01-01 was a Monday). */
  function Weekday(d: Date): (w: int)
    ensures 0 <= w < 7
  {
    (Ordinal(d) + 1) % 7
  }

  /** The weekday advances by one, cyclically, from each day to the next. */
  lemma WeekdayNext(d: Date)
    ensures Weekday(AddDays(d, 1)) == (Weekday(d) + 1) % 7
  {
    var e := AddDays(d, 1);
    CycleStep(Ordinal(d) + 1, Ordinal(e) + 1);
  }

  /** One step along a cycle of seven. */
  lemma CycleStep(n: int, n': int)
    requires n' == n + 1
    ensures n' % 7 == (n % 7 + 1) % 7
  {
    var q, r := n / 7, n % 7;
    assert n == 7 * q + r;
    if r == 6 {
      assert n' == 7 * (q + 1) + 0;
    } else {
      assert n' == 7 * q + (r + 1);
    }
  }

  /** The weekday at a known day number. */
  lemma WeekdayAt(d: Date, before: int, n: int)
    requires before == DaysBeforeYear(d.year) + DaysBeforeMonth(d.year, d.month)
    requires n == before + d.day
    ensures Weekday(d) == n % 7
  {
    CivilDaysInRange(d.year, d.month, d.day);
  }

  /**
   * Anchors of the weekday count: 0001-01-01 was a Monday, 2004-01-01 a
   * Thursday, 2022-02-25 a Friday, 2022-02-26 a Saturday and 2022-02-27 a
   * Sunday.
   */
  lemma WeekdayAnchors()
    ensures Weekday(Ymd(1, 1, 1)) == 1
    ensures Weekday(Ymd(2004, 1, 1)) == 4
    ensures Weekday(Ymd(2022, 2, 25)) == 5 && !IsWeekend(Ymd(2022, 2, 25))
    ensures Weekday(Ymd(2022, 2, 26)) == Saturday && IsWeekend(Ymd(2022, 2, 26))
    ensures Weekday(Ymd(2022, 2, 27)) == Sunday
  {
    assert DaysBeforeYear(1) == 0;
    WeekdayAt(Ymd(1, 1, 1), 0, 1);
    assert DaysBeforeYear(2004) == 731580;
    WeekdayAt(Ymd(2004, 1, 1), 731580, 731581);
    assert DaysBeforeYear(2022) == 738155;
    assert DaysBeforeMonth(2022, 2) == 31;
    WeekdayAt(Ymd(2022, 2, 25), 738186, 738211);
    WeekdayAt(Ymd(2022, 2, 26), 738186, 738212);
    WeekdayAt(Ymd(2022, 2, 27), 738186, 738213);
  }

  predicate IsWeekend(d: Date) {
    Weekday(d) == Sunday || Weekday(d) == Saturday
  }

  /** `t.Add(n * 24h)`: the day `n` days after `d`. */
  function AddDays(d: Date, n: int): (r: Date)
    ensures Ordinal(r) == Ordinal(d) + n
  {
    FromCivil(d.year, d.month, d.day + n)
  }

  /** Go's `a.Before(b)` on midnights. */
  predicate Before(a: Date, b: Date) {
    Ordinal(a) < Ordinal(b)
  }

  /** Calendar order read off the year, month and day fields. */
  predicate LexLess(a: Ymd, b: Ymd) {
    a.year < b.year
    || (a.year == b.year && (a.month < b.month || (a.month == b.month && a.day < b.day)))
  }

  lemma {:induction false} YearsIncrease(y1: int, y2: int)
    requires y1 < y2
    ensures DaysBeforeYear(y1) + DaysInYear(y1) <= DaysBeforeYear(y2)
    decreases y2 - y1
  {
    YearLength(y1);
    if y1 + 1 < y2 {
      YearsIncrease(y1 + 1, y2);
    }
  }

  lemma {:induction false} MonthsIncrease(y: int, m1: int, m2: int)
    requires 1 <= m1 < m2 <= 12
    ensures DaysBeforeMonth(y, m1) + DaysInMonth(y, m1) <= DaysBeforeMonth(y, m2)
    decreases m2 - m1
  {
    MonthLength(y, m1);
    if m1 + 1 < m2 {
      MonthsIncrease(y, m1 + 1, m2);
    }
  }

  lemma OrdinalWithinYear(d: Date)
    ensures DaysBeforeYear(d.year) <= Ordinal(d) < DaysBeforeYear(d.year) + DaysInYear(d.year)
  {
    CivilDaysInRange(d.year, d.month, d.day);
    if d.month < 12 {
      MonthsIncrease(d.year, d.month, 12);
    }
    MonthLength(d.year, 12);
  }

  /** Day numbers follow calendar order: `Before` agrees with reading the fields. */
  lemma BeforeIsCalendarOrder(a: Date, b: Date)
    ensures Before(a, b) <==> LexLess(a, b)
  {
    if LexLess(a, b) {
      LexLessOrdinal(a, b);
    } else if a != b {
      assert LexLess(b, a);
      LexLessOrdinal(b, a);
    }
  }

  lemma LexLessOrdinal(a: Date, b: Date)
    requires LexLess(a, b)
    ensures Ordinal(a) < Ordinal(b)
  {
    if a.year < b.year {
      OrdinalWithinYear(a);
      OrdinalWithinYear(b);
      YearsIncrease(a.year, b.year);
    } else {
      CivilDaysInRange(a.year, a.month, a.day);
      CivilDaysInRange(b.year, b.month, b.day);
      if a.month < b.month {
        MonthsIncrease(a.year, a.month, b.month);
      }
    }
  }

  /** Two days with the same day number are the same day. */
  lemma OrdinalInjective(a: Date, b: Date)
    requires Ordinal(a) == Ordinal(b)
    ensures a == b
  {
    BeforeIsCalendarOrder(a, b);
    BeforeIsCalendarOrder(b, a);
  }

  /** A later day never lies in an earlier year. */
  lemma YearMonotone(a: Date, b: Date)
    requires Ordinal(a) <= Ordinal(b)
    ensures a.year <= b.year
  {
    BeforeIsCalendarOrder(b, a);
  }

  /** `n` consecutive days from `start`: `start.Add(i * 24h)` for `i` in [0, n). */
  function Span(start: Date, n: nat): seq<Date> {
    seq(n, i => AddDays(start, i))
  }

  /** The loop bound `int(end.Sub(start)/24h + 1)`, never negative as a count. */
  function DayCount(start: Date, end: Date): nat {
    if Ordinal(end) < Ordinal(start) then 0 else Ordinal(end) - Ordinal(start) + 1
  }

  /** Every day of the inclusive interval [start, end], in order. */
  function DayRange(start: Date, end: Date): seq<Date> {
    Span(start, DayCount(start, end))
  }

  predicate StrictlyAscending(s: seq<Date>) {
    forall i, j :: 0 <= i < j < |s| ==> Before(s[i], s[j])
  }

  /** A span holds exactly the days whose day numbers lie in [start, start + n), in ascending order. */
  lemma SpanMembers(start: Date, n: nat)
    ensures |Span(start, n)| == n
    ensures StrictlyAscending(Span(start, n))
    ensures forall k: Date {:trigger k in Span(start, n)} :: k in Span(start, n) <==> Ordinal(start) <= Ordinal(k) < Ordinal(start) + n
  {
    var s := Span(start, n);
    forall k: Date | Ordinal(start) <= Ordinal(k) < Ordinal(start) + n
      ensures k in s
    {
      var i := Ordinal(k) - Ordinal(start);
      OrdinalInjective(s[i], k);
    }
  }

  /** [start, end] holds exactly the days between the two, inclusive, in ascending order. */
  lemma DayRangeMembers(start: Date, end: Date)
    ensures StrictlyAscending(DayRange(start, end))
    ensures forall k: Date {:trigger k in DayRange(start, end)} :: k in DayRange(start, end) <==> Ordinal(start) <= Ordinal(k) <= Ordinal(end)
    ensures |DayRange(start, end)| == DayCount(start, end)
    ensures Ordinal(end) < Ordinal(start) ==> DayRange(start, end) == []
    ensures Ordinal(start) <= Ordinal(end) ==>
              |DayRange(start, end)| == Ordinal(end) - Ordinal(start) + 1 &&
              DayRange(start, end)[0] == start && DayRange(start, end)[|DayRange(start, end)| - 1] == end
  {
    var n := DayCount(start, end);
    SpanMembers(start, n);
    if Ordinal(start) <= Ordinal(end) {
      OrdinalInjective(AddDays(start, 0), start);
      OrdinalInjective(AddDays(start, n - 1), end);
    }
  }
}
