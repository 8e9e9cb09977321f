/**
 * The query engine: point queries (is-workday, is-holiday, is-in-lieu, holiday
 * detail) and range queries over the read-only tables the builder generated.
 */
module Calendar {
  import opened Dates
  import opened Holidays
  import opened Validation

  /** The generated package state: the three date-keyed maps and the supported bounds. */
  datatype Tables = Tables(
    holidays: map<Date, Holiday>,
    workdays: map<Date, Holiday>,
    inLieuDays: map<Date, Holiday>,
    minDay: Date,
    maxDay: Date)

  /** `ErrUnSupportDate`, the only error the range queries report. */
  datatype Error = ErrUnSupportDate

  datatype Result<T> = Ok(value: T) | Err(error: Error)

  predicate Supported(tb: Tables, t: Time) {
    ValidateDate(t, tb.minDay, tb.maxDay).1
  }

  /**
   * `isWorkday` on a validated day: a workday override wins, otherwise a day is
   * a workday when it is not a holiday and falls Monday to Friday.
   */
  function IsWorkdayOn(tb: Tables, d: Date): (r: bool)
    ensures r <==> d in tb.workdays || (d !in tb.holidays && !IsWeekend(d))
  {
    if d in tb.workdays then true
    else d !in tb.holidays && 1 <= Weekday(d) <= 5
  }

  /** `isHoliday` on a validated day. */
  function IsHolidayOn(tb: Tables, d: Date): (r: bool)
    ensures r <==> d !in tb.workdays && (d in tb.holidays || IsWeekend(d))
  {
    !IsWorkdayOn(tb, d)
  }

  /** `isInLieu` on a validated day: membership in the in-lieu table alone. */
  function IsInLieuOn(tb: Tables, d: Date): bool {
    d in tb.inLieuDays
  }

  /**
   * Whether a day is an in-lieu day reads neither the holiday nor the workday
   * table, and it does not depend on the weekday.
   */
  lemma InLieuOnReadsOnlyItsTable(tb: Tables, holidays: map<Date, Holiday>, workdays: map<Date, Holiday>, d: Date)
    ensures IsInLieuOn(tb, d) == IsInLieuOn(tb.(holidays := holidays, workdays := workdays), d)
    ensures d !in tb.inLieuDays ==> !IsInLieuOn(tb, d)
  {
  }

  /**
   * The weekday rule on the days of the package's workday test, when the
   * tables leave them alone: Monday 2004-01-05, Thursday 2021-02-25 and
   * Friday 2022-02-25 are workdays, Saturday 2022-02-26 is not.
   */
  lemma WeekdayRuleExamples(tb: Tables)
    ensures Ymd(2004, 1, 5) !in tb.holidays ==> IsWorkdayOn(tb, Ymd(2004, 1, 5))
    ensures Ymd(2021, 2, 25) !in tb.holidays ==> IsWorkdayOn(tb, Ymd(2021, 2, 25))
    ensures Ymd(2022, 2, 25) !in tb.holidays ==> IsWorkdayOn(tb, Ymd(2022, 2, 25))
    ensures Ymd(2022, 2, 26) !in tb.workdays ==> IsHolidayOn(tb, Ymd(2022, 2, 26)) && !IsWorkdayOn(tb, Ymd(2022, 2, 26))
  {
    assert DaysBeforeYear(2004) == 731580;
    WeekdayAt(Ymd(2004, 1, 5), 731580, 731585);
    assert DaysBeforeYear(2021) == 737790;
    assert DaysBeforeMonth(2021, 2) == 31;
    WeekdayAt(Ymd(2021, 2, 25), 737821, 737846);
    WeekdayAnchors();
  }

  /** `IsWorkday`: false for an unsupported instant, otherwise the rule above on its day. */
  function IsWorkday(tb: Tables, t: Time): (r: bool)
    ensures r <==> Supported(tb, t) && (t.date in tb.workdays || (t.date !in tb.holidays && !IsWeekend(t.date)))
  {
    var (v, ok) := ValidateDate(t, tb.minDay, tb.maxDay);
    if !ok then false else IsWorkdayOn(tb, v.date)
  }

  /** `IsHoliday`: false for an unsupported instant, otherwise "not a workday". */
  function IsHoliday(tb: Tables, t: Time): (r: bool)
    ensures r <==> Supported(tb, t) && t.date !in tb.workdays && (t.date in tb.holidays || IsWeekend(t.date))
  {
    var (v, ok) := ValidateDate(t, tb.minDay, tb.maxDay);
    if !ok then false else IsHolidayOn(tb, v.date)
  }

  /** `IsInLieu`: false for an unsupported instant, otherwise membership in the in-lieu map. */
  function IsInLieu(tb: Tables, t: Time): (r: bool)
    ensures r <==> Supported(tb, t) && t.date in tb.inLieuDays
  {
    var (v, ok) := ValidateDate(t, tb.minDay, tb.maxDay);
    if !ok then false else IsInLieuOn(tb, v.date)
  }

  /**
   * `GetHolidayDetail`: the named holiday and true for a day of the holiday map
   * that is not overridden, no holiday and true for an ordinary weekend day,
   * no holiday and false otherwise.
   */
  function GetHolidayDetail(tb: Tables, t: Time): (r: (Holiday, bool))
    ensures !Supported(tb, t) ==> r == (NoHoliday, false)
    ensures r.0 != NoHoliday ==> t.date in tb.holidays && r.0 == tb.holidays[t.date]
  {
    var (v, ok) := ValidateDate(t, tb.minDay, tb.maxDay);
    if !ok then (NoHoliday, false)
    else if v.date in tb.workdays then (NoHoliday, false)
    else if v.date in tb.holidays then (tb.holidays[v.date], true)
    else (NoHoliday, Weekday(v.date) == Sunday || Weekday(v.date) == Saturday)
  }

  /** Outside the supported years every point query gives its default answer. */
  lemma OutOfRangeDefaults(tb: Tables, t: Time)
    requires t.date.year < tb.minDay.year || t.date.year > tb.maxDay.year
    ensures !IsWorkday(tb, t) && !IsHoliday(tb, t) && !IsInLieu(tb, t)
    ensures GetHolidayDetail(tb, t) == (NoHoliday, false)
  {
  }

  /** Within the supported years exactly one of IsWorkday and IsHoliday holds. */
  lemma WorkdayHolidayComplement(tb: Tables, t: Time)
    requires Supported(tb, t)
    ensures IsWorkday(tb, t) != IsHoliday(tb, t)
  {
  }

  /**
   * The holiday detail agrees with IsHoliday on every instant: its flag is
   * IsHoliday, and its holiday is the map's entry exactly for a non-overridden
   * day of the holiday map.
   */
  lemma DetailAgreesWithIsHoliday(tb: Tables, t: Time)
    ensures GetHolidayDetail(tb, t).1 == IsHoliday(tb, t)
    ensures GetHolidayDetail(tb, t).0 ==
            if Supported(tb, t) && t.date !in tb.workdays && t.date in tb.holidays
            then tb.holidays[t.date] else NoHoliday
  {
  }

  /** IsInLieu reads only the in-lieu map and the bounds. */
  lemma InLieuIgnoresOtherMaps(tb: Tables, holidays: map<Date, Holiday>, workdays: map<Date, Holiday>, t: Time)
    ensures IsInLieu(tb, t) == IsInLieu(tb.(holidays := holidays, workdays := workdays), t)
  {
  }

  /** `getDates`' callbacks, as the two range queries pass them. */
  function HolidayTest(tb: Tables): Date -> bool {
    (d: Date) => IsHoliday(tb, Time(d, 0))
  }

  function HolidayKeyTest(tb: Tables): Date -> bool {
    (d: Date) => d in tb.holidays
  }

  function WorkdayTest(tb: Tables): Date -> bool {
    (d: Date) => IsWorkdayOn(tb, d)
  }

  /** The days of `s` that satisfy `f`, in their order in `s`. */
  function Filter(f: Date -> bool, s: seq<Date>): seq<Date> {
    if s == [] then []
    else Filter(f, s[..|s| - 1]) + (if f(s[|s| - 1]) then [s[|s| - 1]] else [])
  }

  /** Filtering keeps exactly the members that pass, in order, and never lengthens. */
  lemma {:induction false} FilterMembers(f: Date -> bool, s: seq<Date>)
    ensures forall d :: d in Filter(f, s) <==> d in s && f(d)
    ensures |Filter(f, s)| <= |s|
    ensures StrictlyAscending(s) ==> StrictlyAscending(Filter(f, s))
  {
    if s != [] {
      var init := s[..|s| - 1];
      FilterMembers(f, init);
      if StrictlyAscending(s) {
        assert StrictlyAscending(init);
        var r := Filter(f, s);
        forall i, j | 0 <= i < j < |r| ensures Before(r[i], r[j]) {
          var fi := Filter(f, init);
          if j < |fi| {
            assert r[i] == fi[i] && r[j] == fi[j];
          } else {
            assert r[j] == s[|s| - 1];
            assert r[i] in init;
          }
        }
      }
    }
  }

  /** One more day of the walk adds that day to the result when it passes. */
  lemma FilterStep(f: Date -> bool, start: Date, i: nat)
    ensures Filter(f, Span(start, i + 1)) ==
            Filter(f, Span(start, i)) + (if f(AddDays(start, i)) then [AddDays(start, i)] else [])
  {
    assert Span(start, i + 1)[..i] == Span(start, i);
  }

  /**
   * The accepted days of [start, end]: exactly the days of the interval that
   * pass, strictly ascending, at most one per day, none when end < start.
   */
  lemma FilterRange(f: Date -> bool, start: Date, end: Date)
    ensures StrictlyAscending(Filter(f, DayRange(start, end)))
    ensures forall d: Date :: d in Filter(f, DayRange(start, end)) <==>
              Ordinal(start) <= Ordinal(d) <= Ordinal(end) && f(d)
    ensures |Filter(f, DayRange(start, end))| <= DayCount(start, end)
    ensures Ordinal(end) < Ordinal(start) ==> Filter(f, DayRange(start, end)) == []
  {
    DayRangeMembers(start, end);
    FilterMembers(f, DayRange(start, end));
  }

  /**
   * `getDates`: walks every day of [start, end] and keeps those `fn` accepts.
   * The result is exactly the accepted days of the interval, strictly
   * ascending, at most one per day of the interval, and empty when end < start.
   */
  method GetDates(start: Date, end: Date, fn: Date -> bool) returns (list: seq<Date>)
    ensures list == Filter(fn, DayRange(start, end))
    ensures StrictlyAscending(list)
    ensures forall d: Date :: d in list <==> Ordinal(start) <= Ordinal(d) <= Ordinal(end) && fn(d)
    ensures |list| <= DayCount(start, end)
    ensures Ordinal(end) < Ordinal(start) ==> list == []
  {
    var days := Ordinal(end) - Ordinal(start) + 1;
    list := [];
    var i := 0;
    while i < days
      invariant 0 <= i <= DayCount(start, end)
      invariant list == Filter(fn, Span(start, i))
    {
      var t := AddDays(start, i);
      FilterStep(fn, start, i);
      if fn(t) {
        list := list + [t];
      }
      i := i + 1;
    }
    assert Span(start, i) == DayRange(start, end);
    FilterRange(fn, start, end);
  }

  /** Between two supported days, the holiday filter is `IsHolidayOn` on every day of the range. */
  lemma HolidaysInRange(tb: Tables, s: Date, e: Date)
    requires ValidateDate(Time(s, 0), tb.minDay, tb.maxDay).1 && ValidateDate(Time(e, 0), tb.minDay, tb.maxDay).1
    ensures forall d: Date :: d in Filter(HolidayTest(tb), DayRange(s, e)) <==>
              Ordinal(s) <= Ordinal(d) <= Ordinal(e) && IsHolidayOn(tb, d)
  {
    FilterRange(HolidayTest(tb), s, e);
    forall d: Date | Ordinal(s) <= Ordinal(d) <= Ordinal(e)
      ensures HolidayTest(tb)(d) == IsHolidayOn(tb, d)
    {
      ValidateBetween(s, e, d, 0, tb.minDay, tb.maxDay);
    }
  }

  /**
   * `GetHolidays`: an error unless both ends are supported; otherwise, with
   * weekends, every day of [start, end] on which IsHoliday holds, and without
   * them, only the days that are keys of the holiday map.
   */
  method GetHolidays(tb: Tables, start: Time, end: Time, includeWeekends: bool) returns (r: Result<seq<Date>>)
    ensures r.Err? <==> !Supported(tb, start) || !Supported(tb, end)
    ensures r.Ok? && includeWeekends ==> r.value == Filter(HolidayTest(tb), DayRange(start.date, end.date))
    ensures r.Ok? && !includeWeekends ==> r.value == Filter(HolidayKeyTest(tb), DayRange(start.date, end.date))
    ensures r.Ok? ==> StrictlyAscending(r.value)
    ensures r.Ok? ==> forall d: Date :: d in r.value <==>
              Ordinal(start.date) <= Ordinal(d) <= Ordinal(end.date)
              && (if includeWeekends then IsHolidayOn(tb, d) else d in tb.holidays)
  {
    var (s, okStart) := ValidateDate(start, tb.minDay, tb.maxDay);
    if !okStart {
      return Err(ErrUnSupportDate);
    }
    var (e, okEnd) := ValidateDate(end, tb.minDay, tb.maxDay);
    if !okEnd {
      return Err(ErrUnSupportDate);
    }
    var list: seq<Date> := [];
    if includeWeekends {
      list := GetDates(s.date, e.date, HolidayTest(tb));
      HolidaysInRange(tb, s.date, e.date);
    } else {
      var days := Ordinal(e.date) - Ordinal(s.date) + 1;
      var i := 0;
      while i < days
        invariant 0 <= i <= DayCount(s.date, e.date)
        invariant list == Filter(HolidayKeyTest(tb), Span(s.date, i))
      {
        var t := AddDays(s.date, i);
        FilterStep(HolidayKeyTest(tb), s.date, i);
        if t in tb.holidays {
          list := list + [t];
        }
        i := i + 1;
      }
      assert Span(s.date, i) == DayRange(s.date, e.date);
      FilterRange(HolidayKeyTest(tb), s.date, e.date);
    }
    return Ok(list);
  }

  /** `GetWorkdays`: an error unless both ends are supported; otherwise every workday of [start, end]. */
  method GetWorkdays(tb: Tables, start: Time, end: Time) returns (r: Result<seq<Date>>)
    ensures r.Err? <==> !Supported(tb, start) || !Supported(tb, end)
    ensures r.Ok? ==> r.value == Filter(WorkdayTest(tb), DayRange(start.date, end.date))
    ensures r.Ok? ==> StrictlyAscending(r.value)
    ensures r.Ok? ==> forall d: Date :: d in r.value <==>
              Ordinal(start.date) <= Ordinal(d) <= Ordinal(end.date) && IsWorkdayOn(tb, d)
  {
    var (s, okStart) := ValidateDate(start, tb.minDay, tb.maxDay);
    if !okStart {
      return Err(ErrUnSupportDate);
    }
    var (e, okEnd) := ValidateDate(end, tb.minDay, tb.maxDay);
    if !okEnd {
      return Err(ErrUnSupportDate);
    }
    var list := GetDates(s.date, e.date, WorkdayTest(tb));
    return Ok(list);
  }

  /**
   * For supported ends, the holidays-with-weekends of [start, end] and its
   * workdays have no day in common and together hold every day of the interval.
   */
  lemma HolidaysAndWorkdaysPartition(tb: Tables, start: Time, end: Time)
    requires Supported(tb, start) && Supported(tb, end)
    ensures var hs := Filter(HolidayTest(tb), DayRange(start.date, end.date));
            var ws := Filter(WorkdayTest(tb), DayRange(start.date, end.date));
            && (forall d :: d in hs ==> d !in ws)
            && (forall d :: d in DayRange(start.date, end.date) <==> d in hs || d in ws)
  {
    var range := DayRange(start.date, end.date);
    DayRangeMembers(start.date, end.date);
    FilterMembers(HolidayTest(tb), range);
    FilterMembers(WorkdayTest(tb), range);
    forall d | d in range
      ensures HolidayTest(tb)(d) != WorkdayTest(tb)(d)
    {
      ValidateBetween(start.date, end.date, d, 0, tb.minDay, tb.maxDay);
    }
  }
}
