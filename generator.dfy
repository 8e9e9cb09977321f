/**
 * The arrangement builder: per-year decree chains (`yearAt`, the holiday
 * markers, `rest`/`work`/`inLieu` and `to`) are applied to a builder that keeps
 * a context (year, last month and day, last day type, current holiday) and
 * three date-keyed tables; a final scan computes the bounds of all keys and the
 * sorted key lists that the generated package state is printed from.
 *
 * The step functions below say what each operation does to the builder's
 * fields as one value (`Snapshot`); the class `Arrangement` performs the same
 * operations in place and is proved against them.
 */
module Generator {
  import opened Dates
  import opened Holidays
  import opened Sorting

  const DateTypeWorkday := 1
  const DateTypeHoliday := 2
  const DateTypeInLieu := 3

  predicate IsDayType(t: int) {
    t == DateTypeWorkday || t == DateTypeHoliday || t == DateTypeInLieu
  }

  /** Why a chain aborts; each is one of the builder's panics. */
  datatype Panic =
    | YearNotSet     // "should set year before saving holiday"
    | HolidayNotSet  // "should set holiday before saving holiday"
    | DateNotSet     // "should set year, month, day before saving holiday"
    | EndBeforeStart // "end date should be after start date"

  /** The builder's tables and chain context as one value. */
  datatype Snapshot = Snapshot(
    holidays: map<Date, Holiday>,
    workdays: map<Date, Holiday>,
    inLieuDays: map<Date, Holiday>,
    year: int,
    month: int,
    day: int,
    holiday: Holiday,
    dayType: int)

  datatype Outcome = Done(state: Snapshot) | Panicked(reason: Panic)

  /** The state `newArragement` starts from. */
  const Fresh: Snapshot := Snapshot(map[], map[], map[], 0, 0, 0, NoHoliday, 0)

  /** The chain context alone, with the tables emptied. */
  function Context(s: Snapshot): Snapshot {
    s.(holidays := map[], workdays := map[], inLieuDays := map[])
  }

  /** The table a day type selects (none for any other value). */
  function Table(s: Snapshot, dayType: int): map<Date, Holiday> {
    if dayType == DateTypeHoliday then s.holidays
    else if dayType == DateTypeWorkday then s.workdays
    else if dayType == DateTypeInLieu then s.inLieuDays
    else map[]
  }

  /** Every table other than the one `dayType` selects is the same in `s` and `r`. */
  predicate OthersKept(s: Snapshot, r: Snapshot, dayType: int) {
    && (dayType != DateTypeHoliday ==> r.holidays == s.holidays)
    && (dayType != DateTypeWorkday ==> r.workdays == s.workdays)
    && (dayType != DateTypeInLieu ==> r.inLieuDays == s.inLieuDays)
  }

  /** Every key of `keys` mapped to `h`. */
  function Fill(keys: seq<Date>, h: Holiday): map<Date, Holiday> {
    map k | k in keys :: h
  }

  /** `m` with every key of `keys` set to `h`. */
  function Put(m: map<Date, Holiday>, keys: seq<Date>, h: Holiday): map<Date, Holiday> {
    m + Fill(keys, h)
  }

  /**
   * The `switch dayType` of `to`: writes `h` at every key of `keys` into the
   * selected table, overwriting what was there; any other day type writes
   * nothing.
   */
  function Write(s: Snapshot, dayType: int, keys: seq<Date>, h: Holiday): (r: Snapshot)
    ensures Context(r) == Context(s)
    ensures OthersKept(s, r, dayType)
  {
    if dayType == DateTypeHoliday then s.(holidays := Put(s.holidays, keys, h))
    else if dayType == DateTypeWorkday then s.(workdays := Put(s.workdays, keys, h))
    else if dayType == DateTypeInLieu then s.(inLieuDays := Put(s.inLieuDays, keys, h))
    else s
  }

  /**
   * `save(month, day, dayType)`: fails unless a year and a named holiday are
   * set; otherwise records (month, day, dayType) as the context of a following
   * `to` and sets the day (year, month, day) to the current holiday in exactly
   * the table the day type selects, overwriting an earlier entry.
   */
  function SaveStep(s: Snapshot, month: int, day: int, dayType: int): (r: Outcome)
    ensures r.Panicked? <==> s.year == 0 || s.holiday.Name() == ""
    ensures r.Panicked? ==> r.reason == if s.year == 0 then YearNotSet else HolidayNotSet
    ensures r.Done? ==> Context(r.state) == Context(s).(month := month, day := day, dayType := dayType)
    ensures r.Done? ==> OthersKept(s, r.state, dayType)
    ensures r.Done? && IsDayType(dayType) ==>
              Table(r.state, dayType) == Table(s, dayType)[FromCivil(s.year, month, day) := s.holiday]
  {
    if s.year == 0 then Panicked(YearNotSet)
    else if s.holiday.Name() == "" then Panicked(HolidayNotSet)
    else
      var key := FromCivil(s.year, month, day);
      var c := s.(month := month, day := day, dayType := dayType);
      if dayType == DateTypeHoliday then Done(c.(holidays := s.holidays[key := s.holiday]))
      else if dayType == DateTypeWorkday then Done(c.(workdays := s.workdays[key := s.holiday]))
      else if dayType == DateTypeInLieu then Done(c.(inLieuDays := s.inLieuDays[key := s.holiday]))
      else Done(c)
  }

  /** The day the last `save` recorded, as `to` rebuilds it. */
  function StartDate(s: Snapshot): Date {
    FromCivil(s.year, s.month, s.day)
  }

  /**
   * `after` is `before` with every day from `start` through `end`, inclusive,
   * set to `h`, and with no other change.
   */
  ghost predicate SetsRange(before: map<Date, Holiday>, after: map<Date, Holiday>, start: Date, end: Date, h: Holiday) {
    && (forall k: Date {:trigger k in after} :: k in after <==> k in before || Ordinal(start) <= Ordinal(k) <= Ordinal(end))
    && (forall k: Date {:trigger k in after} :: Ordinal(start) <= Ordinal(k) <= Ordinal(end) ==> k in after && after[k] == h)
    && (forall k: Date {:trigger k in before} :: k in before && !(Ordinal(start) <= Ordinal(k) <= Ordinal(end)) ==>
          k in after && after[k] == before[k])
  }

  lemma FillRange(m: map<Date, Holiday>, start: Date, end: Date, h: Holiday)
    ensures SetsRange(m, Put(m, DayRange(start, end), h), start, end, h)
  {
    DayRangeMembers(start, end);
  }

  /**
   * `to(month, day)`: fails unless year, month and day are set and the end day
   * (year, month, day) is not before the saved day; otherwise every day from
   * the saved day through the end day, inclusive, is set to the current holiday
   * in the table of the saved day type, no other key changes, and the context
   * is left as it was.
   */
  function ToStep(s: Snapshot, month: int, day: int): (r: Outcome)
    ensures r.Panicked? <==>
              s.year == 0 || s.month == 0 || s.day == 0 || Before(FromCivil(s.year, month, day), StartDate(s))
    ensures r.Panicked? ==>
              r.reason == if s.year == 0 || s.month == 0 || s.day == 0 then DateNotSet else EndBeforeStart
    ensures r.Done? ==> Context(r.state) == Context(s)
    ensures r.Done? ==> OthersKept(s, r.state, s.dayType)
    ensures r.Done? && IsDayType(s.dayType) ==>
              SetsRange(Table(s, s.dayType), Table(r.state, s.dayType), StartDate(s), FromCivil(s.year, month, day), s.holiday)
  {
    if s.year == 0 || s.month == 0 || s.day == 0 then Panicked(DateNotSet)
    else
      var start, end := StartDate(s), FromCivil(s.year, month, day);
      if Before(end, start) then Panicked(EndBeforeStart)
      else
        FillRange(Table(s, s.dayType), start, end, s.holiday);
        Done(Write(s, s.dayType, DayRange(start, end), s.holiday))
  }

  /** One operation of a decree chain; the markers `nyd` … `afd` are their own operations. */
  datatype Decree =
    | YearAt(year: int)
    | Mark(holiday: Holiday)
    | Nyd | Sf | Tsd | Ld | Dbf | Nd | Maf | Afd
    | Work(month: int, day: int)
    | Rest(month: int, day: int)
    | InLieu(month: int, day: int)
    | To(month: int, day: int)

  predicate IsMarker(op: Decree) {
    op.Nyd? || op.Sf? || op.Tsd? || op.Ld? || op.Dbf? || op.Nd? || op.Maf? || op.Afd?
  }

  /** The holiday each marker sets; `afd` sets National Day, as the builder does. */
  function MarkerHoliday(op: Decree): (h: Holiday)
    requires IsMarker(op)
    ensures IsEnumerated(h) && h in FieldNames
    ensures h != AntiFascist70thDay && h.Name() != ""
  {
    match op
    case Nyd => NewYearsDay
    case Sf => SpringFestival
    case Tsd => TombSweepingDay
    case Ld => LabourDay
    case Dbf => DragonBoatFestival
    case Nd => NationalDay
    case Maf => MidAutumnFestival
    case Afd => NationalDay
  }

  /** The operations that write a table; only these can panic. */
  predicate IsWrite(op: Decree) {
    op.Work? || op.Rest? || op.InLieu? || op.To?
  }

  /** The three tables of `s` and `r` are the same. */
  predicate SameTables(s: Snapshot, r: Snapshot) {
    r.holidays == s.holidays && r.workdays == s.workdays && r.inLieuDays == s.inLieuDays
  }

  /** Every key of every table of `s` is still a key of the same table in `r`. */
  predicate KeysKept(s: Snapshot, r: Snapshot) {
    s.holidays.Keys <= r.holidays.Keys && s.workdays.Keys <= r.workdays.Keys && s.inLieuDays.Keys <= r.inLieuDays.Keys
  }

  /**
   * One operation: only `work`, `rest`, `inLieu` and `to` can panic or change
   * a table, and none of them drops a key.
   */
  function Step(s: Snapshot, op: Decree): (r: Outcome)
    ensures r.Panicked? ==> IsWrite(op)
    ensures !IsWrite(op) ==> r.Done? && SameTables(s, r.state)
    ensures r.Done? ==> KeysKept(s, r.state)
  {
    match op
    case YearAt(y) => Done(s.(year := y))
    case Mark(h) => Done(s.(holiday := h))
    case Work(m, d) => SaveStep(s, m, d, DateTypeWorkday)
    case Rest(m, d) => SaveStep(s, m, d, DateTypeHoliday)
    case InLieu(m, d) => SaveStep(s, m, d, DateTypeInLieu)
    case To(m, d) => ToStep(s, m, d)
    case _ => Done(s.(holiday := MarkerHoliday(op)))
  }

  /** Applies a chain in order; the first panic ends it. */
  function Run(s: Snapshot, ops: seq<Decree>): (r: Outcome)
    ensures r.Done? ==> KeysKept(s, r.state)
  {
    if ops == [] then Done(s)
    else
      match Run(s, ops[..|ops| - 1])
      case Done(s') => Step(s', ops[|ops| - 1])
      case Panicked(p) => Panicked(p)
  }

  /** A chain with no `work`, `rest`, `inLieu` or `to` never panics and leaves the tables alone. */
  lemma {:induction false} RunWithoutWrites(s: Snapshot, ops: seq<Decree>)
    requires forall i :: 0 <= i < |ops| ==> !IsWrite(ops[i])
    ensures Run(s, ops).Done? && SameTables(s, Run(s, ops).state)
    decreases |ops|
  {
    if ops != [] {
      RunWithoutWrites(s, ops[..|ops| - 1]);
      assert !IsWrite(ops[|ops| - 1]);
    }
  }

  /** Appending an operation runs it on the outcome so far. */
  lemma RunAppend(s: Snapshot, ops: seq<Decree>, op: Decree)
    ensures Run(s, ops + [op]) == if Run(s, ops).Done? then Step(Run(s, ops).state, op) else Run(s, ops)
  {
    assert (ops + [op])[..|ops|] == ops;
  }

  /** The field names the generated code uses for each holiday (`HolidayFieldMap`). */
  const FieldNames: map<Holiday, string> := map[
    NewYearsDay := "NewYearsDay",
    SpringFestival := "SpringFestival",
    TombSweepingDay := "TombSweepingDay",
    LabourDay := "LabourDay",
    DragonBoatFestival := "DragonBoatFestival",
    NationalDay := "NationalDay",
    MidAutumnFestival := "MidAutumnFestival"
  ]

  // ---------------------------------------------------------------------------
  // Properties of the step functions

  /** Marking any enumerated holiday, with a year set, lets `save` through; the zero holiday never does. */
  lemma MarkedHolidaySaves(s: Snapshot, h: Holiday, month: int, day: int, dayType: int)
    requires s.year != 0
    ensures IsEnumerated(h) ==> SaveStep(s.(holiday := h), month, day, dayType).Done?
    ensures SaveStep(s.(holiday := NoHoliday), month, day, dayType) == Panicked(HolidayNotSet)
  {
    EnumeratedHolidaysAreNamed(h);
  }

  /** Writing the same keys twice is writing them once. */
  lemma WriteTwice(s: Snapshot, t: int, keys: seq<Date>, h: Holiday)
    ensures Write(Write(s, t, keys, h), t, keys, h) == Write(s, t, keys, h)
  {
    var m := Table(s, t);
    assert Put(Put(m, keys, h), keys, h) == Put(m, keys, h);
  }

  /** Writes of the same holiday commute. */
  lemma WriteCommutes(s: Snapshot, t: int, ka: seq<Date>, kb: seq<Date>, h: Holiday)
    ensures Write(Write(s, t, ka, h), t, kb, h) == Write(Write(s, t, kb, h), t, ka, h)
  {
    if t == DateTypeHoliday {
      PutCommutes(s.holidays, ka, kb, h);
    } else if t == DateTypeWorkday {
      PutCommutes(s.workdays, ka, kb, h);
    } else if t == DateTypeInLieu {
      PutCommutes(s.inLieuDays, ka, kb, h);
    }
  }

  lemma PutCommutes(m: map<Date, Holiday>, ka: seq<Date>, kb: seq<Date>, h: Holiday)
    ensures Put(Put(m, ka, h), kb, h) == Put(Put(m, kb, h), ka, h)
  {
    var l, r := Put(Put(m, ka, h), kb, h), Put(Put(m, kb, h), ka, h);
    assert forall k :: k in l <==> k in r;
    assert forall k :: k in l ==> l[k] == r[k];
  }

  /** A repeated `to` changes nothing more: it starts from the same saved day. */
  lemma ToIdempotent(s: Snapshot, month: int, day: int)
    requires ToStep(s, month, day).Done?
    ensures ToStep(ToStep(s, month, day).state, month, day) == ToStep(s, month, day)
  {
    var t, h := s.dayType, s.holiday;
    var keys := DayRange(StartDate(s), FromCivil(s.year, month, day));
    var a := Write(s, t, keys, h);
    assert ToStep(s, month, day) == Done(a);
    assert ToStep(a, month, day) == Done(Write(a, t, keys, h));
    WriteTwice(s, t, keys, h);
  }

  /**
   * Two `to`s after one `save` both start from the saved day, so they can be
   * applied in either order with the same result.
   */
  lemma ToFromSameStart(s: Snapshot, m1: int, d1: int, m2: int, d2: int)
    requires ToStep(s, m1, d1).Done? && ToStep(s, m2, d2).Done?
    ensures ToStep(ToStep(s, m1, d1).state, m2, d2) == ToStep(ToStep(s, m2, d2).state, m1, d1)
  {
    var t, h := s.dayType, s.holiday;
    var ka := DayRange(StartDate(s), FromCivil(s.year, m1, d1));
    var kb := DayRange(StartDate(s), FromCivil(s.year, m2, d2));
    var a, b := Write(s, t, ka, h), Write(s, t, kb, h);
    assert ToStep(s, m1, d1) == Done(a);
    assert ToStep(s, m2, d2) == Done(b);
    assert ToStep(a, m2, d2) == Done(Write(a, t, kb, h));
    assert ToStep(b, m1, d1) == Done(Write(b, t, ka, h));
    WriteCommutes(s, t, ka, kb, h);
  }

  /**
   * Nothing keeps the holiday and workday tables apart: a `rest` and a `work`
   * of the same day leave it in both.
   */
  lemma HolidayAndWorkdayMayOverlap(y: int, month: int, day: int)
    requires y != 0
    ensures var r := Run(Fresh, [YearAt(y), Nyd, Rest(month, day), Work(month, day)]);
            r.Done? && FromCivil(y, month, day) in r.state.holidays && FromCivil(y, month, day) in r.state.workdays
  {
    var s3 := RestOnce(y, month, day);
    var ops := [YearAt(y), Nyd, Rest(month, day)];
    RunAppend(Fresh, ops, Work(month, day));
    assert ops + [Work(month, day)] == [YearAt(y), Nyd, Rest(month, day), Work(month, day)];
    EnumeratedHolidaysAreNamed(NewYearsDay);
    assert Step(s3, Work(month, day)) == SaveStep(s3, month, day, DateTypeWorkday);
  }

  /**
   * `rest(1, 1)` then `to(1, 3)` in any year gives the holiday table exactly
   * January 1 to 3 of that year, and the other tables stay empty.
   */
  lemma RestThenToExample(y: int)
    requires y != 0
    ensures var r := Run(Fresh, [YearAt(y), Nyd, Rest(1, 1), To(1, 3)]);
            && r.Done?
            && r.state.holidays == map[Ymd(y, 1, 1) := NewYearsDay, Ymd(y, 1, 2) := NewYearsDay, Ymd(y, 1, 3) := NewYearsDay]
            && r.state.workdays == map[] && r.state.inLieuDays == map[]
  {
    var s3 := RestOnce(y, 1, 1);
    assert FromCivil(y, 1, 1) == Ymd(y, 1, 1);
    var s4 := ToFirstDaysOfJanuary(y, s3);
    RunAppend(Fresh, [YearAt(y), Nyd, Rest(1, 1)], To(1, 3));
    assert [YearAt(y), Nyd, Rest(1, 1)] + [To(1, 3)] == [YearAt(y), Nyd, Rest(1, 1), To(1, 3)];
    PutThree(s3.holidays, Ymd(y, 1, 1), Ymd(y, 1, 2), Ymd(y, 1, 3), NewYearsDay);
  }

  lemma ToFirstDaysOfJanuary(y: int, s3: Snapshot) returns (s4: Snapshot)
    requires y != 0
    requires s3 == Fresh.(year := y, month := 1, day := 1, dayType := DateTypeHoliday, holiday := NewYearsDay,
                          holidays := map[Ymd(y, 1, 1) := NewYearsDay])
    ensures s4 == Write(s3, DateTypeHoliday, [Ymd(y, 1, 1), Ymd(y, 1, 2), Ymd(y, 1, 3)], NewYearsDay)
    ensures Step(s3, To(1, 3)) == Done(s4)
  {
    var keys := FirstDaysOfJanuary(y);
    s4 := Write(s3, DateTypeHoliday, keys, NewYearsDay);
    assert StartDate(s3) == Ymd(y, 1, 1);
    assert FromCivil(y, 1, 3) == Ymd(y, 1, 3);
    assert ToStep(s3, 1, 3) == Done(s4);
    StepTo(s3, 1, 3);
  }

  lemma StepTo(s: Snapshot, m: int, d: int)
    ensures Step(s, To(m, d)) == ToStep(s, m, d)
  {
  }

  lemma PutThree(m: map<Date, Holiday>, a: Date, b: Date, c: Date, h: Holiday)
    ensures Put(m, [a, b, c], h) == m[a := h][b := h][c := h]
  {
  }

  /** `yearAt(y).nyd().rest(month, day)` from a new builder. */
  lemma RestOnce(y: int, month: int, day: int) returns (s3: Snapshot)
    requires y != 0
    ensures s3 == Fresh.(year := y, month := month, day := day, dayType := DateTypeHoliday, holiday := NewYearsDay,
                         holidays := map[FromCivil(y, month, day) := NewYearsDay])
    ensures Run(Fresh, [YearAt(y), Nyd, Rest(month, day)]) == Done(s3)
  {
    EnumeratedHolidaysAreNamed(NewYearsDay);
    s3 := Fresh.(year := y, month := month, day := day, dayType := DateTypeHoliday, holiday := NewYearsDay,
                 holidays := map[FromCivil(y, month, day) := NewYearsDay]);
    RunAppend(Fresh, [], YearAt(y));
    assert [] + [YearAt(y)] == [YearAt(y)];
    RunAppend(Fresh, [YearAt(y)], Nyd);
    assert [YearAt(y)] + [Nyd] == [YearAt(y), Nyd];
    RunAppend(Fresh, [YearAt(y), Nyd], Rest(month, day));
    assert [YearAt(y), Nyd] + [Rest(month, day)] == [YearAt(y), Nyd, Rest(month, day)];
  }

  lemma FirstDaysOfJanuary(y: int) returns (keys: seq<Date>)
    ensures StartDate(Fresh.(year := y, month := 1, day := 1)) == Ymd(y, 1, 1)
    ensures keys == DayRange(Ymd(y, 1, 1), FromCivil(y, 1, 3))
    ensures keys == [Ymd(y, 1, 1), Ymd(y, 1, 2), Ymd(y, 1, 3)]
  {
    assert FromCivil(y, 1, 3) == Ymd(y, 1, 3);
    keys := DayRange(Ymd(y, 1, 1), Ymd(y, 1, 3));
    assert |keys| == 3;
    assert keys[0] == FromCivil(y, 1, 1);
    assert keys[1] == FromCivil(y, 1, 2);
    assert keys[2] == FromCivil(y, 1, 3);
  }

  /** What `to` and `save` both return: whether the chain goes on. */
  datatype Status = Continue | Abort(reason: Panic)

  function StatusOf(o: Outcome): Status {
    if o.Done? then Continue else Abort(o.reason)
  }

  /** The state after an operation: the new one, or the old one when it panicked. */
  function After(o: Outcome, s: Snapshot): Snapshot {
    if o.Done? then o.state else s
  }

  /** The builder (`arrangement`), updated in place by decree chains and the final scan. */
  class Arrangement {
    var holidays: map<Date, Holiday>
    var workdays: map<Date, Holiday>
    var inLieuDays: map<Date, Holiday>
    var holidayList: seq<Date>
    var workdayList: seq<Date>
    var inLieuDayList: seq<Date>
    var holidayFieldMap: map<Holiday, string>
    var maxDay: Date
    var minDay: Date

    var year: int
    var month: int
    var day: int
    var holiday: Holiday
    var dayType: int

    ghost function State(): Snapshot
      reads this`holidays, this`workdays, this`inLieuDays, this`year, this`month, this`day, this`holiday, this`dayType
    {
      Snapshot(holidays, workdays, inLieuDays, year, month, day, holiday, dayType)
    }

    /** `newArragement`: empty tables and lists, MinDay 2099-01-01, MaxDay the zero time. */
    constructor ()
      ensures State() == Fresh
      ensures holidayList == [] && workdayList == [] && inLieuDayList == []
      ensures holidayFieldMap == FieldNames
      ensures minDay == Ymd(2099, 1, 1) && maxDay == ZeroTime.date
    {
      holidays, workdays, inLieuDays := map[], map[], map[];
      holidayList, workdayList, inLieuDayList := [], [], [];
      holidayFieldMap := FieldNames;
      maxDay := ZeroTime.date;
      minDay := Ymd(2099, 1, 1);
      year, month, day, holiday, dayType := 0, 0, 0, NoHoliday, 0;
    }

    method YearAt(y: int)
      modifies this`year
      ensures State() == old(State()).(year := y)
    {
      year := y;
    }

    method Mark(h: Holiday)
      modifies this`holiday
      ensures State() == old(State()).(holiday := h)
    {
      holiday := h;
    }

    method Nyd()
      modifies this`holiday
      ensures State() == old(State()).(holiday := NewYearsDay)
    {
      Mark(NewYearsDay);
    }

    method Sf()
      modifies this`holiday
      ensures State() == old(State()).(holiday := SpringFestival)
    {
      Mark(SpringFestival);
    }

    method Tsd()
      modifies this`holiday
      ensures State() == old(State()).(holiday := TombSweepingDay)
    {
      Mark(TombSweepingDay);
    }

    method Ld()
      modifies this`holiday
      ensures State() == old(State()).(holiday := LabourDay)
    {
      Mark(LabourDay);
    }

    method Dbf()
      modifies this`holiday
      ensures State() == old(State()).(holiday := DragonBoatFestival)
    {
      Mark(DragonBoatFestival);
    }

    method Nd()
      modifies this`holiday
      ensures State() == old(State()).(holiday := NationalDay)
    {
      Mark(NationalDay);
    }

    method Maf()
      modifies this`holiday
      ensures State() == old(State()).(holiday := MidAutumnFestival)
    {
      Mark(MidAutumnFestival);
    }

    /** Marks National Day, not the Anti-Fascist 70th Day its name suggests. */
    method Afd()
      modifies this`holiday
      ensures State() == old(State()).(holiday := NationalDay)
    {
      Mark(NationalDay);
    }

    method Save(m: int, d: int, t: int) returns (status: Status)
      modifies this`month, this`day, this`dayType, this`holidays, this`workdays, this`inLieuDays
      ensures status == StatusOf(SaveStep(old(State()), m, d, t))
      ensures State() == After(SaveStep(old(State()), m, d, t), old(State()))
    {
      if year == 0 {
        return Abort(YearNotSet);
      }
      if holiday.Name() == "" {
        return Abort(HolidayNotSet);
      }
      month, day, dayType := m, d, t;
      var key := FromCivil(year, m, d);
      if t == DateTypeHoliday {
        holidays := holidays[key := holiday];
      } else if t == DateTypeWorkday {
        workdays := workdays[key := holiday];
      } else if t == DateTypeInLieu {
        inLieuDays := inLieuDays[key := holiday];
      }
      return Continue;
    }

    method Work(m: int, d: int) returns (status: Status)
      modifies this`month, this`day, this`dayType, this`holidays, this`workdays, this`inLieuDays
      ensures status == StatusOf(SaveStep(old(State()), m, d, DateTypeWorkday))
      ensures State() == After(SaveStep(old(State()), m, d, DateTypeWorkday), old(State()))
    {
      status := Save(m, d, DateTypeWorkday);
    }

    method Rest(m: int, d: int) returns (status: Status)
      modifies this`month, this`day, this`dayType, this`holidays, this`workdays, this`inLieuDays
      ensures status == StatusOf(SaveStep(old(State()), m, d, DateTypeHoliday))
      ensures State() == After(SaveStep(old(State()), m, d, DateTypeHoliday), old(State()))
    {
      status := Save(m, d, DateTypeHoliday);
    }

    method InLieu(m: int, d: int) returns (status: Status)
      modifies this`month, this`day, this`dayType, this`holidays, this`workdays, this`inLieuDays
      ensures status == StatusOf(SaveStep(old(State()), m, d, DateTypeInLieu))
      ensures State() == After(SaveStep(old(State()), m, d, DateTypeInLieu), old(State()))
    {
      status := Save(m, d, DateTypeInLieu);
    }

    method To(m: int, d: int) returns (status: Status)
      modifies this`holidays, this`workdays, this`inLieuDays
      ensures status == StatusOf(ToStep(old(State()), m, d))
      ensures State() == After(ToStep(old(State()), m, d), old(State()))
    {
      if year == 0 || month == 0 || day == 0 {
        return Abort(DateNotSet);
      }
      var startDate := FromCivil(year, month, day);
      var endDate := FromCivil(year, m, d);
      if Before(endDate, startDate) {
        return Abort(EndBeforeStart);
      }
      var days := Ordinal(endDate) - Ordinal(startDate) + 1;
      var i := 0;
      ghost var written: seq<Date> := [];
      PutNothing(holidays, holiday);
      PutNothing(workdays, holiday);
      PutNothing(inLieuDays, holiday);
      while i < days
        invariant 0 <= i <= days
        invariant written == Span(startDate, i)
        invariant holidays == if dayType == DateTypeHoliday then Put(old(holidays), written, holiday) else old(holidays)
        invariant workdays == if dayType == DateTypeWorkday then Put(old(workdays), written, holiday) else old(workdays)
        invariant inLieuDays == if dayType == DateTypeInLieu then Put(old(inLieuDays), written, holiday) else old(inLieuDays)
      {
        var t := AddDays(startDate, i);
        SpanOneMore(startDate, i);
        PutOneMore(old(holidays), written, t, holiday);
        PutOneMore(old(workdays), written, t, holiday);
        PutOneMore(old(inLieuDays), written, t, holiday);
        if dayType == DateTypeHoliday {
          holidays := holidays[t := holiday];
        } else if dayType == DateTypeWorkday {
          workdays := workdays[t := holiday];
        } else if dayType == DateTypeInLieu {
          inLieuDays := inLieuDays[t := holiday];
        }
        written := written + [t];
        i := i + 1;
      }
      assert Span(startDate, i) == DayRange(startDate, endDate);
      assert ToStep(old(State()), m, d) == Done(Write(old(State()), dayType, DayRange(startDate, endDate), holiday));
      return Continue;
    }

    /** One operation of a chain, on the builder. */
    method Apply(op: Decree) returns (status: Status)
      modifies this`year, this`month, this`day, this`dayType, this`holiday, this`holidays, this`workdays, this`inLieuDays
      ensures status == StatusOf(Step(old(State()), op))
      ensures State() == After(Step(old(State()), op), old(State()))
    {
      match op
      case YearAt(y) => { this.YearAt(y); status := Continue; }
      case Mark(h) => { this.Mark(h); status := Continue; }
      case Nyd => { this.Nyd(); status := Continue; }
      case Sf => { this.Sf(); status := Continue; }
      case Tsd => { this.Tsd(); status := Continue; }
      case Ld => { this.Ld(); status := Continue; }
      case Dbf => { this.Dbf(); status := Continue; }
      case Nd => { this.Nd(); status := Continue; }
      case Maf => { this.Maf(); status := Continue; }
      case Afd => { this.Afd(); status := Continue; }
      case Work(m, d) => { status := this.Work(m, d); }
      case Rest(m, d) => { status := this.Rest(m, d); }
      case InLieu(m, d) => { status := this.InLieu(m, d); }
      case To(m, d) => { status := this.To(m, d); }
    }

    /** A whole decree chain, in order, stopping at its first panic. */
    method ApplyChain(ops: seq<Decree>) returns (status: Status)
      modifies this`year, this`month, this`day, this`dayType, this`holiday, this`holidays, this`workdays, this`inLieuDays
      ensures status == StatusOf(Run(old(State()), ops))
      ensures status.Continue? ==> State() == Run(old(State()), ops).state
    {
      var i := 0;
      while i < |ops|
        invariant 0 <= i <= |ops|
        invariant Run(old(State()), ops[..i]) == Done(State())
      {
        ghost var before := State();
        status := Apply(ops[i]);
        ChainStep(old(State()), ops, i, before, status, State());
        if status.Abort? {
          return;
        }
        i := i + 1;
      }
      assert ops[..i] == ops;
      status := Continue;
    }

    /**
     * The scan that ends `generateHolidays`, on the empty lists of a new
     * arrangement: afterwards every key lies within [minDay, maxDay], each
     * bound is a key unless it kept its old value, and each list holds exactly
     * its table's keys, each once, in ascending order.
     */
    method Scan()
      requires holidayList == [] && workdayList == [] && inLieuDayList == []
      modifies this`minDay, this`maxDay, this`holidayList, this`workdayList, this`inLieuDayList
      ensures WithinBounds(holidays, minDay, maxDay) && WithinBounds(workdays, minDay, maxDay)
      ensures WithinBounds(inLieuDays, minDay, maxDay)
      ensures Ordinal(minDay) <= Ordinal(old(minDay)) && Ordinal(old(maxDay)) <= Ordinal(maxDay)
      ensures minDay == old(minDay) || minDay in holidays || minDay in workdays || minDay in inLieuDays
      ensures maxDay == old(maxDay) || maxDay in holidays || maxDay in workdays || maxDay in inLieuDays
      ensures ListsKeys(holidayList, holidays) && ListsKeys(workdayList, workdays)
      ensures ListsKeys(inLieuDayList, inLieuDays)
    {
      holidayList, workdayList, inLieuDayList, minDay, maxDay :=
        ScanFresh(holidays, workdays, inLieuDays, minDay, maxDay);
    }

    /**
     * `generateHolidays`: runs the yearly chains (given here already joined,
     * in the order reflection finds them), then the scan.
     */
    method GenerateHolidays(chains: seq<Decree>) returns (status: Status)
      requires holidayList == [] && workdayList == [] && inLieuDayList == []
      modifies this
      ensures holidayFieldMap == old(holidayFieldMap)
      ensures status == StatusOf(Run(old(State()), chains))
      ensures status.Continue? ==> State() == Run(old(State()), chains).state
      ensures status.Continue? ==> AllWithinBounds(State(), minDay, maxDay)
      ensures status.Continue? ==> Ordinal(minDay) <= Ordinal(old(minDay)) && Ordinal(old(maxDay)) <= Ordinal(maxDay)
      ensures status.Continue? ==> minDay == old(minDay) || IsKey(State(), minDay)
      ensures status.Continue? ==> maxDay == old(maxDay) || IsKey(State(), maxDay)
      ensures status.Continue? ==> ListsKeys(holidayList, holidays) && ListsKeys(workdayList, workdays)
      ensures status.Continue? ==> ListsKeys(inLieuDayList, inLieuDays)
    {
      status := ApplyChain(chains);
      assert holidayFieldMap == old(holidayFieldMap);
      if status.Continue? {
        ghost var ran := State();
        Scan();
        assert State() == ran;
      }
    }
  }

  /**
   * The closure `fn` of `generateHolidays`, with the builder's bounds passed
   * in and returned: widens [lo, hi] over the keys of `m` and appends every
   * key to `list`, in some order.
   */
  method CollectKeys(m: map<Date, Holiday>, list: seq<Date>, lo: Date, hi: Date) returns (r: seq<Date>, lo': Date, hi': Date)
    ensures |list| <= |r| && r[..|list|] == list
    ensures multiset(r) == multiset(list) + multiset(m.Keys)
    ensures WithinBounds(m, lo', hi')
    ensures Ordinal(lo') <= Ordinal(lo) && (lo' == lo || lo' in m)
    ensures Ordinal(hi) <= Ordinal(hi') && (hi' == hi || hi' in m)
  {
    r, lo', hi' := list, lo, hi;
    var rest := m.Keys;
    while rest != {}
      invariant rest <= m.Keys
      invariant |list| <= |r| && r[..|list|] == list
      invariant multiset(r) + multiset(rest) == multiset(list) + multiset(m.Keys)
      invariant forall k {:trigger k in m} :: k in m && k !in rest ==> Ordinal(lo') <= Ordinal(k) <= Ordinal(hi')
      invariant Ordinal(lo') <= Ordinal(lo) && (lo' == lo || lo' in m)
      invariant Ordinal(hi) <= Ordinal(hi') && (hi' == hi || hi' in m)
      decreases |rest|
    {
      var k :| k in rest;
      if Before(k, lo') {
        lo' := k;
      }
      if Before(hi', k) {
        hi' := k;
      }
      r := r + [k];
      assert multiset(rest - {k}) + multiset{k} == multiset(rest);
      rest := rest - {k};
    }
  }

  /** `fn` on the three tables in turn, threading the bounds through. */
  method CollectTables(hm: map<Date, Holiday>, wm: map<Date, Holiday>, im: map<Date, Holiday>,
                       hl: seq<Date>, wl: seq<Date>, il: seq<Date>, lo: Date, hi: Date)
    returns (h: seq<Date>, w: seq<Date>, l: seq<Date>, lo': Date, hi': Date)
    ensures WithinBounds(hm, lo', hi') && WithinBounds(wm, lo', hi') && WithinBounds(im, lo', hi')
    ensures Ordinal(lo') <= Ordinal(lo) && (lo' == lo || lo' in hm || lo' in wm || lo' in im)
    ensures Ordinal(hi) <= Ordinal(hi') && (hi' == hi || hi' in hm || hi' in wm || hi' in im)
    ensures multiset(h) == multiset(hl) + multiset(hm.Keys)
    ensures multiset(w) == multiset(wl) + multiset(wm.Keys)
    ensures multiset(l) == multiset(il) + multiset(im.Keys)
  {
    var lo1, hi1, lo2, hi2;
    h, lo1, hi1 := CollectKeys(hm, hl, lo, hi);
    w, lo2, hi2 := CollectKeys(wm, wl, lo1, hi1);
    l, lo', hi' := CollectKeys(im, il, lo2, hi2);
    Widen(hm, lo1, hi1, lo', hi');
    Widen(wm, lo2, hi2, lo', hi');
  }

  /**
   * `Scan` on values: collect the keys and widen the bounds, then sort each
   * list; a list that started empty ends up listing its table exactly.
   */
  method ScanTables(hm: map<Date, Holiday>, wm: map<Date, Holiday>, im: map<Date, Holiday>,
                    hl: seq<Date>, wl: seq<Date>, il: seq<Date>, lo: Date, hi: Date)
    returns (h: seq<Date>, w: seq<Date>, l: seq<Date>, lo': Date, hi': Date)
    ensures WithinBounds(hm, lo', hi') && WithinBounds(wm, lo', hi') && WithinBounds(im, lo', hi')
    ensures Ordinal(lo') <= Ordinal(lo) && (lo' == lo || lo' in hm || lo' in wm || lo' in im)
    ensures Ordinal(hi) <= Ordinal(hi') && (hi' == hi || hi' in hm || hi' in wm || hi' in im)
    ensures Sorted(h) && multiset(h) == multiset(hl) + multiset(hm.Keys)
    ensures Sorted(w) && multiset(w) == multiset(wl) + multiset(wm.Keys)
    ensures Sorted(l) && multiset(l) == multiset(il) + multiset(im.Keys)
    ensures hl == [] ==> ListsKeys(h, hm)
    ensures wl == [] ==> ListsKeys(w, wm)
    ensures il == [] ==> ListsKeys(l, im)
  {
    h, w, l, lo', hi' := CollectTables(hm, wm, im, hl, wl, il, lo, hi);
    h := SortList(h);
    w := SortList(w);
    l := SortList(l);
    if hl == [] {
      SortedKeysAreStrict(h, hm.Keys);
    }
    if wl == [] {
      SortedKeysAreStrict(w, wm.Keys);
    }
    if il == [] {
      SortedKeysAreStrict(l, im.Keys);
    }
  }

  /** `ScanTables` starting from empty lists, as on a new arrangement. */
  method ScanFresh(hm: map<Date, Holiday>, wm: map<Date, Holiday>, im: map<Date, Holiday>, lo: Date, hi: Date)
    returns (h: seq<Date>, w: seq<Date>, l: seq<Date>, lo': Date, hi': Date)
    ensures WithinBounds(hm, lo', hi') && WithinBounds(wm, lo', hi') && WithinBounds(im, lo', hi')
    ensures Ordinal(lo') <= Ordinal(lo) && (lo' == lo || lo' in hm || lo' in wm || lo' in im)
    ensures Ordinal(hi) <= Ordinal(hi') && (hi' == hi || hi' in hm || hi' in wm || hi' in im)
    ensures ListsKeys(h, hm) && ListsKeys(w, wm) && ListsKeys(l, im)
  {
    h, w, l, lo', hi' := ScanTables(hm, wm, im, [], [], [], lo, hi);
  }

  /** Every key of `m` lies within [lo, hi]. */
  ghost predicate WithinBounds(m: map<Date, Holiday>, lo: Date, hi: Date) {
    forall k {:trigger k in m} :: k in m ==> Ordinal(lo) <= Ordinal(k) <= Ordinal(hi)
  }

  ghost predicate AllWithinBounds(s: Snapshot, lo: Date, hi: Date) {
    WithinBounds(s.holidays, lo, hi) && WithinBounds(s.workdays, lo, hi) && WithinBounds(s.inLieuDays, lo, hi)
  }

  predicate IsKey(s: Snapshot, k: Date) {
    k in s.holidays || k in s.workdays || k in s.inLieuDays
  }

  /** The list holds exactly the table's keys, each once, in ascending order. */
  ghost predicate ListsKeys(l: seq<Date>, m: map<Date, Holiday>) {
    StrictlyAscending(l) && forall k :: k in l <==> k in m
  }

  lemma Widen(m: map<Date, Holiday>, lo: Date, hi: Date, lo': Date, hi': Date)
    requires WithinBounds(m, lo, hi) && Ordinal(lo') <= Ordinal(lo) && Ordinal(hi) <= Ordinal(hi')
    ensures WithinBounds(m, lo', hi')
  {
  }

  /** Once a prefix of a chain panics, the whole chain ends with that panic. */
  lemma {:induction false} RunStopsAtPanic(s: Snapshot, ops: seq<Decree>, n: int)
    requires 0 <= n <= |ops| && Run(s, ops[..n]).Panicked?
    ensures Run(s, ops) == Run(s, ops[..n])
    decreases |ops|
  {
    if n < |ops| {
      var front := ops[..|ops| - 1];
      assert front[..n] == ops[..n];
      RunStopsAtPanic(s, front, n);
    } else {
      assert ops[..n] == ops;
    }
  }

  /** One more operation of a chain, applied to the state the prefix produced. */
  lemma ChainStep(s: Snapshot, ops: seq<Decree>, i: int, b: Snapshot, status: Status, r: Snapshot)
    requires 0 <= i < |ops| && Run(s, ops[..i]) == Done(b)
    requires status == StatusOf(Step(b, ops[i])) && r == After(Step(b, ops[i]), b)
    ensures status.Continue? ==> Run(s, ops[..i + 1]) == Done(r)
    ensures status.Abort? ==> status == StatusOf(Run(s, ops))
  {
    RunAppend(s, ops[..i], ops[i]);
    assert ops[..i] + [ops[i]] == ops[..i + 1];
    if status.Abort? {
      RunStopsAtPanic(s, ops, i + 1);
    }
  }

  /** `to`'s loop before its first day has written nothing. */
  lemma PutNothing(m: map<Date, Holiday>, h: Holiday)
    ensures Put(m, [], h) == m
  {
    assert Fill([], h) == map[];
  }

  /** One more day of `to`'s loop is one more single-key write. */
  lemma PutOneMore(m: map<Date, Holiday>, keys: seq<Date>, k: Date, h: Holiday)
    ensures Put(m, keys + [k], h) == Put(m, keys, h)[k := h]
  {
  }

  lemma SpanOneMore(start: Date, i: nat)
    ensures Span(start, i + 1) == Span(start, i) + [AddDays(start, i)]
  {
  }
}
