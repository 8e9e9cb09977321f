/**
 * The yearly decrees as data, and what a decree chain written for one year
 * can and cannot do: a chain without `yearAt` whose days are all real days of
 * the builder's year writes only days of that year and never removes a key.
 *
 * The decree of 2016 is kept twice: as written (it opens with `yearAt(2017)`)
 * and as evidently intended (it opens with `yearAt(2016)`).
 */
module YearlyDecrees {
  import opened Dates
  import opened Holidays
  import opened Generator

  /** The start of the 2016 decree after its `yearAt`: New Year's Day and the Spring Festival week. */
  const Y2016Opening: seq<Decree> := [Nyd, Rest(1, 1), Sf, Rest(2, 7), To(2, 13)]

  /** The rest of the 2016 decree, holiday by holiday. */
  const Y2016Remainder: seq<Decree> :=
    [Work(2, 6), Work(2, 14), InLieu(2, 11), To(2, 12)]
    + [Tsd, Rest(4, 4)]
    + [Ld, Rest(5, 1), To(5, 2)]
    + [Dbf, Rest(6, 9), To(6, 11), Work(6, 12), InLieu(6, 10)]
    + [Maf, Rest(9, 15), To(9, 17), Work(9, 18), InLieu(9, 16)]
    + [Nd, Rest(10, 1), To(10, 7), Work(10, 8), To(10, 9), InLieu(10, 6), To(10, 7)]

  /** `Y2016` as the builder's source has it: the year it sets is 2017. */
  const Y2016AsWritten: seq<Decree> := [YearAt(2017)] + Y2016Opening + Y2016Remainder

  /** `Y2016` as its decree and its name intend. */
  const Y2016: seq<Decree> := [YearAt(2016)] + Y2016Opening + Y2016Remainder

  /** The operation sets no year, and every day it names is a real day of year `y`. */
  predicate ArgsIn(op: Decree, y: int) {
    match op
    case YearAt(_) => false
    case Work(m, d) => IsValid(Ymd(y, m, d))
    case Rest(m, d) => IsValid(Ymd(y, m, d))
    case InLieu(m, d) => IsValid(Ymd(y, m, d))
    case To(m, d) => IsValid(Ymd(y, m, d))
    case _ => true
  }

  /** The builder is at year `y`, and its saved day, once set, is a real day of `y`. */
  predicate PlacedIn(s: Snapshot, y: int) {
    s.year == y && (s.month == 0 || s.day == 0 || IsValid(Ymd(y, s.month, s.day)))
  }

  /** `r` keeps every key of `s`, and every key `r` adds is a day of year `y`. */
  ghost predicate AddsOnlyIn(s: Snapshot, r: Snapshot, y: int) {
    && (forall k {:trigger k in r.holidays} :: k in r.holidays ==> k in s.holidays || k.year == y)
    && (forall k {:trigger k in r.workdays} :: k in r.workdays ==> k in s.workdays || k.year == y)
    && (forall k {:trigger k in r.inLieuDays} :: k in r.inLieuDays ==> k in s.inLieuDays || k.year == y)
    && (forall k {:trigger k in s.holidays} :: k in s.holidays ==> k in r.holidays)
    && (forall k {:trigger k in s.workdays} :: k in s.workdays ==> k in r.workdays)
    && (forall k {:trigger k in s.inLieuDays} :: k in s.inLieuDays ==> k in r.inLieuDays)
  }

  /** Running one chain after another is running their concatenation. */
  lemma {:induction false} RunConcat(s: Snapshot, a: seq<Decree>, b: seq<Decree>)
    ensures Run(s, a + b) == if Run(s, a).Done? then Run(Run(s, a).state, b) else Run(s, a)
    decreases |b|
  {
    if b == [] {
      assert a + b == a;
    } else {
      var front, last := b[..|b| - 1], b[|b| - 1];
      assert b == front + [last];
      assert a + b == (a + front) + [last];
      RunAppend(s, a + front, last);
      RunConcat(s, a, front);
      if Run(s, a).Done? {
        RunAppend(Run(s, a).state, front, last);
      } else {
        RunStopsAtPanic(s, a + front, |a|);
        assert (a + front)[..|a|] == a;
      }
    }
  }

  /** A `to` whose days are in year `y`, from a saved day of `y`, writes only days of `y`. */
  lemma ToStaysInYear(s: Snapshot, m: int, d: int, y: int)
    requires PlacedIn(s, y) && IsValid(Ymd(y, m, d))
    requires ToStep(s, m, d).Done?
    ensures AddsOnlyIn(s, ToStep(s, m, d).state, y)
  {
    var r := ToStep(s, m, d).state;
    var start, end := StartDate(s), FromCivil(y, m, d);
    assert start == Ymd(y, s.month, s.day);
    assert end == Ymd(y, m, d);
    if IsDayType(s.dayType) {
      var before, after := Table(s, s.dayType), Table(r, s.dayType);
      forall k | k in after && k !in before ensures k.year == y {
        YearMonotone(start, k);
        YearMonotone(k, end);
      }
    }
  }

  /** One operation of a chain for year `y` keeps the builder in `y` and writes only days of `y`. */
  lemma StepStaysInYear(s: Snapshot, op: Decree, y: int)
    requires PlacedIn(s, y) && ArgsIn(op, y)
    requires Step(s, op).Done?
    ensures PlacedIn(Step(s, op).state, y)
    ensures AddsOnlyIn(s, Step(s, op).state, y)
  {
    match op
    case To(m, d) =>
      ToStaysInYear(s, m, d, y);
    case Work(m, d) =>
      assert FromCivil(y, m, d) == Ymd(y, m, d);
    case Rest(m, d) =>
      assert FromCivil(y, m, d) == Ymd(y, m, d);
    case InLieu(m, d) =>
      assert FromCivil(y, m, d) == Ymd(y, m, d);
    case _ =>
  }

  /**
   * A chain without `yearAt` whose days are all days of the builder's year `y`
   * writes only days of `y` and removes no key, whatever the tables held.
   */
  lemma {:induction false} RunStaysInYear(s: Snapshot, ops: seq<Decree>, y: int)
    requires PlacedIn(s, y)
    requires forall op :: op in ops ==> ArgsIn(op, y)
    ensures Run(s, ops).Done? ==> PlacedIn(Run(s, ops).state, y) && AddsOnlyIn(s, Run(s, ops).state, y)
    decreases |ops|
  {
    if ops != [] {
      var front, last := ops[..|ops| - 1], ops[|ops| - 1];
      assert forall op :: op in front ==> op in ops;
      RunStaysInYear(s, front, y);
      assert ops == front + [last];
      RunAppend(s, front, last);
      if Run(s, front).Done? && Step(Run(s, front).state, last).Done? {
        assert last in ops;
        StepStaysInYear(Run(s, front).state, last, y);
      }
    }
  }

  /** Every day the 2016 decree names is a real day in any year, and it sets no year. */
  lemma Y2016DaysAreReal(y: int)
    ensures forall op :: op in Y2016Opening ==> ArgsIn(op, y)
    ensures forall op :: op in Y2016Remainder ==> ArgsIn(op, y)
  {
  }

  /**
   * The opening of the 2016 decree, run for year `y` on a new builder, makes
   * February 7 to 13 of `y` Spring Festival holidays.
   */
  lemma SpringFestivalWeek(y: int) returns (s: Snapshot)
    requires y != 0
    ensures Run(Fresh, [YearAt(y)] + Y2016Opening) == Done(s)
    ensures forall d :: 7 <= d <= 13 ==> Ymd(y, 2, d) in s.holidays && s.holidays[Ymd(y, 2, d)] == SpringFestival
  {
    var s5 := SpringFestivalSaved(y);
    assert FromCivil(y, 2, 13) == Ymd(y, 2, 13);
    assert ToStep(s5, 2, 13).Done?;
    s := ToStep(s5, 2, 13).state;
    StepTo(s5, 2, 13);
    RunAppend(Fresh, [YearAt(y), Nyd, Rest(1, 1), Sf, Rest(2, 7)], To(2, 13));
    assert [YearAt(y), Nyd, Rest(1, 1), Sf, Rest(2, 7)] + [To(2, 13)] == [YearAt(y)] + Y2016Opening;
    forall d | 7 <= d <= 13 ensures Ymd(y, 2, d) in s.holidays && s.holidays[Ymd(y, 2, d)] == SpringFestival {
      assert Ordinal(Ymd(y, 2, d)) == Ordinal(Ymd(y, 2, 7)) + d - 7;
    }
  }

  /** The opening up to `sf().rest(2, 7)`: the saved day is February 7 of `y`, a Spring Festival holiday. */
  lemma SpringFestivalSaved(y: int) returns (s5: Snapshot)
    requires y != 0
    ensures Run(Fresh, [YearAt(y), Nyd, Rest(1, 1), Sf, Rest(2, 7)]) == Done(s5)
    ensures s5.year == y && s5.month == 2 && s5.day == 7 && s5.dayType == DateTypeHoliday
    ensures s5.holiday == SpringFestival && StartDate(s5) == Ymd(y, 2, 7)
  {
    var s3 := RestOnce(y, 1, 1);
    var ops3 := [YearAt(y), Nyd, Rest(1, 1)];
    var s4 := s3.(holiday := SpringFestival);
    RunAppend(Fresh, ops3, Sf);
    assert ops3 + [Sf] == [YearAt(y), Nyd, Rest(1, 1), Sf];
    EnumeratedHolidaysAreNamed(SpringFestival);
    assert FromCivil(y, 2, 7) == Ymd(y, 2, 7);
    s5 := s4.(month := 2, day := 7, holidays := s4.holidays[Ymd(y, 2, 7) := SpringFestival]);
    assert SaveStep(s4, 2, 7, DateTypeHoliday) == Done(s5);
    RunAppend(Fresh, ops3 + [Sf], Rest(2, 7));
    assert ops3 + [Sf] + [Rest(2, 7)] == [YearAt(y), Nyd, Rest(1, 1), Sf, Rest(2, 7)];
  }

  /**
   * The decree of 2016 with its opening `yearAt(y)`, on a new builder: the
   * Spring Festival week is February 7 to 13 of year `y`, and if the chain runs
   * to its end, every day it writes into any table is a day of year `y`.
   */
  lemma DecreeRunsIn(y: int) returns (front: Snapshot)
    requires y != 0
    ensures Run(Fresh, [YearAt(y)] + Y2016Opening) == Done(front)
    ensures forall d :: 7 <= d <= 13 ==> Ymd(y, 2, d) in front.holidays && front.holidays[Ymd(y, 2, d)] == SpringFestival
    ensures forall k :: k in front.holidays ==> k.year == y
    ensures var r := Run(Fresh, [YearAt(y)] + Y2016Opening + Y2016Remainder);
            r.Done? ==>
              && (forall d :: 7 <= d <= 13 ==> Ymd(y, 2, d) in r.state.holidays)
              && (forall k :: k in r.state.holidays ==> k.year == y)
              && (forall k :: k in r.state.workdays ==> k.year == y)
              && (forall k :: k in r.state.inLieuDays ==> k.year == y)
  {
    front := SpringFestivalWeek(y);
    var placed := Fresh.(year := y);
    RunAppend(Fresh, [], YearAt(y));
    assert [] + [YearAt(y)] == [YearAt(y)];
    Y2016DaysAreReal(y);
    RunConcat(Fresh, [YearAt(y)], Y2016Opening);
    RunStaysInYear(placed, Y2016Opening, y);
    RunConcat(Fresh, [YearAt(y)] + Y2016Opening, Y2016Remainder);
    RunStaysInYear(front, Y2016Remainder, y);
  }

  /**
   * As written, the decree of 2016 writes nothing into 2016: its Spring
   * Festival week lands on February 7 to 13, 2017, and every day it writes is
   * a day of 2017.
   */
  lemma Y2016AsWrittenMisdated()
    ensures var o := Run(Fresh, [YearAt(2017)] + Y2016Opening);
            o.Done? && Ymd(2017, 2, 8) in o.state.holidays && Ymd(2016, 2, 8) !in o.state.holidays
    ensures var r := Run(Fresh, Y2016AsWritten);
            r.Done? ==>
              && Ymd(2017, 2, 8) in r.state.holidays
              && (forall k :: k in r.state.holidays ==> k.year != 2016)
              && (forall k :: k in r.state.workdays ==> k.year != 2016)
              && (forall k :: k in r.state.inLieuDays ==> k.year != 2016)
  {
    var front := DecreeRunsIn(2017);
  }

  /**
   * Corrected, the decree of 2016 writes its Spring Festival week on February
   * 7 to 13, 2016, and every day it writes is a day of 2016.
   */
  lemma Y2016Dated()
    ensures var o := Run(Fresh, [YearAt(2016)] + Y2016Opening);
            o.Done? && Ymd(2016, 2, 8) in o.state.holidays && o.state.holidays[Ymd(2016, 2, 8)] == SpringFestival
    ensures var r := Run(Fresh, Y2016);
            r.Done? ==>
              && Ymd(2016, 2, 8) in r.state.holidays
              && (forall k :: k in r.state.holidays ==> k.year == 2016)
              && (forall k :: k in r.state.workdays ==> k.year == 2016)
              && (forall k :: k in r.state.inLieuDays ==> k.year == 2016)
  {
    var front := DecreeRunsIn(2016);
  }
}
