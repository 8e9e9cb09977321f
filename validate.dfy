/**
 * `validateDate`: a query instant is first truncated to midnight of its day and
 * then accepted when its year lies between the years of the supported bounds.
 * The bounds are the generated `minDay` and `maxDay`, passed in explicitly.
 */
module Validation {
  import opened Dates

  /**
   * The result is midnight of the same calendar day, and it is accepted exactly
   * when the year is within [minDay.year, maxDay.year]; a rejected instant comes
   * back as Go's zero time.
   */
  function ValidateDate(t: Time, minDay: Date, maxDay: Date): (r: (Time, bool))
    ensures r.1 <==> minDay.year <= t.date.year <= maxDay.year
    ensures r.1 ==> r.0.date == t.date && r.0.clock == 0
    ensures !r.1 ==> r.0 == ZeroTime
  {
    var midnight := Time(t.date, 0);
    if midnight.date.year < minDay.year || midnight.date.year > maxDay.year then
      (ZeroTime, false)
    else
      (midnight, true)
  }

  /** Validating an already validated instant changes nothing. */
  lemma ValidateIdempotent(t: Time, minDay: Date, maxDay: Date)
    requires ValidateDate(t, minDay, maxDay).1
    ensures ValidateDate(ValidateDate(t, minDay, maxDay).0, minDay, maxDay) == ValidateDate(t, minDay, maxDay)
  {
  }

  /** Every day between two accepted days is accepted, whatever its time of day. */
  lemma ValidateBetween(s: Date, e: Date, d: Date, c: Clock, minDay: Date, maxDay: Date)
    requires ValidateDate(Time(s, 0), minDay, maxDay).1 && ValidateDate(Time(e, 0), minDay, maxDay).1
    requires Ordinal(s) <= Ordinal(d) <= Ordinal(e)
    ensures ValidateDate(Time(d, c), minDay, maxDay).1
  {
    YearMonotone(s, d);
    YearMonotone(d, e);
  }

  /** Every day from minDay through maxDay is accepted; in particular every key the builder saw. */
  lemma BoundsAreSupported(d: Date, c: Clock, minDay: Date, maxDay: Date)
    requires Ordinal(minDay) <= Ordinal(d) <= Ordinal(maxDay)
    ensures ValidateDate(Time(d, c), minDay, maxDay).1
  {
    YearMonotone(minDay, d);
    YearMonotone(d, maxDay);
  }

  /**
   * The check is by year only: January 1 of minDay's year and December 31 of
   * maxDay's year are accepted even when they lie before minDay or after maxDay.
   */
  lemma BoundaryYearsAccepted(minDay: Date, maxDay: Date, c: Clock)
    requires minDay.year <= maxDay.year
    ensures ValidateDate(Time(Ymd(minDay.year, 1, 1), c), minDay, maxDay).1
    ensures ValidateDate(Time(Ymd(maxDay.year, 12, 31), c), minDay, maxDay).1
    ensures minDay != Ymd(minDay.year, 1, 1) ==> Before(Ymd(minDay.year, 1, 1), minDay)
    ensures maxDay != Ymd(maxDay.year, 12, 31) ==> Before(maxDay, Ymd(maxDay.year, 12, 31))
  {
    BeforeIsCalendarOrder(Ymd(minDay.year, 1, 1), minDay);
    BeforeIsCalendarOrder(maxDay, Ymd(maxDay.year, 12, 31));
  }
}
