/**
 * The generated package prints every table entry as `Date(...): <field>`,
 * where `<field>` is the holiday's name in `HolidayFieldMap`. An entry whose
 * holiday has no field name would print an empty field. The lemmas below say
 * which holidays have a field name and that chains which mark only such
 * holidays leave every entry printable.
 */
module Template {
  import opened Dates
  import opened Holidays
  import opened Generator

  /** Every entry of every table has a field name. */
  ghost predicate Printable(s: Snapshot) {
    && (forall k {:trigger k in s.holidays} :: k in s.holidays ==> s.holidays[k] in FieldNames)
    && (forall k {:trigger k in s.workdays} :: k in s.workdays ==> s.workdays[k] in FieldNames)
    && (forall k {:trigger k in s.inLieuDays} :: k in s.inLieuDays ==> s.inLieuDays[k] in FieldNames)
  }

  /**
   * The builder's tables are printable and its current holiday has a field
   * name, or it is still the zero holiday and no day has been saved.
   */
  ghost predicate Ready(s: Snapshot) {
    && Printable(s)
    && (s.holiday in FieldNames || (s.holiday == NoHoliday && (s.month == 0 || s.day == 0)))
  }

  /** The operation marks only holidays that have a field name. */
  predicate MarksNamed(op: Decree) {
    op.Mark? ==> op.holiday in FieldNames
  }

  /**
   * Each of the markers `nyd` ... `afd` sets a holiday with a field name; the
   * Anti-Fascist 70th Day, which none of them sets, has none.
   */
  lemma MarkersHaveFieldNames(op: Decree)
    ensures IsMarker(op) ==> MarkerHoliday(op) in FieldNames
    ensures AntiFascist70thDay !in FieldNames
    ensures NoHoliday !in FieldNames
  {
    forall i | 0 <= i < 7 ensures AllHolidays[i] != AntiFascist70thDay {
      NamesIdentifyHolidays(i, 7);
    }
    assert AntiFascist70thDay == AllHolidays[7];
    EnumeratedHolidaysAreNamed(NoHoliday);
  }

  /** A new builder is ready. */
  lemma FreshIsReady()
    ensures Ready(Fresh)
  {
  }

  /** `to` from a ready builder leaves it ready. */
  lemma ToKeepsReady(s: Snapshot, m: int, d: int)
    requires Ready(s) && ToStep(s, m, d).Done?
    ensures Ready(ToStep(s, m, d).state)
  {
    var r := ToStep(s, m, d).state;
    assert s.holiday in FieldNames;
    if IsDayType(s.dayType) {
      var before, after := Table(s, s.dayType), Table(r, s.dayType);
      var start, end := StartDate(s), FromCivil(s.year, m, d);
      forall k | k in after ensures after[k] in FieldNames {
        if !(Ordinal(start) <= Ordinal(k) <= Ordinal(end)) {
          assert k in before;
        }
      }
    }
  }

  /** `save` from a ready builder leaves it ready. */
  lemma SaveKeepsReady(s: Snapshot, m: int, d: int, dayType: int)
    requires Ready(s) && IsDayType(dayType) && SaveStep(s, m, d, dayType).Done?
    ensures Ready(SaveStep(s, m, d, dayType).state)
  {
    EnumeratedHolidaysAreNamed(NoHoliday);
    assert s.holiday in FieldNames;
  }

  /** One operation that marks only named holidays leaves a ready builder ready. */
  lemma StepKeepsReady(s: Snapshot, op: Decree)
    requires Ready(s) && MarksNamed(op) && Step(s, op).Done?
    ensures Ready(Step(s, op).state)
  {
    match op
    case YearAt(_) =>
    case Mark(_) =>
    case Work(m, d) => SaveKeepsReady(s, m, d, DateTypeWorkday);
    case Rest(m, d) => SaveKeepsReady(s, m, d, DateTypeHoliday);
    case InLieu(m, d) => SaveKeepsReady(s, m, d, DateTypeInLieu);
    case To(m, d) => ToKeepsReady(s, m, d);
    case _ => MarkersHaveFieldNames(op);
  }

  /**
   * A chain that marks only holidays with a field name, run from a ready
   * builder, leaves every entry printable and the builder ready.
   */
  lemma {:induction false} RunKeepsReady(s: Snapshot, ops: seq<Decree>)
    requires Ready(s)
    requires forall op :: op in ops ==> MarksNamed(op)
    ensures Run(s, ops).Done? ==> Ready(Run(s, ops).state)
    decreases |ops|
  {
    if ops != [] {
      var front, last := ops[..|ops| - 1], ops[|ops| - 1];
      assert forall op :: op in front ==> op in ops;
      RunKeepsReady(s, front);
      assert ops == front + [last];
      RunAppend(s, front, last);
      if Run(s, front).Done? && Step(Run(s, front).state, last).Done? {
        assert last in ops;
        StepKeepsReady(Run(s, front).state, last);
      }
    }
  }

  /** Every chain written with the markers alone prints, starting from a new builder. */
  lemma MarkerChainsPrint(ops: seq<Decree>)
    requires forall op :: op in ops ==> !op.Mark?
    ensures Run(Fresh, ops).Done? ==> Printable(Run(Fresh, ops).state)
  {
    FreshIsReady();
    RunKeepsReady(Fresh, ops);
  }
}
