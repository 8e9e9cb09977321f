/**
 * The public holidays of the schedule: a value record with an English name, a
 * localized (Chinese) name and the holiday's nominal length in days, and the
 * fixed enumeration of the eight holidays the schedule knows.
 */
module Holidays {

  datatype Holiday = Holiday(engName: string, name: string, days: int) {

    /** The localized name, e.g. "元旦" for New Year's Day. */
    function Name(): string {
      name
    }

    /** The English name, e.g. "New Year's Day". */
    function EngName(): string {
      engName
    }
  }

  /** `Holiday{}`: no holiday at all. */
  const NoHoliday: Holiday := Holiday("", "", 0)

  const NewYearsDay: Holiday := Holiday("New Year's Day", "元旦", 1)
  const SpringFestival: Holiday := Holiday("Spring Festival", "春节", 3)
  const TombSweepingDay: Holiday := Holiday("Tomb-sweeping Day", "清明", 1)
  const LabourDay: Holiday := Holiday("Labour Day", "劳动节", 1)
  const DragonBoatFestival: Holiday := Holiday("Dragon Boat Festival", "端午", 1)
  const NationalDay: Holiday := Holiday("National Day", "国庆节", 3)
  const MidAutumnFestival: Holiday := Holiday("Mid-autumn Festival", "中秋", 1)
  const AntiFascist70thDay: Holiday :=
    Holiday("Anti-Fascist 70th Day", "中国人民抗日战争暨世界反法西斯战争胜利70周年纪念日", 1)

  /** The enumeration, in declaration order. */
  const AllHolidays: seq<Holiday> := [
    NewYearsDay, SpringFestival, TombSweepingDay, LabourDay,
    DragonBoatFestival, NationalDay, MidAutumnFestival, AntiFascist70thDay
  ]

  /** Whether `h` is one of the eight enumerated holidays. */
  predicate IsEnumerated(h: Holiday) {
    h in AllHolidays
  }

  /**
   * Every enumerated holiday has a non-empty localized and English name, so
   * a builder that has marked one of them passes the "holiday is set" check;
   * `NoHoliday` is not among them and its name is empty.
   */
  lemma EnumeratedHolidaysAreNamed(h: Holiday)
    ensures IsEnumerated(h) ==> h.Name() != "" && h.EngName() != ""
    ensures NoHoliday.Name() == "" && !IsEnumerated(NoHoliday)
  {
    if IsEnumerated(h) {
      var i :| 0 <= i < |AllHolidays| && AllHolidays[i] == h;
      assert h.name[0] == AllHolidays[i].name[0];
    }
  }

  /**
   * The eight holidays have pairwise distinct localized names and pairwise
   * distinct English names, so between enumerated holidays equality of records
   * is equality of names.
   */
  lemma NamesIdentifyHolidays(i: int, j: int)
    requires 0 <= i < |AllHolidays| && 0 <= j < |AllHolidays|
    ensures AllHolidays[i].Name() == AllHolidays[j].Name() <==> i == j
    ensures AllHolidays[i].EngName() == AllHolidays[j].EngName() <==> i == j
    ensures AllHolidays[i] == AllHolidays[j] <==> i == j
  {
    var a, b := AllHolidays[i], AllHolidays[j];
    if i != j {
      assert |a.engName| != |b.engName|;
      assert |a.name| != |b.name| || a.name[0] != b.name[0] || a.name[1] != b.name[1];
    }
  }
}
