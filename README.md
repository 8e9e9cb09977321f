# chinese-calendar, modelled in Dafny

The chinese-calendar package classifies a calendar day under China's
official holiday schedule. Every supported day is exactly one of a workday
and a holiday (a legal holiday or an ordinary weekend day). A day "in lieu"
is a weekday given as rest in exchange for a worked weekend day. Its flag is
kept in a table of its own and does not change that classification; the
decrees normally place it inside a rest range, so it is also a holiday.
The package needs three tables of dates: holidays, workdays (weekend days
that are worked) and in-lieu days, plus the bounds of the supported years. A generator script writes these tables.
It runs each year's decree as a chain of builder calls: `yearAt`, then a
holiday marker (`nyd`, `sf`, …), then `rest`/`work`/`inLieu` for single
days and `to` for ranges. After the chains it scans the tables for the
bounds and the sorted key lists.

The model has these modules:

- `Dates` (`dates.dfy`): the parts of Go's `time` the package needs.
  - Proleptic-Gregorian days and day numbers.
  - `time.Date`'s carrying of out-of-range months and days (`FromCivil`).
  - `Weekday`, `Before`, adding whole days, and the day ranges the loops walk.
- `Holidays` (`holiday.dfy`): the `Holiday` record and its eight values.
- `Validation` (`validate.dfy`): `validateDate`. It truncates the instant to
  midnight and accepts it by year alone.
- `Calendar` (`calendar.dfy`): the point queries and the range queries over
  the tables. The tables and bounds are one `Tables` value, passed explicitly.
- `Sorting` (`sorting.dfy`): `timeList` and the sort of the key lists. An
  in-place insertion sort built on `timeList`'s `Less` and `Swap` stands in
  for `sort.Sort`. It is proved sorted and a permutation, which is all
  `sort.Sort` promises.
- `Generator` (`generator.dfy`): the builder (`arrangement`).
  - Its fields are a class, `Arrangement`, whose methods update them in place.
  - Each method is proved against a step function on a value of the same
    fields (`Snapshot`). Panics are explicit outcomes (`Panicked`).
  - Chains are sequences of `Decree`s, run by `Run`.
  - The final scan is `Scan` and `GenerateHolidays`.
- `Template` (`template.dfy`): which holidays the generated code can print
  (`HolidayFieldMap`), and that chains marking only those holidays leave every
  entry printable.
- `YearlyDecrees` (`yearly.dfy`): the 2016 decree as data. It holds the
  finding below.

## Model

| member | source | states |
|---|---|---|
| Holidays.Holiday.Name | holiday.go:26-28 | (no contract of its own) the localized name field; its properties are in the next two rows |
| Holidays.Holiday.EngName | holiday.go:30-32 | (no contract of its own) the English name field; its properties are in the next two rows |
| Holidays.EnumeratedHolidaysAreNamed | holiday.go:10-17 | every one of the eight holidays has a non-empty localized and English name; the zero holiday has an empty name and is not one of them |
| Holidays.NamesIdentifyHolidays | holiday.go:10-17 | the eight holidays have pairwise distinct localized names and pairwise distinct English names, so two of them are equal exactly when their names are |
| Dates.FromCivil | internal/utils.go:5-7 | `Date(y, m, d)` yields a real day whose day number is the one Go assigns after carrying months into years and days into months; a triple that already names a real day comes back unchanged |
| Dates.AddDays | calendar.go:85 | adding `n` days moves the day number by exactly `n` |
| Dates.Weekday | calendar.go:22 | the weekday is one of 0..6 |
| Dates.WeekdayNext | calendar.go:22 | the weekday advances by one, Saturday (6) to Sunday (0), from each day to the next |
| Dates.WeekdayAnchors | calendar.go:22 | 0001-01-01 is a Monday, 2004-01-01 a Thursday, 2022-02-25 a Friday, 2022-02-26 a Saturday and 2022-02-27 a Sunday, Sunday being 0 as in Go |
| Dates.BeforeIsCalendarOrder | scripts/generator.go:31-33 | `Before` on day numbers is exactly calendar order by year, then month, then day |
| Dates.OrdinalInjective | scripts/generator.go:31-33 | two days with the same day number are the same day |
| Dates.YearMonotone | utils.go:8-10 | a later day never lies in an earlier year |
| Dates.SpanMembers | calendar.go:84-85 | the `n` days from `start` are strictly ascending and are exactly the days whose numbers lie in [start, start + n) |
| Dates.DayRangeMembers | calendar.go:82-90 | the loop runs once per day of [start, end] and not at all when end is before start: the walked range is empty then, and otherwise has end − start + 1 days, starts at start, ends at end, is strictly ascending and holds exactly the days between them |
| Validation.ValidateDate | utils.go:5-13 | the instant is accepted exactly when its year lies within the years of minDay and maxDay; an accepted instant is midnight of the same day and a rejected one is the zero time |
| Validation.ValidateIdempotent | utils.go:5-13 | validating a validated instant gives the same answer |
| Validation.ValidateBetween | utils.go:8-10 | every day between two accepted days is accepted, at any time of day |
| Validation.BoundsAreSupported | utils.go:8-10 | every day from minDay to maxDay is accepted |
| Validation.BoundaryYearsAccepted | utils.go:8-10 | the check is by year only: January 1 of minDay's year and December 31 of maxDay's year are accepted even when they are outside [minDay, maxDay] |
| Calendar.IsWorkdayOn | calendar.go:18-28 | a day is a workday exactly when it is a workday override, or it is not a holiday and not a Saturday or Sunday |
| Calendar.IsHolidayOn | calendar.go:41-43 | a day is a holiday exactly when it is not a workday override and is a holiday key or a weekend day |
| Calendar.IsWorkday | calendar.go:9-16 | true exactly for a supported instant whose day is a workday by the rule above |
| Calendar.IsHoliday | calendar.go:32-39 | true exactly for a supported instant whose day is not overridden and is a holiday key or a weekend day |
| Calendar.WeekdayRuleExamples | calendar_test.go:22-31 | Monday 2004-01-05, Thursday 2021-02-25 and Friday 2022-02-25 are workdays whenever the holiday table leaves them out; Saturday 2022-02-26 is a holiday and not a workday whenever the workday table leaves it out |
| Calendar.IsInLieuOn | calendar.go:57-60 | (no contract of its own) membership in the in-lieu table, with no weekday rule; see the next row |
| Calendar.InLieuOnReadsOnlyItsTable | calendar.go:57-60 | the in-lieu answer for a day does not depend on the holiday or workday table, and a day outside the in-lieu table is never in lieu |
| Calendar.IsInLieu | calendar.go:47-60 | true exactly for a supported instant whose day is an in-lieu key |
| Calendar.GetHolidayDetail | calendar.go:62-79 | an unsupported instant gives (no holiday, false); a named holiday in the result is the holiday table's entry for that day |
| Calendar.OutOfRangeDefaults | calendar.go:9-79 | outside the supported years all four point queries give their default answers |
| Calendar.WorkdayHolidayComplement | calendar.go:32-43 | on a supported instant exactly one of IsWorkday and IsHoliday holds |
| Calendar.DetailAgreesWithIsHoliday | calendar.go:62-79 | the detail's flag equals IsHoliday on every instant, and its holiday is the table entry exactly for a supported, non-overridden holiday key, otherwise no holiday |
| Calendar.InLieuIgnoresOtherMaps | calendar.go:57-60 | IsInLieu does not depend on the holiday or workday table |
| Calendar.FilterMembers | calendar.go:81-91 | filtering keeps exactly the elements that pass, never lengthens, and keeps strict ascending order |
| Calendar.FilterStep | calendar.go:84-89 | one more day of the walk appends that day exactly when it passes |
| Calendar.FilterRange | calendar.go:81-91 | the accepted days of [start, end] are exactly the days of the interval that pass, ascending, at most one per day, none when end is before start |
| Calendar.GetDates | calendar.go:81-91 | the loop returns the filter of the interval: exactly the accepted days, strictly ascending, at most one per day, empty when end is before start |
| Calendar.GetHolidays | calendar.go:93-118 | an error exactly when either end is unsupported; otherwise, with weekends, exactly the IsHoliday days of the interval, without weekends exactly its holiday keys, ascending |
| Calendar.GetWorkdays | calendar.go:120-133 | an error exactly when either end is unsupported; otherwise exactly the workdays of the interval, ascending |
| Calendar.HolidaysAndWorkdaysPartition | calendar.go:107-132 | for supported ends, the holidays-with-weekends and the workdays of an interval are disjoint and together cover every day of it |
| Sorting.SortDates | scripts/generator.go:95-97 | in place of `sort.Sort` on a `timeList`: leaves the array ordered by `Before` and a permutation of its old contents |
| Sorting.InsertAt | scripts/generator.go:27-33 | one insertion step extends the sorted prefix by one element and permutes the array |
| Sorting.Swap | scripts/generator.go:27-29 | `Swap` exchanges exactly the two elements |
| Sorting.SortList | scripts/generator.go:95-97 | the sorted list is ordered and a permutation of the input |
| Sorting.SortedKeysAreStrict | scripts/generator.go:81-97 | a sorted list holding each key of a set once is strictly ascending and holds exactly that set |
| Generator.Write | scripts/generator.go:590-597 | the `switch` of `to` changes only the table the day type selects and never the chain context |
| Generator.SaveStep | scripts/generator.go:556-576 | `save` panics exactly when no year or no named holiday is set, with the matching reason; otherwise it records month, day and day type and sets that day to the current holiday in exactly the selected table |
| Generator.FillRange | scripts/generator.go:587-598 | writing the walked range sets every day from start to end to the holiday, adds no other key and leaves every other entry as it was |
| Generator.ToStep | scripts/generator.go:578-600 | `to` panics exactly when year, month or day is unset or the end is before the saved day, with the matching reason; otherwise it sets every day from the saved day to the end in the saved day type's table, changes nothing else and keeps the context |
| Generator.MarkerHoliday | scripts/generator.go:499-537 | each marker sets an enumerated holiday with a non-empty name and a field name, never the Anti-Fascist 70th Day; `afd` sets National Day |
| Generator.Step | scripts/generator.go:494-600 | one chained call: only `work`, `rest`, `inLieu` and `to` can panic or change a table, every other call goes through with the tables unchanged, and no call removes a key |
| Generator.Run | scripts/generator.go:73-79 | a chain that goes through removes no key from any table |
| Generator.RunWithoutWrites | scripts/generator.go:73-79 | a chain with no `work`, `rest`, `inLieu` or `to` never panics and leaves the tables as they were |
| Generator.RunAppend | scripts/generator.go:228-235 | a chained call runs on the builder the chain so far produced, unless an earlier call panicked |
| Generator.RunStopsAtPanic | scripts/generator.go:557-586 | once a prefix of a chain panics, the whole chain ends with that panic |
| Generator.MarkedHolidaySaves | scripts/generator.go:556-562 | with a year set, marking any enumerated holiday lets `save` through, and the zero holiday always panics with "holiday not set" |
| Generator.WriteTwice | scripts/generator.go:588-598 | writing the same range twice is writing it once |
| Generator.WriteCommutes | scripts/generator.go:588-598 | two writes of the same holiday can be done in either order |
| Generator.ToIdempotent | scripts/generator.go:578-600 | a repeated `to` with the same end changes nothing more |
| Generator.ToFromSameStart | scripts/generator.go:578-600 | two `to`s after one `save` both start from the saved day, so their order does not matter |
| Generator.HolidayAndWorkdayMayOverlap | scripts/generator.go:544-576 | nothing keeps the tables apart: a `rest` and a `work` of the same day leave it in both |
| Generator.RestThenToExample | scripts/generator.go:548-600 | `rest(1, 1).to(1, 3)` makes the holiday table exactly January 1 to 3 of the year, and the other tables stay empty |
| Generator.ToFirstDaysOfJanuary | scripts/generator.go:578-600 | after `rest(1, 1)`, `to(1, 3)` writes January 1, 2 and 3 |
| Generator.Arrangement.constructor | scripts/generator.go:53-70 | `newArragement`: empty tables and lists, the field-name map, MinDay 2099-01-01, MaxDay the zero time, no context |
| Generator.Arrangement.YearAt | scripts/generator.go:494-497 | sets the year and nothing else |
| Generator.Arrangement.Mark | scripts/generator.go:539-542 | sets the current holiday and nothing else |
| Generator.Arrangement.Nyd | scripts/generator.go:500-502 | marks New Year's Day |
| Generator.Arrangement.Sf | scripts/generator.go:505-507 | marks the Spring Festival |
| Generator.Arrangement.Tsd | scripts/generator.go:510-512 | marks Tomb-sweeping Day |
| Generator.Arrangement.Ld | scripts/generator.go:515-517 | marks Labour Day |
| Generator.Arrangement.Dbf | scripts/generator.go:520-522 | marks the Dragon Boat Festival |
| Generator.Arrangement.Nd | scripts/generator.go:525-527 | marks National Day |
| Generator.Arrangement.Maf | scripts/generator.go:530-532 | marks the Mid-autumn Festival |
| Generator.Arrangement.Afd | scripts/generator.go:535-537 | marks National Day, not the Anti-Fascist 70th Day |
| Generator.Arrangement.Save | scripts/generator.go:556-576 | reports a panic exactly as SaveStep does, and leaves the fields as SaveStep's new state, or unchanged on a panic |
| Generator.Arrangement.Work | scripts/generator.go:544-546 | `save` with the workday type |
| Generator.Arrangement.Rest | scripts/generator.go:548-550 | `save` with the holiday type |
| Generator.Arrangement.InLieu | scripts/generator.go:552-554 | `save` with the in-lieu type |
| Generator.Arrangement.To | scripts/generator.go:578-600 | the day-by-day loop leaves the fields as ToStep's new state, or unchanged on a panic |
| Generator.Arrangement.Apply | scripts/generator.go:494-600 | one chained call, as Step says |
| Generator.Arrangement.ApplyChain | scripts/generator.go:73-79 | the chains in order, stopping at the first panic, as Run says |
| Generator.Arrangement.Scan | scripts/generator.go:81-97 | every key lies within [MinDay, MaxDay]; MinDay only moves earlier and MaxDay only later; each bound is a key unless it kept its old value; each list holds exactly its table's keys, once each, ascending |
| Generator.Arrangement.GenerateHolidays | scripts/generator.go:72-98 | runs the chains as Run says and keeps the field-name map; without a panic, every key lies within the bounds, MinDay only moved earlier and MaxDay only later, each bound is a key unless it kept its old value, and each list holds exactly its table's keys, ascending |
| Generator.CollectKeys | scripts/generator.go:81-91 | the closure appends every key of the table once, keeps the old list as a prefix, and widens the bounds to cover every key, moving each bound only to a key |
| Generator.CollectTables | scripts/generator.go:92-94 | the closure over the three tables: the bounds cover every key of all three, and each list gains exactly its table's keys |
| Generator.ScanTables | scripts/generator.go:81-97 | collect and sort: the bounds cover every key, only widen, and each is a key unless it kept its old value; each list is sorted and is its old contents plus its table's keys; a list that started empty holds exactly the keys, strictly ascending |
| Generator.ScanFresh | scripts/generator.go:81-97 | the scan on empty lists: the bounds cover every key, only widen, and each is a key unless it kept its old value; every list lists its table's keys exactly |
| Generator.FieldNames | scripts/generator.go:58-66 | (a constant, no contract of its own) `HolidayFieldMap`: the seven marker holidays mapped to their field names; the next row and the Template rows state what it holds |
| Template.MarkersHaveFieldNames | scripts/generator.go:58-66 | every holiday a marker sets has a field name; the Anti-Fascist 70th Day and the zero holiday have none |
| Template.FreshIsReady | scripts/generator.go:53-70 | a new builder has no unprintable entry |
| Template.SaveKeepsReady | scripts/generator.go:556-576 | `save` writes only the current holiday, which has a field name whenever `save` goes through |
| Template.ToKeepsReady | scripts/generator.go:578-600 | `to` writes only the current holiday, which has a field name whenever `to` goes through |
| Template.StepKeepsReady | scripts/generator.go:494-600 | every chained call that marks only named holidays keeps every entry printable |
| Template.RunKeepsReady | scripts/generator.go:617-631 | a chain marking only named holidays leaves every entry of every table with a field name |
| Template.MarkerChainsPrint | scripts/generator.go:617-631 | a chain written with the markers alone, from a new builder, leaves every entry printable |
| YearlyDecrees.RunConcat | scripts/generator.go:72-79 | running one chain after another is running their concatenation, and a panic in the first ends both |
| YearlyDecrees.ToStaysInYear | scripts/generator.go:578-600 | a `to` whose days are in the builder's year writes only days of that year and removes nothing |
| YearlyDecrees.StepStaysInYear | scripts/generator.go:494-600 | a call that sets no year and names only days of the builder's year writes only days of that year and removes nothing |
| YearlyDecrees.RunStaysInYear | scripts/generator.go:494-600 | a chain without `yearAt` naming only days of the builder's year writes only days of that year and removes nothing |
| YearlyDecrees.Y2016DaysAreReal | scripts/generator.go:229-235 | every day the 2016 decree names is a real day in any year, and the decree sets no year after its first call |
| YearlyDecrees.SpringFestivalWeek | scripts/generator.go:228-230 | the decree's opening, run for a year, makes February 7 to 13 of that year Spring Festival holidays |
| YearlyDecrees.DecreeRunsIn | scripts/generator.go:228-235 | the decree run for a year writes the Spring Festival week in that year, and, run to its end, only days of that year |
| YearlyDecrees.Y2016AsWrittenMisdated | scripts/generator.go:228-235 | as written, the decree makes 2017-02-08 a holiday and writes no day of 2016 |
| YearlyDecrees.Y2016Dated | scripts/generator.go:219-235 | corrected, the decree makes 2016-02-08 a Spring Festival holiday and writes only days of 2016 |

## Left out

- The reflection loop of `generateHolidays` is not modelled. `GenerateHolidays` takes the yearly chains already joined into one sequence of decrees.
- Only the decree of 2016 is written out as data. The other yearly chains are not, and neither is the order reflection runs them in.
- Go's time zones, locations, daylight saving and nanoseconds are left out. A `Time` is a day and a second of that day, in one fixed zone.
- The saturation of `time.Duration` arithmetic is not modelled. Range lengths are exact day counts.
- A panic is an outcome (`Panicked` with its reason), not an unwinding of the program. The builder's state is unchanged by the panicking call.
- The range queries return a `Result` carrying `ErrUnSupportDate`, where Go returns an empty slice together with that error.
- The template is not rendered. Only the lookup of each entry's field name in `HolidayFieldMap` is modelled.
- File output, `os.Create`, the `gofmt` call and `main` are I/O and are left out.
- The package-level tables and bounds are the parameters of the calendar queries. They are not globals.
- `example/example.go`, `error.go` and the tests are not part of this model. Only `ErrUnSupportDate` from `error.go` appears, as an error value.
- Sorting.SortDates: the sort is an insertion sort built on `timeList`'s `Less` and `Swap`, not Go's pattern-defeating quicksort. Only what `sort.Sort` promises is stated: sorted, and a permutation. The order of the swaps is not modelled.
- Generator.Arrangement.Scan: requires the three key lists to be empty, as they are after `newArragement`, the only caller in `generate`. Generator.ScanTables states the scan for lists that are already non-empty: multisets, without the exact key listing.
- Generator.Arrangement.GenerateHolidays: requires the three key lists to be empty, for the same reason as Scan.
- YearlyDecrees.Y2016AsWrittenMisdated: the facts about the whole 2016 chain hold on the condition that it runs without a panic. Only its opening is proved to run to the end.
- YearlyDecrees.Y2016Dated: the same condition applies to the whole chain; only its opening is proved to run to the end.
- YearlyDecrees.DecreeRunsIn: the same condition applies to the whole chain; only its opening is proved to run to the end.

## Findings

| source | as written | input that shows it | evidently intended | confidence | as-written member | corrected member |
|---|---|---|---|---|---|---|
| scripts/generator.go:228 | the 2016 decree (`Y2016`) opens with `yearAt(2017)` | the `Y2016` chain: its Spring Festival week lands on 2017-02-07 to 2017-02-13, and it writes no day of 2016 | `yearAt(2016)`, as the method name and the 2016 decree it transcribes say | not executed | YearlyDecrees.Y2016AsWrittenMisdated | YearlyDecrees.Y2016Dated |

The 2017 chain (scripts/generator.go:209-216) names no February day after
the 4th. Nothing in it rewrites the 2017 days the misdated chain marks as
Spring Festival holidays.
