# Work-schedule week store, modelled in Dafny

This project models the business-rule layer of a weekly work-schedule tracker
(`src/app/core`): the per-language table of canonical day names, the `Day` and
`Schedule` entities, the localised `DayError`, the `WeekService` that owns the
current week and persists it under the storage key `"week"`, and the
`WorkdayService` that owns the preferred workday length and persists it under
`"preferredWorkdayHours"`.

Layout (one module per modelled source file, plus four support modules: `Wrappers`, `Text`, `Storage` and `Scenarios`):

- `wrappers.dfy` — `Option`, `Result`, `Outcome`.
- `valid_days.dfy` — module `DayTable`: the language type and `VALID_DAYS`.
- `day_error.dfy` — module `DayErrors`: the error kinds, the three factories and their messages.
- `schedule.dfy` — module `Schedules`: the clock-in/clock-out pair and its signed length in minutes.
- `text.dfy` — module `Text`: the `toLowerCase`, `indexOf` and first-occurrence `replace` the trackable rule uses.
- `day.dfy` — module `Days`: the `Day` record, its constructor defaults and the trackable rule.
- `storage.dfy` — module `Storage`: JSON values and the shared key-value store (a class).
- `week_service.dfy` — module `Weeks`: validation, the default week, serialisation and lenient revival, the trackable projection, and the `WeekService` class.
- `workday_service.dfy` — module `Workdays`: the allow-list, `loadHours`, and the `WorkdayService` class.
- `scenarios.dfy` — module `Scenarios`: two clients that drive the services through the sequences their tests use.

Modelling choices:

- The two services are classes whose fields the methods update: `WeekService.days`
  (the value the days stream replays), `WorkdayService.hours`, and the shared
  `KeyValueStore.entries`. Each stream-returning operation is a one-shot method
  on the current snapshot that returns a value or a `DayError`.
- The language is a constructor argument of type `Lang = En | Es`.
- A stored entry is the JSON value whose text the store holds. A `Date` is
  stored as `JDate(ms)`, standing for its ISO-8601 text; the workday length is
  stored as `JNum(h)`, which is the same text as `h.toString()`.
- Instants are `int` milliseconds; minutes and hours are `real`, so 7.5 is exact. The reals stand for JavaScript doubles, whose rounding is not modelled (see "## Left out").
- The code as written is followed throughout:
  - The trackable rule replaces the two characters U+0E23 U+0E01, not "á". So "Sábado" stays trackable and only "domingo" and "sabado" in any case (plus two spellings containing those characters) are excluded. `Days.NotTrackableIff` states the exact set.
  - `setDays` writes the schedule's `clockInTime`/`clockOutTime` and the `trackable` flag, but revival reads `schedule.entry`/`schedule.exit` and recomputes `trackable`. So a stored week reloads with every schedule empty (`Weeks.WrittenWeekRevives`, `Weeks.RoundTripIff`). The reader follows the doc comment of `reviveDaysFromStorage` (week.service.ts:73-74), which lists only name, schedule, holiday and license, and `IDay`, whose schedule "includes entry and exit times" (i-day.ts:10); the model follows the code of both the writer and the reader.
  - `setWorkdayHours` does not validate its argument, although its documentation says it throws.

## Model

| member | source | states |
|---|---|---|
| `DayTable.ValidDays` | src/app/core/constants/valid-days.ts:16-35 | Each language's table has exactly seven names. |
| `DayTable.NamesDistinct` | src/app/core/constants/valid-days.ts:17-34 | No name appears twice within a table. |
| `DayTable.MondayToSunday` | src/app/core/constants/valid-days.ts:8-34 | English runs "Monday" to "Sunday" and Spanish runs "Lunes" to "Domingo". |
| `DayTable.ExactMatch` | src/app/core/services/week.service.ts:46-52 | Validation is exact membership. "Miércoles" and "Sábado" are valid, but their unaccented spellings, other casings, the other language's names and "" are not. |
| `DayTable.IsValidDay` | src/app/core/services/week.service.ts:46-52 | A valid name has five to nine characters and starts with an ASCII capital. |
| `DayTable.LowerCaseInvalid` | src/app/core/services/week.service.ts:51 | The lower-case form of a valid name is never valid: matching is case-sensitive. |
| `DayTable.LanguagesDisjoint` | src/app/core/services/week.service.ts:51 | No name is valid in both languages. |
| `DayErrors.DayError.Invalid` | src/app/core/errors/day.error.ts:28-33 | Kind `invalid`, the given day, name "DayError", and the English message when the locale is English and the Spanish one otherwise. The locale defaults to Spanish. |
| `DayErrors.DayError.NotFound` | src/app/core/errors/day.error.ts:35-40 | The same, with kind `not_found` and its messages. |
| `DayErrors.DayError.Conflict` | src/app/core/errors/day.error.ts:42-47 | The same, with kind `conflict` and its messages. |
| `DayErrors.Message` | src/app/core/errors/day.error.ts:29-45 | Every message is a fixed lead, then the day between double quotes, then a full stop. The day can be sliced back out. |
| `DayErrors.MessageDeterminesDay` | src/app/core/errors/day.error.ts:28-46 | For a fixed kind and locale, two messages are equal exactly when their days are. |
| `DayErrors.LocalesDiffer` | src/app/core/errors/day.error.ts:29-45 | For any kind and day, the English and Spanish messages differ. |
| `DayErrors.FactoriesDistinct` | src/app/core/errors/day.error.ts:18-26 | Errors from different factories are never equal. |
| `Schedules.CalculateDifference` | src/app/core/models/schedule.ts:18-22 | The result is 0 when either time is missing. Otherwise minutes × 60000 equals clock-out minus clock-in, with no clamping. |
| `Schedules.DifferenceSign` | src/app/core/models/schedule.ts:21 | The result is negative exactly when clock-out precedes clock-in, and zero exactly when the two times are equal. |
| `Schedules.SwapNegates` | src/app/core/models/schedule.ts:21 | Swapping the two times negates the result. |
| `Schedules.DifferenceAdditive` | src/app/core/models/schedule.ts:21 | Differences add up across a shared instant. |
| `Schedules.NineHourDay` | src/app/core/services/week.service.spec.ts:97-101 | 08:00 to 17:00 on any date is 540 minutes. |
| `Text.LowerChar` | src/app/core/models/day.ts:17 | ASCII capitals and the Latin-1 capitals À to Þ map to their small letters, 32 code points on. "×" and every character that is neither are unchanged. |
| `Text.ToLower` | src/app/core/models/day.ts:17 | Lower-casing keeps the length and maps each character independently. |
| `Text.IndexOf` | src/app/core/models/day.ts:17 | The result is -1 or a position where the pattern occurs, and no earlier position holds it. |
| `Text.ReplaceFirst` | src/app/core/models/day.ts:17 | Without an occurrence, the string is unchanged. With one at the first position k, the result is the text before k, then the replacement, then the text after the occurrence. |
| `Days.MakeDay` | src/app/core/models/day.ts:11-19 | Name and schedule are stored unchanged, holiday and licence default to false, and `trackable` is always set to the rule's value. |
| `Days.DefaultTrackable` | src/app/core/models/day.ts:17 | "domingo" and "sabado", in any ASCII casing, are never trackable. |
| `Days.NotTrackableIff` | src/app/core/models/day.ts:17-18 | A name is not trackable exactly when its lower-case form is "domingo", "sabado", "s"+U+0E23 U+0E01+"bado" or "sab"+U+0E23 U+0E01+"do". |
| `Days.ReplacedSpellingsGiveSabado` | src/app/core/models/day.ts:17-18 | The two spellings with U+0E23 U+0E01 in place of an "a" become "sabado" after the replacement. |
| `Days.OnlyReplacedSpellings` | src/app/core/models/day.ts:17-18 | When the replacement fires and yields "sabado", the lower-case name was one of those two spellings. |
| `Days.ReplacedIsSabadoIff` | src/app/core/models/day.ts:17-18 | Replacing the first U+0E23 U+0E01 by "a" yields "sabado" exactly for "sabado" and the two replaced spellings. |
| `Days.AccentedTrackable` | src/app/core/models/day.ts:17 | A six-letter name whose lower-case second letter is "á" is trackable. |
| `Days.AccentedSabadoTrackable` | src/app/core/models/day.ts:17 | "Sábado", "sábado" and "SÁBADO" are trackable. |
| `Days.DomingoNotTrackable` | src/app/core/models/day.ts:17 | "Domingo", "DOMINGO" and "domingo" are not trackable. |
| `Days.UnaccentedSabadoNotTrackable` | src/app/core/models/day.ts:17 | Any name that lower-cases to "sabado" is not trackable. |
| `Days.NotEndingInOTrackable` | src/app/core/models/day.ts:17 | A name whose lower-case form does not end in "o" is trackable. |
| `Days.TableTrackable` | src/app/core/models/day.ts:17 | Every English name is trackable, including Saturday and Sunday. So are the first six Spanish names, "Sábado" included. "Domingo" is not. |
| `Weeks.FirstInvalidIndex` | src/app/core/services/week.service.ts:130-133 | Returns the first position whose name is not canonical, or the length when every name is canonical. |
| `Weeks.AllValidIff` | src/app/core/services/week.service.ts:130-131 | The search reaches the end exactly when every name is canonical. |
| `Weeks.IndexOfName` | src/app/core/services/week.service.ts:184 | Returns -1 when no day has the name, or the first position holding it. |
| `Weeks.DefaultWeek` | src/app/core/services/week.service.ts:60-68 | One day per table name, in table order, with an empty schedule, no holiday or licence, and the default trackable flag. |
| `Weeks.DefaultWeekValid` | src/app/core/services/week.service.ts:60-68 | The default week passes validation and repeats no name. |
| `Weeks.ScheduleJson` | src/app/core/services/week.service.ts:136 | A schedule is written as an object with `clockInTime` and `clockOutTime`, each present exactly when that time is set. |
| `Weeks.DayJson` | src/app/core/services/week.service.ts:136 | A day is written with its name, schedule, holiday and license, and with `trackable` exactly when it is set. Nothing is written under `entry` or `exit`. |
| `Weeks.SerializeDays` | src/app/core/services/week.service.ts:136 | The written array has one element per day, in week order, each the day's own properties. |
| `Weeks.IsRevivable` | src/app/core/services/week.service.ts:82 | An element survives the filter exactly when it is an object whose `name` is a string and a canonical day name. |
| `Weeks.InstantOf` | src/app/core/services/week.service.ts:87 | A stored value reads as an instant exactly when it is a date, and then as that date's time value. |
| `Weeks.FlagOf` | src/app/core/services/week.service.ts:88-89 | A stored flag reads as true exactly when it is the boolean `true`; a missing one takes the constructor's default `false`. |
| `Weeks.ReviveDay` | src/app/core/services/week.service.ts:84-90 | A revived element keeps its stored name, which is canonical, its `holiday` and `license` flags, and the instants stored under `schedule.entry` and `schedule.exit`. `trackable` is recomputed from the name. |
| `Weeks.ReviveItems` | src/app/core/services/week.service.ts:81-91 | Revival never lengthens the input, and every revived day is valid and has `trackable` set. |
| `Weeks.ReviveDaysFromStorage` | src/app/core/services/week.service.ts:77-92 | A non-array input fails with the fixed message. An array revives to at most as many valid days. |
| `Weeks.ReviveAppend` | src/app/core/services/week.service.ts:81-91 | Revival distributes over concatenation: it is an order-preserving filter-and-map. |
| `Weeks.ReviveKeepsAllIff` | src/app/core/services/week.service.ts:82 | Nothing is dropped exactly when every element is an object with a canonical string name. |
| `Weeks.LoadedWeek` | src/app/core/services/week.service.ts:102-107 | With nothing stored, the result is the default week. Otherwise it is the revival of the stored value. Any success is a valid week. |
| `Weeks.ReviveDayJson` | src/app/core/services/week.service.ts:84-90 | A written day is revivable exactly when its name is canonical. It revives with its name and flags and an empty schedule. |
| `Weeks.WrittenWeekRevives` | src/app/core/services/week.service.ts:126-137 | A week accepted and written by `setDays` revives to the same names and flags, every schedule empty, and `trackable` recomputed. |
| `Weeks.RoundTripIff` | src/app/core/services/week.service.ts:77-92 | The written week revives to itself exactly when it has no times and only default trackable flags. |
| `Weeks.ReloadedIff` | src/app/core/services/week.service.ts:84-90 | Reviving a written week leaves it unchanged exactly when every day has an empty schedule and its default trackable flag. |
| `Weeks.TrackableDays` | src/app/core/services/week.service.ts:204-207 | No kept day is marked untrackable, and the result is no longer than the week. |
| `Weeks.TrackableMembership` | src/app/core/services/week.service.ts:206 | A day is kept exactly when it is in the week and its flag is not `false`. An absent flag is kept. |
| `Weeks.TrackableAppend` | src/app/core/services/week.service.ts:206 | The projection distributes over concatenation, so it keeps the order. |
| `Weeks.TrackableAllKept` | src/app/core/services/week.service.ts:206 | With no day marked untrackable, the projection is the identity. |
| `Weeks.EnglishWeekTrackable` | src/app/core/services/week.service.ts:204-207 | The English default week is entirely trackable. |
| `Weeks.SpanishWeekTrackable` | src/app/core/services/week.service.ts:204-207 | The Spanish default week loses only "Domingo". |
| `Weeks.ReplacedIndexStable` | src/app/core/services/week.service.ts:184-186 | After the replacement, the replaced position is still the first with that name. |
| `Weeks.ReplacePreservesValid` | src/app/core/services/week.service.ts:186-187 | Replacing a day with one that has a canonical name keeps the week valid. |
| `Weeks.WeekService.constructor` | src/app/core/services/week.service.ts:14-16 | The language is fixed and the current week starts empty. |
| `Weeks.WeekService.LoadFromStorage` | src/app/core/services/week.service.ts:102-108 | The current week becomes the loaded week. A non-array stored value fails and leaves the week unchanged. |
| `Weeks.NewWeekService` | src/app/core/services/week.service.ts:20-23 | Construction succeeds exactly when loading does, and the new service holds the loaded week. |
| `Weeks.WeekService.GetDays` | src/app/core/services/week.service.ts:117-119 | Returns the current week and changes nothing. |
| `Weeks.WeekService.SetDays` | src/app/core/services/week.service.ts:126-137 | Fails exactly when some name is not canonical, with `invalid` naming the first such day, and then nothing changes. Otherwise the week becomes the argument, duplicates included, and "week" holds its serialisation. |
| `Weeks.WeekService.ClearDays` | src/app/core/services/week.service.ts:145-147 | Only the "week" key is removed, and the current week is unchanged. |
| `Weeks.WeekService.GetDayById` | src/app/core/services/week.service.ts:156-169 | A non-canonical id fails `invalid`. Otherwise the result is the first day with that name, or a fresh day with an empty schedule, which is not inserted. |
| `Weeks.WeekService.UpdateDay` | src/app/core/services/week.service.ts:178-194 | A non-canonical name fails `invalid`, and a missing name fails `not_found`, with no change in either case. Otherwise only the first day with the name is replaced, the week is stored again, and the given day is returned. |
| `Weeks.WeekService.GetTrackableDays` | src/app/core/services/week.service.ts:204-208 | Returns the trackable projection of the current week and changes nothing. |
| `Weeks.WeekService.ResetToDefaultWeek` | src/app/core/services/week.service.ts:219-223 | The default week becomes current, is stored under "week", and is returned. |
| `Workdays.ParseFloat` | src/app/core/services/workday.service.ts:42 | A missing entry parses to no number, and a stored number parses to itself. |
| `Workdays.IsValidHours` | src/app/core/services/workday.service.ts:27-29 | Exactly 7.5 and 8 are allowed. |
| `Workdays.HoursEntry` | src/app/core/services/workday.service.ts:67 | The stored entry is the number's own text. |
| `Workdays.LoadHours` | src/app/core/services/workday.service.ts:40-46 | The result is always allowed. It is the stored number when that number is allowed, and 7.5 otherwise. |
| `Workdays.WrittenHoursReload` | src/app/core/services/workday.service.ts:40-68 | A value written by the setter loads back as itself if allowed, and as 7.5 otherwise. |
| `Workdays.LoadExamples` | src/app/core/services/workday.service.spec.ts:29-46 | Nothing stored, "999" and non-number text all load as 7.5, and "8" loads as 8. |
| `Workdays.WorkdayService.constructor` | src/app/core/services/workday.service.ts:13-15 | The current value is the loaded value, so it is allowed. |
| `Workdays.WorkdayService.GetWorkdayHours` | src/app/core/services/workday.service.ts:53-55 | Returns the current value and changes nothing. |
| `Workdays.WorkdayService.SetWorkdayHours` | src/app/core/services/workday.service.ts:65-68 | Accepts any value unvalidated, makes it current and stores its text. |
| `Workdays.WorkdayService.ResetToDefault` | src/app/core/services/workday.service.ts:76-78 | The value becomes 7.5 and "7.5" is stored. |
| `Scenarios.ClockedDayScenario` | src/app/core/services/week.service.spec.ts:94-111 | On an empty store, an update of the first day to 08:00–17:00 shows 540 minutes. A service reloaded from the same store shows 0. |
| `Scenarios.HoursScenario` | src/app/core/services/workday.service.spec.ts:48-73 | An allowed 8 survives a reload. An off-list 9 is accepted by the setter but reloads as 7.5. |

## Left out

- RxJS streams and Angular dependency injection: each stream is evaluated once on the current snapshot, and subscriber notification is not modelled.
- The re-entrancy in `updateDay`: its `map` callback calls `setDays`, which emits again on the stream being mapped. Only one pass is modelled.
- Aliasing: `updateDay` assigns into the array that the days stream holds, which may be an array a caller passed to `setDays`. The model replaces a sequence value instead.
- `Weeks.WeekService.GetDays` and `Weeks.WeekService.UpdateDay`: shared `Day` objects are not modelled. `getDays` copies the array but not its elements (week.service.ts:118), so in the source a caller can change a day, even give it a non-canonical name, without calling `setDays`; a later `updateDay` of another day then assigns in place and fails `invalid` inside `setDays`. The model's days are values, which is why `Valid()` is an invariant and `SetDays`/`UpdateDay` may require it.
- Browser language detection (`navigator.language`): the language is a constructor argument. With two languages, the "Unsupported language" errors cannot occur.
- `setDays`'s "Invalid days array provided." error: a sequence argument is always an array.
- Text in storage that is not JSON: the `JSON.parse` failure and an empty stored string for "week" are not modelled.
- `Workdays.ParseFloat`: every stored value other than a number's own text reads as NaN. `parseFloat` would also read a leading number out of text such as "8abc", and it rounds to a double, so "8.0000000000000001" loads as 8 in the source where the model keeps an exact real that is not allowed and loads 7.5.
- `Weeks.ReviveDay`, `Weeks.InstantOf`, `Weeks.FlagOf`: the source passes `d.schedule?.entry`, `d.schedule?.exit`, `d.holiday` and `d.license` through unchanged (week.service.ts:87-89). `JSON.parse` never revives dates, so stored `entry`/`exit` text stays a string in the revived `Schedule`, any other non-null value is kept too, and `calculateDifference` would throw a TypeError on such a day. The model reads a stored date value as an instant and any other value as absent, and does not model that error. The `false` default for `holiday`/`license` applies in the source only to a missing value; a stored `null`, string or number is kept there, where the model reads it as false.
- `Schedules.CalculateDifference`: minutes are exact reals, where the source divides IEEE doubles; its ensures states the exact quotient, which the source's rounded quotient only approximates (for 65530 ms, minutes × 60000 is not exactly 65530 in doubles).
- `Schedules.DifferenceAdditive`: holds for the exact quotient only; with the source's doubles, rounded quotients need not add up exactly (1/60000 + 4/60000 differs from 5/60000).
- `Text.LowerChar`, `Text.ToLower`: only ASCII and Latin-1 capitals are lower-cased, one character for one; the rest of Unicode case mapping is not modelled. JavaScript's `toLowerCase` can also change the length (U+0130 lowers to two code units) and lowers Σ by context. No character outside Latin-1 lowers into a letter of "domingo" or "sabado", so the trackable rule's results (`Days.NotTrackableIff`) are unaffected.
- Invalid `Date`s with a NaN time value are not modelled: every instant is an integer.
- `DayError.isDayError`: a runtime `instanceof` test, and the rest of the `Error` object (stack, prototype), are not modelled.
- `VALID_WORKDAY_HOURS`: its constants file is not part of this model. The list is taken as 7.5 and 8, the options offered in app.component.ts:26-29.
- Accumulated time and an estimated exit time: no such code exists in the modelled sources.
- UI and routing: `AppComponent`, `DayTrackerComponent` and the routes.
