# PyUntis timetable exporter: a Dafny model

PyUntis logs in to a WebUntis server over JSON-RPC. It reads a school's
classes, teachers, holidays, timegrid and timetables, and writes a `meta.json`
and one timetable file per class. This project models the part of it that
computes things. There are three pieces.

- **Untis dates and times, and record parsing** (`PyUntisClasses.py`)
  - `PyUntisDate` turns a calendar day into its `YYYYMMDD` string and parses it
    back, following Python's `strftime`/`strptime`.
  - `PyUntisTime` does the same for `HHMM` times.
  - Every backend record is parsed into typed fields.
    - A required key is read with `record[key]` and fails with a KeyError when absent.
    - An optional key is read with `.get` and gives None when absent.
  - The day grid renumbers the backend's weekday.
- **The timetable assembler** (`PyUntis.py`)
  - `daterange` and `get_other_weekday`.
  - The window of three school weeks, clamped to the school year.
  - The Monday-to-Friday days of that window, cut into weeks of five.
  - Each day's object: the holiday alone, nothing, or the lessons grouped by
    start time.
  - The substitution block.
  - The class, teacher and timegrid lists of `meta.json`.
- **The JSON-RPC session** (`PyUntisSession.py`)
  - The request counter and the payload builder, which follows section 4 of
    the JSON-RPC 2.0 Specification.
  - The response dispatch of `_post`, the API URL, and the options of
    `getTimetableCustom`.

Modules:

- `Json`: JSON values, Python's truthiness, `Result`/`Option`, `str(int)`, and a
  first-failure combinator for loops.
- `Calendar`: Python's proleptic Gregorian day numbers (1 = 0001-01-01) and
  their conversion to year/month/day.
- `UntisCodec`: `PyUntisDate` and `PyUntisTime`, with the `strptime` directives
  `%Y %m %d %H %M` simulated, including the order in which the regular
  expression tries alternatives and backtracks.
- `UntisClasses`: the record constructors and `to_json` of time units and day
  grids.
- `Sorting`: Python's stable `sorted` by a key.
- `Timetable`: value-level definitions of what `handle_school` computes.
- `Export`: the loops of `handle_school` as methods, each proved to compute the
  `Timetable` value.
- `Meta`: the `meta.json` lists, with the teacher and timegrid loops as methods.
- `UntisSession`: `class Session` with `requestID` and `servername`, and the
  pure payload, dispatch, URL and options functions.

Modelling choices:

- `PyUntisDate` and `PyUntisTime` define no ordering of their own, so the model
  chooses one per comparison:
  - `max` and `min` at PyUntis.py:212-213 compare the full datetimes, day first
    and then time of day (`Timetable.Later`, `Timetable.Earlier`). The time of
    day decides whether `daterange` keeps the window's last day.
  - The holiday test at line 256 and the lesson filter at line 264 compare
    calendar days only (`Timetable.Covers`, `Timetable.OnDate`). Holidays and
    lessons are dated at midnight, while the days of the window carry the
    window start's time of day; a full comparison would drop a holiday's last
    day and every lesson whenever the window starts at the clock's time.
  - Lesson start times are compared by their value in minutes.
- Class membership of a substitution is an abstract equality `sameClass`.
- Several methods are called but not defined in the source:
  - `to_json` of holidays, school years, lessons and substitutions;
  - `iso8601`;
  - the id-to-text formatting of a file name.

  These are function parameters (`Timetable.Renderers`).
- The current date is a parameter `today`.
- Every server response is an input value.
- `handle_school`'s fetches become parameters:
  - the timetable of each class is a `Result`;
  - the substitution fetch is a `SubstitutionFetch` (a list, a `PyUntisError`,
    or another failure).
- Python's exceptions are `Json.Error` values carried by `Result`.
  - A missing key is a KeyError.
  - An unparsable date is a ValueError.
  - Stepping past 9999-12-31 is an OverflowError.
  - An out-of-range subscript is an IndexError.
  - A list or dict used as a dict key is a TypeError.
  - Lower-casing a class name that is not a string is an AttributeError.

Choices about the code that a reader might expect otherwise:

- As written, the time `0` does not parse (`UntisCodec.ZeroIsRejectedAsWritten`).
  Only the corrected reading under Findings accepts it as midnight.
- Classes, subjects and rooms define no equality of their own, so class
  membership of a substitution is the parameter `sameClass`.
- A lesson dated outside the window raises nothing: it is simply on no day of
  the window.
- The record constructors read `startTime` and `endTime` with the corrected,
  zero-filled parse `UntisCodec.NewUntisTime` (see Findings). The members that
  inherit this are listed under Left out. The two parses agree on an integer
  time exactly when it is 02:40 or later
  (`UntisCodec.IntegerTimesAsWrittenFromTwoForty`).
- Lessons are rendered by a `to_json` that the code calls but does not define,
  so it is a parameter.
- The clock is read several times: through `get_other_weekday` (line 26) at
  lines 132, 133, 134 and 209, and directly at lines 194, 312 and 339. Two of
  these readings decide the window: this week's Monday at line 132 and the Friday of
  the week after next at line 209. Both are parameters: the date `today` and two
  times of day. The school year's dates are at midnight.

## Model

| member | source | states |
|---|---|---|
| UntisCodec.NewUntisDate | PyUntisClasses.py:31-41 | With neither argument, it is a ValueError. A given day keeps that day and an 8-digit, all-digit `untis_date`. A given `untis_date` is kept as `str()` of the value, and the day is what `strptime("%Y%m%d")` makes of it; it parses iff `strptime` accepts that text, and every error is a ValueError. |
| UntisCodec.IntegerDateRoundTrip | PyUntisClasses.py:39-41 | The integer form the backend sends for a date from year 1000 on, `int` of its `YYYYMMDD` string, parses back to that date, keeping the same string. |
| UntisCodec.DateFormatRoundTrip | PyUntisClasses.py:35-41 | Re-parsing the `untis_date` of `PyUntisDate(date=d)` gives back the same object: the same day and the same string. |
| UntisCodec.StrptimeOfFormat | PyUntisClasses.py:38-41 | `strptime(strftime(d, "%Y%m%d"), "%Y%m%d")` is `d` for every day from 0001-01-01 to 9999-12-31. |
| UntisCodec.EightDigitDatesAreCanonical | PyUntisClasses.py:38-41 | An 8-digit string that `strptime` accepts is the `strftime` of the day it parses to. Only shorter strings can be read ambiguously. |
| UntisCodec.MatchOfFormat | PyUntisClasses.py:38-41 | The `%Y%m%d` matcher reads the formatted day's own year, month and day from all 8 characters. |
| UntisCodec.DateOrderIsNumericOrder | PyUntisClasses.py:28-38 | Days compare as the numeric values of their `YYYYMMDD` strings. |
| UntisCodec.ReadableMatchesUntis | PyUntisClasses.py:43-44 | `make_readable` is `DD.MM.YYYY` built from the same digits as `untis_date`. |
| UntisCodec.SevenDigitDate | PyUntisClasses.py:40-41 | `strptime` reads "2024111" as 2024-11-01: the month takes two digits and the day one. |
| UntisCodec.SixDigitDate | PyUntisClasses.py:40-41 | "202411" parses as 2024-01-01: the matcher backtracks the month to one digit so that a day digit remains. |
| UntisCodec.BacktrackToOneDigitMonth | PyUntisClasses.py:40-41 | On "11" the month-then-day match falls back to month 1, day 1. |
| UntisCodec.MissingDayRejected | PyUntisClasses.py:40-41 | "20240230" is a ValueError: February 30 does not exist. |
| UntisCodec.StrptimeTime | PyUntisClasses.py:60-62 | `strptime("%H%M")` accepts only strings of 1 to 4 digits. |
| UntisCodec.NewUntisTimeAsWritten | PyUntisClasses.py:53-62 | The time as written. A missing time is a ValueError. `untis_time` is `str()` of the raw value, and the hour and minute are what unpadded `strptime("%H%M")` reads from it. |
| UntisCodec.NewUntisTime | PyUntisClasses.py:53-62 | The corrected time. It is the same, except that the hour and minute are parsed from the string zero-filled to four digits; `untis_time` keeps the raw text. |
| UntisCodec.FourDigitTimes | PyUntisClasses.py:60-62 | A 4-digit `HHMM` string parses exactly when `v div 100 <= 23` and `v mod 100 <= 59`. The hour is then `v div 100` and the minute `v mod 100`. |
| UntisCodec.ZeroIsRejectedAsWritten | PyUntisClasses.py:60-62 | The integer 0 does not parse: no minute follows the hour. |
| UntisCodec.OneThirtyMisreadAsWritten | PyUntisClasses.py:60-62 | The integer 130 (01:30) parses as 13:00. |
| UntisCodec.OnePmAsWritten | PyUntisClasses.py:60-62 | The integer 1300 also parses as 13:00. |
| UntisCodec.FortyFiveMisreadAsWritten | PyUntisClasses.py:60-62 | The integer 45 (00:45) parses as 04:05. |
| UntisCodec.IntegerTimesNotCanonicalAsWritten | PyUntisClasses.py:60-62 | Two different `untis_time` strings, "130" and "1300", give the same time. |
| UntisCodec.IntegerTimesRoundTrip | PyUntisClasses.py:60-62 | Corrected: the integer `100*h+m` parses to exactly `h:m`, for every valid hour and minute. |
| UntisCodec.IntegerTimeValue | PyUntisClasses.py:60-62 | Corrected: a time read from an integer `v` has `v == 100*hour + minute`. |
| UntisCodec.IntegerTimesAreCanonical | PyUntisClasses.py:60-62 | Corrected: two integer times have equal strings iff they are equal times, and they order like their integers. |
| UntisCodec.ZeroFilledOutOfRange | PyUntisClasses.py:60-62 | Integers of five or more digits, and negative ones, zero-fill to no valid `HHMM`. |
| UntisCodec.ReadableTimeOfInteger | PyUntisClasses.py:64-65 | Corrected: `make_readable` of a time read from an integer is its zero-filled digits as `HH:MM`. |
| UntisCodec.LongTextsAgree | PyUntisClasses.py:60-62 | A time text of four or more characters is parsed the same with and without zero-filling. |
| UntisCodec.IntegerTimesFromTenAsWritten | PyUntisClasses.py:60-62 | As written, every integer time from 10:00 to 23:59 parses to exactly `h:m`, the same result as the corrected parse. |
| UntisCodec.OneDigitTimeRejected | PyUntisClasses.py:62 | `strptime("%H%M")` rejects a single digit: it is taken as the hour and no minute follows. |
| UntisCodec.TwoDigitTimeAsWritten | PyUntisClasses.py:62 | Two digits `ab` parse as `a:b`. When `ab` is at most 23, `%H` first takes it as the hour, finds no minute after it, and falls back to `a`. |
| UntisCodec.ThreeDigitTimeLongHourAsWritten | PyUntisClasses.py:62 | Three digits `hxy` whose `hx` is an hour (at most 23) parse as `hx:y`. |
| UntisCodec.ThreeDigitTimeShortHourAsWritten | PyUntisClasses.py:62 | Three digits `hxy` whose `hx` exceeds 23 parse as `h:xy`. |
| UntisCodec.OneDigitIntegerTimeAsWritten | PyUntisClasses.py:60-62 | As written, an integer time below 10 is a ValueError. |
| UntisCodec.TwoDigitIntegerTimeAsWritten | PyUntisClasses.py:60-62 | As written, an integer time `10*x+y` from 10 to 99 parses as `x:y` instead of `00:xy`. |
| UntisCodec.ThreeDigitIntegerTimeLongHourAsWritten | PyUntisClasses.py:60-62 | As written, an integer time from 100 to 239 parses as its first two digits for the hour and its last digit for the minute. |
| UntisCodec.IntegerTimesBeforeTwoFortyMisreadAsWritten | PyUntisClasses.py:60-62 | As written, every integer time `100*h+m` below 240 (before 02:40) fails to parse as `h:m`. |
| UntisCodec.ThreeDigitTimesFromTwoFortyAsWritten | PyUntisClasses.py:60-62 | As written, every integer time from 240 to 959 (02:40 to 09:59) parses to exactly `h:m`. |
| UntisCodec.IntegerTimesAsWrittenFromTwoForty | PyUntisClasses.py:60-62 | For every valid `h:m`, the unpadded and the zero-filled readings of `100*h+m` agree iff it is 02:40 or later. |
| UntisClasses.NewUntisError | PyUntisClasses.py:5-15 | The error is built exactly when `code` and `message` are present and the code is hashable. It keeps both. A friendly text exists iff the code is -7004 or -32601. |
| UntisClasses.FriendlyTexts | PyUntisClasses.py:6-15 | -7004 gives "Date out of bounds", -32601 gives "Method not found", and any other code has no friendly text. |
| UntisClasses.NewSchool | PyUntisClasses.py:71-75 | Succeeds iff `displayName`, `loginName`, `address` and `server` are present, and keeps all four. A non-dict is a TypeError. Otherwise the first missing key, in that order, is the KeyError. |
| UntisClasses.NewAuthResult | PyUntisClasses.py:81-84 | Succeeds iff `sessionId`, `personType` and `personId` are present, and keeps all three. A non-dict is a TypeError. Otherwise the first missing key is the KeyError. |
| UntisClasses.NewTeacher | PyUntisClasses.py:89-95 | Succeeds iff `id` is present. A non-dict is a TypeError and a missing `id` is KeyError("id"). It keeps `id`, and `name`, `foreName`, `longName`, `foreColor` and `backColor` are their `.get` values. |
| UntisClasses.NewStudent | PyUntisClasses.py:102-108 | Succeeds iff `id` is present. A non-dict is a TypeError and a missing `id` is KeyError("id"). It keeps `id`, and `key`, `name`, `foreName`, `longName` and `gender` are their `.get` values. |
| UntisClasses.NewSchoolClass | PyUntisClasses.py:111-116 | Succeeds iff `id` is present. A non-dict is a TypeError and a missing `id` is KeyError("id"). It keeps `id`, and `name`, `longName`, `active` and `did` are their `.get` values. |
| UntisClasses.NewSubject | PyUntisClasses.py:122-127 | Succeeds iff `id` is present. A non-dict is a TypeError and a missing `id` is KeyError("id"). It keeps `id`, and `name`, `longName`, `active` and `did` are their `.get` values. |
| UntisClasses.NewRoom | PyUntisClasses.py:133-140 | Succeeds iff `id` is present. A non-dict is a TypeError and a missing `id` is KeyError("id"). It keeps `id`, and `name`, `longName`, `active`, `building`, `foreColor` and `backColor` are their `.get` values. |
| UntisClasses.NewDepartment | PyUntisClasses.py:146-149 | Succeeds iff `id`, `name` and `longName` are present. A non-dict is a TypeError. Otherwise the first missing key, in that order, is the KeyError. `name` ends up holding `longName`. |
| UntisClasses.NewStatusData | PyUntisClasses.py:192-194 | Succeeds iff `codes` and `lstypes` are present, and keeps both. A non-dict is a TypeError. Otherwise the first missing key is the KeyError. |
| UntisClasses.ParseSpan | PyUntisClasses.py:156-157 | `startDate` is read and parsed, then `endDate`. Success iff both keys are present and both parse, to the two parsed dates. Otherwise the first failing step gives the error: TypeError, KeyError, or the date's ValueError. |
| UntisClasses.NewHoliday | PyUntisClasses.py:152-157 | Succeeds iff `id`, `name` and `longName` are present and the two dates parse. It keeps the three keys and holds the parsed dates. Failures come in reading order: TypeError, KeyError of the first missing key, then the dates' error. |
| UntisClasses.NewSchoolyear | PyUntisClasses.py:197-201 | Succeeds iff `id` and `name` are present and the two dates parse. It keeps both keys and holds the parsed dates. Failures come in reading order, as for holidays. |
| UntisClasses.ParseTimes | PyUntisClasses.py:165-166 | `startTime` is read and parsed, then `endTime`. Success iff both keys are present and both parse, to the two times. Otherwise the first failing step gives the error. |
| UntisClasses.NewTimeUnit | PyUntisClasses.py:163-166 | Succeeds iff `name` is present and the times parse. It keeps `name` and holds the two times. Failures come in reading order. |
| UntisClasses.TimeUnitJson | PyUntisClasses.py:171-178 | Exactly the five keys: the name, the readable start and end, and the raw untis start and end strings. |
| UntisClasses.GridDay | PyUntisClasses.py:182 | `(raw - 2) mod 7`: always 0..6 and congruent to `raw - 2`. |
| UntisClasses.GridDayMapsBackendWeek | PyUntisClasses.py:182 | The backend's 1..7 map to 6, 0, 1, ..., 5: raw 2 (Monday) is 0 and raw 1 (Sunday) is 6. |
| UntisClasses.NewDayGrid | PyUntisClasses.py:181-183 | Succeeds iff `day` is present and `int()` accepts it, and `timeUnits` is present and each unit parses. `day` is then `GridDay(int(day))` and the units are the parsed list. Failures come in reading order: TypeError, KeyError("day"), the `int()` error, KeyError("timeUnits"), then the first unit's error. |
| UntisClasses.DayGridJson | PyUntisClasses.py:188-189 | One entry per time unit, in order, each its `to_json`. |
| UntisClasses.ParseSlot | PyUntisClasses.py:213-215 | `date` is read and parsed, then the two times. Success iff all three parse, to those values. Otherwise the first failing step gives the error. |
| UntisClasses.ParseLessonParties | PyUntisClasses.py:210-212 | `kl`, `su` and `ro` are read and parsed in turn. Success iff all three lists parse, to the parsed lists. Otherwise the first failing step gives the error. |
| UntisClasses.NewTimetableEntry | PyUntisClasses.py:208-220 | Succeeds iff `id` is present and the class, subject and room lists, the date and the times parse. The result holds exactly these, and the five optional fields are their `.get` values. Failures come in reading order: TypeError, KeyError("id"), the lists' error, then the date's and times' error. |
| UntisClasses.NewReschedule | PyUntisClasses.py:231-234 | Succeeds iff the date and times parse, and holds them. Otherwise their error, so a non-dict is a TypeError. |
| UntisClasses.NullRescheduleFails | PyUntisClasses.py:230-255 | When the rest of a substitution parses, a `reschedule` key holding null makes the whole substitution fail with TypeError. |
| UntisClasses.ParseSubstitutionCore | PyUntisClasses.py:242-251 | `lsid`, `type`, the date and times, the three lists and `te` are read in that order. Success iff all are present and parse, to those values. Otherwise the first failing step gives the error. |
| UntisClasses.NewSubstitution | PyUntisClasses.py:241-255 | Succeeds iff the fields above parse and, when `reschedule` is present, it parses. Otherwise the first failure in that order is the error. It keeps `lsid`, `type` and the parsed values, and `text` is `.get("txt")`. `reschedule` is None exactly when the key is absent, and is otherwise the parsed reschedule. |
| UntisClasses.ClassListNeedsIds | PyUntisClasses.py:210 | One class entry without `id` fails the whole list. |
| Timetable.DateRange | PyUntis.py:17-20 | The days from `start` up to `end`, ascending. `end`'s own day is left out exactly when its time of day is earlier than `start`'s, because `.days` rounds down. None when `end` is on an earlier day. Ending on 9999-12-31 overflows. |
| Timetable.OtherWeekday | PyUntis.py:25-28 | The day `weekday + 7*week` days after the Monday of `today`'s week, at the clock's time of day. It is an OverflowError exactly when that day passes 9999-12-31. |
| Timetable.OtherWeekdayIsWeekday | PyUntis.py:25-28 | For `0 <= weekday <= 6`, the result falls on that weekday. |
| Timetable.OtherWeekdayOffsets | PyUntis.py:209 | Week 3's Friday is week 1's Monday plus 18 days, and is a Friday. That Monday is within 6 days before today. |
| Timetable.Later | PyUntis.py:212 | `max` of two datetimes: one of them, neither strictly later than it, and the first one unless the second is strictly later. |
| Timetable.Earlier | PyUntis.py:213 | `min` of two datetimes: one of them, neither strictly earlier than it, and the first one unless the second is strictly earlier. |
| Timetable.ClampWindow | PyUntis.py:209-213 | Start is the later of the year's start (at midnight) and week 1's Monday (at the first clock reading). End is the earlier of the year's end (at midnight) and week 3's Friday (at the second reading). It fails exactly when week 3's Friday is past 9999-12-31. |
| Timetable.WindowInside | PyUntis.py:212-213 | The clamped window lies inside both the school year and the three weeks. |
| Timetable.YearEndDayDropped | PyUntis.py:209-235 | When the year began before this week and ends within the three weeks, and the clock reads after midnight, the year's last day is missing from the timetable days. |
| Timetable.ThreeWeeksKept | PyUntis.py:209-235 | When the three weeks lie inside the school year and the second clock reading is not earlier than the first, the timetable days are exactly the fifteen business days from this week's Monday. |
| Timetable.TimetableDays | PyUntis.py:235 | Exactly the Monday-to-Friday days from `start` to `end`, ascending, without `end`'s day when its time of day is earlier than `start`'s. It fails iff `end` is 9999-12-31. |
| Timetable.BusinessDays | PyUntis.py:235 | Keeps exactly the days with `weekday() < 5`. |
| Timetable.BusinessDaysAscend | PyUntis.py:235 | Filtering keeps ascending order. |
| Timetable.AtMostFifteenDays | PyUntis.py:245-251 | The clamped window never has more than 15 business days, so `week_idx` stays below 3. |
| Timetable.WeeksChunkDays | PyUntis.py:245-251 | The three weeks, concatenated, are the day list itself: consecutive chunks of five, by index. |
| Timetable.ThreeWeeksFails | PyUntis.py:245-286 | The week assembly fails iff there are more than 15 days or some day fails. |
| Timetable.ThreeWeeksPlaces | PyUntis.py:245-286 | Day `5w+j` is entry `j` of week `w`. |
| Timetable.ThreeWeeksStop | PyUntis.py:248-286 | The first failing day, or the 16th day, decides the error. |
| Timetable.HolidayOn | PyUntis.py:256-259 | None iff no holiday covers the day. Otherwise it is the first covering holiday in list order. |
| Timetable.HolidayDayIsHolidayOnly | PyUntis.py:256-261 | A covered day's object is exactly `{"holiday": json}` of a covering holiday, with no lesson keys. |
| Timetable.EmptyDayIsEmptyObject | PyUntis.py:264-268 | A day without holiday or lessons is `{}`, not omitted. |
| Timetable.OnDate | PyUntis.py:264 | Keeps exactly the lessons dated that day. |
| Timetable.LessonsOnFacts | PyUntis.py:264 | `day_lessons` is sorted by start time and holds exactly the lessons dated that day. |
| Timetable.DayOutcome | PyUntis.py:249-286 | The only failure of one day is the IndexError of `timegrid[weekday]`. |
| Timetable.GroupedKeys | PyUntis.py:272-284 | The day's keys are exactly the lessons' start strings. |
| Timetable.GroupedCollects | PyUntis.py:272-284 | When equal start strings are adjacent, each key holds all lessons with that string, in sorted order. |
| Timetable.SortedCanonicalIsContiguous | PyUntis.py:264-284 | Sorting by start time makes equal start strings adjacent when strings and times correspond one to one. |
| Timetable.DaySlots | PyUntis.py:256-284 | A day without holiday is an object whose keys are the day's start strings, each holding those lessons in sorted order. |
| Timetable.InterleavedSpellingsLoseLessons | PyUntis.py:277-282 | If one time is spelt "800" and "0800" alternately, a later "800" restarts the list and earlier lessons are lost. |
| Timetable.ClassSubstitutionsMembers | PyUntis.py:289-294 | The output holds exactly the truthy `to_json` of the substitutions that contain the class. |
| Timetable.SubstitutionBlock | PyUntis.py:288-297 | Either `substitutions` (when the fetched list is non-empty) or `substitutionDenied`, never both. The flag is true iff the fetch raised error -8509. |
| Export.GroupLessons | PyUntis.py:272-284 | The grouping loop computes `Grouped`, its keys are the start strings, and it collects each key's lessons when runs are contiguous. |
| Export.CollectSubstitutions | PyUntis.py:289-294 | The substitution loop computes `ClassSubstitutions`, and its elements are exactly the truthy renderings of the class's substitutions. |
| Export.BuildDay | PyUntis.py:249-286 | One pass of the day loop computes `DayOutcome`. |
| Export.FillWeeks | PyUntis.py:245-286 | The day loop fills `weeks[i div 5]` and yields `ClassWeeks`. It fails on the first failing day or the 16th day. |
| Export.BuildClassTimetable | PyUntis.py:235-297 | A class's timetable object is `ClassTimetable`. |
| Export.WriteClassFile | PyUntis.py:228-300 | One pass of the class loop yields `ClassFile`: `"{id}.json"` and the object. |
| Export.ExportTimetables | PyUntis.py:228-303 | The class loop yields `AllTimetables`: the files in class order, ending at the first failure. |
| Meta.ClassesMetaListsEachClass | PyUntis.py:158-170 | It fails with AttributeError iff some class name is not a string. Otherwise `names` and `ids` list a permutation of the classes at matching places, ordered by collated name, and `length` is the number of classes. |
| Meta.TeacherIndex | PyUntis.py:179-181 | When built, the last teacher's id is a key. |
| Meta.TeacherIndexKeys | PyUntis.py:179-181 | The index is built iff every id is hashable, and its keys are exactly the ids. |
| Meta.LastTeacherWins | PyUntis.py:179-181 | Each id maps to the name of the last teacher with that id. |
| Meta.TeachersMeta | PyUntis.py:179-181 | The loop computes `TeacherIndex`, stopping with TypeError at the first unhashable id. |
| Meta.InsertPlace | PyUntis.py:187 | Where `list.insert(i, x)` lands: `i` when in range, the end when past it, counted from the end when negative. |
| Meta.PyInsert | PyUntis.py:187 | `insert` puts `x` at that place and shifts the rest. |
| Meta.TimegridMeta | PyUntis.py:185-187 | The loop computes `TimegridList`. |
| Meta.TimegridHoldsEveryDay | PyUntis.py:185-187 | The timegrid holds every day's grid exactly once, as a multiset. |
| Meta.OrderedDaysStayInPlace | PyUntis.py:185-187 | When every day number is at least its position, entry `k` is the `k`-th grid. |
| Meta.SundayFirstIsMisplaced | PyUntis.py:185-187 | A Sunday listed before Monday ends up at index 1, not 6. |
| Sorting.SortBy | PyUntis.py:159-164 | `sorted` returns a permutation of the same length. |
| Sorting.SortBySorted | PyUntis.py:159-164 | `sorted` returns a list ordered by the key. |
| Sorting.SortByStable | PyUntis.py:159-164 | Elements with equal keys keep their input order. |
| Sorting.SortBySortedInput | PyUntis.py:264 | An already sorted list is unchanged. |
| UntisSession.Filtered | PyUntisSession.py:33 | A key is kept iff it was given with a value other than None. |
| UntisSession.FilteredKeepsValues | PyUntisSession.py:33 | Kept values are unchanged. |
| UntisSession.PayloadIsRequest | PyUntisSession.py:30-38 | Every payload is a JSON-RPC 2.0 request (section 4). It names the method and has id "UntisMobileiOS". `params` is present iff some value is not None. It is a one-element list holding the dict with the hack flag, and the dict otherwise. |
| UntisSession.DispatchOfResponse | PyUntisSession.py:62-69 | For a JSON-RPC response (section 5), an error gives `[]` and a success gives its result. |
| UntisSession.ErrorLooksLikeEmptyResult | PyUntisSession.py:62-63 | An error response and an empty-result response dispatch alike. |
| UntisSession.UnknownResponseIsNone | PyUntisSession.py:66-69 | A dict with neither key gives None. |
| UntisSession.ApiUrlShape | PyUntisSession.py:55 | The URL is `https://{server}/WebUntis/jsonrpc.do`, with `?` and the encoded params appended iff some are given. |
| UntisSession.TimetableOptionsMembers | PyUntisSession.py:158-166 | The options hold the fixed keys plus the non-None params. A param overrides a fixed key. Otherwise `element` is `{id, type, keyType}` and the four field lists are `fields`, which defaults to `["id","name","longname"]`. |
| UntisSession.PlainTimetableOptions | PyUntisSession.py:158-166 | Without extra params, the options are exactly the defaults, with `keyType` "id". |
| UntisSession.TimetableRequestShape | PyUntisSession.py:158-167 | The timetable payload is a JSON-RPC request with `params` `{"options": options}`. |
| UntisSession.Session.constructor | PyUntisSession.py:23-28 | A new session has an empty server name and counter 0. |
| UntisSession.Session.BuildPayload | PyUntisSession.py:30-38 | The counter goes up by exactly 1, and the payload is `Payload`. |
| UntisSession.Session.Post | PyUntisSession.py:54-69 | It posts to `ApiUrl(servername, ...)` and returns `Dispatch` of the response. |
| UntisSession.Session.Authenticate | PyUntisSession.py:71-76 | Sets `servername`, builds the authenticate payload with the client agent, posts with `school=login_name`, and parses the auth result. |
| UntisSession.Session.GetTimetableCustom | PyUntisSession.py:158-170 | One payload `getTimetable` with the options. The dispatched result is parsed into timetable entries. |

## Left out

- HTTP: `requests` sessions and posts are not modelled. A response is an input
  value, and the URL encoder is a function parameter.
- File I/O is not modelled:
  - `config.json`;
  - writing `meta.json` and the class files (`Export` returns the file names
    and objects instead);
  - `load_teachers_from_file`, whose teachers the caller appends to the list
    given to `Meta.TeacherIndex`.
- Console output (`box_print`, `print`) has no effect on the data.
- Locale and ICU collation: the class sort key is a parameter.
- `datetime.now()`: its date and the times of day of its two readings are
  parameters. `Timetable.ClampWindow` takes both readings on the same date `today`;
  a run that crosses midnight between line 132 and line 209 is not modelled.
- `getLatestImportTime`, `lastUpdated` and `strftime` of timestamps: float
  timestamp handling.
- The `weekDatesLong`/`weekDatesShort` entries of `meta.json`: they need
  localised day names.
- The holidays list of `meta.json` is not modelled: it is `to_json` of each
  holiday, and `to_json` is not defined in the source.
- `PyUntisTime(time=...)` is not modelled: it calls `datetime.strftime` with
  swapped arguments. Only the `untis_time` path is modelled.
- Methods that are called but not defined are opaque function parameters:
  - `to_json` of holidays, school years, lessons and substitutions;
  - `iso8601`;
  - `PyUntisSchool.from_json`;
  - the four-argument `PyUntisSchool`;
  - `PyUntisAuthError`.
- `searchSchools`, `logout` and the other session getters are not modelled.
  They are the same payload, post and parse pattern shown by
  `Session.GetTimetableCustom` and `Session.Authenticate`.
- `__repr__` methods are not modelled.
- The -8509 error path: `_post` swallows errors, so the fetch outcome
  (`SubstitutionFetch`) is an input.
- `date_timeunits` (PyUntis.py:270) is unused. It is modelled only as its
  IndexError when the weekday has no timegrid entry (`gridLength`).
- UntisCodec.FormatDate: years before 1000 are zero-filled to four digits, as
  `strftime("%Y")` does on some platforms; glibc writes them without padding,
  which this model does not follow.
- `strptime` and `int` accept only ASCII digits here, not other Unicode digits.
- Json.ParseInt: accepts neither surrounding whitespace nor `_` between digits,
  both of which `int()` accepts (`int(" 2") == 2`, `int("1_0") == 10`). This
  narrows `UntisClasses.NewDayGrid`'s `int(day)` to plain digit strings.
- Json.PyInt: JSON numbers with a fraction or exponent are not represented,
  so `int()` of a float (`int(2.0) == 2`) is not modelled; the `Json` values
  hold integers only.
- Python treats `True == 1` as the same dict key. Teacher ids are compared as
  JSON values.
- Key order in `json.dumps` output: objects are maps.
- `UntisSession.Session.Authenticate`: requires the school's `server` to be a
  string. Python's `format` at PyUntisSession.py:55 writes `str()` of any value
  into the URL (a `None` server gives `https://None/WebUntis/jsonrpc.do`).
  The model does not render non-string JSON values as Python's `str()` does.
- UntisClasses.ParseTimes: reads `startTime` and `endTime` with the corrected,
  zero-filled `UntisCodec.NewUntisTime`. The code parses them unpadded
  (`UntisCodec.NewUntisTimeAsWritten`), which misreads or rejects integer
  times before 02:40 (see Findings).
- UntisClasses.NewTimeUnit: its times come from `UntisClasses.ParseTimes`, so it
  follows the corrected parse, not the code.
- UntisClasses.NewDayGrid: its time units follow the corrected parse, not the code.
- UntisClasses.ParseSlot: its times follow the corrected parse, not the code.
- UntisClasses.NewTimetableEntry: its times follow the corrected parse, not the code.
- UntisClasses.NewReschedule: its times follow the corrected parse, not the code.
- UntisClasses.ParseSubstitutionCore: its times follow the corrected parse, not the code.
- UntisClasses.NewSubstitution: its times follow the corrected parse, not the code.
- Timetable.LessonsOnFacts: the start times it sorts by follow the corrected
  parse. With the code's parse a lesson sent as 130 would sort as 13:00.
- UntisCodec.ReadableTimeOfInteger: states the corrected reading. As written it
  holds only from 02:40 on (`UntisCodec.IntegerTimesAsWrittenFromTwoForty`).
- `Export.CollectSubstitutions`: the comprehension and the loop are fused into
  one pass. The result is the same list.

## Findings

| source | as written | input that shows it | evidently intended | confidence | as-written member | corrected member |
|---|---|---|---|---|---|---|
| PyUntisClasses.py:60-62 | `str(untis_time)` is parsed with `%H%M` without zero padding, so times the backend sends as integers below 240 (before 02:40) are misread or rejected | 130 (01:30) gives 13:00; 45 (00:45) gives 04:05; 0 (midnight) is a ValueError | pad the integer to four digits before parsing, so `100*h+m` reads as `h:m` | high (not executed) | UntisCodec.NewUntisTimeAsWritten, UntisCodec.OneThirtyMisreadAsWritten, UntisCodec.IntegerTimesBeforeTwoFortyMisreadAsWritten, UntisCodec.IntegerTimesNotCanonicalAsWritten | UntisCodec.NewUntisTime, UntisCodec.IntegerTimesRoundTrip, UntisCodec.IntegerTimesAreCanonical |
