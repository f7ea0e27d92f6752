/** What `handle_school` writes for one class: the date window clamped to the
    school year, the Monday-to-Friday days of that window chunked into three
    weeks, each day as a holiday, an empty day or the day's lessons grouped by
    start time, and the class's substitutions or the flag saying they were
    denied. These functions are the specification the loops of the Export module
    are proved against.

    The source compares `PyUntisDate` and `PyUntisTime` values, which define no
    ordering of their own. Here the `max` and `min` of lines 212-213 compare the
    underlying datetimes, day first and then time of day, because the time of
    day decides whether `daterange` keeps the window's last day; on a tie they
    keep their first argument. The holiday test of line 256 and the lesson
    filter of line 264 compare calendar days only: compared with the window
    start's time of day, a holiday's last day and every lesson (all at
    midnight) would drop out whenever the window starts at the clock's time.
    Lesson start times are compared in minutes since midnight. The renderers the source calls but does not define (`to_json` of
    lessons, holidays and substitutions, `iso8601`, `str` of a class id) and the
    class-membership test are parameters. */
module Timetable {
  import opened Json
  import opened Calendar
  import opened UntisCodec
  import opened UntisClasses
  import opened Sorting

  /** The functions the timetable export calls but whose code is not modelled. */
  datatype Renderers = Renderers(
    lesson: TimetableEntry -> Json,
    holiday: Holiday -> Json,
    substitution: Substitution -> Json,
    iso8601: UntisDate -> Json,
    idText: Json -> string,
    sameClass: (SchoolClass, SchoolClass) -> bool)

  // ---------------------------------------------------------------------------
  // Dates

  predicate Ascending(days: seq<Day>) {
    forall i, j | 0 <= i < j < |days| :: days[i] < days[j]
  }

  /** The time of day of a `datetime`, in microseconds after midnight. */
  type TimeOfDay = t: nat | t < 86_400_000_000

  /** A `datetime` held by a `PyUntisDate`: its day and its time of day. Dates
      read from the server's `YYYYMMDD` text are at midnight; the ones computed
      from `datetime.now()` carry the clock's time of day. */
  datatype Stamp = Stamp(day: UntisDate, time: TimeOfDay)

  /** `daterange(start, end)`: `int((end + 1 day - start).days)` days from
      `start`. The `.days` of a `timedelta` rounds down, so when `end`'s time of
      day is earlier than `start`'s the count is one short and `end`'s own day is
      not produced. Adding one day to a time on 9999-12-31 overflows before
      anything is produced. */
  function DateRange(start: Stamp, end: Stamp): (r: Result<seq<Day>>)
    ensures r.Err? <==> end.day.date == MaxDay
    ensures r.Err? ==> r.error == OverflowError
    ensures r.Ok? ==> Ascending(r.value)
    ensures r.Ok? ==> forall d: Day :: d in r.value <==>
      start.day.date <= d <= end.day.date && !(d == end.day.date && end.time < start.time)
    ensures r.Ok? && end.day.date < start.day.date ==> r.value == []
  {
    if end.day.date == MaxDay then Err(OverflowError)
    else
      var last := if end.time < start.time then end.day.date - 1 else end.day.date;
      var n := if last < start.day.date then 0 else last - start.day.date + 1;
      var days := seq(n, i requires 0 <= i < n => (start.day.date + i) as Day);
      forall d: Day | start.day.date <= d <= last
        ensures d in days
      {
        assert days[d - start.day.date] == d;
      }
      Ok(days)
  }

  /** `get_other_weekday(weekday, week)`: the given weekday of the week `week`
      weeks after the week of the clock's date `today`, at the clock's time of
      day `time` (the source reads both from `datetime.now()`). */
  function OtherWeekday(weekday: nat, week: nat, today: Day, time: TimeOfDay): (r: Result<Stamp>)
    ensures r.Ok? <==> MondayOf(today) + weekday + 7 * week <= MaxDay
    ensures r.Err? ==> r.error == OverflowError
    ensures r.Ok? ==> r.value == Stamp(FromDay(MondayOf(today) + weekday + 7 * week), time)
  {
    var n := MondayOf(today) + weekday + 7 * week;
    if n > MaxDay then Err(OverflowError) else Ok(Stamp(FromDay(n), time))
  }

  /** The day `get_other_weekday` returns has the weekday number asked for. */
  lemma OtherWeekdayIsWeekday(weekday: nat, week: nat, today: Day, time: TimeOfDay)
    requires OtherWeekday(weekday, week, today, time).Ok? && weekday <= 6
    ensures Weekday(OtherWeekday(weekday, week, today, time).value.day.date) == weekday
  {
    WeekdayFromMonday(MondayOf(today), weekday, week);
  }

  lemma WeekdayFromMonday(m: int, weekday: nat, week: nat)
    requires Weekday(m) == 0
    ensures weekday <= 6 ==> Weekday(m + weekday + 7 * week) == weekday
  {
    WeekdayFacts(m + weekday, week);
  }

  /** `b` is a strictly later moment than `a`. */
  predicate After(b: Stamp, a: Stamp) {
    b.day.date > a.day.date || (b.day.date == a.day.date && b.time > a.time)
  }

  /** Python's `max(a, b)`: `a` unless `b` is strictly later. */
  function Later(a: Stamp, b: Stamp): (r: Stamp)
    ensures r == a || r == b
    ensures !After(a, r) && !After(b, r)
    ensures r.day.date >= a.day.date && r.day.date >= b.day.date
    ensures !After(b, a) ==> r == a
  {
    if After(b, a) then b else a
  }

  /** Python's `min(a, b)`: `a` unless `b` is strictly earlier. */
  function Earlier(a: Stamp, b: Stamp): (r: Stamp)
    ensures r == a || r == b
    ensures !After(r, a) && !After(r, b)
    ensures r.day.date <= a.day.date && r.day.date <= b.day.date
    ensures !After(a, b) ==> r == a
  {
    if After(a, b) then b else a
  }

  /** The clamped dates of lines 212-213. */
  datatype Window = Window(start: Stamp, end: Stamp)

  /** The window of lines 132-134 and 209-213: from this week's Monday to the
      Friday of the week after next, cut to the school year. The clock is read
      twice, at line 132 for the Monday and at line 209 for the Friday, and the
      school year's dates are at midnight. */
  function ClampWindow(year: Schoolyear, today: Day, mondayTime: TimeOfDay, fridayTime: TimeOfDay)
    : (r: Result<Window>)
    ensures r.Ok? <==> MondayOf(today) + 18 <= MaxDay
    ensures r.Ok? ==> r.value.start == Later(Stamp(year.startDate, 0), Stamp(FromDay(MondayOf(today)), mondayTime))
    ensures r.Ok? ==> r.value.end == Earlier(Stamp(year.endDate, 0), Stamp(FromDay(MondayOf(today) + 18), fridayTime))
  {
    var week1Monday :- OtherWeekday(0, 0, today, mondayTime);
    var _ :- OtherWeekday(0, 1, today, mondayTime);
    var _ :- OtherWeekday(0, 2, today, mondayTime);
    var week3Friday :- OtherWeekday(4, 2, today, fridayTime);
    Ok(Window(Later(Stamp(year.startDate, 0), week1Monday), Earlier(Stamp(year.endDate, 0), week3Friday)))
  }

  /** The days of `days` from Monday to Friday, in order. */
  function BusinessDays(days: seq<Day>): (r: seq<Day>)
    ensures forall d :: d in r <==> d in days && Weekday(d) < 5
  {
    if days == [] then []
    else
      assert forall d :: d in days <==> d == days[0] || d in days[1..];
      (if Weekday(days[0]) < 5 then [days[0]] else []) + BusinessDays(days[1..])
  }

  lemma {:induction false} BusinessDaysAscend(days: seq<Day>)
    requires Ascending(days)
    ensures Ascending(BusinessDays(days))
  {
    if days != [] {
      var x, tail := days[0], days[1..];
      assert Ascending(tail);
      BusinessDaysAscend(tail);
      var rest := BusinessDays(tail);
      HeadBeforeTail(days);
      var head := if Weekday(x) < 5 then [x] else [];
      PrependAscending(head, x, rest);
      assert head + rest == BusinessDays(days);
    }
  }

  /** In an ascending list, the first day comes before every later one. */
  lemma HeadBeforeTail(days: seq<Day>)
    requires Ascending(days) && days != []
    ensures forall d | d in days[1..] :: days[0] < d
  {
    forall d | d in days[1..]
      ensures days[0] < d
    {
      var i :| 0 <= i < |days[1..]| && days[1..][i] == d;
      assert days[i + 1] == d;
    }
  }

  lemma PrependAscending(head: seq<Day>, x: Day, rest: seq<Day>)
    requires head == [] || head == [x]
    requires Ascending(rest) && forall d | d in rest :: x < d
    ensures Ascending(head + rest)
  {
    if head == [x] {
      var r := head + rest;
      forall i, j | 0 <= i < j < |r|
        ensures r[i] < r[j]
      {
        assert r[j] == rest[j - 1];
        if i > 0 {
          assert r[i] == rest[i - 1];
        } else {
          assert r[j] in rest;
        }
      }
    } else {
      assert head + rest == rest;
    }
  }

  /** `timetable_days`: the Monday-to-Friday days of the window, ascending; the
      window's last day is left out when its time of day is earlier than the
      first day's (see `DateRange`). */
  function TimetableDays(w: Window): (r: Result<seq<Day>>)
    ensures r.Err? <==> w.end.day.date == MaxDay
    ensures r.Ok? ==> Ascending(r.value)
    ensures r.Ok? ==> forall d: Day :: d in r.value <==>
      w.start.day.date <= d <= w.end.day.date && Weekday(d) < 5 && !(d == w.end.day.date && w.end.time < w.start.time)
  {
    var all :- DateRange(w.start, w.end);
    BusinessDaysAscend(all);
    Ok(BusinessDays(all))
  }

  // ---------------------------------------------------------------------------
  // Three weeks of five days

  /** `weeks[w]`: the days whose index `i` has `i / 5 == w`. */
  function Week<T>(days: seq<T>, w: nat): (r: seq<T>)
    ensures |r| <= 5
    ensures forall i | 0 <= i < |r| :: 5 * w + i < |days| && r[i] == days[5 * w + i]
  {
    if |days| <= 5 * w then []
    else if |days| <= 5 * w + 5 then days[5 * w..]
    else days[5 * w..5 * w + 5]
  }

  // ---------------------------------------------------------------------------
  // One day

  predicate Covers(h: Holiday, d: Day) {
    h.startDate.date <= d <= h.endDate.date
  }

  /** `possible_holidays[0]`: the first holiday covering the day, if any. */
  function HolidayOn(holidays: seq<Holiday>, d: Day): (r: Option<Holiday>)
    ensures r.None? <==> forall i | 0 <= i < |holidays| :: !Covers(holidays[i], d)
    ensures r.Some? ==> exists i | 0 <= i < |holidays| ::
      holidays[i] == r.value && Covers(r.value, d) && forall j | 0 <= j < i :: !Covers(holidays[j], d)
  {
    if holidays == [] then None
    else if Covers(holidays[0], d) then Some(holidays[0])
    else
      var r := HolidayOn(holidays[1..], d);
      assert forall i | 1 <= i < |holidays| :: holidays[i] == holidays[1..][i - 1];
      if r.Some? then
        var k :| 0 <= k < |holidays[1..]| && holidays[1..][k] == r.value && Covers(r.value, d)
          && forall j | 0 <= j < k :: !Covers(holidays[1..][j], d);
        assert holidays[k + 1] == r.value && forall j | 0 <= j < k + 1 :: !Covers(holidays[j], d);
        r
      else r
  }

  /** `[t for t in timetable if t.date == date]`. */
  function OnDate(lessons: seq<TimetableEntry>, d: Day): (r: seq<TimetableEntry>)
    ensures forall l :: l in r <==> l in lessons && l.date.date == d
    ensures |r| <= |lessons|
  {
    if lessons == [] then []
    else
      assert forall l :: l in lessons <==> l == lessons[0] || l in lessons[1..];
      (if lessons[0].date.date == d then [lessons[0]] else []) + OnDate(lessons[1..], d)
  }

  /** The sort key of a lesson: its start time in minutes since midnight. */
  function StartKey(l: TimetableEntry): int {
    TimeValue(l.startTime)
  }

  /** The key a lesson is filed under in the day's object: its start time as the
      backend wrote it. */
  function SlotKey(l: TimetableEntry): string {
    l.startTime.untisTime
  }

  /** `day_lessons`: the lessons of the day, stably sorted by start time. */
  function LessonsOn(lessons: seq<TimetableEntry>, d: Day): seq<TimetableEntry> {
    SortBy(OnDate(lessons, d), StartKey)
  }

  /** The slots of the day's object once the loop of lines 273-284 has seen the
      first `n` lessons: a lesson whose start string differs from the previous
      lesson's starts a new list under its key (replacing whatever was there), and
      one with the same string is appended to that list. The loop's previous-start
      variable begins as the integer 0, which equals no string. */
  function Grouped(ls: seq<TimetableEntry>, n: nat, render: TimetableEntry -> Json): (g: map<string, seq<Json>>)
    requires n <= |ls|
    ensures n > 0 ==> SlotKey(ls[n - 1]) in g
  {
    if n == 0 then map[]
    else
      var g := Grouped(ls, n - 1, render);
      var k := SlotKey(ls[n - 1]);
      if n == 1 || SlotKey(ls[n - 2]) != k then g[k := [render(ls[n - 1])]]
      else
        g[k := g[k] + [render(ls[n - 1])]]
  }

  /** The rendered lessons filed under key `k`, in order: what a slot should hold. */
  function SlotLessons(ls: seq<TimetableEntry>, k: string, render: TimetableEntry -> Json): seq<Json> {
    if ls == [] then []
    else SlotLessons(ls[..|ls| - 1], k, render) + (if SlotKey(ls[|ls| - 1]) == k then [render(ls[|ls| - 1])] else [])
  }

  /** The lessons with one start string sit next to each other. */
  predicate Contiguous(ls: seq<TimetableEntry>) {
    forall i, m, j | 0 <= i < m < j < |ls| && SlotKey(ls[i]) == SlotKey(ls[j]) :: SlotKey(ls[m]) == SlotKey(ls[i])
  }

  /** The start strings are one-to-one with the start times. */
  predicate CanonicalTimes(ls: seq<TimetableEntry>) {
    forall a, b | a in ls && b in ls :: SlotKey(a) == SlotKey(b) <==> StartKey(a) == StartKey(b)
  }

  /** The day's object: the holiday alone, nothing, or the lessons by start string. */
  function DayJson(d: Day, holidays: seq<Holiday>, lessons: seq<TimetableEntry>, r: Renderers): (j: Json)
    ensures j.Object?
  {
    match HolidayOn(holidays, d)
    case Some(h) => Object(map["holiday" := r.holiday(h)])
    case None =>
      var ls := LessonsOn(lessons, d);
      var g := Grouped(ls, |ls|, r.lesson);
      Object(map k | k in g :: List(g[k]))
  }

  /** Only a day with lessons looks at the timegrid of its weekday. */
  predicate NeedsGrid(d: Day, holidays: seq<Holiday>, lessons: seq<TimetableEntry>) {
    HolidayOn(holidays, d).None? && LessonsOn(lessons, d) != []
  }

  // ---------------------------------------------------------------------------
  // Substitutions

  /** How `getSubstitutions` ended: with a list, with a `PyUntisError`, or with
      some other exception. */
  datatype SubstitutionFetch =
    | Fetched(items: seq<Substitution>)
    | Failed(error: UntisError)
    | FailedOther

  /** `substitutions_denied`. */
  predicate Denied(fetch: SubstitutionFetch) {
    fetch.Failed? && fetch.error.errorId == Int(-8509)
  }

  predicate InClass(kl: SchoolClass, s: Substitution, r: Renderers) {
    exists c | c in s.classes :: r.sameClass(kl, c)
  }

  /** The truthy `to_json` of the substitutions of class `kl`, in input order. */
  function ClassSubstitutions(kl: SchoolClass, subs: seq<Substitution>, r: Renderers): (out: seq<Json>)
    ensures |out| <= |subs|
  {
    if subs == [] then []
    else
      var s := subs[|subs| - 1];
      ClassSubstitutions(kl, subs[..|subs| - 1], r)
        + (if InClass(kl, s, r) && Truthy(r.substitution(s)) then [r.substitution(s)] else [])
  }

  /** The key the substitution block writes and its value. */
  function SubstitutionEntry(kl: SchoolClass, fetch: SubstitutionFetch, r: Renderers): (string, Json) {
    if fetch.Fetched? && fetch.items != [] then ("substitutions", List(ClassSubstitutions(kl, fetch.items, r)))
    else ("substitutionDenied", Bool(Denied(fetch)))
  }

  // ---------------------------------------------------------------------------
  // One class

  function FirstDay(start: UntisDate, r: Renderers): Json {
    Object(map["untis" := Str(start.untisDate), "iso8601" := r.iso8601(start), "readable" := Str(ReadableDate(start.date))])
  }

  /** One day of the loop of lines 248-286: its object, or the index error of
      `timegrid[weekday]` when a day with lessons has no timegrid entry. */
  function DayOutcome(d: Day, holidays: seq<Holiday>, lessons: seq<TimetableEntry>, gridLength: nat, r: Renderers)
    : (res: Result<Json>)
    ensures res.Err? ==> res.error == IndexError
  {
    if NeedsGrid(d, holidays, lessons) && Weekday(d) >= gridLength then Err(IndexError)
    else Ok(DayJson(d, holidays, lessons, r))
  }

  function DayOutcomes(days: seq<Day>, holidays: seq<Holiday>, lessons: seq<TimetableEntry>, gridLength: nat,
                       r: Renderers): (os: seq<Result<Json>>)
    ensures |os| == |days|
    ensures forall i | 0 <= i < |days| :: os[i] == DayOutcome(days[i], holidays, lessons, gridLength, r)
  {
    seq(|days|, i requires 0 <= i < |days| => DayOutcome(days[i], holidays, lessons, gridLength, r))
  }

  /** `timetable_json["weeks"]`: three lists of five days, filled day by day.
      The first failing day ends the loop; a sixteenth day, once computed, would
      be appended to a fourth week, an index error like a missing timegrid. */
  function ThreeWeeks(os: seq<Result<Json>>): Result<Json> {
    if |os| > 15 then
      var _ :- Collect(os[..16]);
      Err(IndexError)
    else
      var vs :- Collect(os);
      var ws := Weeks(vs);
      Ok(List([List(ws[0]), List(ws[1]), List(ws[2])]))
  }

  function ClassWeeks(days: seq<Day>, holidays: seq<Holiday>, lessons: seq<TimetableEntry>, gridLength: nat,
                      r: Renderers): Result<Json>
  {
    ThreeWeeks(DayOutcomes(days, holidays, lessons, gridLength, r))
  }

  /** `timetable_json` for class `kl`. */
  function ClassTimetable(kl: SchoolClass, window: Window, holidays: seq<Holiday>, lessons: seq<TimetableEntry>,
                          gridLength: nat, fetch: SubstitutionFetch, r: Renderers): Result<Json>
  {
    var days :- TimetableDays(window);
    var weeks :- ClassWeeks(days, holidays, lessons, gridLength, r);
    var entry := SubstitutionEntry(kl, fetch, r);
    Ok(Object(map["firstDay" := FirstDay(window.start.day, r), "weeks" := weeks, entry.0 := entry.1]))
  }

  // ---------------------------------------------------------------------------
  // Properties

  /** Week 3's Friday is 18 days after week 1's Monday; every requested weekday
      has the requested weekday number. */
  lemma OtherWeekdayOffsets(today: Day, mondayTime: TimeOfDay, fridayTime: TimeOfDay)
    requires MondayOf(today) + 18 <= MaxDay
    ensures OtherWeekday(4, 2, today, fridayTime).Ok? && OtherWeekday(0, 0, today, mondayTime).Ok?
    ensures OtherWeekday(4, 2, today, fridayTime).value.day.date == OtherWeekday(0, 0, today, mondayTime).value.day.date + 18
    ensures Weekday(OtherWeekday(4, 2, today, fridayTime).value.day.date) == 4
    ensures OtherWeekday(0, 0, today, mondayTime).value.day.date <= today < OtherWeekday(0, 0, today, mondayTime).value.day.date + 7
  {
    OtherWeekdayIsWeekday(4, 2, today, fridayTime);
  }

  /** The clamped window lies inside both the school year and the three weeks. */
  lemma {:induction false} WindowInside(year: Schoolyear, today: Day, mondayTime: TimeOfDay, fridayTime: TimeOfDay)
    requires ClampWindow(year, today, mondayTime, fridayTime).Ok?
    ensures var w := ClampWindow(year, today, mondayTime, fridayTime).value;
      w.start.day.date >= year.startDate.date && w.start.day.date >= MondayOf(today)
      && w.end.day.date <= year.endDate.date && w.end.day.date <= MondayOf(today) + 18
  {
    var w := ClampWindow(year, today, mondayTime, fridayTime).value;
    var m := MondayOf(today);
    assert w.start == Later(Stamp(year.startDate, 0), Stamp(FromDay(m), mondayTime));
    assert w.end == Earlier(Stamp(year.endDate, 0), Stamp(FromDay(m + 18), fridayTime));
  }

  /** When the school year began before this week and ends inside the three
      weeks, the window starts at the clock's time on Monday and ends at midnight
      of the year's last day, so a clock read after midnight leaves the year's
      last day out of the timetable although `daterange` means to include it. */
  lemma YearEndDayDropped(year: Schoolyear, today: Day, mondayTime: TimeOfDay, fridayTime: TimeOfDay)
    requires ClampWindow(year, today, mondayTime, fridayTime).Ok?
    requires year.startDate.date < MondayOf(today) && year.endDate.date <= MondayOf(today) + 18
    requires 0 < mondayTime
    requires TimetableDays(ClampWindow(year, today, mondayTime, fridayTime).value).Ok?
    ensures year.endDate.date !in TimetableDays(ClampWindow(year, today, mondayTime, fridayTime).value).value
  {
    var w := ClampWindow(year, today, mondayTime, fridayTime).value;
    var m := MondayOf(today);
    assert w.start == Stamp(FromDay(m), mondayTime);
    assert w.end == Stamp(year.endDate, 0);
  }

  /** When the three weeks lie inside the school year, the clock's two readings
      keep their order and the window keeps all fifteen business days. */
  lemma ThreeWeeksKept(year: Schoolyear, today: Day, mondayTime: TimeOfDay, fridayTime: TimeOfDay)
    requires ClampWindow(year, today, mondayTime, fridayTime).Ok?
    requires year.startDate.date <= MondayOf(today) && MondayOf(today) + 18 < year.endDate.date
    requires mondayTime <= fridayTime
    ensures var w := ClampWindow(year, today, mondayTime, fridayTime).value;
      TimetableDays(w).Ok? && forall d: Day :: d in TimetableDays(w).value <==>
        MondayOf(today) <= d <= MondayOf(today) + 18 && Weekday(d) < 5
  {
    var w := ClampWindow(year, today, mondayTime, fridayTime).value;
    var m := MondayOf(today);
    assert w.start.day.date == m;
    assert w.end == Stamp(FromDay(m + 18), fridayTime);
  }

  /** A strictly ascending list of numbers between `lo` and `hi` has at most
      `hi - lo + 1` of them. */
  lemma {:induction false} AscendingBound(xs: seq<int>, lo: int, hi: int)
    requires forall i, j | 0 <= i < j < |xs| :: xs[i] < xs[j]
    requires forall i | 0 <= i < |xs| :: lo <= xs[i] <= hi
    ensures |xs| <= if hi < lo then 0 else hi - lo + 1
    decreases |xs|
  {
    if xs != [] {
      AscendingBound(xs[1..], xs[0] + 1, hi);
    }
  }

  /** The position of a weekday among the business days that follow Monday `m`. */
  function Slot(m: Day, d: Day): int {
    var t := d - m;
    if t < 7 then t else if t < 14 then t - 2 else t - 4
  }

  lemma WeekdayAfterMonday(m: Day, d: Day)
    requires Weekday(m) == 0 && m <= d <= m + 18
    ensures Weekday(d) == (d - m) % 7
  {
  }

  lemma {:induction false} SlotsAscend(m: Day, days: seq<Day>)
    requires Weekday(m) == 0 && Ascending(days)
    requires forall i | 0 <= i < |days| :: m <= days[i] <= m + 18 && Weekday(days[i]) < 5
    ensures forall i, j | 0 <= i < j < |days| :: Slot(m, days[i]) < Slot(m, days[j])
    ensures forall i | 0 <= i < |days| :: 0 <= Slot(m, days[i]) <= 14
  {
    forall i | 0 <= i < |days|
      ensures 0 <= Slot(m, days[i]) <= 14
    {
      WeekdayAfterMonday(m, days[i]);
    }
    forall i, j | 0 <= i < j < |days|
      ensures Slot(m, days[i]) < Slot(m, days[j])
    {
      WeekdayAfterMonday(m, days[i]);
      WeekdayAfterMonday(m, days[j]);
    }
  }

  /** At most fifteen Monday-to-Friday days fit between a Monday and the Friday
      of the week after next. */
  lemma {:induction false} FifteenBusinessDays(m: Day, days: seq<Day>)
    requires Weekday(m) == 0 && Ascending(days)
    requires forall i | 0 <= i < |days| :: m <= days[i] <= m + 18 && Weekday(days[i]) < 5
    ensures |days| <= 15
  {
    SlotsAscend(m, days);
    var slots := seq(|days|, i requires 0 <= i < |days| => Slot(m, days[i]));
    AscendingBound(slots, 0, 14);
  }

  /** The business days of the clamped window fill at most the three weeks the
      export sets aside, so the sixteenth-day index error cannot happen. */
  lemma {:induction false} AtMostFifteenDays(year: Schoolyear, today: Day, mondayTime: TimeOfDay, fridayTime: TimeOfDay)
    requires ClampWindow(year, today, mondayTime, fridayTime).Ok?
    requires TimetableDays(ClampWindow(year, today, mondayTime, fridayTime).value).Ok?
    ensures |TimetableDays(ClampWindow(year, today, mondayTime, fridayTime).value).value| <= 15
  {
    var w := ClampWindow(year, today, mondayTime, fridayTime).value;
    var m := MondayOf(today);
    assert m <= w.start.day.date && w.end.day.date <= m + 18 by {
      WindowInside(year, today, mondayTime, fridayTime);
    }
    WindowDaysBound(w, m);
  }

  /** A window inside the three weeks from Monday `m` has at most fifteen
      business days. */
  lemma WindowDaysBound(w: Window, m: Day)
    requires Weekday(m) == 0 && m <= w.start.day.date && w.end.day.date <= m + 18 && TimetableDays(w).Ok?
    ensures |TimetableDays(w).value| <= 15
  {
    var days := TimetableDays(w).value;
    assert forall i | 0 <= i < |days| :: days[i] in days;
    FifteenBusinessDays(m, days);
  }

  /** For at most fifteen days the three weeks together are the days in order. */
  lemma WeeksChunkDays<T>(days: seq<T>)
    requires |days| <= 15
    ensures Week(days, 0) + Week(days, 1) + Week(days, 2) == days
  {
    var n := |days|;
    if n <= 5 {
      assert Week(days, 0) == days[0..] == days && Week(days, 1) == [] && Week(days, 2) == [];
    } else if n <= 10 {
      assert Week(days, 0) == days[0..5] && Week(days, 1) == days[5..] && Week(days, 2) == [];
      assert days == days[0..5] + days[5..];
    } else {
      assert Week(days, 0) == days[0..5] && Week(days, 1) == days[5..10] && Week(days, 2) == days[10..];
      assert days == days[0..5] + days[5..10] + days[10..];
    }
  }

  /** Appending day number `|days|` to week `|days| / 5` extends the weeks. */
  lemma WeekAppend<T>(days: seq<T>, x: T, w: nat)
    requires |days| < 15 && w < 3
    ensures Week(days + [x], w) == Week(days, w) + (if w == |days| / 5 then [x] else [])
  {
  }

  /** The three weeks of the days so far. */
  function Weeks<T>(days: seq<T>): (ws: seq<seq<T>>)
    ensures |ws| == 3
  {
    [Week(days, 0), Week(days, 1), Week(days, 2)]
  }

  /** The step of the day loop: the next day goes to the end of week
      `|days| / 5`, and the other weeks are unchanged. */
  lemma WeeksAppend<T>(days: seq<T>, x: T)
    requires |days| < 15
    ensures Weeks(days + [x]) == Weeks(days)[|days| / 5 := Weeks(days)[|days| / 5] + [x]]
  {
    WeekAppend(days, x, 0);
    WeekAppend(days, x, 1);
    WeekAppend(days, x, 2);
    var w0, w1, w2 := Week(days, 0), Week(days, 1), Week(days, 2);
    var v0, v1, v2 := Week(days + [x], 0), Week(days + [x], 1), Week(days + [x], 2);
    assert Weeks(days + [x]) == [v0, v1, v2];
    if |days| < 5 {
      assert |days| / 5 == 0;
      assert v0 == w0 + [x] && v1 == w1 && v2 == w2;
      assert Weeks(days)[0 := w0 + [x]] == [w0 + [x], w1, w2];
    } else if |days| < 10 {
      assert |days| / 5 == 1;
      assert v0 == w0 && v1 == w1 + [x] && v2 == w2;
      assert Weeks(days)[1 := w1 + [x]] == [w0, w1 + [x], w2];
    } else {
      assert |days| / 5 == 2;
      assert v0 == w0 && v1 == w1 && v2 == w2 + [x];
      assert Weeks(days)[2 := w2 + [x]] == [w0, w1, w2 + [x]];
    }
  }

  /** The weeks fail exactly when some day fails or there are more than fifteen
      days. */
  lemma ThreeWeeksFails(os: seq<Result<Json>>)
    ensures ThreeWeeks(os).Err? <==> |os| > 15 || exists i | 0 <= i < |os| :: os[i].Err?
  {
    if |os| <= 15 {
      CollectOutcome(os);
    }
  }

  /** Otherwise day `5 * w + j` is place `j` of week `w`. */
  lemma ThreeWeeksPlaces(os: seq<Result<Json>>, w: nat, j: nat)
    requires ThreeWeeks(os).Ok? && j < 5 && 5 * w + j < |os|
    ensures var weeks := ThreeWeeks(os).value;
      os[5 * w + j].Ok? && weeks.List? && |weeks.items| == 3 && w < 3 && weeks.items[w].List?
      && j < |weeks.items[w].items| && weeks.items[w].items[j] == os[5 * w + j].value
  {
    assert |os| <= 15 && Collect(os).Ok?;
    var vs := Collect(os).value;
    assert os[5 * w + j].Ok? && vs[5 * w + j] == os[5 * w + j].value by {
      CollectOutcome(os);
    }
    var ws := Weeks(vs);
    assert ThreeWeeks(os).value == List([List(ws[0]), List(ws[1]), List(ws[2])]);
    WeekPlace(vs, w, j);
  }

  /** Place `j` of week `w` is day `5 * w + j`. */
  lemma WeekPlace<T>(days: seq<T>, w: nat, j: nat)
    requires j < 5 && 5 * w + j < |days|
    ensures j < |Week(days, w)| && Week(days, w)[j] == days[5 * w + j]
  {
  }

  /** The day loop stops at day `i`, after `i` successful days, when that day
      fails or when it is the sixteenth. */
  lemma ThreeWeeksStop(os: seq<Result<Json>>, i: nat, o: Result<Json>)
    requires i < |os| && i <= 15 && os[i] == o && Collect(os[..i]).Ok?
    requires o.Err? || i == 15
    ensures ThreeWeeks(os) == Err(if o.Err? then o.error else IndexError)
  {
    if |os| > 15 {
      var front := os[..16];
      assert front[..i] == os[..i] && front[i] == o;
      CollectStep(front, i, o);
      if o.Ok? {
        assert front[..i + 1] == front;
      }
    } else {
      CollectStep(os, i, o);
    }
  }

  /** A holiday day holds exactly the first covering holiday's rendering and no
      lesson key. */
  lemma HolidayDayIsHolidayOnly(d: Day, holidays: seq<Holiday>, lessons: seq<TimetableEntry>, r: Renderers, k: nat)
    requires k < |holidays| && Covers(holidays[k], d)
    ensures var j := DayJson(d, holidays, lessons, r);
      exists i | 0 <= i <= k :: j.fields == map["holiday" := r.holiday(holidays[i])] && Covers(holidays[i], d)
  {
    var h := HolidayOn(holidays, d);
    assert h.Some?;
    var i :| 0 <= i < |holidays| && holidays[i] == h.value && Covers(h.value, d)
      && forall j | 0 <= j < i :: !Covers(holidays[j], d);
    assert i <= k;
  }

  /** A day without holiday and without lessons is written as an empty object,
      not left out. */
  lemma EmptyDayIsEmptyObject(d: Day, holidays: seq<Holiday>, lessons: seq<TimetableEntry>, r: Renderers)
    requires forall i | 0 <= i < |holidays| :: !Covers(holidays[i], d)
    requires forall l | l in lessons :: l.date.date != d
    ensures DayJson(d, holidays, lessons, r) == Object(map[])
  {
  }

  /** Sorted lessons whose start strings match their start times keep each string
      in one run. */
  lemma {:induction false} SortedCanonicalIsContiguous(ls: seq<TimetableEntry>)
    requires SortedBy(ls, StartKey) && CanonicalTimes(ls)
    ensures Contiguous(ls)
  {
    forall i, m, j | 0 <= i < m < j < |ls| && SlotKey(ls[i]) == SlotKey(ls[j])
      ensures SlotKey(ls[m]) == SlotKey(ls[i])
    {
      assert ls[i] in ls && ls[j] in ls && ls[m] in ls;
      assert StartKey(ls[i]) <= StartKey(ls[m]) <= StartKey(ls[j]);
    }
  }

  lemma {:induction false} SlotLessonsAbsent(ls: seq<TimetableEntry>, k: string, render: TimetableEntry -> Json)
    requires forall i | 0 <= i < |ls| :: SlotKey(ls[i]) != k
    ensures SlotLessons(ls, k, render) == []
  {
    if ls != [] {
      SlotLessonsAbsent(ls[..|ls| - 1], k, render);
    }
  }

  lemma SlotLessonsStep(ls: seq<TimetableEntry>, n: nat, k: string, render: TimetableEntry -> Json)
    requires 0 < n <= |ls|
    ensures SlotLessons(ls[..n], k, render)
      == SlotLessons(ls[..n - 1], k, render) + (if SlotKey(ls[n - 1]) == k then [render(ls[n - 1])] else [])
  {
    assert ls[..n][..n - 1] == ls[..n - 1];
  }

  /** In a contiguous list, a lesson whose start string differs from its
      predecessor's is the first with that string. */
  lemma {:induction false} NewRunIsFirst(ls: seq<TimetableEntry>, n: nat, render: TimetableEntry -> Json)
    requires 0 < n <= |ls| && Contiguous(ls)
    requires n == 1 || SlotKey(ls[n - 2]) != SlotKey(ls[n - 1])
    ensures SlotLessons(ls[..n - 1], SlotKey(ls[n - 1]), render) == []
  {
    var k := SlotKey(ls[n - 1]);
    var prefix := ls[..n - 1];
    assert forall i | 0 <= i < |prefix| :: SlotKey(prefix[i]) != k;
    SlotLessonsAbsent(prefix, k, render);
  }

  /** One step of the grouping loop keeps each slot equal to its lessons. */
  lemma {:induction false} GroupedStep(ls: seq<TimetableEntry>, n: nat, render: TimetableEntry -> Json, key: string)
    requires 0 < n <= |ls| && Contiguous(ls)
    requires key in Grouped(ls, n, render)
    requires key in Grouped(ls, n - 1, render) ==> Grouped(ls, n - 1, render)[key] == SlotLessons(ls[..n - 1], key, render)
    ensures Grouped(ls, n, render)[key] == SlotLessons(ls[..n], key, render)
  {
    SlotLessonsStep(ls, n, key, render);
    var k := SlotKey(ls[n - 1]);
    if key == k && (n == 1 || SlotKey(ls[n - 2]) != k) {
      NewRunIsFirst(ls, n, render);
    }
  }

  lemma {:induction false} GroupedSlot(ls: seq<TimetableEntry>, n: nat, render: TimetableEntry -> Json, key: string)
    requires n <= |ls| && Contiguous(ls)
    requires key in Grouped(ls, n, render)
    ensures Grouped(ls, n, render)[key] == SlotLessons(ls[..n], key, render)
  {
    if n > 0 {
      if key in Grouped(ls, n - 1, render) {
        GroupedSlot(ls, n - 1, render, key);
      }
      GroupedStep(ls, n, render, key);
    }
  }

  /** When each start string sits in one run, every slot holds exactly the
      lessons with that string, in sorted order. */
  lemma GroupedCollects(ls: seq<TimetableEntry>, render: TimetableEntry -> Json)
    requires Contiguous(ls)
    ensures forall k | k in Grouped(ls, |ls|, render) :: Grouped(ls, |ls|, render)[k] == SlotLessons(ls, k, render)
  {
    assert ls[..|ls|] == ls;
    forall k | k in Grouped(ls, |ls|, render)
      ensures Grouped(ls, |ls|, render)[k] == SlotLessons(ls, k, render)
    {
      GroupedSlot(ls, |ls|, render, k);
    }
  }

  /** The day's lessons are those of its date, sorted by start time. */
  lemma {:induction false} LessonsOnFacts(lessons: seq<TimetableEntry>, d: Day)
    ensures var ls := LessonsOn(lessons, d);
      SortedBy(ls, StartKey) && forall l :: l in ls <==> l in lessons && l.date.date == d
  {
    var on := OnDate(lessons, d);
    var ls := LessonsOn(lessons, d);
    SortBySorted(on, StartKey);
    assert multiset(ls) == multiset(on);
    forall l
      ensures l in ls <==> l in on
    {
      assert l in ls <==> l in multiset(ls);
      assert l in on <==> l in multiset(on);
    }
  }

  lemma {:induction false} GroupedPrefixKeys(ls: seq<TimetableEntry>, n: nat, render: TimetableEntry -> Json)
    requires n <= |ls|
    ensures Grouped(ls, n, render).Keys == set i | 0 <= i < n :: SlotKey(ls[i])
  {
    if n > 0 {
      GroupedPrefixKeys(ls, n - 1, render);
      var keys := set i | 0 <= i < n :: SlotKey(ls[i]);
      var before := set i | 0 <= i < n - 1 :: SlotKey(ls[i]);
      assert keys == before + {SlotKey(ls[n - 1])} by {
        forall k | k in keys
          ensures k in before + {SlotKey(ls[n - 1])}
        {
          var i :| 0 <= i < n && SlotKey(ls[i]) == k;
          if i < n - 1 {
            assert k in before;
          }
        }
      }
    }
  }

  lemma GroupedKeys(ls: seq<TimetableEntry>, render: TimetableEntry -> Json)
    ensures Grouped(ls, |ls|, render).Keys == set l | l in ls :: SlotKey(l)
  {
    GroupedPrefixKeys(ls, |ls|, render);
    var g := Grouped(ls, |ls|, render);
    forall k | k in g
      ensures exists l | l in ls :: SlotKey(l) == k
    {
      var i :| 0 <= i < |ls| && SlotKey(ls[i]) == k;
      assert ls[i] in ls;
    }
    forall l | l in ls
      ensures SlotKey(l) in g
    {
      var i :| 0 <= i < |ls| && ls[i] == l;
    }
  }

  /** The day's slots are the start strings of its lessons, and for lessons whose
      start strings are one-to-one with their start times each slot lists all
      that day's lessons at that time, in input order. */
  lemma {:induction false} DaySlots(d: Day, holidays: seq<Holiday>, lessons: seq<TimetableEntry>, r: Renderers)
    requires HolidayOn(holidays, d).None?
    requires CanonicalTimes(lessons)
    ensures var ls := LessonsOn(lessons, d); var j := DayJson(d, holidays, lessons, r);
      j.fields.Keys == (set l | l in ls :: SlotKey(l))
      && (forall l | l in ls :: l in lessons && l.date.date == d)
      && forall k | k in j.fields :: j.fields[k] == List(SlotLessons(ls, k, r.lesson))
  {
    var ls := LessonsOn(lessons, d);
    LessonsOnFacts(lessons, d);
    assert CanonicalTimes(ls);
    SortedCanonicalIsContiguous(ls);
    GroupedCollects(ls, r.lesson);
    GroupedKeys(ls, r.lesson);
  }

  /** Two spellings of one start time, interleaved by the stable sort, make the
      later run replace the earlier one: the lesson at "800" is lost. */
  lemma InterleavedSpellingsLoseLessons(a: TimetableEntry, b: TimetableEntry, c: TimetableEntry, render: TimetableEntry -> Json)
    requires SlotKey(a) == "800" && SlotKey(b) == "0800" && SlotKey(c) == "800"
    ensures Grouped([a, b, c], 3, render)["800"] == [render(c)]
  {
    assert SlotKey([a, b, c][1]) != SlotKey([a, b, c][2]);
  }

  /** The substitution block writes exactly one of its two keys; the list holds
      exactly the truthy renderings of the class's substitutions, and the flag is
      set only for the backend's error -8509. */
  lemma SubstitutionBlock(kl: SchoolClass, fetch: SubstitutionFetch, r: Renderers)
    ensures var e := SubstitutionEntry(kl, fetch, r);
      (e.0 == "substitutions" <==> fetch.Fetched? && fetch.items != [])
      && (e.0 == "substitutionDenied" <==> !(fetch.Fetched? && fetch.items != []))
      && (e.0 == "substitutionDenied" ==> (e.1 == Bool(true) <==> fetch.Failed? && fetch.error.errorId == Int(-8509)))
      && (e.0 == "substitutions" ==> e.1.List? && forall x :: x in e.1.items <==>
            exists s | s in fetch.items :: InClass(kl, s, r) && x == r.substitution(s) && Truthy(x))
  {
    if fetch.Fetched? && fetch.items != [] {
      ClassSubstitutionsMembers(kl, fetch.items, r);
    }
  }

  lemma {:induction false} ClassSubstitutionsMembers(kl: SchoolClass, subs: seq<Substitution>, r: Renderers)
    ensures forall x :: x in ClassSubstitutions(kl, subs, r) <==>
      exists s | s in subs :: InClass(kl, s, r) && x == r.substitution(s) && Truthy(x)
  {
    if subs != [] {
      ClassSubstitutionsMembers(kl, subs[..|subs| - 1], r);
      assert subs == subs[..|subs| - 1] + [subs[|subs| - 1]];
      assert forall s :: s in subs <==> s in subs[..|subs| - 1] || s == subs[|subs| - 1];
    }
  }
}
