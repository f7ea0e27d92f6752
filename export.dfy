/** The loops of `handle_school` that write the per-class timetable files, each
    proved to compute the value the Timetable module specifies. */
module Export {
  import opened Json
  import opened Calendar
  import opened UntisCodec
  import opened UntisClasses
  import opened Sorting
  import opened Timetable

  /** Lines 272-284: the day's lessons filed under their start strings. The
      previous start begins as the integer 0, which equals no string; `None`
      stands for it. */
  method GroupLessons(ls: seq<TimetableEntry>, render: TimetableEntry -> Json) returns (slots: map<string, seq<Json>>)
    ensures slots == Grouped(ls, |ls|, render)
    ensures slots.Keys == set l | l in ls :: SlotKey(l)
    ensures Contiguous(ls) ==> forall k | k in slots :: slots[k] == SlotLessons(ls, k, render)
  {
    slots := map[];
    var lastStart: Option<string> := None;
    var i := 0;
    while i < |ls|
      invariant 0 <= i <= |ls|
      invariant slots == Grouped(ls, i, render)
      invariant lastStart == if i == 0 then None else Some(SlotKey(ls[i - 1]))
    {
      var lessonJson := render(ls[i]);
      var start := ls[i].startTime.untisTime;
      if lastStart != Some(start) {
        slots := slots[start := [lessonJson]];
      } else {
        slots := slots[start := slots[start] + [lessonJson]];
      }
      lastStart := Some(start);
      i := i + 1;
    }
    GroupedKeys(ls, render);
    if Contiguous(ls) {
      GroupedCollects(ls, render);
    }
  }

  /** Lines 289-294: the substitutions that name the class, rendered, with falsy
      renderings dropped (the comprehension and the loop in one pass). */
  method CollectSubstitutions(kl: SchoolClass, subs: seq<Substitution>, r: Renderers) returns (out: seq<Json>)
    ensures out == ClassSubstitutions(kl, subs, r)
    ensures forall x :: x in out <==> exists s | s in subs :: InClass(kl, s, r) && x == r.substitution(s) && Truthy(x)
  {
    out := [];
    var i := 0;
    while i < |subs|
      invariant 0 <= i <= |subs|
      invariant out == ClassSubstitutions(kl, subs[..i], r)
    {
      var subst := subs[i];
      if InClass(kl, subst, r) {
        var substJson := r.substitution(subst);
        if Truthy(substJson) {
          out := out + [substJson];
        }
      }
      assert subs[..i + 1][..i] == subs[..i];
      i := i + 1;
    }
    assert subs[..|subs|] == subs;
    ClassSubstitutionsMembers(kl, subs, r);
  }

  /** Lines 249-286: one day's object, or the index error of a day with lessons
      whose weekday has no timegrid. */
  method BuildDay(date: Day, holidays: seq<Holiday>, lessons: seq<TimetableEntry>, gridLength: nat, r: Renderers)
    returns (res: Result<Json>)
    ensures res == DayOutcome(date, holidays, lessons, gridLength, r)
  {
    var holiday := HolidayOn(holidays, date);
    if holiday.Some? {
      return Ok(Object(map["holiday" := r.holiday(holiday.value)]));
    }
    var dayLessons := LessonsOn(lessons, date);
    if dayLessons == [] {
      return Ok(Object(map[]));
    }
    if Weekday(date) >= gridLength {
      // `timegrid[date.weekday()]`
      return Err(IndexError);
    }
    var slots := GroupLessons(dayLessons, r.lesson);
    return Ok(Object(map k | k in slots :: List(slots[k])));
  }

  /** Lines 245-286: the three weeks, day `i` appended to week `i / 5`. */
  method FillWeeks(days: seq<Day>, holidays: seq<Holiday>, lessons: seq<TimetableEntry>, gridLength: nat, r: Renderers)
    returns (res: Result<Json>)
    ensures res == ClassWeeks(days, holidays, lessons, gridLength, r)
  {
    var weeks: seq<seq<Json>> := [[], [], []];
    ghost var os := DayOutcomes(days, holidays, lessons, gridLength, r);
    ghost var done: seq<Json> := [];
    var i := 0;
    while i < |days|
      invariant 0 <= i <= |days| && i <= 15
      invariant Collect(os[..i]) == Ok(done) && |done| == i
      invariant weeks == Weeks(done)
    {
      var weekIndex := i / 5;
      var dayJson := BuildDay(days[i], holidays, lessons, gridLength, r);
      if dayJson.Err? || weekIndex >= 3 {
        ThreeWeeksStop(os, i, dayJson);
        return Err(if dayJson.Err? then dayJson.error else IndexError);
      }
      CollectStep(os, i, dayJson);
      WeeksAppend(done, dayJson.value);
      weeks := weeks[weekIndex := weeks[weekIndex] + [dayJson.value]];
      done := done + [dayJson.value];
      i := i + 1;
    }
    assert os[..i] == os;
    return Ok(List([List(weeks[0]), List(weeks[1]), List(weeks[2])]));
  }

  /** Lines 235-297: the timetable object of one class. */
  method BuildClassTimetable(kl: SchoolClass, window: Window, holidays: seq<Holiday>, lessons: seq<TimetableEntry>,
                             gridLength: nat, fetch: SubstitutionFetch, r: Renderers) returns (res: Result<Json>)
    ensures res == ClassTimetable(kl, window, holidays, lessons, gridLength, fetch, r)
  {
    var days :- TimetableDays(window);
    var firstDay := FirstDay(window.start.day, r);
    var weeks :- FillWeeks(days, holidays, lessons, gridLength, r);
    var content := map["firstDay" := firstDay, "weeks" := weeks];
    if fetch.Fetched? && fetch.items != [] {
      var classSubstitutions := CollectSubstitutions(kl, fetch.items, r);
      content := content["substitutions" := List(classSubstitutions)];
    } else {
      content := content["substitutionDenied" := Bool(Denied(fetch))];
    }
    return Ok(Object(content));
  }

  /** `"{0}.json".format(kl.id)`. */
  function FileName(kl: SchoolClass, r: Renderers): string {
    r.idText(kl.id) + ".json"
  }

  /** One class's file: its name and its timetable object, or the failure of
      the timetable request or of the assembly. */
  function ClassFile(kl: SchoolClass, lessons: Result<seq<TimetableEntry>>, window: Window, holidays: seq<Holiday>,
                     gridLength: nat, fetch: SubstitutionFetch, r: Renderers): Result<(string, Json)>
  {
    var entries :- lessons;
    var timetable :- ClassTimetable(kl, window, holidays, entries, gridLength, fetch, r);
    Ok((FileName(kl, r), timetable))
  }

  /** Lines 235-298: one pass of the class loop. */
  method WriteClassFile(kl: SchoolClass, lessons: Result<seq<TimetableEntry>>, window: Window, holidays: seq<Holiday>,
                        gridLength: nat, fetch: SubstitutionFetch, r: Renderers) returns (res: Result<(string, Json)>)
    ensures res == ClassFile(kl, lessons, window, holidays, gridLength, fetch, r)
  {
    var entries :- lessons;
    var timetable :- BuildClassTimetable(kl, window, holidays, entries, gridLength, fetch, r);
    return Ok((FileName(kl, r), timetable));
  }

  /** The outcome of each pass of the class loop. */
  function ClassFiles(classes: seq<SchoolClass>, timetables: seq<Result<seq<TimetableEntry>>>, window: Window,
                      holidays: seq<Holiday>, gridLength: nat, fetch: SubstitutionFetch, r: Renderers)
    : (os: seq<Result<(string, Json)>>)
    requires |timetables| == |classes|
    ensures |os| == |classes|
    ensures forall i | 0 <= i < |classes| :: os[i] == ClassFile(classes[i], timetables[i], window, holidays, gridLength, fetch, r)
  {
    seq(|classes|, i requires 0 <= i < |classes| =>
      ClassFile(classes[i], timetables[i], window, holidays, gridLength, fetch, r))
  }

  /** The files written for the classes, in the order of `classes`; the first
      failure ends the run. */
  function AllTimetables(classes: seq<SchoolClass>, timetables: seq<Result<seq<TimetableEntry>>>, window: Window,
                         holidays: seq<Holiday>, gridLength: nat, fetch: SubstitutionFetch, r: Renderers)
    : Result<seq<(string, Json)>>
    requires |timetables| == |classes|
  {
    Collect(ClassFiles(classes, timetables, window, holidays, gridLength, fetch, r))
  }

  /** Lines 228-303: one file per class. The timetable of each class is fetched
      inside the loop; its outcome is the corresponding entry of `timetables`. */
  method ExportTimetables(classes: seq<SchoolClass>, timetables: seq<Result<seq<TimetableEntry>>>, window: Window,
                          holidays: seq<Holiday>, gridLength: nat, fetch: SubstitutionFetch, r: Renderers)
    returns (res: Result<seq<(string, Json)>>)
    requires |timetables| == |classes|
    ensures res == AllTimetables(classes, timetables, window, holidays, gridLength, fetch, r)
  {
    ghost var os := ClassFiles(classes, timetables, window, holidays, gridLength, fetch, r);
    var files: seq<(string, Json)> := [];
    var i := 0;
    while i < |classes|
      invariant 0 <= i <= |classes|
      invariant Collect(os[..i]) == Ok(files)
    {
      var file := WriteClassFile(classes[i], timetables[i], window, holidays, gridLength, fetch, r);
      assert file == os[i] by { assert os[i] == ClassFile(classes[i], timetables[i], window, holidays, gridLength, fetch, r); }
      CollectStep(os, i, file);
      if file.Err? {
        return Err(file.error);
      }
      files := files + [file.value];
      i := i + 1;
    }
    assert os[..i] == os;
    return Ok(files);
  }
}
