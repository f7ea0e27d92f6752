/** The records the backend returns, normalised into fixed fields. Each
    constructor reads its required keys with `record[key]` (a KeyError when the
    key is missing) and its optional ones with `record.get(key)` (None when
    missing); nested lists are parsed element by element, and the first failure,
    in the order the source reads the keys, is the constructor's failure. */
module UntisClasses {
  import opened Json
  import opened Calendar
  import opened UntisCodec

  // ---------------------------------------------------------------------------
  // Errors reported by the backend

  /** `PyUntisError`: the backend's error code and message, and a friendly text
      for the codes the library knows. */
  datatype UntisError = UntisError(errorId: Json, errorMsg: Json, friendly: Option<string>)

  /** The codes with a friendly text, and that text. */
  function FriendlyText(code: Json): Option<string> {
    if code == Int(-7004) then Some("Date out of bounds")
    else if code == Int(-32601) then Some("Method not found")
    else None
  }

  /** Python can look up only hashable values in a dict: lists and dicts are not. */
  predicate Hashable(j: Json) {
    !j.List? && !j.Object?
  }

  /** `PyUntisError(errorJSON)`. */
  function NewUntisError(errorJson: Json): (r: Result<UntisError>)
    ensures r.Ok? <==> errorJson.Object? && "code" in errorJson.fields && "message" in errorJson.fields
                       && Hashable(errorJson.fields["code"])
    ensures r.Ok? ==> r.value.errorId == errorJson.fields["code"] && r.value.errorMsg == errorJson.fields["message"]
    ensures r.Ok? ==> (r.value.friendly.Some? <==> r.value.errorId in {Int(-7004), Int(-32601)})
  {
    var code :- Lookup(errorJson, "code");
    var message :- Lookup(errorJson, "message");
    if !Hashable(code) then Err(TypeError)
    else Ok(UntisError(code, message, FriendlyText(code)))
  }

  /** `PyUntisElementType`: the element kinds the timetable requests name. */
  const ElementClass := 1
  const ElementTeacher := 2
  const ElementSubject := 3
  const ElementRoom := 4
  const ElementStudent := 5

  // ---------------------------------------------------------------------------
  // Flat records

  /** `PyUntisSchool`. */
  datatype School = School(displayName: Json, loginName: Json, address: Json, server: Json)

  function NewSchool(j: Json): (r: Result<School>)
    ensures r.Ok? <==> Has(j, "displayName") && Has(j, "loginName") && Has(j, "address") && Has(j, "server")
    ensures !j.Object? ==> r == Err(TypeError)
    ensures j.Object? && !Has(j, "displayName") ==> r == Err(KeyError("displayName"))
    ensures Has(j, "displayName") && !Has(j, "loginName") ==> r == Err(KeyError("loginName"))
    ensures Has(j, "displayName") && Has(j, "loginName") && !Has(j, "address") ==> r == Err(KeyError("address"))
    ensures Has(j, "displayName") && Has(j, "loginName") && Has(j, "address") && !Has(j, "server")
            ==> r == Err(KeyError("server"))
    ensures r.Ok? ==> r.value == School(j.fields["displayName"], j.fields["loginName"], j.fields["address"], j.fields["server"])
  {
    var displayName :- Lookup(j, "displayName");
    var loginName :- Lookup(j, "loginName");
    var address :- Lookup(j, "address");
    var server :- Lookup(j, "server");
    Ok(School(displayName, loginName, address, server))
  }

  /** `PyUntisAuthResult`. */
  datatype AuthResult = AuthResult(sessionId: Json, personType: Json, personId: Json)

  function NewAuthResult(j: Json): (r: Result<AuthResult>)
    ensures r.Ok? <==> Has(j, "sessionId") && Has(j, "personType") && Has(j, "personId")
    ensures !j.Object? ==> r == Err(TypeError)
    ensures j.Object? && !Has(j, "sessionId") ==> r == Err(KeyError("sessionId"))
    ensures Has(j, "sessionId") && !Has(j, "personType") ==> r == Err(KeyError("personType"))
    ensures Has(j, "sessionId") && Has(j, "personType") && !Has(j, "personId") ==> r == Err(KeyError("personId"))
    ensures r.Ok? ==> r.value == AuthResult(j.fields["sessionId"], j.fields["personType"], j.fields["personId"])
  {
    var sessionId :- Lookup(j, "sessionId");
    var personType :- Lookup(j, "personType");
    var personId :- Lookup(j, "personId");
    Ok(AuthResult(sessionId, personType, personId))
  }

  /** `PyUntisTeacher`. */
  datatype Teacher = Teacher(id: Json, name: Json, foreName: Json, longName: Json, foreColor: Json, backColor: Json)

  function NewTeacher(j: Json): (r: Result<Teacher>)
    ensures r.Ok? <==> Has(j, "id")
    ensures !j.Object? ==> r == Err(TypeError)
    ensures j.Object? && !Has(j, "id") ==> r == Err(KeyError("id"))
    ensures r.Ok? ==> r.value.id == j.fields["id"] && r.value.name == Get(j, "name")
                      && r.value.foreName == Get(j, "foreName") && r.value.longName == Get(j, "longName")
                      && r.value.foreColor == Get(j, "foreColor") && r.value.backColor == Get(j, "backColor")
  {
    var id :- Lookup(j, "id");
    Ok(Teacher(id, Get(j, "name"), Get(j, "foreName"), Get(j, "longName"), Get(j, "foreColor"), Get(j, "backColor")))
  }

  /** `PyUntisStudent`. */
  datatype Student = Student(id: Json, key: Json, name: Json, foreName: Json, longName: Json, gender: Json)

  function NewStudent(j: Json): (r: Result<Student>)
    ensures r.Ok? <==> Has(j, "id")
    ensures !j.Object? ==> r == Err(TypeError)
    ensures j.Object? && !Has(j, "id") ==> r == Err(KeyError("id"))
    ensures r.Ok? ==> r.value.id == j.fields["id"] && r.value.key == Get(j, "key")
                      && r.value.name == Get(j, "name") && r.value.foreName == Get(j, "foreName")
                      && r.value.longName == Get(j, "longName") && r.value.gender == Get(j, "gender")
  {
    var id :- Lookup(j, "id");
    Ok(Student(id, Get(j, "key"), Get(j, "name"), Get(j, "foreName"), Get(j, "longName"), Get(j, "gender")))
  }

  /** `PyUntisClass`: a school class. */
  datatype SchoolClass = SchoolClass(id: Json, name: Json, longName: Json, active: Json, did: Json)

  function NewSchoolClass(j: Json): (r: Result<SchoolClass>)
    ensures r.Ok? <==> Has(j, "id")
    ensures !j.Object? ==> r == Err(TypeError)
    ensures j.Object? && !Has(j, "id") ==> r == Err(KeyError("id"))
    ensures r.Ok? ==> r.value.id == j.fields["id"] && r.value.name == Get(j, "name") && r.value.longName == Get(j, "longName")
                      && r.value.active == Get(j, "active") && r.value.did == Get(j, "did")
  {
    var id :- Lookup(j, "id");
    Ok(SchoolClass(id, Get(j, "name"), Get(j, "longName"), Get(j, "active"), Get(j, "did")))
  }

  /** `PyUntisSubject`. */
  datatype Subject = Subject(id: Json, name: Json, longName: Json, active: Json, did: Json)

  function NewSubject(j: Json): (r: Result<Subject>)
    ensures r.Ok? <==> Has(j, "id")
    ensures !j.Object? ==> r == Err(TypeError)
    ensures j.Object? && !Has(j, "id") ==> r == Err(KeyError("id"))
    ensures r.Ok? ==> r.value.id == j.fields["id"] && r.value.name == Get(j, "name") && r.value.longName == Get(j, "longName")
                      && r.value.active == Get(j, "active") && r.value.did == Get(j, "did")
  {
    var id :- Lookup(j, "id");
    Ok(Subject(id, Get(j, "name"), Get(j, "longName"), Get(j, "active"), Get(j, "did")))
  }

  /** `PyUntisRoom`. */
  datatype Room = Room(id: Json, name: Json, longName: Json, active: Json, building: Json, foreColor: Json, backColor: Json)

  function NewRoom(j: Json): (r: Result<Room>)
    ensures r.Ok? <==> Has(j, "id")
    ensures !j.Object? ==> r == Err(TypeError)
    ensures j.Object? && !Has(j, "id") ==> r == Err(KeyError("id"))
    ensures r.Ok? ==> r.value.id == j.fields["id"] && r.value.name == Get(j, "name") && r.value.longName == Get(j, "longName")
                      && r.value.active == Get(j, "active") && r.value.building == Get(j, "building")
                      && r.value.foreColor == Get(j, "foreColor") && r.value.backColor == Get(j, "backColor")
  {
    var id :- Lookup(j, "id");
    Ok(Room(id, Get(j, "name"), Get(j, "longName"), Get(j, "active"), Get(j, "building"), Get(j, "foreColor"), Get(j, "backColor")))
  }

  /** `PyUntisDepartment`: `name` is assigned twice, so it ends up holding the
      long name, though the short name must still be present. */
  datatype Department = Department(id: Json, name: Json)

  function NewDepartment(j: Json): (r: Result<Department>)
    ensures r.Ok? <==> Has(j, "id") && Has(j, "name") && Has(j, "longName")
    ensures !j.Object? ==> r == Err(TypeError)
    ensures j.Object? && !Has(j, "id") ==> r == Err(KeyError("id"))
    ensures Has(j, "id") && !Has(j, "name") ==> r == Err(KeyError("name"))
    ensures Has(j, "id") && Has(j, "name") && !Has(j, "longName") ==> r == Err(KeyError("longName"))
    ensures r.Ok? ==> r.value == Department(j.fields["id"], j.fields["longName"])
  {
    var id :- Lookup(j, "id");
    var _ :- Lookup(j, "name");
    var longName :- Lookup(j, "longName");
    Ok(Department(id, longName))
  }

  /** `PyUntisStatusData`. */
  datatype StatusData = StatusData(codes: Json, lessonTypes: Json)

  function NewStatusData(j: Json): (r: Result<StatusData>)
    ensures r.Ok? <==> Has(j, "codes") && Has(j, "lstypes")
    ensures !j.Object? ==> r == Err(TypeError)
    ensures j.Object? && !Has(j, "codes") ==> r == Err(KeyError("codes"))
    ensures Has(j, "codes") && !Has(j, "lstypes") ==> r == Err(KeyError("lstypes"))
    ensures r.Ok? ==> r.value == StatusData(j.fields["codes"], j.fields["lstypes"])
  {
    var codes :- Lookup(j, "codes");
    var lessonTypes :- Lookup(j, "lstypes");
    Ok(StatusData(codes, lessonTypes))
  }

  // ---------------------------------------------------------------------------
  // Records with dates and times

  /** `PyUntisHoliday`. */
  datatype Holiday = Holiday(id: Json, name: Json, longName: Json, startDate: UntisDate, endDate: UntisDate)

  /** The `startDate` and `endDate` of a record, parsed in that order. */
  function ParseSpan(j: Json): (r: Result<(UntisDate, UntisDate)>)
    ensures r.Ok? <==> Has(j, "startDate") && ParseUntisDate(j.fields["startDate"]).Ok?
                       && Has(j, "endDate") && ParseUntisDate(j.fields["endDate"]).Ok?
    ensures !j.Object? ==> r == Err(TypeError)
    ensures j.Object? && !Has(j, "startDate") ==> r == Err(KeyError("startDate"))
    ensures Has(j, "startDate") && ParseUntisDate(j.fields["startDate"]).Err?
            ==> r == Err(ParseUntisDate(j.fields["startDate"]).error)
    ensures Has(j, "startDate") && ParseUntisDate(j.fields["startDate"]).Ok? && !Has(j, "endDate")
            ==> r == Err(KeyError("endDate"))
    ensures Has(j, "startDate") && ParseUntisDate(j.fields["startDate"]).Ok?
            && Has(j, "endDate") && ParseUntisDate(j.fields["endDate"]).Err?
            ==> r == Err(ParseUntisDate(j.fields["endDate"]).error)
    ensures r.Ok? ==> r.value == (ParseUntisDate(j.fields["startDate"]).value, ParseUntisDate(j.fields["endDate"]).value)
  {
    var rawStart :- Lookup(j, "startDate");
    var startDate :- ParseUntisDate(rawStart);
    var rawEnd :- Lookup(j, "endDate");
    var endDate :- ParseUntisDate(rawEnd);
    Ok((startDate, endDate))
  }

  function NewHoliday(j: Json): (r: Result<Holiday>)
    ensures r.Ok? <==> Has(j, "id") && Has(j, "name") && Has(j, "longName") && ParseSpan(j).Ok?
    ensures !j.Object? ==> r == Err(TypeError)
    ensures j.Object? && !Has(j, "id") ==> r == Err(KeyError("id"))
    ensures Has(j, "id") && !Has(j, "name") ==> r == Err(KeyError("name"))
    ensures Has(j, "id") && Has(j, "name") && !Has(j, "longName") ==> r == Err(KeyError("longName"))
    ensures Has(j, "id") && Has(j, "name") && Has(j, "longName") && ParseSpan(j).Err? ==> r == Err(ParseSpan(j).error)
    ensures r.Ok? ==> r.value == Holiday(j.fields["id"], j.fields["name"], j.fields["longName"],
                                         ParseSpan(j).value.0, ParseSpan(j).value.1)
  {
    var id :- Lookup(j, "id");
    var name :- Lookup(j, "name");
    var longName :- Lookup(j, "longName");
    var span :- ParseSpan(j);
    Ok(Holiday(id, name, longName, span.0, span.1))
  }

  /** `PyUntisSchoolyear`. */
  datatype Schoolyear = Schoolyear(id: Json, name: Json, startDate: UntisDate, endDate: UntisDate)

  function NewSchoolyear(j: Json): (r: Result<Schoolyear>)
    ensures r.Ok? <==> Has(j, "id") && Has(j, "name") && ParseSpan(j).Ok?
    ensures !j.Object? ==> r == Err(TypeError)
    ensures j.Object? && !Has(j, "id") ==> r == Err(KeyError("id"))
    ensures Has(j, "id") && !Has(j, "name") ==> r == Err(KeyError("name"))
    ensures Has(j, "id") && Has(j, "name") && ParseSpan(j).Err? ==> r == Err(ParseSpan(j).error)
    ensures r.Ok? ==> r.value == Schoolyear(j.fields["id"], j.fields["name"], ParseSpan(j).value.0, ParseSpan(j).value.1)
  {
    var id :- Lookup(j, "id");
    var name :- Lookup(j, "name");
    var span :- ParseSpan(j);
    Ok(Schoolyear(id, name, span.0, span.1))
  }

  /** `PyUntisTimeUnit`: a named period of the school day. */
  datatype TimeUnit = TimeUnit(name: Json, startTime: UntisTime, endTime: UntisTime)

  /** The `startTime` and `endTime` of a record, parsed in that order. */
  function ParseTimes(j: Json): (r: Result<(UntisTime, UntisTime)>)
    ensures r.Ok? <==> Has(j, "startTime") && NewUntisTime(j.fields["startTime"]).Ok?
                       && Has(j, "endTime") && NewUntisTime(j.fields["endTime"]).Ok?
    ensures !j.Object? ==> r == Err(TypeError)
    ensures j.Object? && !Has(j, "startTime") ==> r == Err(KeyError("startTime"))
    ensures Has(j, "startTime") && NewUntisTime(j.fields["startTime"]).Err?
            ==> r == Err(NewUntisTime(j.fields["startTime"]).error)
    ensures Has(j, "startTime") && NewUntisTime(j.fields["startTime"]).Ok? && !Has(j, "endTime")
            ==> r == Err(KeyError("endTime"))
    ensures Has(j, "startTime") && NewUntisTime(j.fields["startTime"]).Ok?
            && Has(j, "endTime") && NewUntisTime(j.fields["endTime"]).Err?
            ==> r == Err(NewUntisTime(j.fields["endTime"]).error)
    ensures r.Ok? ==> r.value == (NewUntisTime(j.fields["startTime"]).value, NewUntisTime(j.fields["endTime"]).value)
  {
    var rawStart :- Lookup(j, "startTime");
    var startTime :- NewUntisTime(rawStart);
    var rawEnd :- Lookup(j, "endTime");
    var endTime :- NewUntisTime(rawEnd);
    Ok((startTime, endTime))
  }

  function NewTimeUnit(j: Json): (r: Result<TimeUnit>)
    ensures r.Ok? <==> Has(j, "name") && ParseTimes(j).Ok?
    ensures !j.Object? ==> r == Err(TypeError)
    ensures j.Object? && !Has(j, "name") ==> r == Err(KeyError("name"))
    ensures Has(j, "name") && ParseTimes(j).Err? ==> r == Err(ParseTimes(j).error)
    ensures r.Ok? ==> r.value == TimeUnit(j.fields["name"], ParseTimes(j).value.0, ParseTimes(j).value.1)
  {
    var name :- Lookup(j, "name");
    var times :- ParseTimes(j);
    Ok(TimeUnit(name, times.0, times.1))
  }

  /** `PyUntisTimeUnit.to_json`: the name, the readable times and the backend's own
      time strings. */
  function TimeUnitJson(u: TimeUnit): (j: Json)
    ensures j.Object? && j.fields.Keys == {"name", "startTime", "endTime", "startTimeUntis", "endTimeUntis"}
    ensures j.fields["name"] == u.name
    ensures j.fields["startTime"] == Str(ReadableTime(u.startTime)) && j.fields["endTime"] == Str(ReadableTime(u.endTime))
    ensures j.fields["startTimeUntis"] == Str(u.startTime.untisTime) && j.fields["endTimeUntis"] == Str(u.endTime.untisTime)
  {
    Object(map[
      "name" := u.name,
      "startTime" := Str(ReadableTime(u.startTime)),
      "endTime" := Str(ReadableTime(u.endTime)),
      "startTimeUntis" := Str(u.startTime.untisTime),
      "endTimeUntis" := Str(u.endTime.untisTime)
    ])
  }

  /** `PyUntisDayGrid`: the periods of one weekday, with the backend's day number
      (1 for Sunday up to 7 for Saturday) moved to Python's (0 for Monday). */
  datatype DayGrid = DayGrid(day: int, timeUnits: seq<TimeUnit>)

  /** `(raw - 2) % 7`; Python's `%` with a positive divisor agrees with Dafny's. */
  function GridDay(raw: int): (d: int)
    ensures 0 <= d <= 6
    ensures (d - (raw - 2)) % 7 == 0
  {
    (raw - 2) % 7
  }

  function NewDayGrid(j: Json): (r: Result<DayGrid>)
    ensures r.Ok? <==> Has(j, "day") && PyInt(j.fields["day"]).Ok?
                       && Has(j, "timeUnits") && ParseAll(j.fields["timeUnits"], NewTimeUnit).Ok?
    ensures !j.Object? ==> r == Err(TypeError)
    ensures j.Object? && !Has(j, "day") ==> r == Err(KeyError("day"))
    ensures Has(j, "day") && PyInt(j.fields["day"]).Err? ==> r == Err(PyInt(j.fields["day"]).error)
    ensures Has(j, "day") && PyInt(j.fields["day"]).Ok? && !Has(j, "timeUnits") ==> r == Err(KeyError("timeUnits"))
    ensures Has(j, "day") && PyInt(j.fields["day"]).Ok?
            && Has(j, "timeUnits") && ParseAll(j.fields["timeUnits"], NewTimeUnit).Err?
            ==> r == Err(ParseAll(j.fields["timeUnits"], NewTimeUnit).error)
    ensures r.Ok? ==> r.value == DayGrid(GridDay(PyInt(j.fields["day"]).value),
                                         ParseAll(j.fields["timeUnits"], NewTimeUnit).value)
  {
    var rawDay :- Lookup(j, "day");
    var day :- PyInt(rawDay);
    var rawUnits :- Lookup(j, "timeUnits");
    var units :- ParseAll(rawUnits, NewTimeUnit);
    Ok(DayGrid(GridDay(day), units))
  }

  /** `PyUntisDayGrid.to_json`: the periods' `to_json`, in order. */
  function DayGridJson(g: DayGrid): (j: Json)
    ensures j.List? && |j.items| == |g.timeUnits|
    ensures forall i | 0 <= i < |g.timeUnits| :: j.items[i] == TimeUnitJson(g.timeUnits[i])
  {
    List(seq(|g.timeUnits|, i requires 0 <= i < |g.timeUnits| => TimeUnitJson(g.timeUnits[i])))
  }

  /** `PyUntisTimetableEntry`: one lesson. */
  datatype TimetableEntry = TimetableEntry(
    id: Json,
    classes: seq<SchoolClass>,
    subjects: seq<Subject>,
    rooms: seq<Room>,
    date: UntisDate,
    startTime: UntisTime,
    endTime: UntisTime,
    statFlags: Json,
    code: Json,
    studentGroup: Json,
    lessonNumber: Json,
    substText: Json)

  /** The `date`, `startTime` and `endTime` of a record, parsed in that order. */
  function ParseSlot(j: Json): (r: Result<(UntisDate, UntisTime, UntisTime)>)
    ensures r.Ok? <==> Has(j, "date") && ParseUntisDate(j.fields["date"]).Ok? && ParseTimes(j).Ok?
    ensures !j.Object? ==> r == Err(TypeError)
    ensures j.Object? && !Has(j, "date") ==> r == Err(KeyError("date"))
    ensures Has(j, "date") && ParseUntisDate(j.fields["date"]).Err? ==> r == Err(ParseUntisDate(j.fields["date"]).error)
    ensures Has(j, "date") && ParseUntisDate(j.fields["date"]).Ok? && ParseTimes(j).Err? ==> r == Err(ParseTimes(j).error)
    ensures r.Ok? ==> r.value == (ParseUntisDate(j.fields["date"]).value, ParseTimes(j).value.0, ParseTimes(j).value.1)
  {
    var rawDate :- Lookup(j, "date");
    var date :- ParseUntisDate(rawDate);
    var times :- ParseTimes(j);
    Ok((date, times.0, times.1))
  }

  /** The `kl`, `su` and `ro` lists of a record, parsed in that order. */
  function ParseLessonParties(j: Json): (r: Result<(seq<SchoolClass>, seq<Subject>, seq<Room>)>)
    ensures r.Ok? <==> Has(j, "kl") && ParseAll(j.fields["kl"], NewSchoolClass).Ok?
                       && Has(j, "su") && ParseAll(j.fields["su"], NewSubject).Ok?
                       && Has(j, "ro") && ParseAll(j.fields["ro"], NewRoom).Ok?
    ensures !j.Object? ==> r == Err(TypeError)
    ensures j.Object? && !Has(j, "kl") ==> r == Err(KeyError("kl"))
    ensures Has(j, "kl") && ParseAll(j.fields["kl"], NewSchoolClass).Err?
            ==> r == Err(ParseAll(j.fields["kl"], NewSchoolClass).error)
    ensures Has(j, "kl") && ParseAll(j.fields["kl"], NewSchoolClass).Ok? && !Has(j, "su") ==> r == Err(KeyError("su"))
    ensures Has(j, "kl") && ParseAll(j.fields["kl"], NewSchoolClass).Ok?
            && Has(j, "su") && ParseAll(j.fields["su"], NewSubject).Err?
            ==> r == Err(ParseAll(j.fields["su"], NewSubject).error)
    ensures Has(j, "kl") && ParseAll(j.fields["kl"], NewSchoolClass).Ok?
            && Has(j, "su") && ParseAll(j.fields["su"], NewSubject).Ok? && !Has(j, "ro")
            ==> r == Err(KeyError("ro"))
    ensures Has(j, "kl") && ParseAll(j.fields["kl"], NewSchoolClass).Ok?
            && Has(j, "su") && ParseAll(j.fields["su"], NewSubject).Ok?
            && Has(j, "ro") && ParseAll(j.fields["ro"], NewRoom).Err?
            ==> r == Err(ParseAll(j.fields["ro"], NewRoom).error)
    ensures r.Ok? ==> r.value == (ParseAll(j.fields["kl"], NewSchoolClass).value,
                                  ParseAll(j.fields["su"], NewSubject).value,
                                  ParseAll(j.fields["ro"], NewRoom).value)
  {
    var rawClasses :- Lookup(j, "kl");
    var classes :- ParseAll(rawClasses, NewSchoolClass);
    var rawSubjects :- Lookup(j, "su");
    var subjects :- ParseAll(rawSubjects, NewSubject);
    var rawRooms :- Lookup(j, "ro");
    var rooms :- ParseAll(rawRooms, NewRoom);
    Ok((classes, subjects, rooms))
  }

  function NewTimetableEntry(j: Json): (r: Result<TimetableEntry>)
    ensures r.Ok? <==> Has(j, "id") && ParseLessonParties(j).Ok? && ParseSlot(j).Ok?
    ensures !j.Object? ==> r == Err(TypeError)
    ensures j.Object? && !Has(j, "id") ==> r == Err(KeyError("id"))
    ensures Has(j, "id") && ParseLessonParties(j).Err? ==> r == Err(ParseLessonParties(j).error)
    ensures Has(j, "id") && ParseLessonParties(j).Ok? && ParseSlot(j).Err? ==> r == Err(ParseSlot(j).error)
    ensures r.Ok? ==> r.value.id == j.fields["id"]
                      && (r.value.classes, r.value.subjects, r.value.rooms) == ParseLessonParties(j).value
                      && (r.value.date, r.value.startTime, r.value.endTime) == ParseSlot(j).value
    ensures r.Ok? ==> r.value.code == Get(j, "code") && r.value.substText == Get(j, "substText")
                      && r.value.statFlags == Get(j, "statflags") && r.value.studentGroup == Get(j, "sg")
                      && r.value.lessonNumber == Get(j, "lsnumber")
  {
    var id :- Lookup(j, "id");
    var parties :- ParseLessonParties(j);
    var slot :- ParseSlot(j);
    Ok(TimetableEntry(id, parties.0, parties.1, parties.2, slot.0, slot.1, slot.2,
      Get(j, "statflags"), Get(j, "code"), Get(j, "sg"), Get(j, "lsnumber"), Get(j, "substText")))
  }

  /** `PyUntisReschedule`: where a substituted lesson moved to. */
  datatype Reschedule = Reschedule(date: UntisDate, startTime: UntisTime, endTime: UntisTime)

  function NewReschedule(j: Json): (r: Result<Reschedule>)
    ensures r.Ok? <==> ParseSlot(j).Ok?
    ensures r.Err? ==> r.error == ParseSlot(j).error
    ensures !j.Object? ==> r == Err(TypeError)
    ensures r.Ok? ==> (r.value.date, r.value.startTime, r.value.endTime) == ParseSlot(j).value
  {
    var slot :- ParseSlot(j);
    Ok(Reschedule(slot.0, slot.1, slot.2))
  }

  /** `PyUntisSubstitution`: a change to the timetable. */
  datatype Substitution = Substitution(
    lsid: Json,
    kind: Json,
    date: UntisDate,
    startTime: UntisTime,
    endTime: UntisTime,
    classes: seq<SchoolClass>,
    subjects: seq<Subject>,
    rooms: seq<Room>,
    teachers: seq<Teacher>,
    text: Json,
    reschedule: Option<Reschedule>)

  /** What `PyUntisSubstitution` reads before its optional reschedule, in its
      order: `lsid`, `type`, the slot, the lesson's parties and the teachers. */
  datatype SubstitutionCore = SubstitutionCore(
    lsid: Json,
    kind: Json,
    slot: (UntisDate, UntisTime, UntisTime),
    parties: (seq<SchoolClass>, seq<Subject>, seq<Room>),
    teachers: seq<Teacher>)

  function ParseSubstitutionCore(j: Json): (r: Result<SubstitutionCore>)
    ensures r.Ok? <==> Has(j, "lsid") && Has(j, "type") && ParseSlot(j).Ok? && ParseLessonParties(j).Ok?
                       && Has(j, "te") && ParseAll(j.fields["te"], NewTeacher).Ok?
    ensures !j.Object? ==> r == Err(TypeError)
    ensures j.Object? && !Has(j, "lsid") ==> r == Err(KeyError("lsid"))
    ensures Has(j, "lsid") && !Has(j, "type") ==> r == Err(KeyError("type"))
    ensures Has(j, "lsid") && Has(j, "type") && ParseSlot(j).Err? ==> r == Err(ParseSlot(j).error)
    ensures Has(j, "lsid") && Has(j, "type") && ParseSlot(j).Ok? && ParseLessonParties(j).Err?
            ==> r == Err(ParseLessonParties(j).error)
    ensures Has(j, "lsid") && Has(j, "type") && ParseSlot(j).Ok? && ParseLessonParties(j).Ok? && !Has(j, "te")
            ==> r == Err(KeyError("te"))
    ensures Has(j, "lsid") && Has(j, "type") && ParseSlot(j).Ok? && ParseLessonParties(j).Ok?
            && Has(j, "te") && ParseAll(j.fields["te"], NewTeacher).Err?
            ==> r == Err(ParseAll(j.fields["te"], NewTeacher).error)
    ensures r.Ok? ==> r.value == SubstitutionCore(j.fields["lsid"], j.fields["type"], ParseSlot(j).value,
                                                  ParseLessonParties(j).value, ParseAll(j.fields["te"], NewTeacher).value)
  {
    var lsid :- Lookup(j, "lsid");
    var kind :- Lookup(j, "type");
    var slot :- ParseSlot(j);
    var parties :- ParseLessonParties(j);
    var rawTeachers :- Lookup(j, "te");
    var teachers :- ParseAll(rawTeachers, NewTeacher);
    Ok(SubstitutionCore(lsid, kind, slot, parties, teachers))
  }

  function NewSubstitution(j: Json): (r: Result<Substitution>)
    ensures r.Ok? <==> ParseSubstitutionCore(j).Ok?
                       && (Has(j, "reschedule") ==> NewReschedule(j.fields["reschedule"]).Ok?)
    ensures ParseSubstitutionCore(j).Err? ==> r == Err(ParseSubstitutionCore(j).error)
    ensures ParseSubstitutionCore(j).Ok? && Has(j, "reschedule") && NewReschedule(j.fields["reschedule"]).Err?
            ==> r == Err(NewReschedule(j.fields["reschedule"]).error)
    ensures r.Ok? ==> var core := ParseSubstitutionCore(j).value;
                      r.value.lsid == core.lsid && r.value.kind == core.kind
                      && (r.value.date, r.value.startTime, r.value.endTime) == core.slot
                      && (r.value.classes, r.value.subjects, r.value.rooms) == core.parties
                      && r.value.teachers == core.teachers && r.value.text == Get(j, "txt")
    ensures r.Ok? ==> (r.value.reschedule.None? <==> !Has(j, "reschedule"))
    ensures r.Ok? && r.value.reschedule.Some? ==> r.value.reschedule.value == NewReschedule(j.fields["reschedule"]).value
  {
    var core :- ParseSubstitutionCore(j);
    var slot, parties := core.slot, core.parties;
    var text := Get(j, "txt");
    if "reschedule" in j.fields then
      var reschedule :- NewReschedule(j.fields["reschedule"]);
      Ok(Substitution(core.lsid, core.kind, slot.0, slot.1, slot.2, parties.0, parties.1, parties.2, core.teachers, text,
                      Some(reschedule)))
    else
      Ok(Substitution(core.lsid, core.kind, slot.0, slot.1, slot.2, parties.0, parties.1, parties.2, core.teachers, text,
                      None))
  }

  // ---------------------------------------------------------------------------
  // Properties

  /** The backend's Monday (2) is Python's Monday (0), and its Sunday (1) is
      Python's Sunday (6); every other day follows in order. */
  lemma GridDayMapsBackendWeek(raw: int)
    requires 1 <= raw <= 7
    ensures GridDay(raw) == if raw == 1 then 6 else raw - 2
  {
  }

  /** Only two backend codes get a friendly text, and each gets its own. */
  lemma FriendlyTexts(errorJson: Json)
    requires NewUntisError(errorJson).Ok?
    ensures var e := NewUntisError(errorJson).value;
      (e.errorId == Int(-7004) ==> e.friendly == Some("Date out of bounds"))
      && (e.errorId == Int(-32601) ==> e.friendly == Some("Method not found"))
      && (e.errorId != Int(-7004) && e.errorId != Int(-32601) ==> e.friendly == None)
  {
  }

  /** A `reschedule` key holding null does not give a missing reschedule: once the
      rest of the substitution has parsed, it fails, because the reschedule record
      is subscripted. */
  lemma NullRescheduleFails(j: Json)
    requires ParseSubstitutionCore(j).Ok? && Has(j, "reschedule") && j.fields["reschedule"] == Null
    ensures NewSubstitution(j) == Err(TypeError)
  {
    assert NewReschedule(Null) == Err(TypeError);
  }

  /** A list of records parses when each record does, to the records in order; a
      record among them without an `id` makes the whole list fail. */
  lemma ClassListNeedsIds(xs: seq<Json>, k: nat)
    requires k < |xs| && xs[k].Object? && "id" !in xs[k].fields
    ensures ParseAll(List(xs), NewSchoolClass).Err?
  {
    assert NewSchoolClass(xs[k]).Err?;
  }
}
