/** The professor timetable as the dataclasses of the professor parser hold
    it, and its cache snapshot: the JSON tree `_save_schedule_to_cache`
    writes and the loops of `_load_schedule_from_cache` that rebuild a
    schedule from such a tree. */
module ProfessorSchedule {
  import opened Wrappers
  import opened Json

  // ---------------------------------------------------------------------
  // The schedule

  /** `type` in the source; `type` is a keyword here. */
  datatype Lesson = Lesson(
    time: string,
    name: string,
    place: string,
    groups: seq<string>,
    subgroup: Option<string>,
    kind: Option<string>)

  datatype DaySchedule = DaySchedule(dayName: string, lessons: seq<Lesson>)

  datatype WeekSchedule = WeekSchedule(weekNumber: int, days: seq<DaySchedule>)

  datatype SessionSchedule = SessionSchedule(days: seq<DaySchedule>)

  datatype ConsultationSchedule = ConsultationSchedule(days: seq<DaySchedule>)

  /** `PROXY` for a schedule read from the file cache, `RAW` for one fetched
      from the network. */
  datatype SourceType = Proxy | Raw

  /** `source_date`, carried as its ISO-8601 text: the snapshot stores
      `isoformat()` and loading parses it back with `fromisoformat`. */
  datatype Timestamp = Timestamp(iso: string)

  datatype Schedule = Schedule(
    personName: string,
    academicYear: string,
    weeks: seq<WeekSchedule>,
    session: Option<SessionSchedule>,
    consultations: Option<ConsultationSchedule>,
    source: SourceType,
    sourceDate: Timestamp)

  /** `SourceType.value` */
  function SourceValue(s: SourceType): string {
    match s
    case Proxy => "PROXY"
    case Raw => "RAW"
  }

  // ---------------------------------------------------------------------
  // Saving: the tree `_save_schedule_to_cache` dumps

  const ScheduleKeys: set<string> :=
    {"person_name", "academic_year", "weeks", "session", "consultations", "source", "source_date"}

  /** `[f(x) for x in xs]` */
  function MapSeq<A, B>(xs: seq<A>, f: A -> B): (r: seq<B>)
    ensures |r| == |xs| && forall k :: 0 <= k < |xs| ==> r[k] == f(xs[k])
  {
    if xs == [] then [] else [f(xs[0])] + MapSeq(xs[1..], f)
  }

  function EncodeOptionalText(o: Option<string>): Json {
    match o
    case None => JNull
    case Some(s) => JString(s)
  }

  /** `vars(lesson)`: every field under its Python name, and nothing else. */
  function EncodeLesson(l: Lesson): (j: Json)
    ensures j.JObject? && j.members.Keys == LessonKeys
    ensures j.members["groups"].JArray? && |j.members["groups"].items| == |l.groups|
  {
    JObject(map[
      "time" := JString(l.time),
      "name" := JString(l.name),
      "place" := JString(l.place),
      "groups" := JArray(MapSeq(l.groups, (g: string) => JString(g))),
      "subgroup" := EncodeOptionalText(l.subgroup),
      "type" := EncodeOptionalText(l.kind)])
  }

  /** A day: its name and its lessons, one object per lesson, in order. */
  function EncodeDay(d: DaySchedule): (j: Json)
    ensures j.JObject? && j.members.Keys == {"day_name", "lessons"}
    ensures j.members["lessons"].JArray? && |j.members["lessons"].items| == |d.lessons|
  {
    JObject(map[
      "day_name" := JString(d.dayName),
      "lessons" := JArray(MapSeq(d.lessons, EncodeLesson))])
  }

  /** The `{'days': [...]}` object written for a session or for the
      consultations. */
  function EncodeDays(days: seq<DaySchedule>): (j: Json)
    ensures j.JObject? && j.members.Keys == {"days"} && Truthy(j)
    ensures j.members["days"].JArray? && |j.members["days"].items| == |days|
  {
    JObject(map["days" := JArray(MapSeq(days, EncodeDay))])
  }

  /** A week: its number as an integer and its days in order. */
  function EncodeWeek(w: WeekSchedule): (j: Json)
    ensures j.JObject? && j.members.Keys == {"week_number", "days"}
    ensures j.members["week_number"].JInt?
    ensures j.members["days"].JArray? && |j.members["days"].items| == |w.days|
  {
    JObject(map[
      "week_number" := JInt(w.weekNumber),
      "days" := JArray(MapSeq(w.days, EncodeDay))])
  }

  /** The snapshot document. A present session or consultation schedule is
      always written as an object, even with no days; an absent one as
      `null`, so a session or consultation schedule is stored truthy
      exactly when it is present. */
  function EncodeSchedule(s: Schedule): (j: Json)
    ensures j.JObject? && j.members.Keys == ScheduleKeys
    ensures j.members["weeks"].JArray? && |j.members["weeks"].items| == |s.weeks|
    ensures Truthy(j.members["session"]) <==> s.session.Some?
    ensures Truthy(j.members["consultations"]) <==> s.consultations.Some?
    ensures j.members["source"] == JString(if s.source == Proxy then "PROXY" else "RAW")
  {
    JObject(map[
      "person_name" := JString(s.personName),
      "academic_year" := JString(s.academicYear),
      "weeks" := JArray(MapSeq(s.weeks, EncodeWeek)),
      "session" := (match s.session case None => JNull case Some(ss) => EncodeDays(ss.days)),
      "consultations" := (match s.consultations case None => JNull case Some(cs) => EncodeDays(cs.days)),
      "source" := JString(SourceValue(s.source)),
      "source_date" := JString(s.sourceDate.iso)])
  }

  // ---------------------------------------------------------------------
  // Loading: what `_load_schedule_from_cache` accepts and builds

  /** The exceptions loading raises on a malformed snapshot: `TypeError` for
      a value that is not a mapping, for an unexpected or wrongly typed
      lesson field, or for a value that cannot be iterated, and `KeyError`
      for a missing snapshot key. A required lesson field that is missing
      makes `Lesson(**d)` raise `TypeError`; it is reported as `MissingKey`
      with the field's name. */
  datatype CacheError =
    | NotAMapping
    | NotIterable
    | MissingKey(key: string)
    | UnexpectedKey
    | WrongType(key: string)

  /** `j[key]` */
  function Field(j: Json, key: string): (r: Result<Json, CacheError>)
    ensures r.Ok? <==> j.JObject? && key in j.members
  {
    if !j.JObject? then Err(NotAMapping)
    else if key in j.members then Ok(j.members[key])
    else Err(MissingKey(key))
  }

  /** `j[key]`, where the model needs a string. */
  function TextField(j: Json, key: string): Result<string, CacheError> {
    var f :- Field(j, key);
    if f.JString? then Ok(f.str) else Err(WrongType(key))
  }

  /** The elements a `for` loop visits, for loops whose body subscripts each
      element. A list gives its items. An empty string or dictionary gives
      no iteration at all; a non-empty one yields strings, and subscripting
      those fails. */
  function Items(j: Json): (r: Result<seq<Json>, CacheError>)
    ensures j.JArray? ==> r == Ok(j.items)
  {
    match j
    case JArray(a) => Ok(a)
    case JString(s) => if s == [] then Ok([]) else Err(NotAMapping)
    case JObject(m) => if m == map[] then Ok([]) else Err(NotAMapping)
    case _ => Err(NotIterable)
  }

  /** Decodes every element in order, stopping at the first failure: the
      shape of each rebuild loop. It succeeds exactly when every element
      does, with the elements' values in order. */
  function DecodeAll<T>(items: seq<Json>, decode: Json -> Result<T, CacheError>): (r: Result<seq<T>, CacheError>)
    ensures r.Ok? <==> forall k :: 0 <= k < |items| ==> decode(items[k]).Ok?
    ensures r.Ok? ==> |r.value| == |items| && forall k :: 0 <= k < |items| ==> decode(items[k]) == Ok(r.value[k])
  {
    if items == [] then Ok([])
    else
      var init :- DecodeAll(items[..|items| - 1], decode);
      var last :- decode(items[|items| - 1]);
      Ok(init + [last])
  }

  /** The first element that fails decides the error. */
  lemma {:induction false} DecodeAllStopsAt<T>(items: seq<Json>, decode: Json -> Result<T, CacheError>, i: nat)
    requires i < |items| && DecodeAll(items[..i], decode).Ok? && decode(items[i]).Err?
    ensures DecodeAll(items, decode) == Err(decode(items[i]).error)
    decreases |items|
  {
    var init := items[..|items| - 1];
    if i == |items| - 1 {
      assert init == items[..i];
    } else {
      assert init[..i] == items[..i];
      DecodeAllStopsAt(init, decode, i);
    }
  }

  /** A decoded list is the list that was encoded. */
  lemma DecodeAllOf<T>(items: seq<Json>, decode: Json -> Result<T, CacheError>, xs: seq<T>)
    requires |items| == |xs| && forall k :: 0 <= k < |items| ==> decode(items[k]) == Ok(xs[k])
    ensures DecodeAll(items, decode) == Ok(xs)
  {
    var r := DecodeAll(items, decode);
    assert r.Ok?;
    assert r.value == xs;
  }

  const LessonKeys: set<string> := {"time", "name", "place", "groups", "subgroup", "type"}

  function OptionalText(j: Json, key: string): Result<Option<string>, CacheError> {
    match j
    case JNull => Ok(None)
    case JString(s) => Ok(Some(s))
    case _ => Err(WrongType(key))
  }

  /** `Lesson(**lesson_data)`: only the lesson's own keys are accepted;
      `time`, `name` and `place` are required, `groups` defaults to an empty
      list and `subgroup` and `type` to `None`. */
  function DecodeLesson(j: Json): (r: Result<Lesson, CacheError>)
    ensures r.Ok? ==> j.JObject? && j.members.Keys <= LessonKeys
    ensures r.Ok? ==>
      && {"time", "name", "place"} <= j.members.Keys
      && j.members["time"] == JString(r.value.time)
      && j.members["name"] == JString(r.value.name)
      && j.members["place"] == JString(r.value.place)
    ensures r.Ok? && "groups" !in j.members ==> r.value.groups == []
    ensures r.Ok? && "subgroup" !in j.members ==> r.value.subgroup == None
    ensures r.Ok? && "type" !in j.members ==> r.value.kind == None
  {
    if !j.JObject? then Err(NotAMapping)
    else if !(j.members.Keys <= LessonKeys) then Err(UnexpectedKey)
    else
      var m := j.members;
      var time :- TextField(j, "time");
      var name :- TextField(j, "name");
      var place :- TextField(j, "place");
      var groups :-
        if "groups" !in m then Ok([])
        else if m["groups"].JArray? && forall k :: 0 <= k < |m["groups"].items| ==> m["groups"].items[k].JString?
        then Ok(seq(|m["groups"].items|, k requires 0 <= k < |m["groups"].items| => m["groups"].items[k].str))
        else Err(WrongType("groups"));
      var subgroup :- if "subgroup" in m then OptionalText(m["subgroup"], "subgroup") else Ok(None);
      var kind :- if "type" in m then OptionalText(m["type"], "type") else Ok(None);
      Ok(Lesson(time, name, place, groups, subgroup, kind))
  }

  /** One day: its name first, then its lessons in order. */
  function DecodeDay(j: Json): (r: Result<DaySchedule, CacheError>)
    ensures TextField(j, "day_name").Err? ==> r == Err(TextField(j, "day_name").error)
    ensures r.Ok? ==> TextField(j, "day_name") == Ok(r.value.dayName)
    ensures r.Ok? ==> Field(j, "lessons").Ok? && Items(Field(j, "lessons").value).Ok?
    ensures r.Ok? ==> |r.value.lessons| == |Items(Field(j, "lessons").value).value|
  {
    var name :- TextField(j, "day_name");
    var lessonsJson :- Field(j, "lessons");
    var items :- Items(lessonsJson);
    var lessons :- DecodeAll(items, DecodeLesson);
    Ok(DaySchedule(name, lessons))
  }

  /** The days of a `{'days': [...]}` object. */
  function DecodeDays(j: Json): (r: Result<seq<DaySchedule>, CacheError>)
    ensures !j.JObject? ==> r == Err(NotAMapping)
    ensures r.Ok? ==> Field(j, "days").Ok? && Items(Field(j, "days").value).Ok?
    ensures r.Ok? ==> |r.value| == |Items(Field(j, "days").value).value|
  {
    var daysJson :- Field(j, "days");
    var items :- Items(daysJson);
    DecodeAll(items, DecodeDay)
  }

  /** One week: its number first, which must be an integer, then its days
      in order. */
  function DecodeWeek(j: Json): (r: Result<WeekSchedule, CacheError>)
    ensures Field(j, "week_number").Err? ==> r == Err(Field(j, "week_number").error)
    ensures Field(j, "week_number").Ok? && !Field(j, "week_number").value.JInt? ==> r == Err(WrongType("week_number"))
    ensures r.Ok? ==> Field(j, "week_number") == Ok(JInt(r.value.weekNumber))
    ensures r.Ok? ==> Field(j, "days").Ok? && Items(Field(j, "days").value).Ok?
    ensures r.Ok? ==> |r.value.days| == |Items(Field(j, "days").value).value|
  {
    var n :- Field(j, "week_number");
    if !n.JInt? then Err(WrongType("week_number"))
    else
      var daysJson :- Field(j, "days");
      var items :- Items(daysJson);
      var days :- DecodeAll(items, DecodeDay);
      Ok(WeekSchedule(n.i, days))
  }

  /** `if data['session']:` and the loop that rebuilds the session. */
  function DecodeSession(j: Json): (r: Result<Option<SessionSchedule>, CacheError>)
    ensures !Truthy(j) ==> r == Ok(None)
    ensures Truthy(j) ==> (r.Ok? <==> DecodeDays(j).Ok?)
    ensures Truthy(j) && r.Ok? ==> r.value.Some?
    ensures r.Ok? && r.value.Some? ==> Truthy(j) && DecodeDays(j) == Ok(r.value.value.days)
  {
    if Truthy(j) then
      var days :- DecodeDays(j);
      Ok(Some(SessionSchedule(days)))
    else Ok(None)
  }

  /** `if data['consultations']:` and the loop that rebuilds them. */
  function DecodeConsultations(j: Json): (r: Result<Option<ConsultationSchedule>, CacheError>)
    ensures !Truthy(j) ==> r == Ok(None)
    ensures Truthy(j) ==> (r.Ok? <==> DecodeDays(j).Ok?)
    ensures Truthy(j) && r.Ok? ==> r.value.Some?
    ensures r.Ok? && r.value.Some? ==> Truthy(j) && DecodeDays(j) == Ok(r.value.value.days)
  {
    if Truthy(j) then
      var days :- DecodeDays(j);
      Ok(Some(ConsultationSchedule(days)))
    else Ok(None)
  }

  /** What loading a snapshot yields. The saved `source` is never read: a
      loaded schedule is always tagged `PROXY`. A session or consultation
      schedule is rebuilt only when the stored value is truthy. */
  function DecodeSchedule(data: Json): (r: Result<Schedule, CacheError>)
    ensures r.Ok? ==> r.value.source == Proxy
  {
    var personName :- TextField(data, "person_name");
    var academicYear :- TextField(data, "academic_year");
    var sourceDate :- TextField(data, "source_date");
    var weeksJson :- Field(data, "weeks");
    var weekItems :- Items(weeksJson);
    var weeks :- DecodeAll(weekItems, DecodeWeek);
    var sessionJson :- Field(data, "session");
    var session :- DecodeSession(sessionJson);
    var consultationsJson :- Field(data, "consultations");
    var consultations :- DecodeConsultations(consultationsJson);
    Ok(Schedule(personName, academicYear, weeks, session, consultations, Proxy, Timestamp(sourceDate)))
  }

  // ---------------------------------------------------------------------
  // Round trip

  lemma LessonRoundTrip(l: Lesson)
    ensures DecodeLesson(EncodeLesson(l)) == Ok(l)
  {
    var j := EncodeLesson(l);
    var g := j.members["groups"].items;
    assert seq(|g|, k requires 0 <= k < |g| => g[k].str) == l.groups;
  }

  lemma DayRoundTrip(d: DaySchedule)
    ensures DecodeDay(EncodeDay(d)) == Ok(d)
  {
    var items := EncodeDay(d).members["lessons"].items;
    forall k | 0 <= k < |items|
      ensures DecodeLesson(items[k]) == Ok(d.lessons[k])
    {
      LessonRoundTrip(d.lessons[k]);
    }
    DecodeAllOf(items, DecodeLesson, d.lessons);
  }

  lemma DaysRoundTrip(days: seq<DaySchedule>)
    ensures DecodeDays(EncodeDays(days)) == Ok(days)
  {
    var items := EncodeDays(days).members["days"].items;
    forall k | 0 <= k < |items|
      ensures DecodeDay(items[k]) == Ok(days[k])
    {
      DayRoundTrip(days[k]);
    }
    DecodeAllOf(items, DecodeDay, days);
  }

  lemma WeekRoundTrip(w: WeekSchedule)
    ensures DecodeWeek(EncodeWeek(w)) == Ok(w)
  {
    var items := EncodeWeek(w).members["days"].items;
    forall k | 0 <= k < |items|
      ensures DecodeDay(items[k]) == Ok(w.days[k])
    {
      DayRoundTrip(w.days[k]);
    }
    DecodeAllOf(items, DecodeDay, w.days);
  }

  /** Loading a saved snapshot gives back the schedule that was saved, field
      for field and in the same order, except that it is tagged `PROXY`. A
      present session or consultation schedule comes back present, even with
      no days, because the saved `{'days': []}` is truthy. */
  lemma LoadAfterSave(s: Schedule)
    ensures DecodeSchedule(EncodeSchedule(s)) == Ok(s.(source := Proxy))
  {
    var data := EncodeSchedule(s);
    SavedFields(s);
    WeeksRoundTrip(s.weeks);
    SessionRoundTrip(s.session);
    ConsultationsRoundTrip(s.consultations);
    DecodeScheduleOf(data, s.(source := Proxy), MapSeq(s.weeks, EncodeWeek));
  }

  lemma WeeksRoundTrip(weeks: seq<WeekSchedule>)
    ensures DecodeAll(MapSeq(weeks, EncodeWeek), DecodeWeek) == Ok(weeks)
  {
    var items := MapSeq(weeks, EncodeWeek);
    forall k | 0 <= k < |items|
      ensures DecodeWeek(items[k]) == Ok(weeks[k])
    {
      WeekRoundTrip(weeks[k]);
    }
    DecodeAllOf(items, DecodeWeek, weeks);
  }

  lemma SessionRoundTrip(session: Option<SessionSchedule>)
    ensures DecodeSession(match session case None => JNull case Some(ss) => EncodeDays(ss.days)) == Ok(session)
  {
    if session.Some? {
      DaysRoundTrip(session.value.days);
      assert Truthy(EncodeDays(session.value.days));
    }
  }

  lemma ConsultationsRoundTrip(consultations: Option<ConsultationSchedule>)
    ensures DecodeConsultations(match consultations case None => JNull case Some(cs) => EncodeDays(cs.days)) == Ok(consultations)
  {
    if consultations.Some? {
      DaysRoundTrip(consultations.value.days);
      assert Truthy(EncodeDays(consultations.value.days));
    }
  }

  /** The snapshot holds each part of the schedule under its key. */
  lemma SavedFields(s: Schedule)
    ensures var data := EncodeSchedule(s);
      && TextField(data, "person_name") == Ok(s.personName)
      && TextField(data, "academic_year") == Ok(s.academicYear)
      && TextField(data, "source_date") == Ok(s.sourceDate.iso)
      && Field(data, "weeks") == Ok(JArray(MapSeq(s.weeks, EncodeWeek)))
      && Field(data, "session") == Ok(match s.session case None => JNull case Some(ss) => EncodeDays(ss.days))
      && Field(data, "consultations") == Ok(match s.consultations case None => JNull case Some(cs) => EncodeDays(cs.days))
  {
    SavedTexts(s);
    SavedParts(s);
  }

  lemma SavedTexts(s: Schedule)
    ensures var data := EncodeSchedule(s);
      && TextField(data, "person_name") == Ok(s.personName)
      && TextField(data, "academic_year") == Ok(s.academicYear)
      && TextField(data, "source_date") == Ok(s.sourceDate.iso)
  {
  }

  lemma SavedParts(s: Schedule)
    ensures var data := EncodeSchedule(s);
      && Field(data, "weeks") == Ok(JArray(MapSeq(s.weeks, EncodeWeek)))
      && Field(data, "session") == Ok(match s.session case None => JNull case Some(ss) => EncodeDays(ss.days))
      && Field(data, "consultations") == Ok(match s.consultations case None => JNull case Some(cs) => EncodeDays(cs.days))
  {
  }


  /** Loading succeeds with `s` when each part of the document decodes to
      the matching part of `s`. */
  lemma DecodeScheduleOf(data: Json, s: Schedule, weekItems: seq<Json>)
    requires s.source == Proxy
    requires TextField(data, "person_name") == Ok(s.personName)
    requires TextField(data, "academic_year") == Ok(s.academicYear)
    requires TextField(data, "source_date") == Ok(s.sourceDate.iso)
    requires Field(data, "weeks") == Ok(JArray(weekItems))
    requires DecodeAll(weekItems, DecodeWeek) == Ok(s.weeks)
    requires Field(data, "session").Ok? && DecodeSession(Field(data, "session").value) == Ok(s.session)
    requires Field(data, "consultations").Ok? && DecodeConsultations(Field(data, "consultations").value) == Ok(s.consultations)
    ensures DecodeSchedule(data) == Ok(s)
  {
  }

  /** Whatever `source` a snapshot stores, loading ignores it. */
  lemma LoadIgnoresStoredSource(members: map<string, Json>, stored: Json)
    ensures DecodeSchedule(JObject(members["source" := stored])) == DecodeSchedule(JObject(members))
  {
  }

  // ---------------------------------------------------------------------
  // The rebuild loops of `_load_schedule_from_cache`

  method LoadLessons(items: seq<Json>) returns (r: Result<seq<Lesson>, CacheError>)
    ensures r == DecodeAll(items, DecodeLesson)
  {
    var lessons: seq<Lesson> := [];
    for i := 0 to |items|
      invariant DecodeAll(items[..i], DecodeLesson) == Ok(lessons)
    {
      var lesson := DecodeLesson(items[i]);
      if lesson.Err? {
        DecodeAllStopsAt(items, DecodeLesson, i);
        return Err(lesson.error);
      }
      assert items[..i + 1][..i] == items[..i];
      lessons := lessons + [lesson.value];
    }
    assert items[..|items|] == items;
    return Ok(lessons);
  }

  method LoadDay(j: Json) returns (r: Result<DaySchedule, CacheError>)
    ensures r == DecodeDay(j)
  {
    var name :- TextField(j, "day_name");
    var lessonsJson :- Field(j, "lessons");
    var items :- Items(lessonsJson);
    var lessons :- LoadLessons(items);
    return Ok(DaySchedule(name, lessons));
  }

  method LoadDays(items: seq<Json>) returns (r: Result<seq<DaySchedule>, CacheError>)
    ensures r == DecodeAll(items, DecodeDay)
  {
    var days: seq<DaySchedule> := [];
    for i := 0 to |items|
      invariant DecodeAll(items[..i], DecodeDay) == Ok(days)
    {
      var day := LoadDay(items[i]);
      if day.Err? {
        DecodeAllStopsAt(items, DecodeDay, i);
        return Err(day.error);
      }
      assert items[..i + 1][..i] == items[..i];
      days := days + [day.value];
    }
    assert items[..|items|] == items;
    return Ok(days);
  }

  method LoadWeek(j: Json) returns (r: Result<WeekSchedule, CacheError>)
    ensures r == DecodeWeek(j)
  {
    var n :- Field(j, "week_number");
    if !n.JInt? {
      return Err(WrongType("week_number"));
    }
    var daysJson :- Field(j, "days");
    var items :- Items(daysJson);
    var days :- LoadDays(items);
    return Ok(WeekSchedule(n.i, days));
  }

  method LoadWeeks(items: seq<Json>) returns (r: Result<seq<WeekSchedule>, CacheError>)
    ensures r == DecodeAll(items, DecodeWeek)
  {
    var weeks: seq<WeekSchedule> := [];
    for i := 0 to |items|
      invariant DecodeAll(items[..i], DecodeWeek) == Ok(weeks)
    {
      var week := LoadWeek(items[i]);
      if week.Err? {
        DecodeAllStopsAt(items, DecodeWeek, i);
        return Err(week.error);
      }
      assert items[..i + 1][..i] == items[..i];
      weeks := weeks + [week.value];
    }
    assert items[..|items|] == items;
    return Ok(weeks);
  }

  /** `_load_schedule_from_cache` on the parsed document: builds the schedule
      tagged `PROXY`, then appends its weeks, then its session and its
      consultations when present. */
  method LoadScheduleFromCache(data: Json) returns (r: Result<Schedule, CacheError>)
    ensures r == DecodeSchedule(data)
    ensures r.Ok? ==> r.value.source == Proxy
  {
    var personName :- TextField(data, "person_name");
    var academicYear :- TextField(data, "academic_year");
    var sourceDate :- TextField(data, "source_date");
    var schedule := Schedule(personName, academicYear, [], None, None, Proxy, Timestamp(sourceDate));

    var weeksJson :- Field(data, "weeks");
    var weekItems :- Items(weeksJson);
    var weeks :- LoadWeeks(weekItems);
    schedule := schedule.(weeks := weeks);

    var sessionJson :- Field(data, "session");
    if Truthy(sessionJson) {
      var daysJson :- Field(sessionJson, "days");
      var items :- Items(daysJson);
      var days :- LoadDays(items);
      schedule := schedule.(session := Some(SessionSchedule(days)));
    }
    assert DecodeSession(sessionJson) == Ok(schedule.session);

    var consultationsJson :- Field(data, "consultations");
    if Truthy(consultationsJson) {
      var daysJson :- Field(consultationsJson, "days");
      var items :- Items(daysJson);
      var days :- LoadDays(items);
      schedule := schedule.(consultations := Some(ConsultationSchedule(days)));
    }
    return Ok(schedule);
  }
}
