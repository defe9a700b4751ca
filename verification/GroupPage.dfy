/** The group timetable page: its records and the string rules that turn
    the extracted texts into them. The asynchronous and the synchronous
    parser of a group page apply the same rules, so one model stands for
    both. */
module GroupPage {
  import opened Wrappers
  import opened Text
  import opened PageFields

  // ---------------------------------------------------------------------
  // Records

  datatype Lesson = Lesson(time: string, name: string, professor: string, place: string, subgroup: Option<string>)

  datatype DaySchedule = DaySchedule(dayName: string, lessons: seq<Lesson>)

  datatype WeekSchedule = WeekSchedule(weekNumber: int, days: seq<DaySchedule>)

  datatype SessionSchedule = SessionSchedule(days: seq<DaySchedule>)

  datatype Schedule = Schedule(groupName: string, semester: string, weeks: seq<WeekSchedule>, session: Option<SessionSchedule>)

  // ---------------------------------------------------------------------
  // Title and semester

  /** The abbreviation of "year" that the semester loses. */
  const YearMarker: string := "г."

  /** The semester: the text after the closing quote, stripped, with every
      `г.` removed (left to right, in one pass) and stripped again. It never
      grows and carries no surrounding whitespace. */
  function CleanSemester(text: string): (semester: string)
    ensures Stripped(semester)
    ensures |semester| <= |text|
  {
    Strip(ReplaceAll(Strip(text), YearMarker, ""))
  }

  /** Without a `г.` the semester is merely the stripped text. */
  lemma SemesterWithoutMarker(text: string)
    requires !Contains(Strip(text), YearMarker)
    ensures CleanSemester(text) == Strip(text)
  {
  }

  /** `" <semester> г."` gives `<semester>`, whatever whitespace comes
      before it. */
  lemma SemesterMarkerDropped(pre: string, semester: string)
    requires AllSpace(pre) && semester != [] && Stripped(semester) && 'г' !in semester
    ensures CleanSemester(pre + semester + " г.") == semester
  {
    MarkedStripped(pre, semester);
    MarkerRemoved(semester);
    assert AllSpace(" ");
    StripPadded([], semester, " ");
    assert [] + semester + " " == semester + " ";
  }

  lemma MarkedStripped(pre: string, semester: string)
    requires AllSpace(pre) && semester != [] && Stripped(semester)
    ensures Strip(pre + semester + " г.") == semester + " г."
  {
    var marked := semester + " г.";
    assert marked[0] == semester[0];
    assert marked[|marked| - 1] == '.';
    StripPadded(pre, marked, []);
    assert pre + marked + [] == pre + semester + " г.";
  }

  lemma MarkerRemoved(semester: string)
    requires 'г' !in semester
    ensures ReplaceAll(semester + " г.", YearMarker, "") == semester + " "
  {
    var x := semester + " ";
    assert semester + " г." == x + YearMarker;
    assert 'г' !in x;
    ReplaceSkipsPrefix(x, YearMarker, YearMarker, "");
    ReplaceAtStart(YearMarker, [], "");
    assert YearMarker + [] == YearMarker;
    assert x + "" == x;
  }

  /** A `г.` anywhere after a text without `г` is removed, and the rest of
      the text is treated the same way. */
  lemma MarkerRemovedAfter(x: string, y: string)
    requires 'г' !in x
    ensures ReplaceAll(x + YearMarker + y, YearMarker, "") == x + ReplaceAll(y, YearMarker, "")
  {
    var marked := YearMarker + y;
    assert x + YearMarker + y == x + marked;
    ReplaceSkipsPrefix(x, marked, YearMarker, "");
    ReplaceAtStart(YearMarker, y, "");
    assert ReplaceAll(marked, YearMarker, "") == ReplaceAll(y, YearMarker, "");
  }

  /** The title `<prefix>"<group>"<semester>`: it must split on `"` into
      exactly three pieces; the group is the middle one as it stands, the
      semester is cleaned from the last. A missing title, or one without
      exactly two quotes, is rejected. */
  function ParseTitle(title: Option<string>): (r: Result<(string, string), PageError>)
    ensures r.Ok? <==> title.Some? && Count(title.value, '"') == 2
    ensures r.Ok? ==> '"' !in r.value.0 && Stripped(r.value.1)
  {
    match title
    case None => Err(MissingElement)
    case Some(text) =>
      var parts := Split(text, '"');
      if |parts| != 3 then Err(BadTitle(text))
      else Ok((parts[1], CleanSemester(parts[2])))
  }

  /** The group name is exactly the text between the quotes, spaces
      included, and the semester comes from what follows the second quote. */
  lemma TitleOf(prefix: string, group: string, rest: string)
    requires '"' !in prefix && '"' !in group && '"' !in rest
    ensures ParseTitle(Some(prefix + "\"" + group + "\"" + rest)) == Ok((group, CleanSemester(rest)))
  {
    var parts := [prefix, group, rest];
    assert Join(parts, '"') == prefix + "\"" + group + "\"" + rest by {
      assert parts[1..] == [group, rest];
      assert [group, rest][1..] == [rest];
      assert Join([group, rest], '"') == group + ['"'] + rest;
      assert Join(parts, '"') == prefix + ['"'] + (group + ['"'] + rest);
    }
    SplitJoin(parts, '"');
  }

  // ---------------------------------------------------------------------
  // Lesson lines

  /** What the parser extracts from one lesson line of a week tab: the time
      cell, the `name` span, the first link, the titled link and the
      subgroup item. */
  datatype LessonCells = LessonCells(
    time: Option<TimeCell>,
    name: Option<string>,
    firstLink: Option<string>,
    placeLink: Option<PlaceLink>,
    subgroup: Option<string>)

  /** A lesson of a week tab. It fails only where the time cell does; the
      name and the professor are `"N/A"` when their element is missing and
      stripped otherwise; the place is `"N/A"` exactly when there is no
      titled link. */
  function ParseLesson(cells: LessonCells): (r: Result<Lesson, PageError>)
    ensures r.Ok? <==> LessonTime(cells.time).Ok?
    ensures r.Ok? ==>
      && r.value.time == LessonTime(cells.time).value
      && r.value.name == TextOrNotAvailable(cells.name)
      && r.value.professor == TextOrNotAvailable(cells.firstLink)
      && r.value.place == Place(cells.placeLink)
      && r.value.subgroup == StripOptional(cells.subgroup)
  {
    match LessonTime(cells.time)
    case Err(e) => Err(e)
    case Ok(time) =>
      Ok(Lesson(time, TextOrNotAvailable(cells.name), TextOrNotAvailable(cells.firstLink),
                Place(cells.placeLink), StripOptional(cells.subgroup)))
  }

  /** What the parser extracts from one lesson line of the session tab: the
      time cell and its first `div`, each possibly missing, in place of the
      `hidden-xs` / `visible-xs` pair. */
  datatype SessionCells = SessionCells(
    time: Option<Option<string>>,
    name: Option<string>,
    firstLink: Option<string>,
    placeLink: Option<PlaceLink>,
    subgroup: Option<string>)

  /** A lesson of the session tab: it never fails; its time is the piece
      after the last space of the time text and holds no space (the empty
      text when the time is missing); the other fields follow the rules of
      the week tabs. */
  function ParseSessionLesson(cells: SessionCells): (lesson: Lesson)
    ensures lesson.time == SessionTime(cells.time) && ' ' !in lesson.time
    ensures cells.time.None? || cells.time.value.None? ==> lesson.time == []
    ensures cells.time.Some? && cells.time.value.Some? ==>
      FollowsSeparator(Strip(cells.time.value.value), lesson.time, ' ')
    ensures lesson.name == TextOrNotAvailable(cells.name)
    ensures lesson.professor == TextOrNotAvailable(cells.firstLink)
    ensures lesson.place == Place(cells.placeLink)
    ensures lesson.subgroup == StripOptional(cells.subgroup)
  {
    Lesson(SessionTime(cells.time), TextOrNotAvailable(cells.name), TextOrNotAvailable(cells.firstLink),
           Place(cells.placeLink), StripOptional(cells.subgroup))
  }
}
