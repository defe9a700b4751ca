/** The string rules of the professor timetable page: the title, the lesson
    type, and the lesson lines of the week tabs, the session tab and the
    consultation tab assembled from the shared field rules. */
module ProfessorPage {
  import opened Wrappers
  import opened Text
  import opened PageFields
  import opened ProfessorSchedule

  // ---------------------------------------------------------------------
  // Title

  /** The title `"<person> - <academic year>"`: it must split on `-` into
      exactly two pieces, which are then stripped. A missing title, or one
      with no `-` or more than one, is rejected. */
  function ParseTitle(title: Option<string>): (r: Result<(string, string), PageError>)
    ensures r.Ok? <==> title.Some? && Count(title.value, '-') == 1
    ensures r.Ok? ==> Stripped(r.value.0) && Stripped(r.value.1)
    ensures r.Ok? ==> '-' !in r.value.0 && '-' !in r.value.1
  {
    match title
    case None => Err(MissingElement)
    case Some(text) =>
      var parts := Split(text, '-');
      if |parts| != 2 then Err(BadTitle(text))
      else
        var person := Strip(parts[0]);
        var year := Strip(parts[1]);
        assert '-' !in person by {
          if '-' in person {
            StripWithin(parts[0], '-');
          }
        }
        assert '-' !in year by {
          if '-' in year {
            StripWithin(parts[1], '-');
          }
        }
        Ok((person, year))
  }

  /** An accepted title gives the stripped text before its `-` and the
      stripped text after it. */
  lemma TitleSides(text: string)
    requires Count(text, '-') == 1
    ensures ParseTitle(Some(text)) == Ok((Strip(text[..IndexOf(text, '-')]), Strip(text[IndexOf(text, '-') + 1..])))
  {
    SplitOnce(text, '-');
  }

  /** A person and a year without dashes, written as `"<person> - <year>"`,
      are read back as they were. */
  lemma TitleRoundTrip(person: string, year: string)
    requires '-' !in person && '-' !in year && Stripped(person) && Stripped(year)
    ensures ParseTitle(Some(person + " - " + year)) == Ok((person, year))
  {
    TitlePieces(person, year);
    assert AllSpace(" ");
    StripPadded([], person, " ");
    assert [] + person + " " == person + " ";
    StripPadded(" ", year, []);
    assert " " + year + [] == " " + year;
  }

  lemma TitlePieces(person: string, year: string)
    requires '-' !in person && '-' !in year
    ensures Split(person + " - " + year, '-') == [person + " ", " " + year]
  {
    var left := person + " ";
    var right := " " + year;
    assert Join([left, right], '-') == person + " - " + year by {
      assert [left, right][1..] == [right];
    }
    assert '-' !in left && '-' !in right;
    SplitJoin([left, right], '-');
  }

  // ---------------------------------------------------------------------
  // Lesson type

  /** The lesson type read from the first list item of the discipline: none
      unless the item exists and holds a `(`; otherwise the piece of the
      stripped text after the first `(` (up to the next `(`, if any) with
      every `)` removed, so it holds no parenthesis at all. */
  function LessonType(item: Option<string>): (r: Option<string>)
    ensures r.Some? <==> item.Some? && '(' in item.value
    ensures r.Some? ==> '(' !in r.value && ')' !in r.value
  {
    if item.None? || '(' !in item.value then None
    else
      var text := Strip(item.value);
      StripKeeps(item.value, '(');
      var segment := Split(text, '(')[1];
      var kind := ReplaceAll(segment, ")", "");
      RemoveCharGone(segment, ')', '(');
      Some(kind)
  }

  /** `"<before>(<kind>)"` gives `kind`, for instance `"(лекция)"` gives
      `"лекция"`. */
  lemma LessonTypeOf(before: string, kind: string)
    requires '(' !in before && '(' !in kind && ')' !in kind
    requires before == [] || !IsSpace(before[0])
    ensures LessonType(Some(before + "(" + kind + ")")) == Some(kind)
  {
    var tail := kind + ")";
    assert before + "(" + kind + ")" == before + ['('] + tail;
    StrippedLabel(before, tail);
    SplitLabel(before, tail);
    ClosingRemoved(kind);
  }

  /** The general rule: with `pre` the stripped text before its first `(`
      and `seg` what follows up to the next `(` (or the end), the type is
      `seg` with every `)` removed. */
  lemma LessonTypeRule(item: string) returns (pre: string, seg: string, post: string)
    requires '(' in item
    ensures Strip(item) == pre + "(" + seg + post
    ensures '(' !in pre && '(' !in seg && (post == [] || post[0] == '(')
    ensures LessonType(Some(item)) == Some(ReplaceAll(seg, ")", ""))
  {
    StripKeeps(item, '(');
    pre, seg, post := SplitSecond(Strip(item), '(');
  }


  lemma StrippedLabel(before: string, tail: string)
    requires before == [] || !IsSpace(before[0])
    requires tail != [] && tail[|tail| - 1] == ')'
    ensures Strip(before + ['('] + tail) == before + ['('] + tail
  {
    var text := before + ['('] + tail;
    assert text[0] == (if before == [] then '(' else before[0]);
    assert text[|text| - 1] == ')';
    StripUnchanged(text);
  }

  lemma SplitLabel(before: string, tail: string)
    requires '(' !in before && '(' !in tail
    ensures Split(before + ['('] + tail, '(') == [before, tail]
  {
    assert Join([before, tail], '(') == before + ['('] + tail by {
      assert [before, tail][1..] == [tail];
    }
    SplitJoin([before, tail], '(');
  }

  lemma ClosingRemoved(kind: string)
    requires ')' !in kind
    ensures ReplaceAll(kind + ")", ")", "") == kind
  {
    ReplaceCharAppend(kind, ")", ')', "");
    ReplaceAbsent(kind, ')', "");
    assert StartsWith(")", ")");
    assert ReplaceAll(")", ")", "") == "";
    assert kind + "" == kind;
  }

  // ---------------------------------------------------------------------
  // Lesson lines

  /** What the parser extracts from one lesson line of a week tab: the time
      cell, the `name` span, the titled link, the texts of the group links,
      the subgroup item and the first list item. */
  datatype LessonCells = LessonCells(
    time: Option<TimeCell>,
    name: Option<string>,
    placeLink: Option<PlaceLink>,
    groups: seq<string>,
    subgroup: Option<string>,
    typeItem: Option<string>)

  /** A lesson of a week tab. It fails only where the time cell does; the
      name, every group and the subgroup are stripped; the place is `"N/A"`
      exactly when there is no titled link; the type is present exactly when
      the first item holds a `(`. */
  function ParseLesson(cells: LessonCells): (r: Result<Lesson, PageError>)
    ensures r.Ok? <==> LessonTime(cells.time).Ok?
    ensures r.Ok? ==>
      && '\n' !in r.value.time
      && r.value.time == LessonTime(cells.time).value
      && r.value.name == TextOrNotAvailable(cells.name)
      && r.value.place == Place(cells.placeLink)
      && |r.value.groups| == |cells.groups|
      && (forall k :: 0 <= k < |r.value.groups| ==> r.value.groups[k] == Strip(cells.groups[k]))
      && r.value.subgroup == StripOptional(cells.subgroup)
      && r.value.kind == LessonType(cells.typeItem)
  {
    match LessonTime(cells.time)
    case Err(e) => Err(e)
    case Ok(time) =>
      Ok(Lesson(time, TextOrNotAvailable(cells.name), Place(cells.placeLink),
                StripEach(cells.groups), StripOptional(cells.subgroup), LessonType(cells.typeItem)))
  }

  /** What the parser extracts from one lesson line of the session tab: the
      time cell and its first `div` (each possibly missing) instead of the
      `hidden-xs` / `visible-xs` pair, and no subgroup. */
  datatype SessionCells = SessionCells(
    time: Option<Option<string>>,
    name: Option<string>,
    placeLink: Option<PlaceLink>,
    groups: seq<string>,
    typeItem: Option<string>)

  /** A lesson of the session tab: it never fails; its time is the piece
      after the last space and holds no space; it has no subgroup; the name,
      place, groups and type follow the rules of the week tabs. */
  function ParseSessionLesson(cells: SessionCells): (lesson: Lesson)
    ensures lesson.time == SessionTime(cells.time) && ' ' !in lesson.time
    ensures cells.time.Some? && cells.time.value.Some? ==>
      FollowsSeparator(Strip(cells.time.value.value), lesson.time, ' ')
    ensures lesson.name == TextOrNotAvailable(cells.name)
    ensures lesson.subgroup.None?
    ensures lesson.place == Place(cells.placeLink)
    ensures |lesson.groups| == |cells.groups|
    ensures forall k :: 0 <= k < |lesson.groups| ==> lesson.groups[k] == Strip(cells.groups[k])
    ensures lesson.kind == LessonType(cells.typeItem)
  {
    Lesson(SessionTime(cells.time), TextOrNotAvailable(cells.name), Place(cells.placeLink),
           StripEach(cells.groups), None, LessonType(cells.typeItem))
  }

  /** The name every consultation gets. */
  const ConsultationName: string := "Консультация"

  /** A lesson of the consultation tab: only its time and place come from
      the page; it fails only where the time cell does. */
  function ParseConsultation(time: Option<TimeCell>, placeLink: Option<PlaceLink>): (r: Result<Lesson, PageError>)
    ensures r.Ok? <==> LessonTime(time).Ok?
    ensures r.Ok? ==>
      && r.value.name == ConsultationName
      && r.value.time == LessonTime(time).value
      && r.value.place == Place(placeLink)
      && '\n' !in r.value.time
      && (r.value.place == NotAvailable <==> placeLink.None?)
      && r.value.groups == [] && r.value.subgroup.None? && r.value.kind.None?
  {
    var t :- LessonTime(time);
    Ok(Lesson(t, ConsultationName, Place(placeLink), [], None, None))
  }
}
