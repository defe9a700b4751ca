/** The field rules that the group parser and the professor parser apply,
    in the same words, to the text they pull out of a timetable page. The
    HTML traversal itself is not modelled: each rule takes the extracted text
    (or its absence) as input. */
module PageFields {
  import opened Wrappers
  import opened Text

  /** Where the parsers raise: an element that is missing where the code
      goes on to use it (`AttributeError`), a blank text whose first word is
      taken (`IndexError`), a title of the wrong shape or a word that is not
      a number (`ValueError`). */
  datatype PageError = MissingElement | BlankText | BadTitle(title: string) | NotANumber(token: string)

  const NotAvailable: string := "N/A"
  const PlaceSeparator: string := " / "

  // ---------------------------------------------------------------------
  // Text or "N/A"

  /** The `title` attribute and the text of a link that has a title. */
  datatype PlaceLink = PlaceLink(title: string, text: string)

  /** The place of a lesson: `"N/A"` exactly when there is no titled link;
      otherwise the title, then `" / "`, then the link text, so that both can
      be read back from the ends of the place. */
  function Place(link: Option<PlaceLink>): (place: string)
    ensures place == NotAvailable <==> link.None?
    ensures link.Some? ==>
      && |place| == |link.value.title| + |PlaceSeparator| + |link.value.text|
      && place[..|link.value.title|] == link.value.title
      && place[|link.value.title|..|link.value.title| + |PlaceSeparator|] == PlaceSeparator
      && place[|place| - |link.value.text|..] == link.value.text
  {
    match link
    case None => NotAvailable
    case Some(PlaceLink(title, text)) =>
      var place := title + PlaceSeparator + text;
      assert place[|title|] == ' ';
      place
  }

  /** The lesson name (the `name` span) and the professor (the first link):
      `"N/A"` when the element is missing, otherwise its text without
      surrounding whitespace (which `StripIsTrim` shows is one text only). */
  function TextOrNotAvailable(text: Option<string>): (r: string)
    ensures text.None? ==> r == NotAvailable
    ensures text.Some? ==> IsTrimmed(text.value, r)
    ensures text.Some? ==> |r| <= |text.value| && (r == text.value <==> Stripped(text.value))
  {
    match text
    case None => NotAvailable
    case Some(t) =>
      StripTrims(t);
      if Stripped(t) then StripUnchanged(t); Strip(t) else Strip(t)
  }

  /** Applying the rule to its own output changes nothing, `"N/A"` included. */
  lemma TextOrNotAvailableIdempotent(text: Option<string>)
    ensures TextOrNotAvailable(Some(TextOrNotAvailable(text))) == TextOrNotAvailable(text)
  {
    assert Stripped(NotAvailable);
  }

  /** The subgroup: absent with its element, otherwise the element's text
      without surrounding whitespace. */
  function StripOptional(text: Option<string>): (r: Option<string>)
    ensures r.Some? <==> text.Some?
    ensures text.Some? ==> IsTrimmed(text.value, r.value)
  {
    match text
    case None => None
    case Some(t) =>
      StripTrims(t);
      Some(Strip(t))
  }

  /** `[t.strip() for t in texts]`, as the group links are read. */
  function StripEach(texts: seq<string>): (r: seq<string>)
    ensures |r| == |texts|
    ensures forall k :: 0 <= k < |r| ==> r[k] == Strip(texts[k])
  {
    if texts == [] then []
    else
      var tail := StripEach(texts[1..]);
      var r := [Strip(texts[0])] + tail;
      assert forall k :: 1 <= k < |r| ==> r[k] == tail[k - 1];
      r
  }

  // ---------------------------------------------------------------------
  // Lesson time

  /** The `time` cell of a lesson line: the text of its `hidden-xs` element
      and of its `visible-xs` element, each when present. */
  datatype TimeCell = TimeCell(hidden: Option<string>, visible: Option<string>)

  /** `text.strip().replace("\n", "")`: the time element's text on one
      line; it never grows. */
  function OneLine(text: string): (line: string)
    ensures '\n' !in line && |line| <= |text|
  {
    RemoveCharGone(Strip(text), '\n', '\n');
    ReplaceAll(Strip(text), "\n", "")
  }

  /** The time of a lesson in the week tabs and in the consultations: the
      `hidden-xs` text on one line when there is one, whatever the
      `visible-xs` element holds; otherwise the `visible-xs` text on one line
      with `<br>` turned into `-`. With no time cell, or neither element, the
      parser raises. The time never holds a line break. */
  function LessonTime(cell: Option<TimeCell>): (r: Result<string, PageError>)
    ensures r.Err? <==> cell.None? || (cell.value.hidden.None? && cell.value.visible.None?)
    ensures r.Ok? ==> '\n' !in r.value
    ensures cell.Some? && cell.value.hidden.Some? ==> r == Ok(OneLine(cell.value.hidden.value))
    ensures cell.Some? && cell.value.hidden.None? && cell.value.visible.Some? ==>
      r == Ok(ReplaceAll(OneLine(cell.value.visible.value), "<br>", "-"))
  {
    match cell
    case None => Err(MissingElement)
    case Some(TimeCell(hidden, visible)) =>
      if hidden.Some? then
        Ok(OneLine(hidden.value))
      else if visible.Some? then
        var oneLine := OneLine(visible.value);
        var time := ReplaceAll(oneLine, "<br>", "-");
        assert '\n' !in time by {
          if '\n' in time {
            ReplaceKeepsOthers(oneLine, "<br>", "-", '\n');
          }
        }
        Ok(time)
      else
        Err(MissingElement)
  }

  /** A `hidden-xs` time that is already one stripped line is taken as it
      is, whatever the `visible-xs` element holds. */
  lemma HiddenTimeKept(time: string, visible: Option<string>)
    requires '\n' !in time && Stripped(time)
    ensures LessonTime(Some(TimeCell(Some(time), visible))) == Ok(time)
  {
    ReplaceAbsent(time, '\n', "");
  }

  /** Without a `hidden-xs` element, a `<br>` between the start and the end
      of the `visible-xs` time becomes a dash. */
  lemma VisibleTimeJoined(start: string, end: string)
    requires start != [] && end != [] && !IsSpace(start[0]) && !IsSpace(end[|end| - 1])
    requires '\n' !in start && '\n' !in end && '<' !in start && '<' !in end
    ensures LessonTime(Some(TimeCell(None, Some(start + "<br>" + end)))) == Ok(start + "-" + end)
  {
    var text := start + "<br>" + end;
    assert text[0] == start[0];
    assert text[|text| - 1] == end[|end| - 1];
    StripUnchanged(text);
    assert '\n' !in text;
    ReplaceAbsent(text, '\n', "");
    BreakReplaced(start, end);
  }

  lemma BreakReplaced(start: string, end: string)
    requires '<' !in start && '<' !in end
    ensures ReplaceAll(start + "<br>" + end, "<br>", "-") == start + "-" + end
  {
    assert start + "<br>" + end == start + ("<br>" + end);
    ReplaceSkipsPrefix(start, "<br>" + end, "<br>", "-");
    ReplaceAtStart("<br>", end, "-");
    ReplaceSkipsPrefix(end, [], "<br>", "-");
    assert end + [] == end;
  }

  /** `s.split(' ')[-1]`: what follows the last space of `s`, or all of
      `s`; it holds no space. */
  function LastPiece(s: string): (piece: string)
    ensures ' ' !in piece && FollowsSeparator(s, piece, ' ')
  {
    var parts := Split(s, ' ');
    SplitLast(s, ' ');
    parts[|parts| - 1]
  }

  /** The time of a session lesson: the last `' '`-separated piece of the
      stripped text of the first `div` in the time cell, or the empty text
      when the cell or that `div` is missing. It never holds a space, and it
      is what follows the last space of the stripped text (or all of it). */
  function SessionTime(cell: Option<Option<string>>): (time: string)
    ensures ' ' !in time
    ensures cell.None? || cell.value.None? ==> time == []
    ensures cell.Some? && cell.value.Some? ==> FollowsSeparator(Strip(cell.value.value), time, ' ')
  {
    if cell.Some? && cell.value.Some? then LastPiece(Strip(cell.value.value)) else ""
  }

  /** A date and a time separated by one space give the time. */
  lemma SessionTimeAfterDate(date: string, time: string)
    requires date != [] && ' ' !in date && !IsSpace(date[0])
    requires time != [] && ' ' !in time && !IsSpace(time[|time| - 1])
    ensures SessionTime(Some(Some(date + " " + time))) == time
  {
    var text := date + " " + time;
    assert Join([date, time], ' ') == text by {
      assert [date, time][1..] == [time];
    }
    assert text[0] == date[0];
    assert text[|text| - 1] == time[|time| - 1];
    StripUnchanged(text);
    SplitJoin([date, time], ' ');
  }

  /** A time alone (no date before it) is kept as it is. */
  lemma SessionTimeAlone(time: string)
    requires ' ' !in time && Stripped(time)
    ensures SessionTime(Some(Some(time))) == time
  {
    StripUnchanged(time);
    assert Join([time], ' ') == time;
    SplitJoin([time], ' ');
  }

  // ---------------------------------------------------------------------
  // First word

  /** Stripping before `split()` changes nothing: the first word is the
      same. */
  lemma FirstTokenStrip(s: string)
    ensures FirstToken(Strip(s)) == FirstToken(s)
  {
    var l := LStrip(s);
    var r := RStrip(l);
    RStripDropsSpaces(l);
    assert LStrip(r) == r;
    if l != [] {
      var w := TakeWord(l);
      assert !IsSpace(l[0]);
      assert |w| >= 1;
      assert !IsSpace(l[|w| - 1]);
      assert |w| <= |r|;
      assert r == w + r[|w|..];
      assert l[..|r|] == r;
      TakeWordOf(w, r[|w|..]);
    }
  }

  /** The day name: the first word of the stripped day heading; a blank
      heading raises. It is exactly the heading's first word. */
  function DayName(heading: string): (r: Result<string, PageError>)
    ensures r.Ok? <==> FirstToken(heading).Some?
    ensures r.Ok? ==> r.value == FirstToken(heading).value
  {
    FirstTokenStrip(heading);
    match FirstToken(Strip(heading))
    case None => Err(BlankText)
    case Some(word) => Ok(word)
  }

  /** The week number: `int` of the first word of the week tab's text. A
      blank tab or a first word that is not a number raises. */
  function WeekNumber(tab: string): (r: Result<int, PageError>)
    ensures AllSpace(tab) ==> r == Err(BlankText)
    ensures r.Ok? ==> FirstToken(tab).Some? && ParseInt(FirstToken(tab).value) == Some(r.value)
    ensures FirstToken(tab).Some? && ParseInt(FirstToken(tab).value).Some? ==> r == Ok(ParseInt(FirstToken(tab).value).value)
  {
    match FirstToken(tab)
    case None => Err(BlankText)
    case Some(token) =>
      match ParseInt(token)
      case None => Err(NotANumber(token))
      case Some(n) => Ok(n)
  }

  /** A tab reading a number and then, after whitespace, anything else
      (`"3 неделя"`) gives that number. */
  lemma WeekNumberOf(n: nat, rest: string)
    requires rest == [] || IsSpace(rest[0])
    ensures WeekNumber(Show(n) + rest) == Ok(n)
  {
    ParseShow(n);
    FirstTokenOf(Show(n), rest);
  }

  /** The same with a minus sign: `int` accepts it. */
  lemma NegativeWeekNumberOf(n: nat, rest: string)
    requires rest == [] || IsSpace(rest[0])
    ensures WeekNumber("-" + Show(n) + rest) == Ok(-(n as int))
  {
    ParseShow(n);
    var token := "-" + Show(n);
    assert forall k :: 0 <= k < |token| ==> !IsSpace(token[k]) by {
      forall k | 0 <= k < |token|
        ensures !IsSpace(token[k])
      {
        if k > 0 {
          assert token[k] == Show(n)[k - 1];
        }
      }
    }
    FirstTokenOf(token, rest);
  }
}
