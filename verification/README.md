# Pallada timetable parser — a Dafny model

This project models the core of the SibSAU "Pallada" timetable parser. It
covers three pieces.

- **Search.** The search resolves a free-text query to one group or
  professor record. It lower-cases the query and every record's name. It
  compares them directly, and again after a fixed Cyrillic-to-Latin
  transliteration. An exact case-insensitive match wins outright. Otherwise
  the earliest record with the best score wins, provided that score is
  strictly above 30.
- **Professor timetable.** This covers its records, the JSON snapshot the
  parser writes to its file cache, and the loops that rebuild a schedule
  from that snapshot. It also covers the cache-or-fetch decision of
  `get_schedule_from_url` and the string rules that read the page's title,
  lesson types, times, places and groups.
- **Group timetable.** This covers its records and the string rules of the
  group page: the title with the group name and semester, the week number,
  the day name, and the lesson time, name, professor, place and subgroup.
  The asynchronous and the synchronous parser apply identical rules, so one
  model stands for both.

The modules are:

- `Text`: the Python `str` operations the rules use (`isspace`, `strip`,
  `split(sep)`, `split()[0]`, `replace`, `int`).
- `Json`: the snapshot document as a tree.
- `SearchResults`: the search.
- `ProfessorSchedule`: the professor dataclasses, save as `EncodeSchedule`,
  and load as `DecodeSchedule` plus the imperative `Load*` loops proved
  equal to it.
- `ProfessorCache`: the cache directory as a class whose file list the
  fetch step extends.
- `PageFields`: the field rules both parsers share.
- `ProfessorPage`: the professor page rules.
- `GroupPage`: the group page rules.

The HTML traversal is not modelled. Each rule takes the text it extracts, or
the absence of the element, as input.

## Model

| member | source | states |
|---|---|---|
| SearchResults.SearchResult.ToDict | src/search_results.py:35-42 | the dictionary rebuilds the very result it came from |
| SearchResults.FromRecord | src/search_results.py:112 | `SearchResult(**record)` takes each field from the key of the same name |
| SearchResults.ToDictRoundTrip | src/search_results.py:26-42 | `to_dict` of a result built from a record gives that record back, and a result is rebuilt from its own dictionary |
| SearchResults.Image | src/search_results.py:81-93 | a character's image under `CYRILLIC_TO_LATIN` has at most four characters; it is empty exactly for `ъ` and `ь`; an unmapped character passes through unchanged |
| SearchResults.TransliterateAppend | src/search_results.py:89-93 | transliteration distributes over concatenation: it works character by character |
| SearchResults.TransliterateUnmapped | src/search_results.py:89-93 | text with no lower-cased character in the table comes out merely lower-cased |
| SearchResults.Transliterate | src/search_results.py:81-93 | the output is at most four times as long as the input, since no image is longer than `shch` |
| SearchResults.TransliterateChar | src/search_results.py:93 | one character becomes the `CYRILLIC_TO_LATIN` image of its lower-case form, or itself when it has none; with `TransliterateAppend` this fixes the output for every text |
| SearchResults.Lower | src/search_results.py:104-108 | `lower()` keeps the length and lowers character by character |
| SearchResults.LowerIdempotent | src/search_results.py:104-108 | lower-casing twice equals lower-casing once |
| SearchResults.TransliterateLowered | src/search_results.py:104-105 | transliterating the lower-cased query equals transliterating the query itself |
| SearchResults.Similarity | src/search_results.py:104-119 | the score is the better of the ratio of the lower-cased texts and the ratio of their transliterations: at least each, and equal to one |
| SearchResults.EarliestBestUnique | src/search_results.py:107-123 | at most one index has the highest score with every earlier score strictly lower, so the strict `>` update picks a determined record |
| SearchResults.GetBySearchQuery | src/search_results.py:95-128 | an empty query or list gives none; otherwise the first exact case-insensitive match wins; with no exact match, a result exists iff some score exceeds 30, and it is the earliest record with the highest score |
| Text.Strip | src/professor_parser.py:151-152 | `strip()` never lengthens a text and leaves no whitespace at either end |
| Text.StripTrims | src/professor_parser.py:151-152 | `strip()` gives the input with whitespace removed from each end: input = spaces + result + spaces |
| Text.StripIsTrim | src/group_parser.py:170 | a text is a trim of the input, stripped and framed by whitespace on both sides, iff it is `strip()` of the input; so the trim is unique |
| Text.StripUnchanged | src/professor_parser.py:151-152 | `strip()` leaves a text that starts and ends with a non-space unchanged; with `Strip`'s own contract, the result is unchanged exactly when the text is already stripped |
| Text.StripPadded | src/group_parser.py:170-171 | whitespace on either side of a stripped text is exactly what `strip()` removes |
| Text.StripWithin | src/professor_parser.py:151-152 | stripping only removes characters |
| Text.StripKeeps | src/professor_parser.py:200 | a non-space character survives `strip()` |
| Text.Split | src/professor_parser.py:147 | `split(sep)` gives one more piece than there are separators, and no piece holds the separator |
| Text.SplitHead | src/group_parser.py:165 | the first piece of `split(sep)` is the text up to the first separator, or all of it |
| Text.SplitSecond | src/professor_parser.py:200 | with a separator present, the second piece of `split(sep)` is the text between the first separator and the next one, or the end |
| Text.JoinSplit | src/professor_parser.py:147 | joining the pieces of `split(sep)` with `sep` gives the original text |
| Text.SplitJoin | src/group_parser.py:165 | splitting a join of separator-free pieces gives the pieces back |
| Text.SplitOnce | src/professor_parser.py:147-152 | with exactly one separator, `split` gives the text before it and the text after it |
| Text.SplitLast | src/group_parser.py:242 | `split(' ')[-1]` is a suffix with no separator, preceded by the separator unless it is the whole text |
| Text.FirstToken | src/group_parser.py:179 | `split()[0]` fails exactly on a blank text; otherwise it is a non-empty word with no whitespace |
| Text.FirstTokenOf | src/group_parser.py:179 | `split()[0]` of a word followed by whitespace, or by nothing, is that word |
| Text.ParseInt | src/group_parser.py:179 | `int` accepts exactly an optional sign followed by at least one digit |
| Text.ParseShow | src/group_parser.py:179 | `int(str(n)) == n` and `int('-' + str(n)) == -n` |
| Text.ReplaceAll | src/professor_parser.py:177-180 | `replace` leaves a text without the pattern unchanged and, with a replacement no longer than the pattern, never lengthens it |
| Text.ReplaceKeepsOthers | src/professor_parser.py:177-180 | `replace` adds no character except those of the replacement |
| Text.RemoveCharGone | src/professor_parser.py:177 | `replace(c, "")` leaves no `c` and adds nothing |
| ProfessorSchedule.EncodeLesson | src/professor_parser.py:74 | `vars(lesson)` has exactly the six lesson keys, with one group per list element |
| ProfessorSchedule.EncodeDay | src/professor_parser.py:73-74 | a day is saved with exactly the keys `day_name` and `lessons`, one lesson object per lesson |
| ProfessorSchedule.EncodeWeek | src/professor_parser.py:72-76 | a week is saved with exactly the keys `week_number`, an integer, and `days`, one object per day |
| ProfessorSchedule.EncodeDays | src/professor_parser.py:77-82 | a session or consultation schedule is saved as a truthy object with the single key `days`, one object per day, even with no days |
| ProfessorSchedule.EncodeSchedule | src/professor_parser.py:69-85 | the snapshot has exactly the seven schedule keys, one object per week; the stored session and consultations are truthy iff present; the source is written as `PROXY` or `RAW` |
| ProfessorSchedule.DecodeDay | src/professor_parser.py:103-107 | the day name is read first and its failure is the day's failure; a loaded day has the stored name and one lesson per stored element |
| ProfessorSchedule.DecodeWeek | src/professor_parser.py:101-108 | the week number is read first and must be an integer; a loaded week has the stored number and one day per stored element |
| ProfessorSchedule.DecodeDays | src/professor_parser.py:113-118 | a value that is not a mapping fails; loaded days come one per stored element |
| ProfessorSchedule.DecodeSession | src/professor_parser.py:111-119 | a falsy stored session loads as none; a truthy one loads iff its days do, and then always gives a session holding exactly those days |
| ProfessorSchedule.DecodeConsultations | src/professor_parser.py:122-130 | the same for the consultations |
| ProfessorSchedule.Field | src/professor_parser.py:93-96 | `data[key]` succeeds iff the value is a mapping holding the key |
| ProfessorSchedule.Items | src/professor_parser.py:100-104 | a `for` loop over a list visits its items in order |
| ProfessorSchedule.DecodeAll | src/professor_parser.py:100-108 | a rebuild loop succeeds iff every element decodes, giving their values in order |
| ProfessorSchedule.DecodeAllOf | src/professor_parser.py:100-108 | a list whose elements decode to `xs` decodes to `xs` |
| ProfessorSchedule.DecodeAllStopsAt | src/professor_parser.py:104-106 | the first element that fails decides the error |
| ProfessorSchedule.DecodeLesson | src/professor_parser.py:105 | `Lesson(**d)` accepts only a mapping whose keys are lesson fields and that holds `time`, `name` and `place`, which become the lesson's values; a missing `groups` gives `[]`, and a missing `subgroup` or `type` gives none |
| ProfessorSchedule.DecodeSchedule | src/professor_parser.py:88-132 | a loaded schedule is always tagged `PROXY` |
| ProfessorSchedule.LessonRoundTrip | src/professor_parser.py:74 | `Lesson(**vars(l)) == l` |
| ProfessorSchedule.DayRoundTrip | src/professor_parser.py:73-74 | a saved day is rebuilt as it was, lessons in order |
| ProfessorSchedule.WeekRoundTrip | src/professor_parser.py:72-76 | a saved week is rebuilt as it was |
| ProfessorSchedule.WeeksRoundTrip | src/professor_parser.py:100-108 | the saved weeks are rebuilt in order |
| ProfessorSchedule.DaysRoundTrip | src/professor_parser.py:77-79 | a saved `{'days': [...]}` object is rebuilt as those days |
| ProfessorSchedule.SessionRoundTrip | src/professor_parser.py:111-119 | a present session comes back present, even with no days, and an absent one comes back absent |
| ProfessorSchedule.ConsultationsRoundTrip | src/professor_parser.py:122-130 | the same for the consultations |
| ProfessorSchedule.SavedFields | src/professor_parser.py:69-85 | the snapshot holds the name, the year, the timestamp text, the weeks, the session and the consultations under their keys |
| ProfessorSchedule.SavedTexts | src/professor_parser.py:70-84 | the name, the year and the timestamp text are stored as strings under their keys |
| ProfessorSchedule.SavedParts | src/professor_parser.py:72-82 | the weeks, the session and the consultations are stored under their keys as encoded |
| ProfessorSchedule.DecodeScheduleOf | src/professor_parser.py:88-132 | loading succeeds with `s` when each part of the document decodes to the matching part of `s` |
| ProfessorSchedule.LoadAfterSave | src/professor_parser.py:65-132 | loading a saved schedule gives the same schedule, field for field and in order, except that it is tagged `PROXY` |
| ProfessorSchedule.LoadIgnoresStoredSource | src/professor_parser.py:92-97 | the stored `source` is never read |
| ProfessorSchedule.LoadLessons | src/professor_parser.py:104-106 | the lesson loop gives exactly `DecodeAll` over the lessons |
| ProfessorSchedule.LoadDay | src/professor_parser.py:103-107 | one day of the loop gives exactly `DecodeDay` |
| ProfessorSchedule.LoadDays | src/professor_parser.py:113-118 | the day loop gives exactly `DecodeAll` over the days |
| ProfessorSchedule.LoadWeek | src/professor_parser.py:101-108 | one week of the loop gives exactly `DecodeWeek` |
| ProfessorSchedule.LoadWeeks | src/professor_parser.py:100-108 | the week loop gives exactly `DecodeAll` over the weeks |
| ProfessorSchedule.LoadScheduleFromCache | src/professor_parser.py:88-132 | the imperative loader equals `DecodeSchedule` and tags `PROXY` |
| ProfessorCache.CachePattern | src/professor_parser.py:304 | a name matches `professor_*.json` iff it is `professor_`, any text, then `.json` |
| ProfessorCache.CacheFileName | src/professor_parser.py:60-63 | every generated name matches the glob `professor_*.json`, whatever the URL |
| ProfessorCache.Glob | src/professor_parser.py:304 | every hit is a directory entry matching the pattern, and there are no hits iff no entry matches |
| ProfessorCache.GlobAppend | src/professor_parser.py:304 | globbing distributes over appending entries |
| ProfessorCache.GlobFirst | src/professor_parser.py:306-308 | the first hit is the first matching entry in listing order |
| ProfessorCache.LoadFile | src/professor_parser.py:308 | a schedule read from a cache file is tagged `PROXY` |
| ProfessorCache.Fetched | src/professor_parser.py:314-318 | a fetched schedule is tagged `RAW` |
| ProfessorCache.CacheDirectory.constructor | src/professor_parser.py:302-304 | the directory holds the given entries |
| ProfessorCache.GetScheduleFromUrl | src/professor_parser.py:295-327 | a directory with a hit returns the load of the first hit and is left unchanged; otherwise the fetch result is tagged `RAW`, and exactly one new matching file holding it is added iff a directory was given and the fetch succeeded |
| ProfessorCache.SecondCallServedFromCache | src/professor_parser.py:301-323 | after a miss that saved `s`, the next call, with any URL, finds that file first and returns `s` tagged `PROXY` |
| PageFields.Place | src/professor_parser.py:185-192 | the place is `N/A` iff there is no titled link; otherwise it is the title, then the separator ` / `, then the link text |
| PageFields.TextOrNotAvailable | src/group_parser.py:202-205 | `N/A` for a missing element; otherwise the element's text with the whitespace at both ends removed, unchanged exactly when it was already stripped |
| PageFields.StripOptional | src/professor_parser.py:197-198 | a missing element gives none; a present one gives its text with the whitespace at both ends removed |
| PageFields.OneLine | src/professor_parser.py:177 | `strip().replace("\n", "")` leaves no line break and never lengthens the text |
| PageFields.TextOrNotAvailableIdempotent | src/professor_parser.py:183-184 | applying the rule to its own output changes nothing |
| PageFields.StripEach | src/professor_parser.py:194-195 | the groups are the link texts, each stripped, in order |
| PageFields.LessonTime | src/professor_parser.py:176-180 | it fails iff the time cell or both its elements are missing; the time never holds a line break; a present `hidden-xs` text decides the time on its own, stripped and on one line, whatever the `visible-xs` text is; otherwise the `visible-xs` text is used, on one line, with `<br>` turned into `-` |
| PageFields.HiddenTimeKept | src/group_parser.py:195-199 | a one-line stripped `hidden-xs` time is kept as it is |
| PageFields.VisibleTimeJoined | src/group_parser.py:196-199 | without `hidden-xs`, `start<br>end` becomes `start-end` |
| PageFields.BreakReplaced | src/professor_parser.py:178-180 | `replace("<br>", "-")` on `start<br>end` gives `start-end` |
| PageFields.LastPiece | src/professor_parser.py:226 | `split(' ')[-1]` holds no space and is what follows the last space |
| PageFields.SessionTime | src/group_parser.py:237-246 | the empty text when the cell or its `div` is missing; otherwise the piece after the last space of the stripped text; never a space |
| PageFields.SessionTimeAfterDate | src/professor_parser.py:221-230 | `date time` gives `time` |
| PageFields.SessionTimeAlone | src/professor_parser.py:221-231 | a time alone is kept as it is |
| PageFields.FirstTokenStrip | src/professor_parser.py:170 | stripping before `split()` does not change the first word |
| PageFields.DayName | src/group_parser.py:189 | a day name exists iff the heading is not blank, and it is the heading's first word |
| PageFields.WeekNumber | src/group_parser.py:179 | a blank tab fails; the result is `int` of the tab's first word exactly when that word reads as an integer |
| PageFields.WeekNumberOf | src/professor_parser.py:160 | `"<n> неделя"` gives `n` |
| PageFields.NegativeWeekNumberOf | src/professor_parser.py:160 | a signed first word is read with its sign |
| ProfessorPage.ParseTitle | src/professor_parser.py:142-152 | accepted iff the title exists and holds exactly one `-`; both sides are stripped and hold no `-` |
| ProfessorPage.TitleSides | src/professor_parser.py:147-152 | an accepted title gives the stripped texts before and after its `-` |
| ProfessorPage.TitleRoundTrip | src/professor_parser.py:146-152 | `"<person> - <year>"` is read back as `(person, year)` |
| ProfessorPage.TitlePieces | src/professor_parser.py:147 | `split('-')` of `"<person> - <year>"` gives the two padded sides |
| ProfessorPage.LessonType | src/professor_parser.py:199-200 | a type exists iff the first list item exists and holds `(`; the type holds no parenthesis |
| ProfessorPage.LessonTypeRule | src/professor_parser.py:199-200 | when the item holds `(`, its stripped text splits as `pre` + `(` + `seg` + `post`, where `pre` and `seg` hold no `(` and `post` is empty or starts with `(`; the type is `seg` with every `)` removed |
| ProfessorPage.LessonTypeOf | src/professor_parser.py:200 | `"<before>(<kind>)"` gives `kind` |
| ProfessorPage.StrippedLabel | src/professor_parser.py:200 | a label starting with a non-space and ending in `)` is not changed by `strip()` |
| ProfessorPage.SplitLabel | src/professor_parser.py:200 | `split('(')` of `"<before>(<tail>"` gives `[before, tail]` |
| ProfessorPage.ClosingRemoved | src/professor_parser.py:200 | `replace(')', '')` of `"<kind>)"` gives `kind` |
| ProfessorPage.ParseLesson | src/professor_parser.py:176-203 | it fails only where the time does; the time, name, place, subgroup and type follow their field rules, so the name and subgroup are the element texts with surrounding whitespace removed; the groups are the link texts, each stripped, in order |
| ProfessorPage.ParseSessionLesson | src/professor_parser.py:220-252 | it never fails; the time holds no space and is what follows the last space of the stripped time text; the name and place follow their field rules; the groups are the link texts, each stripped, in order; there is no subgroup |
| ProfessorPage.ParseConsultation | src/professor_parser.py:268-286 | it fails only where the time does; the time follows the lesson time rule and the place the place rule; the name is `Консультация`; there are no groups, no subgroup and no type |
| GroupPage.CleanSemester | src/group_parser.py:170-171 | the semester is stripped and never longer than the text it comes from |
| GroupPage.SemesterWithoutMarker | src/group_parser.py:170-171 | without `г.` the semester is the stripped text |
| GroupPage.SemesterMarkerDropped | src/group_parser.py:170-171 | `" <semester> г."` gives `semester` |
| GroupPage.MarkedStripped | src/group_parser.py:170 | leading spaces before `<semester> г.` are stripped off |
| GroupPage.MarkerRemovedAfter | src/group_parser.py:171 | removing `г.` after a prefix without `г` keeps the prefix and removes the markers from the rest |
| GroupPage.MarkerRemoved | src/group_parser.py:171 | removing `г.` from `<semester> г.` leaves `<semester> ` |
| GroupPage.ParseTitle | src/group_parser.py:160-171 | accepted iff the title exists and holds exactly two `"`; the group holds no `"`; the semester is stripped |
| GroupPage.TitleOf | src/group_parser.py:164-171 | the group is exactly the text between the quotes, spaces included, and the semester is cleaned from what follows |
| GroupPage.ParseLesson | src/group_parser.py:195-219 | it fails only where the time does; the time, name, professor, place and subgroup follow their field rules: the name and professor are `N/A` when missing and otherwise the element texts with surrounding whitespace removed |
| GroupPage.ParseSessionLesson | src/group_parser.py:237-266 | it never fails; the time holds no space, is empty when the cell is missing and otherwise follows the last space of the stripped time text; the name, professor, place and subgroup follow their field rules |

## Left out

- The similarity ratio (`fuzz.ratio`) belongs to another library. It is a parameter of the search with values in 0..100.
- `SearchResults.Lower`: `str.lower()` is modelled only for the ASCII capitals and the Cyrillic capitals U+0400..U+042F. Every other character is left unchanged. Full Unicode case mapping is outside this model.
- `fetch_database` and the ID-range constants are left out. They only fetch pages over the network.
- `__repr__` is left out. It only formats a string for display.
- The HTML traversal (BeautifulSoup) is left out. Every rule takes the extracted text, or the absence of the element, as input.
- The group parser's records `DaySchedule`, `WeekSchedule`, `SessionSchedule` and `Schedule` are declared in `GroupPage`, but no member builds them: assembling them happens inside the HTML traversal.
- A missing `discipline` element is not modelled. The source raises `AttributeError` on it.
- A missing day heading or day body is not modelled for the same reason.
- The network fetch is the `fetch` parameter. Its transport errors and parse errors are the two `FetchError` cases.
- `mkdir`, the file contents as text and `json.dump`/`json.load` are left out. A cache file holds its JSON tree directly.
- The random part of a new cache file name is the `uid` parameter.
- `source_date` is left opaque as its ISO-8601 text. `datetime.now`, `isoformat` and `fromisoformat` are not modelled.
- `ProfessorSchedule.DecodeLesson`: the model rejects wrongly typed field values. Python's `Lesson(**d)` would accept them, because dataclasses do not check types.
- `ProfessorSchedule.DecodeSchedule`: the model rejects a `person_name`, `academic_year` or `source_date` that is not a string. Python stores any value for the first two, since dataclasses do not check types.
- `ProfessorSchedule.DecodeSchedule`: a `source_date` string that is not ISO-8601 loads in the model, but `datetime.fromisoformat` raises on it.
- `ProfessorSchedule.DecodeDay`: the model rejects a `day_name` that is not a string. Python stores any value.
- `ProfessorSchedule.DecodeWeek`: the model rejects a `week_number` that is not an integer. Python stores any value.
- `Text.ParseInt`: the model reads only an optional sign and ASCII digits. Python's `int` also accepts underscores between digits and non-ASCII digits.
- The asynchronous and the synchronous `get_schedule_from_url` and `_parse_schedule` differ only in how they do I/O. One model stands for both pairs.
- The cache is not keyed by URL: the first `professor_*.json` in the directory is returned whatever the URL. Nothing is diffed, a cache hit fetches nothing, and an error reading a cache file propagates to the caller.
- Concurrent writers to the cache directory are not modelled.
- `GroupPage.CleanSemester`: its contract states only that the semester is stripped and no longer than its text. What removing `г.` does is stated by `SemesterWithoutMarker`, `SemesterMarkerDropped` and `MarkerRemovedAfter`, for a marker after a prefix without `г`. Markers that follow another `г` are not described by a lemma.
- `GroupPage.SemesterMarkerDropped` covers only semesters without the letter `г`. The general rule is `CleanSemester` itself.
- `PageFields.VisibleTimeJoined` covers only times without `<` or line breaks. The general rule is `LessonTime` itself.
