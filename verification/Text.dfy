/** The Python `str` operations the parsers and the search rely on:
    `isspace`, `strip`, `split(sep)`, `replace`, `split()[0]` and `int`. */
module Text {
  import opened Wrappers

  /** `str.isspace()` for one character: the whitespace that `strip()` and
      `split()` remove. */
  predicate IsSpace(c: char) {
    || c == ' '
    || '\t' <= c <= '\r'
    || '\U{1C}' <= c <= '\U{1F}'
    || c == '\U{85}' || c == '\U{A0}' || c == '\U{1680}'
    || '\U{2000}' <= c <= '\U{200A}'
    || c == '\U{2028}' || c == '\U{2029}' || c == '\U{202F}'
    || c == '\U{205F}' || c == '\U{3000}'
  }

  // ---------------------------------------------------------------------
  // strip()

  /** `s.lstrip()`: drops leading whitespace only. */
  function LStrip(s: string): (r: string)
    ensures |r| <= |s|
    ensures r == [] || !IsSpace(r[0])
  {
    if s != [] && IsSpace(s[0]) then LStrip(s[1..]) else s
  }

  /** What `lstrip()` keeps is a suffix of its input, and what it drops is
      whitespace. */
  lemma {:induction false} LStripDropsSpaces(s: string)
    ensures LStrip(s) == s[|s| - |LStrip(s)|..]
    ensures forall k :: 0 <= k < |s| - |LStrip(s)| ==> IsSpace(s[k])
  {
    if s != [] && IsSpace(s[0]) {
      LStripDropsSpaces(s[1..]);
      assert s[1..][|s| - 1 - |LStrip(s)|..] == s[|s| - |LStrip(s)|..];
      assert forall k :: 1 <= k < |s| ==> s[k] == s[1..][k - 1];
    }
  }

  /** `s.rstrip()`: drops trailing whitespace only. */
  function RStrip(s: string): (r: string)
    ensures |r| <= |s|
    ensures r == [] || !IsSpace(r[|r| - 1])
  {
    if s != [] && IsSpace(s[|s| - 1]) then RStrip(s[..|s| - 1]) else s
  }

  /** What `rstrip()` keeps is a prefix of its input, and what it drops is
      whitespace. */
  lemma {:induction false} RStripDropsSpaces(s: string)
    ensures RStrip(s) == s[..|RStrip(s)|]
    ensures forall k :: |RStrip(s)| <= k < |s| ==> IsSpace(s[k])
  {
    if s != [] && IsSpace(s[|s| - 1]) {
      RStripDropsSpaces(s[..|s| - 1]);
      assert s[..|s| - 1][..|RStrip(s)|] == s[..|RStrip(s)|];
    }
  }

  /** `s.strip()`: the result starts and ends with a non-space. */
  function Strip(s: string): (r: string)
    ensures |r| <= |s|
    ensures Stripped(r)
  {
    var l := LStrip(s);
    RStripDropsSpaces(l);
    RStrip(l)
  }

  /** A text that already starts and ends with a non-space is left as it
      is; with the postcondition of `Strip`, `Strip(s) == s` exactly when
      `Stripped(s)`. */
  lemma StripUnchanged(s: string)
    requires Stripped(s)
    ensures Strip(s) == s
  {
  }

  /** Stripping removes whitespace only, so a non-space character survives it. */
  lemma StripKeeps(s: string, c: char)
    requires c in s && !IsSpace(c)
    ensures c in Strip(s)
  {
    var i :| 0 <= i < |s| && s[i] == c;
    var l := LStrip(s);
    var d := |s| - |l|;
    assert i >= d && l[i - d] == c by {
      LStripDropsSpaces(s);
    }
    var r := RStrip(l);
    assert i - d < |r| && r[i - d] == c by {
      RStripDropsSpaces(l);
    }
  }

  /** Whitespace only (or nothing). */
  predicate AllSpace(s: string) {
    forall k :: 0 <= k < |s| ==> IsSpace(s[k])
  }

  /** Neither starts nor ends with whitespace: what `strip()` leaves alone. */
  predicate Stripped(s: string) {
    s == [] || (!IsSpace(s[0]) && !IsSpace(s[|s| - 1]))
  }

  /** Stripping only removes characters. */
  lemma StripWithin(s: string, c: char)
    requires c in Strip(s)
    ensures c in s
  {
    var l := LStrip(s);
    var r := RStrip(l);
    LStripDropsSpaces(s);
    RStripDropsSpaces(l);
    var i :| 0 <= i < |r| && r[i] == c;
    var d := |s| - |l|;
    assert l[i] == r[i];
    assert s[d + i] == l[i];
  }

  lemma {:induction false} LStripSpaces(pre: string, t: string)
    requires AllSpace(pre) && (t == [] || !IsSpace(t[0]))
    ensures LStrip(pre + t) == t
  {
    if pre == [] {
      assert pre + t == t;
    } else {
      assert (pre + t)[1..] == pre[1..] + t;
      LStripSpaces(pre[1..], t);
    }
  }

  lemma {:induction false} RStripSpaces(t: string, post: string)
    requires AllSpace(post) && (t == [] || !IsSpace(t[|t| - 1]))
    ensures RStrip(t + post) == t
  {
    if post == [] {
      assert t + post == t;
    } else {
      var u := t + post;
      assert u[..|u| - 1] == t + post[..|post| - 1];
      RStripSpaces(t, post[..|post| - 1]);
    }
  }

  /** Whitespace around a stripped text is exactly what `strip()` removes. */
  lemma StripPadded(pre: string, s: string, post: string)
    requires AllSpace(pre) && AllSpace(post) && Stripped(s)
    ensures Strip(pre + s + post) == s
  {
    if s == [] {
      assert pre + s + post == pre + post;
      var l := LStrip(pre + post);
      LStripDropsSpaces(pre + post);
      assert l == [];
    } else {
      assert pre + s + post == pre + (s + post);
      LStripSpaces(pre, s + post);
      RStripSpaces(s, post);
    }
  }

  /** `r` is `s` with only whitespace removed around it, and starts and ends
      with a non-space: the meaning of `s.strip() == r`. */
  ghost predicate IsTrimmed(s: string, r: string) {
    Stripped(r) && exists pre, post :: AllSpace(pre) && AllSpace(post) && s == pre + r + post
  }

  /** `strip()` removes whitespace around the text and nothing else. */
  lemma StripTrims(s: string)
    ensures IsTrimmed(s, Strip(s))
  {
    var pre := LStripPrefix(s);
    var post := RStripSuffix(LStrip(s));
    assert s == pre + Strip(s) + post;
  }

  /** The whitespace `lstrip()` drops, as a prefix. */
  lemma {:induction false} LStripPrefix(s: string) returns (pre: string)
    ensures AllSpace(pre) && s == pre + LStrip(s)
  {
    if s != [] && IsSpace(s[0]) {
      var rest := LStripPrefix(s[1..]);
      pre := [s[0]] + rest;
      assert LStrip(s) == LStrip(s[1..]);
      assert s == [s[0]] + s[1..];
    } else {
      pre := [];
    }
  }

  /** The whitespace `rstrip()` drops, as a suffix. */
  lemma {:induction false} RStripSuffix(s: string) returns (post: string)
    ensures AllSpace(post) && s == RStrip(s) + post
  {
    if s != [] && IsSpace(s[|s| - 1]) {
      var rest := RStripSuffix(s[..|s| - 1]);
      post := rest + [s[|s| - 1]];
      assert s == s[..|s| - 1] + [s[|s| - 1]];
    } else {
      post := [];
    }
  }

  /** A text has exactly one trimmed form, and it is what `strip()` gives. */
  lemma StripIsTrim(s: string, r: string)
    ensures IsTrimmed(s, r) <==> r == Strip(s)
  {
    if IsTrimmed(s, r) {
      var pre, post :| AllSpace(pre) && AllSpace(post) && s == pre + r + post;
      StripPadded(pre, r, post);
    }
    if r == Strip(s) {
      StripTrims(s);
    }
  }

  // ---------------------------------------------------------------------
  // Counting and finding one character

  /** `s.count(c)` */
  function Count(s: string, c: char): (n: nat)
    ensures n == 0 <==> c !in s
    ensures n <= |s|
  {
    if s == [] then 0 else (if s[0] == c then 1 else 0) + Count(s[1..], c)
  }

  lemma {:induction false} CountAppend(a: string, b: string, c: char)
    ensures Count(a + b, c) == Count(a, c) + Count(b, c)
  {
    if a == [] {
      assert a + b == b;
    } else {
      assert (a + b)[1..] == a[1..] + b;
      CountAppend(a[1..], b, c);
    }
  }

  /** `s.index(c)`: the position of the first `c`. */
  function IndexOf(s: string, c: char): (i: nat)
    requires c in s
    ensures i < |s| && s[i] == c && c !in s[..i]
  {
    if s[0] == c then 0 else 1 + IndexOf(s[1..], c)
  }

  /** What lies after the first `c` holds one `c` fewer than `s`. */
  lemma CountAfterFirst(s: string, c: char)
    requires c in s
    ensures Count(s[IndexOf(s, c) + 1..], c) == Count(s, c) - 1
  {
    var i := IndexOf(s, c);
    assert s == s[..i] + ([s[i]] + s[i + 1..]);
    CountAppend(s[..i], [s[i]] + s[i + 1..], c);
    CountAppend([s[i]], s[i + 1..], c);
  }

  // ---------------------------------------------------------------------
  // split(sep)

  /** `s.split(sep)` for a one-character separator: the pieces between
      separators, empty ones included; there is always one piece more than
      there are separators. */
  function Split(s: string, sep: char): (parts: seq<string>)
    ensures |parts| == Count(s, sep) + 1
    ensures forall k :: 0 <= k < |parts| ==> sep !in parts[k]
    decreases |s|
  {
    if sep in s then
      var i := IndexOf(s, sep);
      CountAfterFirst(s, sep);
      [s[..i]] + Split(s[i + 1..], sep)
    else
      [s]
  }

  /** `sep.join(parts)` */
  function Join(parts: seq<string>, sep: char): string
    requires parts != []
  {
    if |parts| == 1 then parts[0] else parts[0] + [sep] + Join(parts[1..], sep)
  }

  /** Joining the pieces back with the separator gives the original text. */
  lemma {:induction false} JoinSplit(s: string, sep: char)
    ensures Join(Split(s, sep), sep) == s
    decreases |s|
  {
    if sep in s {
      var i := IndexOf(s, sep);
      JoinSplit(s[i + 1..], sep);
      assert s == s[..i] + [sep] + s[i + 1..];
    }
  }

  /** The first separator of `a + [sep] + b` is the one after `a` when `a`
      has none. */
  lemma IndexOfAfter(a: string, sep: char, b: string)
    requires sep !in a
    ensures IndexOf(a + [sep] + b, sep) == |a|
  {
    var s := a + [sep] + b;
    assert s[|a|] == sep;
    assert s[..|a|] == a;
  }

  /** Splitting undoes joining pieces that hold no separator. */
  lemma {:induction false} SplitJoin(parts: seq<string>, sep: char)
    requires parts != [] && forall k :: 0 <= k < |parts| ==> sep !in parts[k]
    ensures Split(Join(parts, sep), sep) == parts
  {
    if |parts| > 1 {
      SplitFirst(parts[0], sep, Join(parts[1..], sep));
      SplitJoin(parts[1..], sep);
      assert parts == [parts[0]] + parts[1..];
    }
  }

  /** A separator-free first piece is split off on its own. */
  lemma SplitFirst(first: string, sep: char, rest: string)
    requires sep !in first
    ensures Split(first + [sep] + rest, sep) == [first] + Split(rest, sep)
  {
    var s := first + [sep] + rest;
    IndexOfAfter(first, sep, rest);
    assert s[..|first|] == first;
    assert s[|first| + 1..] == rest;
  }

  /** `s.split(sep)[0]` is the text up to the first separator, or all of
      `s`. */
  lemma SplitHead(s: string, sep: char) returns (post: string)
    ensures s == Split(s, sep)[0] + post && (post == [] || post[0] == sep)
  {
    if sep in s {
      var i := IndexOf(s, sep);
      post := s[i..];
      assert Split(s, sep)[0] == s[..i];
      assert s == s[..i] + post;
    } else {
      post := [];
      assert s == s + post;
    }
  }

  /** `s.split(sep)[1]`: the text between the first separator and the next
      one (or the end). */
  lemma SplitSecond(s: string, sep: char) returns (pre: string, seg: string, post: string)
    requires sep in s
    ensures s == pre + [sep] + seg + post
    ensures sep !in pre && sep !in seg && (post == [] || post[0] == sep)
    ensures |Split(s, sep)| > 1 && Split(s, sep)[1] == seg
  {
    var rest;
    pre, rest := SplitAtFirst(s, sep);
    seg := Split(rest, sep)[0];
    post := SplitHead(rest, sep);
  }

  /** The pieces of `s` are the text before its first separator, then the
      pieces of what follows it. */
  lemma SplitAtFirst(s: string, sep: char) returns (pre: string, rest: string)
    requires sep in s
    ensures s == pre + [sep] + rest && sep !in pre
    ensures Split(s, sep) == [pre] + Split(rest, sep)
  {
    var i := IndexOf(s, sep);
    pre := s[..i];
    rest := s[i + 1..];
    assert s == pre + [sep] + rest;
  }

  /** With exactly one separator, `s.split(sep)` is the text before it and the
      text after it. */
  lemma SplitOnce(s: string, sep: char)
    requires Count(s, sep) == 1
    ensures Split(s, sep) == [s[..IndexOf(s, sep)], s[IndexOf(s, sep) + 1..]]
  {
    CountAfterFirst(s, sep);
  }

  /** `t` is the text after some separator in `s`, or all of `s`. */
  predicate FollowsSeparator(s: string, t: string, sep: char) {
    |t| <= |s| && s[|s| - |t|..] == t && (|t| < |s| ==> s[|s| - |t| - 1] == sep)
  }

  /** `s.split(sep)[-1]` is the text after the last separator: a suffix of
      `s` without a separator, preceded by one unless it is all of `s`. */
  lemma SplitLast(s: string, sep: char)
    ensures FollowsSeparator(s, Split(s, sep)[|Split(s, sep)| - 1], sep)
  {
    JoinSplit(s, sep);
    JoinLast(Split(s, sep), sep);
  }

  /** The last piece ends the joined text, right after a separator unless it
      is the only piece. */
  lemma {:induction false} JoinLast(parts: seq<string>, sep: char)
    requires parts != []
    ensures FollowsSeparator(Join(parts, sep), parts[|parts| - 1], sep)
  {
    if |parts| > 1 {
      JoinLast(parts[1..], sep);
      FollowsSeparatorExtend(parts[0] + [sep], Join(parts[1..], sep), parts[|parts| - 1], sep);
    } else {
      var t := parts[0];
      assert t[|t| - |t|..] == t;
    }
  }

  lemma FollowsSeparatorExtend(p: string, x: string, t: string, sep: char)
    requires p != [] && p[|p| - 1] == sep && FollowsSeparator(x, t, sep)
    ensures FollowsSeparator(p + x, t, sep)
  {
    var s := p + x;
    assert s[|s| - |t|..] == x[|x| - |t|..];
    if |t| < |x| {
      assert s[|s| - |t| - 1] == x[|x| - |t| - 1];
    } else {
      assert s[|s| - |t| - 1] == p[|p| - 1];
    }
  }

  // ---------------------------------------------------------------------
  // replace(old, new)

  /** `s` starts with `pat` */
  predicate StartsWith(s: string, pat: string) {
    |pat| <= |s| && s[..|pat|] == pat
  }

  /** `pat in s` */
  predicate Contains(s: string, pat: string)
    decreases |s|
  {
    StartsWith(s, pat) || (s != [] && Contains(s[1..], pat))
  }

  /** `s.replace(pat, rep)` (and `re.sub` with a literal pattern): occurrences
      are replaced left to right without overlapping. A text without the
      pattern comes back unchanged, and nothing grows when the replacement is
      no longer than the pattern. */
  function ReplaceAll(s: string, pat: string, rep: string): (r: string)
    requires pat != []
    ensures !Contains(s, pat) ==> r == s
    ensures |rep| <= |pat| ==> |r| <= |s|
    decreases |s|
  {
    if s == [] then []
    else if StartsWith(s, pat) then rep + ReplaceAll(s[|pat|..], pat, rep)
    else [s[0]] + ReplaceAll(s[1..], pat, rep)
  }

  /** Removing a single character removes every occurrence of it, and adds
      no character that was not there. */
  lemma {:induction false} RemoveCharGone(s: string, c: char, d: char)
    ensures c !in ReplaceAll(s, [c], [])
    ensures d in ReplaceAll(s, [c], []) ==> d in s
    decreases |s|
  {
    if s != [] {
      RemoveCharGone(s[1..], c, d);
    }
  }

  /** Replacing a character that does not occur changes nothing. */
  lemma {:induction false} ReplaceAbsent(s: string, c: char, rep: string)
    requires c !in s
    ensures ReplaceAll(s, [c], rep) == s
    decreases |s|
  {
    if s != [] {
      assert s[0] != c && s[..1][0] == s[0];
      ReplaceAbsent(s[1..], c, rep);
    }
  }

  /** A single-character pattern cannot straddle two texts, so replacing it
      distributes over concatenation. */
  lemma {:induction false} ReplaceCharAppend(a: string, b: string, c: char, rep: string)
    ensures ReplaceAll(a + b, [c], rep) == ReplaceAll(a, [c], rep) + ReplaceAll(b, [c], rep)
    decreases |a|
  {
    if a == [] {
      assert a + b == b;
    } else {
      assert (a + b)[1..] == a[1..] + b;
      assert StartsWith(a + b, [c]) == StartsWith(a, [c]);
      ReplaceCharAppend(a[1..], b, c, rep);
    }
  }

  /** A prefix without the first character of the pattern is kept as it
      is. */
  lemma {:induction false} ReplaceSkipsPrefix(x: string, y: string, pat: string, rep: string)
    requires pat != [] && pat[0] !in x
    ensures ReplaceAll(x + y, pat, rep) == x + ReplaceAll(y, pat, rep)
    decreases |x|
  {
    if x == [] {
      assert x + y == y;
    } else {
      var s := x + y;
      assert s[0] == x[0] != pat[0];
      assert !StartsWith(s, pat) by {
        if |pat| <= |s| {
          assert s[..|pat|][0] == s[0];
        }
      }
      assert s[1..] == x[1..] + y;
      ReplaceSkipsPrefix(x[1..], y, pat, rep);
    }
  }

  /** An occurrence at the start is replaced, and the rest follows. */
  lemma ReplaceAtStart(pat: string, y: string, rep: string)
    requires pat != []
    ensures ReplaceAll(pat + y, pat, rep) == rep + ReplaceAll(y, pat, rep)
  {
    var s := pat + y;
    assert s[..|pat|] == pat;
    assert s[|pat|..] == y;
  }

  /** Replacing adds only characters of the replacement. */
  lemma {:induction false} ReplaceKeepsOthers(s: string, pat: string, rep: string, d: char)
    requires pat != [] && d in ReplaceAll(s, pat, rep)
    ensures d in s || d in rep
    decreases |s|
  {
    if s != [] {
      if StartsWith(s, pat) {
        if d !in rep {
          ReplaceKeepsOthers(s[|pat|..], pat, rep, d);
        }
      } else if d != s[0] {
        ReplaceKeepsOthers(s[1..], pat, rep, d);
      }
    }
  }

  // ---------------------------------------------------------------------
  // split()[0]

  /** The run of non-space characters at the start of `s`. */
  function TakeWord(s: string): (w: string)
    ensures |w| <= |s| && w == s[..|w|]
    ensures forall k :: 0 <= k < |w| ==> !IsSpace(w[k])
    ensures |w| == |s| || IsSpace(s[|w|])
  {
    if s == [] || IsSpace(s[0]) then [] else [s[0]] + TakeWord(s[1..])
  }

  /** `s.split()[0]`, or `None` where Python raises `IndexError` because `s`
      is blank. */
  function FirstToken(s: string): (r: Option<string>)
    ensures r.None? <==> forall k :: 0 <= k < |s| ==> IsSpace(s[k])
    ensures r.Some? ==> r.value != [] && forall k :: 0 <= k < |r.value| ==> !IsSpace(r.value[k])
  {
    var t := LStrip(s);
    LStripDropsSpaces(s);
    if t == [] then None else Some(TakeWord(t))
  }

  lemma {:induction false} TakeWordOf(w: string, rest: string)
    requires forall k :: 0 <= k < |w| ==> !IsSpace(w[k])
    requires rest == [] || IsSpace(rest[0])
    ensures TakeWord(w + rest) == w
  {
    if w == [] {
      assert w + rest == rest;
    } else {
      assert (w + rest)[1..] == w[1..] + rest;
      TakeWordOf(w[1..], rest);
    }
  }

  /** A word followed by whitespace (or by nothing) is the first token. */
  lemma FirstTokenOf(w: string, rest: string)
    requires w != [] && forall k :: 0 <= k < |w| ==> !IsSpace(w[k])
    requires rest == [] || IsSpace(rest[0])
    ensures FirstToken(w + rest) == Some(w)
  {
    assert (w + rest)[0] == w[0];
    TakeWordOf(w, rest);
  }

  // ---------------------------------------------------------------------
  // int(token)

  predicate IsDigit(c: char) {
    '0' <= c <= '9'
  }

  predicate AllDigits(s: string) {
    forall k :: 0 <= k < |s| ==> IsDigit(s[k])
  }

  /** The value of a run of decimal digits, most significant first. */
  function DigitsValue(s: string): nat
    requires AllDigits(s)
  {
    if s == [] then 0 else DigitsValue(s[..|s| - 1]) * 10 + (s[|s| - 1] as int - '0' as int)
  }

  /** `int(s)` on a token: an optional sign and at least one ASCII digit;
      `None` where Python raises `ValueError`. */
  function ParseInt(s: string): (r: Option<int>)
    ensures r.Some? <==>
      || (s != [] && AllDigits(s))
      || (|s| > 1 && (s[0] == '+' || s[0] == '-') && AllDigits(s[1..]))
  {
    if s != [] && (s[0] == '+' || s[0] == '-') then
      if |s| > 1 && AllDigits(s[1..]) then
        Some(if s[0] == '-' then -(DigitsValue(s[1..]) as int) else DigitsValue(s[1..]))
      else None
    else if s != [] && AllDigits(s) then Some(DigitsValue(s))
    else None
  }

  /** `str(n)` for a natural number. */
  function Show(n: nat): (s: string)
    ensures s != [] && AllDigits(s)
  {
    var d := [(('0' as int) + n % 10) as char];
    if n < 10 then d else Show(n / 10) + d
  }

  lemma {:induction false} ShowValue(n: nat)
    ensures DigitsValue(Show(n)) == n
  {
    if n >= 10 {
      ShowValue(n / 10);
      var s := Show(n);
      assert s[..|s| - 1] == Show(n / 10);
    }
  }

  /** `int(str(n)) == n` and `int('-' + str(n)) == -n`. */
  lemma ParseShow(n: nat)
    ensures ParseInt(Show(n)) == Some(n)
    ensures ParseInt("-" + Show(n)) == Some(-(n as int))
  {
    ShowValue(n);
    var s := "-" + Show(n);
    assert s[1..] == Show(n);
  }
}
