/** Resolving a free-text query to one group or professor record: the
    Cyrillic-to-Latin transliteration and the search of `get_by_search_query`. */
module SearchResults {
  import opened Wrappers

  // ---------------------------------------------------------------------
  // Records

  /** `SearchResultDict`: one entry of the searched list (`type` is a keyword
      here, hence `kind`). */
  datatype SearchRecord = SearchRecord(name: string, kind: string, id: int, url: string)

  /** `SearchResult`, the object the search returns. */
  datatype SearchResult = SearchResult(name: string, kind: string, id: int, url: string) {

    /** `to_dict()`: the record the result was built from. */
    function ToDict(): (r: SearchRecord)
      ensures FromRecord(r) == this
    {
      SearchRecord(name, kind, id, url)
    }
  }

  /** `SearchResult(**record)`: every key becomes the field of that name. */
  function FromRecord(rec: SearchRecord): (r: SearchResult)
    ensures r.name == rec.name && r.kind == rec.kind && r.id == rec.id && r.url == rec.url
  {
    SearchResult(rec.name, rec.kind, rec.id, rec.url)
  }

  /** A result built from a record converts back to that record, and a
      result is rebuilt from its own dictionary. */
  lemma ToDictRoundTrip(rec: SearchRecord, res: SearchResult)
    ensures FromRecord(rec).ToDict() == rec
    ensures FromRecord(res.ToDict()) == res
  {
  }

  // ---------------------------------------------------------------------
  // Lower case

  /** `str.lower()` on one character, for the Latin and Cyrillic capitals. */
  function LowerChar(c: char): char {
    if 'A' <= c <= 'Z' then (c as int + 32) as char
    else if 'А' <= c <= 'Я' then (c as int + 32) as char
    else if 'Ѐ' <= c <= 'Џ' then (c as int + 80) as char
    else c
  }

  function Lower(s: string): (r: string)
    ensures |r| == |s| && forall k :: 0 <= k < |s| ==> r[k] == LowerChar(s[k])
  {
    seq(|s|, k requires 0 <= k < |s| => LowerChar(s[k]))
  }

  /** Lowering twice is lowering once. */
  lemma LowerIdempotent(s: string)
    ensures Lower(Lower(s)) == Lower(s)
  {
    forall k | 0 <= k < |s|
      ensures LowerChar(LowerChar(s[k])) == LowerChar(s[k])
    {
    }
  }

  // ---------------------------------------------------------------------
  // Transliteration

  /** `CYRILLIC_TO_LATIN` */
  const CyrillicToLatin: map<char, string> := map[
    'а' := "a", 'б' := "b", 'в' := "v", 'г' := "g", 'д' := "d", 'е' := "e", 'ё' := "yo",
    'ж' := "zh", 'з' := "z", 'и' := "i", 'й' := "y", 'к' := "k", 'л' := "l", 'м' := "m",
    'н' := "n", 'о' := "o", 'п' := "p", 'р' := "r", 'с' := "s", 'т' := "t", 'у' := "u",
    'ф' := "f", 'х' := "kh", 'ц' := "ts", 'ч' := "ch", 'ш' := "sh", 'щ' := "shch",
    'ъ' := "", 'ы' := "y", 'ь' := "", 'э' := "e", 'ю' := "yu", 'я' := "ya"]

  /** `CYRILLIC_TO_LATIN.get(c, c)`: at most four characters, and empty
      exactly for the hard and the soft sign. */
  function Image(c: char): (r: string)
    ensures |r| <= 4
    ensures r == [] <==> c == 'ъ' || c == 'ь'
    ensures c !in CyrillicToLatin ==> r == [c]
  {
    if c in CyrillicToLatin then CyrillicToLatin[c] else [c]
  }

  /** The images of the characters of `s`, joined. */
  function Latin(s: string): string {
    if s == [] then [] else Image(s[0]) + Latin(s[1..])
  }

  /** `transliterate(text)`: lower-case, then map every character through
      the table. No image is longer than `shch`, so the output is at most
      four times as long as the input. */
  function Transliterate(text: string): (r: string)
    ensures |r| <= 4 * |text|
  {
    LatinLength(Lower(text));
    Latin(Lower(text))
  }

  lemma {:induction false} LatinAppend(a: string, b: string)
    ensures Latin(a + b) == Latin(a) + Latin(b)
  {
    if a == [] {
      assert a + b == b;
    } else {
      assert (a + b)[0] == a[0];
      assert (a + b)[1..] == a[1..] + b;
      LatinAppend(a[1..], b);
      assert Latin(a + b) == Image(a[0]) + Latin(a[1..] + b);
    }
  }

  /** Transliteration works character by character, so it distributes over
      concatenation. */
  lemma TransliterateAppend(a: string, b: string)
    ensures Transliterate(a + b) == Transliterate(a) + Transliterate(b)
  {
    assert Lower(a + b) == Lower(a) + Lower(b);
    LatinAppend(Lower(a), Lower(b));
  }

  lemma {:induction false} LatinUnmapped(s: string)
    requires forall k :: 0 <= k < |s| ==> s[k] !in CyrillicToLatin
    ensures Latin(s) == s
  {
    if s != [] {
      LatinUnmapped(s[1..]);
    }
  }

  /** One character becomes the image of its lower-case form; with
      `TransliterateAppend` this fixes the transliteration of every text. */
  lemma TransliterateChar(c: char)
    ensures Transliterate([c]) == Image(LowerChar(c))
  {
    assert Lower([c]) == [LowerChar(c)];
    assert Latin([LowerChar(c)]) == Image(LowerChar(c)) + Latin([]);
  }

  /** Text none of whose lower-cased characters is in the table comes out
      merely lower-cased. */
  lemma TransliterateUnmapped(text: string)
    requires forall k :: 0 <= k < |text| ==> LowerChar(text[k]) !in CyrillicToLatin
    ensures Transliterate(text) == Lower(text)
  {
    LatinUnmapped(Lower(text));
  }

  lemma {:induction false} LatinLength(s: string)
    ensures |Latin(s)| <= 4 * |s|
  {
    if s != [] {
      LatinLength(s[1..]);
    }
  }

  /** Transliterating already lower-cased text is the same as transliterating
      the original, as the search does with `query_lower`. */
  lemma TransliterateLowered(text: string)
    ensures Transliterate(Lower(text)) == Transliterate(text)
  {
    LowerIdempotent(text);
  }

  // ---------------------------------------------------------------------
  // Search

  /** A similarity percentage. `fuzz.ratio` belongs to another library and is
      a parameter of the search; only its range and comparisons matter. */
  type Score = r: real | 0.0 <= r <= 100.0

  type Ratio = (string, string) -> Score

  /** `MINIMUM_SIMILARITY_PERCENTAGE` */
  const MinimumSimilarityPercentage: real := 30.0

  function Max(a: Score, b: Score): (m: Score)
    ensures m >= a && m >= b && (m == a || m == b)
  {
    if a >= b then a else b
  }

  /** The score of one record's name against the query: the better of the
      ratio of the lower-cased texts and the ratio of their
      transliterations. */
  function Similarity(ratio: Ratio, query: string, name: string): (score: Score)
    ensures score >= ratio(Lower(query), Lower(name))
    ensures score >= ratio(Transliterate(Lower(query)), Transliterate(Lower(name)))
    ensures score == ratio(Lower(query), Lower(name)) || score == ratio(Transliterate(Lower(query)), Transliterate(Lower(name)))
  {
    var queryLower := Lower(query);
    var nameLower := Lower(name);
    Max(ratio(queryLower, nameLower), ratio(Transliterate(queryLower), Transliterate(nameLower)))
  }

  /** The record's name equals the query, case aside. */
  predicate ExactMatch(query: string, rec: SearchRecord) {
    Lower(query) == Lower(rec.name)
  }

  /** Record `k` has the highest score, and every earlier record a strictly
      lower one. */
  ghost predicate IsEarliestBest(data: seq<SearchRecord>, query: string, ratio: Ratio, k: int) {
    && 0 <= k < |data|
    && (forall j :: 0 <= j < |data| ==> Similarity(ratio, query, data[j].name) <= Similarity(ratio, query, data[k].name))
    && (forall j :: 0 <= j < k ==> Similarity(ratio, query, data[j].name) < Similarity(ratio, query, data[k].name))
  }

  /** At most one record is the earliest best, so the search's answer is
      determined. */
  lemma EarliestBestUnique(data: seq<SearchRecord>, query: string, ratio: Ratio, k1: int, k2: int)
    requires IsEarliestBest(data, query, ratio, k1) && IsEarliestBest(data, query, ratio, k2)
    ensures k1 == k2
  {
    var s1 := Similarity(ratio, query, data[k1].name);
    var s2 := Similarity(ratio, query, data[k2].name);
    assert s1 <= s2 && s2 <= s1;
    assert !(s1 < s2) && !(s2 < s1);
  }

  /** `get_by_search_query(data, query)`:
      - an empty query or an empty list gives `None`;
      - otherwise the first record whose name equals the query, case aside,
        wins at once, whatever the scores of the records before it;
      - otherwise the earliest record with the highest score wins, provided
        that score is strictly above 30; a best score of exactly 30 gives
        `None`. */
  method GetBySearchQuery(data: seq<SearchRecord>, query: string, ratio: Ratio) returns (r: Option<SearchResult>)
    ensures query == [] || data == [] ==> r == None
    ensures query != [] && (exists i :: 0 <= i < |data| && ExactMatch(query, data[i])) ==>
      exists i :: && 0 <= i < |data| && ExactMatch(query, data[i])
                  && (forall j :: 0 <= j < i ==> !ExactMatch(query, data[j]))
                  && r == Some(FromRecord(data[i]))
    ensures query != [] && (forall i :: 0 <= i < |data| ==> !ExactMatch(query, data[i])) ==>
      (r.Some? <==> exists i :: 0 <= i < |data| && Similarity(ratio, query, data[i].name) > MinimumSimilarityPercentage)
    ensures query != [] && (forall i :: 0 <= i < |data| ==> !ExactMatch(query, data[i])) && r.Some? ==>
      exists k :: && IsEarliestBest(data, query, ratio, k)
                  && Similarity(ratio, query, data[k].name) > MinimumSimilarityPercentage
                  && r == Some(FromRecord(data[k]))
  {
    if query == [] || data == [] {
      return None;
    }
    var bestMatchScore: real := 0.0;
    var bestMatchRecord: Option<SearchRecord> := None;
    ghost var bestIndex := 0;
    var queryLower := Lower(query);
    var latinQuery := Transliterate(queryLower);

    for i := 0 to |data|
      invariant forall j :: 0 <= j < i ==> !ExactMatch(query, data[j])
      invariant forall j :: 0 <= j < i ==> Similarity(ratio, query, data[j].name) <= bestMatchScore
      invariant bestMatchRecord.None? ==> bestMatchScore == 0.0
      invariant bestMatchRecord.Some? ==>
        && 0 <= bestIndex < i
        && bestMatchRecord.value == data[bestIndex]
        && bestMatchScore == Similarity(ratio, query, data[bestIndex].name) > 0.0
        && (forall j :: 0 <= j < bestIndex ==> Similarity(ratio, query, data[j].name) < bestMatchScore)
    {
      var name := Lower(data[i].name);
      if queryLower == name {
        assert ExactMatch(query, data[i]);
        return Some(FromRecord(data[i]));
      }
      var latinName := Transliterate(name);
      var score := Max(ratio(queryLower, name), ratio(latinQuery, latinName));
      assert score == Similarity(ratio, query, data[i].name);
      if score > bestMatchScore {
        bestMatchScore := score;
        bestMatchRecord := Some(data[i]);
        bestIndex := i;
      }
    }

    if bestMatchRecord.Some? && bestMatchScore > MinimumSimilarityPercentage {
      assert IsEarliestBest(data, query, ratio, bestIndex);
      return Some(FromRecord(bestMatchRecord.value));
    }
    assert forall j :: 0 <= j < |data| ==> Similarity(ratio, query, data[j].name) <= MinimumSimilarityPercentage;
    return None;
  }
}
