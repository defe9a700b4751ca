/** The cache-or-fetch decision of the professor parser's
    `get_schedule_from_url` (and of its synchronous twin, which follows the
    same branches): the cache directory, the file-name rule and the glob. */
module ProfessorCache {
  import opened Wrappers
  import opened Json
  import opened ProfessorSchedule

  /** One entry of the cache directory: its name and the JSON document it
      holds. */
  datatype CacheFile = CacheFile(name: string, content: Json)

  const CachePrefix: string := "professor_"
  const CacheSuffix: string := ".json"

  /** Whether a directory entry matches the glob `professor_*.json`. */
  predicate MatchesCachePattern(name: string) {
    && |CachePrefix| + |CacheSuffix| <= |name|
    && name[..|CachePrefix|] == CachePrefix
    && name[|name| - |CacheSuffix|..] == CacheSuffix
  }

  /** The names the glob matches are exactly `professor_`, then any text
      (possibly empty), then `.json`. */
  lemma CachePattern(name: string)
    ensures MatchesCachePattern(name) <==> exists middle :: name == CachePrefix + middle + CacheSuffix
  {
    if MatchesCachePattern(name) {
      var middle := name[|CachePrefix|..|name| - |CacheSuffix|];
      assert name == CachePrefix + middle + CacheSuffix;
    }
    if exists middle :: name == CachePrefix + middle + CacheSuffix {
      var middle :| name == CachePrefix + middle + CacheSuffix;
      assert name[..|CachePrefix|] == CachePrefix;
      assert name[|name| - |CacheSuffix|..] == CacheSuffix;
    }
  }

  /** `str(uuid.uuid4())[:8]`: eight lower-case hexadecimal digits. */
  predicate IsUuidPrefix(uid: string) {
    |uid| == 8 && forall k :: 0 <= k < |uid| ==> ('0' <= uid[k] <= '9' || 'a' <= uid[k] <= 'f')
  }

  /** `_generate_cache_filename`: the name depends on the random part only,
      never on the URL, and it always matches the glob that looks for
      cached schedules. */
  function CacheFileName(uid: string): (name: string)
    ensures MatchesCachePattern(name)
  {
    var name := CachePrefix + uid + CacheSuffix;
    assert name[..|CachePrefix|] == CachePrefix;
    assert name[|name| - |CacheSuffix|..] == CacheSuffix;
    name
  }

  /** `cache_dir.glob("professor_*.json")`: the matching entries, in listing
      order. */
  function Glob(files: seq<CacheFile>): (hits: seq<CacheFile>)
    ensures forall k :: 0 <= k < |hits| ==> hits[k] in files && MatchesCachePattern(hits[k].name)
    ensures hits == [] <==> forall k :: 0 <= k < |files| ==> !MatchesCachePattern(files[k].name)
  {
    if files == [] then []
    else if MatchesCachePattern(files[0].name) then [files[0]] + Glob(files[1..])
    else Glob(files[1..])
  }

  lemma {:induction false} GlobAppend(a: seq<CacheFile>, b: seq<CacheFile>)
    ensures Glob(a + b) == Glob(a) + Glob(b)
  {
    if a == [] {
      assert a + b == b;
    } else {
      assert (a + b)[1..] == a[1..] + b;
      GlobAppend(a[1..], b);
    }
  }

  /** The glob's first hit is the first matching entry in listing order. */
  lemma {:induction false} GlobFirst(files: seq<CacheFile>, i: nat)
    requires i < |files| && MatchesCachePattern(files[i].name)
    requires forall k :: 0 <= k < i ==> !MatchesCachePattern(files[k].name)
    ensures Glob(files) != [] && Glob(files)[0] == files[i]
  {
    if i > 0 {
      GlobFirst(files[1..], i - 1);
    }
  }

  /** The failures of the network step: a transport error or a non-success
      status, or a page the parser rejects. */
  datatype FetchError = Transport | ParseFailure

  /** Fetching and parsing one page, as seen by the cache logic. */
  type Fetcher = string -> Result<Schedule, FetchError>

  datatype Error = CacheUnreadable(cause: CacheError) | FetchFailed(failure: FetchError)

  /** What reading one cache file gives. */
  function LoadFile(f: CacheFile): (r: Result<Schedule, Error>)
    ensures r.Ok? ==> r.value.source == Proxy
  {
    match DecodeSchedule(f.content)
    case Ok(s) => Ok(s)
    case Err(e) => Err(CacheUnreadable(e))
  }

  /** What the network branch gives: the fetched schedule tagged `RAW`. */
  function Fetched(fetch: Fetcher, url: string): (r: Result<Schedule, Error>)
    ensures r.Ok? ==> r.value.source == Raw
  {
    match fetch(url)
    case Ok(s) => Ok(s.(source := Raw))
    case Err(e) => Err(FetchFailed(e))
  }

  /** The cache directory: its entries in the order the glob lists them. */
  class CacheDirectory {
    var files: seq<CacheFile>

    constructor (files: seq<CacheFile>)
      ensures this.files == files
    {
      this.files := files;
    }
  }

  /** `get_schedule_from_url(url, directory)`. `dir` is null when no
      directory (or an empty name) is given; `uid` stands for the random part
      of a new cache file name.
      - With a directory holding some `professor_*.json`, the result is what
        loading the first of them gives, whatever the URL; nothing is fetched
        and nothing is written.
      - Otherwise the page is fetched and the schedule tagged `RAW`; when a
        directory was given and the fetch succeeded, exactly one new
        `professor_*.json` holding that schedule is added. */
  method GetScheduleFromUrl(url: string, dir: CacheDirectory?, fetch: Fetcher, uid: string)
    returns (r: Result<Schedule, Error>)
    requires IsUuidPrefix(uid)
    modifies dir
    ensures dir != null && Glob(old(dir.files)) != [] ==>
      r == LoadFile(Glob(old(dir.files))[0]) && dir.files == old(dir.files)
    ensures dir == null || Glob(old(dir.files)) == [] ==> r == Fetched(fetch, url)
    ensures dir != null && Glob(old(dir.files)) == [] ==>
      dir.files == old(dir.files) + (if r.Ok? then [CacheFile(CacheFileName(uid), EncodeSchedule(r.value))] else [])
  {
    if dir != null {
      var cacheFiles := Glob(dir.files);
      if cacheFiles != [] {
        var loaded := LoadScheduleFromCache(cacheFiles[0].content);
        match loaded
        case Ok(s) => return Ok(s);
        case Err(e) => return Err(CacheUnreadable(e));
      }
    }

    var page := fetch(url);
    if page.Err? {
      return Err(FetchFailed(page.error));
    }
    var schedule := page.value.(source := Raw);
    if dir != null {
      var filename := CacheFileName(uid);
      dir.files := dir.files + [CacheFile(filename, EncodeSchedule(schedule))];
    }
    return Ok(schedule);
  }

  // ---------------------------------------------------------------------
  // Consequences

  /** After a miss that fetched `s` into a directory, the next call finds
      the file just written and returns `s` again, now tagged `PROXY`,
      whatever the URL it is given. */
  lemma SecondCallServedFromCache(files: seq<CacheFile>, s: Schedule, uid: string)
    requires Glob(files) == []
    ensures var after := files + [CacheFile(CacheFileName(uid), EncodeSchedule(s.(source := Raw)))];
      && Glob(after) != []
      && LoadFile(Glob(after)[0]) == Ok(s.(source := Proxy))
  {
    var written := CacheFile(CacheFileName(uid), EncodeSchedule(s.(source := Raw)));
    GlobAppend(files, [written]);
    assert Glob([written]) == [written];
    LoadAfterSave(s.(source := Raw));
  }
}
