/**
 * The RemoteOK adapter (backend/app/ingest/fetch_remoteok.py). The feed is a
 * parameter `api`: it gives the decoded top-level list, or `None` when the
 * answer has an error status, which `raise_for_status` turns into an exception.
 * The adapter filters by the query itself, searching the title, company,
 * description and tags.
 */
module FetchRemoteOk {
  import opened Wrappers
  import opened Strings
  import opened Seqs
  import opened Records
  import Urls

  /**
   * An element of the feed: an object with the keys the adapter reads, or
   * anything else (the leading metadata object has no `id`). `id` is given as
   * `str()` renders it, `None` when missing or falsy.
   */
  datatype Entry =
    | NotAnObject
    | Entry(
        id: Option<string>,
        position: Option<string>,
        title: Option<string>,
        company: Option<string>,
        description: Option<string>,
        url: Option<string>,
        tags: seq<Val>)

  /** The message of the TypeError that `" ".join` raises on a non-string item. */
  const JoinTypeError: string := "TypeError: sequence item: expected str instance"

  /** `[x for x in data if isinstance(x, dict) and x.get("id")]`. */
  function Listed(x: Entry): (r: Option<Entry>)
    ensures r.Some? <==> x.Entry? && Truthy(x.id)
    ensures r.Some? ==> r.value == x
  {
    if x.Entry? && Truthy(x.id) then Some(x) else None
  }

  /** `(query or "").strip().lower()`. */
  function Needle(query: Option<string>): string {
    Lower(Strip(OrElse(query, "")))
  }

  function StrTag(v: Val): Option<string> {
    if v.VStr? then Some(v.s) else None
  }

  /** The string values of the tag list, `[t for t in tags if isinstance(t, str)]`. */
  function StrTags(j: Entry): seq<string>
    requires j.Entry?
  {
    FilterMap(j.tags, StrTag)
  }

  /** A tag list holding a value that is not a string: `" ".join` raises TypeError on it. */
  predicate HasNonStringTag(j: Entry) {
    j.Entry? && exists i :: 0 <= i < |j.tags| && !j.tags[i].VStr?
  }

  /** The query filter raises exactly when there is a query and the job's tags hold a non-string. */
  function Raises(q: string): Entry -> bool {
    j => q != "" && HasNonStringTag(j)
  }

  function Title(j: Entry): string
    requires j.Entry?
  {
    Strip(OrElse(j.position, OrElse(j.title, "")))
  }

  /** The searched fields, `[title, company, desc, " ".join(tags)]`. */
  function HayFields(j: Entry): seq<string>
    requires j.Entry?
  {
    [Title(j), Strip(OrElse(j.company, "")), Strip(OrElse(j.description, "")), Join(StrTags(j), " ")]
  }

  predicate Matches(q: string, j: Entry)
    requires j.Entry?
  {
    q == "" || Contains(Lower(Join(HayFields(j), " ")), q)
  }

  /** The job dictionary of a listed job. */
  function Record(j: Entry): (r: JobDict)
    requires j.Entry?
    ensures r.source == "remoteok" && r.location == Some("Remote") && r.remote && !r.contract
    ensures r.title != "" && r.company != "" && r.postedAt.None?
    ensures Truthy(j.position) && Strip(j.position.value) != "" ==> r.title == Strip(j.position.value)
    ensures !Truthy(j.position) && Truthy(j.title) && Strip(j.title.value) != "" ==> r.title == Strip(j.title.value)
    ensures Strip(OrElse(j.position, OrElse(j.title, ""))) == "" ==> r.title == "Unknown"
    ensures Strip(OrElse(j.company, "")) != "" ==> r.company == Strip(OrElse(j.company, ""))
    ensures Strip(OrElse(j.company, "")) == "" ==> r.company == "Unknown"
    ensures Truthy(j.id) ==> r.sourceJobId == j.id.value
    ensures |r.tags| <= |j.tags| && r.tags == StrTags(j)
    ensures r.description == Some(Strip(OrElse(j.description, "")))
    ensures r.originDomain == Urls.OriginDomainAsIs(r.url)
    ensures r.url == Some(Strip(OrElse(j.url, ""))) && r.url == r.applyUrl
    ensures r.description.Some? && r.snippet == Some(Ellipsized(r.description.value))
  {
    var desc := Strip(OrElse(j.description, ""));
    var applyUrl := Strip(OrElse(j.url, ""));
    JobDict(
      source := "remoteok",
      sourceJobId := OrElse(j.id, ""),
      title := NonEmptyOr(Title(j), "Unknown"),
      company := NonEmptyOr(Strip(OrElse(j.company, "")), "Unknown"),
      location := Some("Remote"),
      remote := true,
      contract := false,
      tags := StrTags(j),
      url := Some(applyUrl),
      applyUrl := Some(applyUrl),
      originDomain := Urls.OriginDomainAsIs(Some(applyUrl)),
      description := Some(desc),
      snippet := Some(Ellipsized(desc)),
      postedAt := None)
  }

  /** The record's tags are exactly the job's string tags. */
  lemma RecordTags(j: Entry, t: string)
    requires j.Entry?
    ensures t in Record(j).tags <==> VStr(t) in j.tags
  {
    FilterMapMember(j.tags, StrTag, t);
    if VStr(t) in j.tags {
      var i :| 0 <= i < |j.tags| && j.tags[i] == VStr(t);
      assert StrTag(j.tags[i]) == Some(t);
    }
  }

  function Select(q: string, j: Entry): (r: Option<JobDict>)
    ensures r.Some? ==> j.Entry? && Matches(q, j)
  {
    if j.Entry? && Matches(q, j) then Some(Record(j)) else None
  }

  function Selector(q: string): Entry -> Option<JobDict> {
    j => Select(q, j)
  }

  /**
   * The output of `fetch_remoteok`: the HTTP error; or the TypeError of the first
   * listed job with a non-string tag, when a query is given and fewer than
   * `max(1, limit)` jobs were kept before it; or the kept jobs before that point,
   * up to the cap.
   */
  function Fetched(api: Option<seq<Entry>>, query: Option<string>, limit: int): Result<seq<JobDict>, string> {
    if api.None? then Err(HttpErrorStatus)
    else Scanned(FilterMap(api.value, Listed), Needle(query), Cap(limit))
  }

  /** The job loop over the listed jobs `items`, for the query `q` and the cap `n`. */
  function Scanned(items: seq<Entry>, q: string, n: nat): Result<seq<JobDict>, string> {
    var e := FirstIndex(items, Raises(q));
    var kept := FilterMap(items[..e], Selector(q));
    if e < |items| && |kept| < n then Err(JoinTypeError)
    else Ok(Take(kept, n))
  }

  method FetchRemoteOk(api: Option<seq<Entry>>, query: Option<string>, limit: int)
    returns (r: Result<seq<JobDict>, string>)
    ensures r == Fetched(api, query, limit)
  {
    if api.None? {
      return Err(HttpErrorStatus);
    }
    var items := FilterMap(api.value, Listed);
    var q := Lower(Strip(OrElse(query, "")));
    r := ScanJobs(items, q, Cap(limit));
  }

  /** The job loop: the query filter, then `if len(out) >= limit: break` after each append. */
  method ScanJobs(items: seq<Entry>, q: string, n: nat) returns (r: Result<seq<JobDict>, string>)
    requires n >= 1
    ensures r == Scanned(items, q, n)
  {
    var out, failed := AppendSelectedUntil([], items, Raises(q), Selector(q), n);
    ghost var e := FirstIndex(items, Raises(q));
    ghost var kept := FilterMap(items[..e], Selector(q));
    EmptyAppend(kept);
    if failed {
      r := Err(JoinTypeError);
    } else {
      r := Ok(out);
    }
  }

  /** Without a query nothing raises, and the first `max(1, limit)` listed jobs are returned. */
  lemma FetchedWithoutQuery(entries: seq<Entry>, query: Option<string>, limit: int)
    requires Needle(query) == ""
    ensures Fetched(Some(entries), query, limit) ==
      Ok(Take(FilterMap(FilterMap(entries, Listed), Selector("")), Cap(limit)))
  {
    var items := FilterMap(entries, Listed);
    forall x ensures !Raises("")(x) {}
    FirstIndexNone(items, Raises(""));
    WholePrefix(items);
    var e := FirstIndex(items, Raises(""));
    assert items[..e] == items;
    var kept := FilterMap(items[..e], Selector(""));
    assert kept == FilterMap(items, Selector(""));
    assert Fetched(Some(entries), query, limit) == Scanned(items, "", Cap(limit)) == Ok(Take(kept, Cap(limit)));
  }

  /** With a query, a first listed job whose tags hold a non-string makes the run fail. */
  lemma FetchedRaises(entries: seq<Entry>, query: Option<string>, limit: int)
    requires Needle(query) != ""
    requires FilterMap(entries, Listed) != [] && HasNonStringTag(FilterMap(entries, Listed)[0])
    ensures Fetched(Some(entries), query, limit).Err?
  {
    ScannedRaises(FilterMap(entries, Listed), Needle(query), Cap(limit));
  }

  /** The job loop raises when its first job has a non-string tag and there is a query. */
  lemma ScannedRaises(items: seq<Entry>, q: string, n: nat)
    requires q != "" && items != [] && HasNonStringTag(items[0]) && n >= 1
    ensures Scanned(items, q, n) == Err(JoinTypeError)
  {
    assert Raises(q)(items[0]);
    FailsFirst(items, Raises(q), Selector(q));
  }

  lemma SelectSound(q: string, j: Entry, d: JobDict)
    requires Select(q, j) == Some(d)
    ensures j.Entry? && Matches(q, j) && d == Record(j)
  {
  }

  /** A listed job came from an object with a truthy `id`. */
  lemma ListedSound(entries: seq<Entry>, j: Entry)
    requires j in FilterMap(entries, Listed)
    ensures j in entries && j.Entry? && Truthy(j.id)
  {
    var k := FilterMapSource(entries, Listed, j);
  }

  /** Every returned record converts a listed job that matches the query. */
  lemma FetchedSound(entries: seq<Entry>, query: Option<string>, limit: int, d: JobDict)
    requires Fetched(Some(entries), query, limit).Ok? && d in Fetched(Some(entries), query, limit).value
    ensures exists j :: j in entries && j.Entry? && Truthy(j.id) && Matches(Needle(query), j) && d == Record(j)
  {
    var items := FilterMap(entries, Listed);
    var j := ScannedSound(items, Needle(query), Cap(limit), d);
    ListedSound(entries, j);
  }

  /** Every record the job loop returns converts a job of `items` that matches the query. */
  lemma ScannedSound(items: seq<Entry>, q: string, n: nat, d: JobDict) returns (j: Entry)
    requires Scanned(items, q, n).Ok? && d in Scanned(items, q, n).value
    ensures j in items && j.Entry? && Matches(q, j) && d == Record(j)
  {
    var e := FirstIndex(items, Raises(q));
    var kept := FilterMap(items[..e], Selector(q));
    TakeMember(kept, n, d);
    var k := FilterMapSource(items[..e], Selector(q), d);
    j := items[..e][k];
    SelectSound(q, j, d);
  }

  /** A query found in any one string tag keeps the job. */
  lemma MatchInTag(q: string, j: Entry, i: nat)
    requires j.Entry? && i < |StrTags(j)| && Contains(Lower(StrTags(j)[i]), q)
    ensures Matches(q, j)
  {
    var fields := HayFields(j);
    var hay := Join(fields, " ");
    JoinContainsPart(StrTags(j), " ", i);
    JoinContainsPart(fields, " ", 3);
    ContainsTrans(hay, Join(StrTags(j), " "), StrTags(j)[i]);
    LowerKeepsContains(hay, StrTags(j)[i]);
    ContainsTrans(Lower(hay), Lower(StrTags(j)[i]), q);
  }

  /** A query found in the title keeps the job. */
  lemma MatchInTitle(q: string, j: Entry)
    requires j.Entry? && Contains(Lower(Title(j)), q)
    ensures Matches(q, j)
  {
    var fields := HayFields(j);
    var hay := Join(fields, " ");
    JoinContainsPart(fields, " ", 0);
    LowerKeepsContains(hay, Title(j));
    ContainsTrans(Lower(hay), Lower(Title(j)), q);
  }

  /** Every tag of a record is a string tag of its job. */
  lemma TagsSound(j: Entry, t: string)
    requires j.Entry? && t in StrTags(j)
    ensures VStr(t) in j.tags
  {
    var k := FilterMapSource(j.tags, StrTag, t);
    assert j.tags[k] == VStr(t);
  }
}
