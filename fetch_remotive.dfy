/**
 * The Remotive adapter (backend/app/ingest/fetch_remotive.py). The search runs on
 * the server: the adapter only forwards the stripped query as the `search`
 * parameter and converts every job of the answer. The API is a parameter `api`:
 * for the `search` parameter (or its absence) it gives the decoded `jobs` list,
 * or `None` when the answer has an error status, which `raise_for_status` turns
 * into an exception.
 */
module FetchRemotive {
  import opened Wrappers
  import opened Strings
  import opened Seqs
  import opened Records
  import Urls

  /**
   * A job of the answer. `category` and `id` are given as `str()` renders them
   * (`None` when missing or falsy); `tags` holds the values of the `tags` list;
   * `postedAt` is the parsed `publication_date` (`None` when missing or not
   * parseable).
   */
  datatype Item = Item(
    title: Option<string>,
    companyName: Option<string>,
    description: Option<string>,
    url: Option<string>,
    jobType: Option<string>,
    category: Option<string>,
    id: Option<string>,
    tags: seq<Val>,
    postedAt: Option<int>)

  /** `params["search"] = query.strip()` when the query is not blank. */
  function SearchParam(query: Option<string>): (r: Option<string>)
    ensures r.None? <==> query.None? || Strip(query.value) == ""
    ensures r.Some? ==> r.value != "" && Trimmed(r.value) && r.value == Strip(query.value)
  {
    if Truthy(query) && Strip(query.value) != "" then Some(Strip(query.value)) else None
  }

  /** The string values of a tag list: `[t for t in tags if isinstance(t, str)]`. */
  function StrTag(v: Val): Option<string> {
    if v.VStr? then Some(v.s) else None
  }

  /** The stripped category first, then the string tags. */
  function Tags(j: Item): seq<string> {
    (if Truthy(j.category) then [Strip(j.category.value)] else []) + FilterMap(j.tags, StrTag)
  }

  /** Every tag is the stripped category or one of the job's string tags. */
  lemma TagsSound(j: Item, t: string)
    requires t in Tags(j)
    ensures (Truthy(j.category) && t == Strip(j.category.value)) || VStr(t) in j.tags
  {
    var head := if Truthy(j.category) then [Strip(j.category.value)] else [];
    if t !in head {
      assert t in FilterMap(j.tags, StrTag);
      var k := FilterMapSource(j.tags, StrTag, t);
      assert j.tags[k] == VStr(t);
    }
  }

  /** `"contract" in (job_type or "").lower()`. */
  predicate IsContract(jobType: Option<string>) {
    Contains(Lower(OrElse(jobType, "")), "contract")
  }

  /** The job dictionary of one job: always remote, with the ellipsised description as snippet. */
  function Record(j: Item): (r: JobDict)
    ensures r.source == "remotive" && r.location == Some("Remote") && r.remote
    ensures r.title != "" && r.company != ""
    ensures Strip(OrElse(j.title, "")) != "" ==> r.title == Strip(OrElse(j.title, ""))
    ensures Strip(OrElse(j.title, "")) == "" ==> r.title == "Unknown"
    ensures Strip(OrElse(j.companyName, "")) != "" ==> r.company == Strip(OrElse(j.companyName, ""))
    ensures Strip(OrElse(j.companyName, "")) == "" ==> r.company == "Unknown"
    ensures r.contract <==> IsContract(j.jobType)
    ensures r.url == Some(Strip(OrElse(j.url, ""))) && r.url == r.applyUrl
    ensures r.description == Some(Strip(OrElse(j.description, "")))
    ensures r.originDomain == Urls.OriginDomainAsIs(r.url)
    ensures r.snippet == Some(Ellipsized(r.description.value))
    ensures Truthy(j.id) ==> r.sourceJobId == j.id.value
    ensures !Truthy(j.id) ==> r.sourceJobId == Strip(OrElse(j.url, ""))
    ensures r.tags == Tags(j)
  {
    var desc := Strip(OrElse(j.description, ""));
    var applyUrl := Strip(OrElse(j.url, ""));
    JobDict(
      source := "remotive",
      sourceJobId := OrElse(j.id, applyUrl),
      title := NonEmptyOr(Strip(OrElse(j.title, "")), "Unknown"),
      company := NonEmptyOr(Strip(OrElse(j.companyName, "")), "Unknown"),
      location := Some("Remote"),
      remote := true,
      contract := IsContract(j.jobType),
      tags := Tags(j),
      url := Some(applyUrl),
      applyUrl := Some(applyUrl),
      originDomain := Urls.OriginDomainAsIs(Some(applyUrl)),
      description := Some(desc),
      snippet := Some(Ellipsized(desc)),
      postedAt := j.postedAt)
  }

  /** The output of `fetch_remotive`: the first `max(1, limit)` converted jobs, or the HTTP error. */
  function Fetched(query: Option<string>, api: Option<string> -> Option<seq<Item>>, limit: int): Result<seq<JobDict>, string> {
    match api(SearchParam(query))
    case None => Err(HttpErrorStatus)
    case Some(items) => Ok(Take(FilterMap(items, Total(Record)), Cap(limit)))
  }

  method FetchRemotive(query: Option<string>, api: Option<string> -> Option<seq<Item>>, limit: int)
    returns (r: Result<seq<JobDict>, string>)
    ensures r == Fetched(query, api, limit)
  {
    var search := None;
    if query.Some? && Strip(query.value) != "" {
      search := Some(Strip(query.value));
    }
    assert search == SearchParam(query);
    var response := api(search);
    if response.None? {
      return Err(HttpErrorStatus);
    }
    var jobs := KeepJobs(response.value, Cap(limit));
    return Ok(jobs);
  }

  /** The job loop, with `if len(jobs) >= limit: break` after each append. */
  method KeepJobs(items: seq<Item>, n: nat) returns (jobs: seq<JobDict>)
    requires n >= 1
    ensures jobs == Take(FilterMap(items, Total(Record)), n)
  {
    jobs := AppendSelected([], items, Total(Record), n);
    EmptyAppend(FilterMap(items, Total(Record)));
  }

  /** A successful run returns exactly `min(len(jobs), max(1, limit))` records. */
  lemma FetchedCount(query: Option<string>, api: Option<string> -> Option<seq<Item>>, limit: int)
    requires api(SearchParam(query)).Some?
    ensures var n := |api(SearchParam(query)).value|;
      Fetched(query, api, limit).Ok? &&
      |Fetched(query, api, limit).value| == if n <= Cap(limit) then n else Cap(limit)
  {
    FilterMapTotal(api(SearchParam(query)).value, Total(Record));
  }

  /** Every returned record is the conversion of one job of the answer. */
  lemma FetchedSound(query: Option<string>, api: Option<string> -> Option<seq<Item>>, limit: int, d: JobDict)
    requires Fetched(query, api, limit).Ok? && d in Fetched(query, api, limit).value
    ensures exists j :: j in api(SearchParam(query)).value && d == Record(j)
  {
    var items := api(SearchParam(query)).value;
    var all := FilterMap(items, Total(Record));
    assert d in all;
    var k := FilterMapSource(items, Total(Record), d);
    assert items[k] in items;
  }

  /** The records keep the order of the answer: the i-th record converts the i-th job. */
  lemma FetchedInOrder(query: Option<string>, api: Option<string> -> Option<seq<Item>>, limit: int, i: nat)
    requires Fetched(query, api, limit).Ok? && i < |Fetched(query, api, limit).value|
    ensures i < |api(SearchParam(query)).value|
    ensures Fetched(query, api, limit).value[i] == Record(api(SearchParam(query)).value[i])
  {
    var items := api(SearchParam(query)).value;
    var all := FilterMap(items, Total(Record));
    var out := Take(all, Cap(limit));
    assert Fetched(query, api, limit).value == out;
    assert out[i] == all[i];
    FilterMapIndex(items, Total(Record), i);
    assert all[i] == Total(Record)(items[i]).value;
  }
}
