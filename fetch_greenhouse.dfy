/**
 * The Greenhouse adapter (backend/app/ingest/fetch_greenhouse.py). The boards API
 * is a parameter `board`: for a slug it gives the decoded `jobs` list, or `None`
 * when the request fails or answers with a status other than 200, in which case
 * the company is skipped quietly.
 */
module FetchGreenhouse {
  import opened Wrappers
  import opened Strings
  import opened Seqs
  import opened Records
  import Normalize

  /** A configured company, `{"name": ..., "greenhouse": ...}`. */
  datatype Company = Company(name: Option<string>, greenhouse: Option<string>)

  /**
   * A job of the boards API with the fields the adapter reads. `locationName` is
   * the `name` of the `location` object (`None` when absent or not an object);
   * `departments` and `offices` hold the `name` of each entry as `str()` renders
   * it (`None` for an entry that is not an object or has no name); `postedAt` is
   * the parsed `updated_at`/`created_at` timestamp.
   */
  datatype Job = Job(
    title: Option<string>,
    id: Option<string>,
    absoluteUrl: Option<string>,
    locationName: Option<string>,
    postedAt: Option<int>,
    content: Option<Val>,
    departments: seq<Option<string>>,
    offices: seq<Option<string>>)

  /** `(c.get("greenhouse") or "").strip()`. */
  function BoardOf(c: Company): string {
    Strip(OrElse(c.greenhouse, ""))
  }

  /** `(c.get("name") or board).strip()`. */
  function CompanyName(c: Company): string {
    Strip(OrElse(c.name, BoardOf(c)))
  }

  /** `str(name).strip()` of an entry whose name is truthy. */
  function NameTag(n: Option<string>): Option<string> {
    if Truthy(n) then Some(Strip(n.value)) else None
  }

  /** The names of the first three departments, then of the first three offices. */
  function Tags(departments: seq<Option<string>>, offices: seq<Option<string>>): seq<string> {
    FilterMap(Take(departments, 3), NameTag) + FilterMap(Take(offices, 3), NameTag)
  }

  /** At most six tags, each the stripped name of one of the first three departments or offices. */
  lemma TagsShape(departments: seq<Option<string>>, offices: seq<Option<string>>, t: string)
    ensures |Tags(departments, offices)| <= 6
    ensures t in Tags(departments, offices) ==>
      (exists i :: 0 <= i < 3 && i < |departments| && NameTag(departments[i]) == Some(t)) ||
      (exists i :: 0 <= i < 3 && i < |offices| && NameTag(offices[i]) == Some(t))
  {
    FilterMapMember(Take(departments, 3), NameTag, t);
    FilterMapMember(Take(offices, 3), NameTag, t);
  }

  /** One tag loop of the adapter: `for d in names[:3]: if name: tags.append(str(name).strip())`. */
  method CollectNames(names: seq<Option<string>>) returns (tags: seq<string>)
    ensures tags == FilterMap(Take(names, 3), NameTag)
  {
    tags := [];
    var firstThree := Take(names, 3);
    for i := 0 to |firstThree|
      invariant tags == FilterMap(firstThree[..i], NameTag)
    {
      FilterMapSnoc(firstThree, i, NameTag);
      var name := firstThree[i];
      if Truthy(name) {
        tags := tags + [Strip(name.value)];
      }
    }
    assert firstThree[..|firstThree|] == firstThree;
  }

  /** Department tags, then office tags. */
  method CollectTags(departments: seq<Option<string>>, offices: seq<Option<string>>) returns (tags: seq<string>)
    ensures tags == Tags(departments, offices)
  {
    var fromDepartments := CollectNames(departments);
    var fromOffices := CollectNames(offices);
    tags := fromDepartments + fromOffices;
  }

  /** `content if isinstance(content, str) else ""`, with a falsy content read as `""`. */
  function Description(content: Option<Val>): string {
    match content
    case Some(VStr(s)) => s
    case _ => ""
  }

  /** The job dictionary built for one job of company `company`. */
  function Record(company: string, j: Job): (r: JobDict)
    ensures r.source == "greenhouse" && r.company == company
    ensures r.title != "" && !r.remote && !r.contract
    ensures Strip(OrElse(j.title, "")) != "" ==> r.title == Strip(OrElse(j.title, ""))
    ensures Strip(OrElse(j.title, "")) == "" ==> r.title == "Unknown"
    ensures Strip(OrElse(j.locationName, "")) == "" ==> r.location.None?
    ensures Strip(OrElse(j.locationName, "")) != "" ==> r.location == Some(Strip(OrElse(j.locationName, "")))
    ensures Strip(OrElse(j.absoluteUrl, "")) == "" ==> r.url.None?
    ensures Strip(OrElse(j.absoluteUrl, "")) != "" ==> r.url == Some(Strip(OrElse(j.absoluteUrl, "")))
    ensures r.url == r.applyUrl
    ensures r.description.None? <==> r.snippet.None?
    ensures r.tags == Tags(j.departments, j.offices)
    ensures r.description == NoneIfEmpty(Description(j.content)) && r.snippet == SnippetOrNone(Description(j.content))
    ensures r.originDomain == Normalize.OriginDomain(r.url)
    ensures r.sourceJobId == OrElse(j.id, "")
  {
    var url := StripOrNone(j.absoluteUrl);
    var desc := Description(j.content);
    JobDict(
      source := "greenhouse",
      sourceJobId := OrElse(j.id, ""),
      title := NonEmptyOr(Strip(OrElse(j.title, "")), "Unknown"),
      company := company,
      location := StripOrNone(j.locationName),
      remote := false,
      contract := false,
      tags := Tags(j.departments, j.offices),
      url := url,
      applyUrl := url,
      originDomain := Normalize.OriginDomain(url),
      description := NoneIfEmpty(desc),
      snippet := SnippetOrNone(desc),
      postedAt := j.postedAt)
  }

  /** The record of a job, kept only when it matches the query. */
  function Select(company: string, q: string, j: Job): Option<JobDict> {
    var d := Record(company, j);
    if MatchesQuery(d, q) then Some(d) else None
  }

  function Selector(company: string, q: string): Job -> Option<JobDict> {
    j => Select(company, q, j)
  }

  /** What one company contributes: its matching records, up to the cap. */
  function CompanyRecords(c: Company, board: string -> Option<seq<Job>>, q: string, limitPerCompany: int): (r: seq<JobDict>)
    ensures BoardOf(c) == "" ==> r == []
    ensures |r| <= Cap(limitPerCompany)
  {
    var slug := BoardOf(c);
    if slug == "" then []
    else match board(slug)
      case None => []
      case Some(jobs) => Take(FilterMap(jobs, Selector(CompanyName(c), q)), Cap(limitPerCompany))
  }

  function Contribution(board: string -> Option<seq<Job>>, q: string, limitPerCompany: int): Company -> seq<JobDict> {
    c => CompanyRecords(c, board, q, limitPerCompany)
  }

  /** The output of `fetch_greenhouse`: the companies' contributions in order. */
  function Fetched(companies: seq<Company>, board: string -> Option<seq<Job>>, query: Option<string>, limitPerCompany: int): seq<JobDict> {
    ConcatMap(companies, Contribution(board, OrElse(query, ""), limitPerCompany))
  }

  method FetchGreenhouse(companies: seq<Company>, board: string -> Option<seq<Job>>, query: Option<string>, limitPerCompany: int)
    returns (out: seq<JobDict>)
    ensures out == Fetched(companies, board, query, limitPerCompany)
  {
    out := [];
    var q := OrElse(query, "");
    for i := 0 to |companies|
      invariant out == ConcatMap(companies[..i], Contribution(board, q, limitPerCompany))
    {
      ConcatMapSnoc(companies, i, Contribution(board, q, limitPerCompany));
      var c := companies[i];
      var slug := Strip(OrElse(c.greenhouse, ""));
      if slug == "" {
        continue;
      }
      var companyName := Strip(OrElse(c.name, slug));
      var response := board(slug);
      if response.None? {
        continue;
      }
      // the job loop, with `count += 1; if count >= limit_per_company: break`
      var part := AppendSelected([], response.value, Selector(companyName, q), Cap(limitPerCompany));
      EmptyAppend(FilterMap(response.value, Selector(companyName, q)));
      out := out + part;
    }
    assert companies[..|companies|] == companies;
  }

  /** Each company contributes at most `max(1, limit_per_company)` records. */
  lemma FetchedBound(companies: seq<Company>, board: string -> Option<seq<Job>>, query: Option<string>, limitPerCompany: int)
    ensures |Fetched(companies, board, query, limitPerCompany)| <= |companies| * Cap(limitPerCompany)
  {
    var g := Contribution(board, OrElse(query, ""), limitPerCompany);
    forall c | c in companies
      ensures |g(c)| <= Cap(limitPerCompany)
    {
      assert g(c) == CompanyRecords(c, board, OrElse(query, ""), limitPerCompany);
    }
    ConcatMapBound(companies, g, Cap(limitPerCompany));
  }

  /** A kept job matches the query and carries the company's name. */
  lemma SelectSound(company: string, q: string, j: Job, d: JobDict)
    requires Select(company, q, j) == Some(d)
    ensures d.source == "greenhouse" && MatchesQuery(d, q) && d.company == company
  {
  }

  /** A company's records are selected jobs of its board. */
  lemma CompanyRecordsSelected(c: Company, board: string -> Option<seq<Job>>, q: string, limitPerCompany: int, d: JobDict)
    requires d in CompanyRecords(c, board, q, limitPerCompany)
    ensures BoardOf(c) != "" && board(BoardOf(c)).Some?
    ensures d in FilterMap(board(BoardOf(c)).value, Selector(CompanyName(c), q))
  {
  }

  /** A company's records match the query and carry the company's name. */
  lemma CompanyRecordsSound(c: Company, board: string -> Option<seq<Job>>, q: string, limitPerCompany: int, d: JobDict)
    requires d in CompanyRecords(c, board, q, limitPerCompany)
    ensures d.source == "greenhouse" && MatchesQuery(d, q) && d.company == CompanyName(c) && BoardOf(c) != ""
  {
    CompanyRecordsSelected(c, board, q, limitPerCompany, d);
    var jobs := board(BoardOf(c)).value;
    var k := FilterMapSource(jobs, Selector(CompanyName(c), q), d);
    SelectSound(CompanyName(c), q, jobs[k], d);
  }

  /** Every record of the whole run satisfies the same, for one of the configured companies. */
  lemma FetchedSound(companies: seq<Company>, board: string -> Option<seq<Job>>, query: Option<string>, limitPerCompany: int, d: JobDict)
    requires d in Fetched(companies, board, query, limitPerCompany)
    ensures d.source == "greenhouse" && MatchesQuery(d, OrElse(query, ""))
    ensures exists c :: c in companies && BoardOf(c) != "" && d.company == CompanyName(c)
  {
    var q := OrElse(query, "");
    var i := ConcatMapMember(companies, Contribution(board, q, limitPerCompany), d);
    CompanyRecordsSound(companies[i], board, q, limitPerCompany, d);
  }
}
