/**
 * The We Work Remotely adapter (backend/app/ingest/fetch_wwr.py). The adapter
 * reads the job anchors of a listing page and fetches each kept job's page for
 * its description. HTML parsing is outside the model: the listing page is a
 * parameter `listing` that gives, for the listing URL, the anchors selected by
 * `section.jobs article ul li a` (or `None` for an error status, which
 * `raise_for_status` turns into an exception), and the job pages are a
 * parameter `detail` that gives the text of `div.listing-container` of a page
 * answered with status 200 (`None` when the request fails, the status is
 * another one or the page has no such element).
 */
module FetchWwr {
  import opened Wrappers
  import opened Strings
  import opened Seqs
  import opened Records
  import Urls

  const Host: string := "weworkremotely.com"
  const Base: string := "https://" + Host
  const ListPrefix: string := Base + "/remote-jobs/search?term="
  const JobPathPrefix: string := "/remote-jobs/"

  /**
   * An anchor of the listing. `company`, `title` and `region` are the stripped
   * texts of its `span.company`, `span.title` and `span.region`, `None` when the
   * span is missing.
   */
  datatype Anchor = Anchor(href: Option<string>, company: Option<string>, title: Option<string>, region: Option<string>)

  /** The listing URL: the search page for a non-blank stripped query, the plain listing otherwise. */
  function ListUrl(query: Option<string>): (r: string)
    ensures Strip(OrElse(query, "")) == "" ==> r == Base + "/remote-jobs"
    ensures Strip(OrElse(query, "")) != "" ==> r == ListPrefix + Urls.Quote(Strip(OrElse(query, "")))
  {
    var term := Strip(OrElse(query, ""));
    if term != "" then ListPrefix + Urls.Quote(term) else Base + "/remote-jobs"
  }

  predicate StartsWith(s: string, p: string) {
    |p| <= |s| && s[..|p|] == p
  }

  /** `href.startswith("/remote-jobs/")` of `a.get("href") or ""`. */
  predicate IsJobLink(a: Anchor) {
    StartsWith(OrElse(a.href, ""), JobPathPrefix)
  }

  /** `urljoin(BASE, href)` for an href that is an absolute path. */
  function JobUrl(href: string): string {
    Base + href
  }

  /** The job dictionary of a job anchor, with `desc` the text of its page. */
  function Record(a: Anchor, desc: string): (r: JobDict)
    requires IsJobLink(a)
    ensures r.source == "wwr" && r.remote && !r.contract && r.tags == [] && r.postedAt.None?
    ensures r.url == r.applyUrl == Some(r.sourceJobId) && r.sourceJobId == JobUrl(a.href.value)
    ensures r.location.Some? && r.location.value != ""
    ensures Truthy(a.region) ==> r.location == Some(a.region.value)
    ensures !Truthy(a.region) ==> r.location == Some("Remote")
    ensures a.company.Some? ==> r.company == a.company.value
    ensures a.company.None? ==> r.company == "Unknown"
    ensures a.title.Some? ==> r.title == a.title.value
    ensures a.title.None? ==> r.title == "Unknown"
    ensures r.description.None? <==> desc == ""
    ensures r.description.Some? ==> r.snippet == Some(Ellipsized(desc))
    ensures r.description.None? ==> r.snippet.None?
  {
    var jobUrl := JobUrl(a.href.value);
    JobDict(
      source := "wwr",
      sourceJobId := jobUrl,
      title := a.title.GetOr("Unknown"),
      company := a.company.GetOr("Unknown"),
      location := Some(OrElse(a.region, "Remote")),
      remote := true,
      contract := false,
      tags := [],
      url := Some(jobUrl),
      applyUrl := Some(jobUrl),
      originDomain := Urls.OriginDomainAsIs(Some(jobUrl)),
      description := NoneIfEmpty(desc),
      snippet := SnippetOrNone(desc),
      postedAt := None)
  }

  /** A job anchor becomes a record, with the description of its fetched page; any other anchor is skipped. */
  function Select(detail: string -> Option<string>, a: Anchor): (r: Option<JobDict>)
    ensures r.Some? <==> IsJobLink(a)
  {
    if IsJobLink(a) then Some(Record(a, OrElse(detail(JobUrl(a.href.value)), ""))) else None
  }

  function Selector(detail: string -> Option<string>): Anchor -> Option<JobDict> {
    a => Select(detail, a)
  }

  /** The output of `fetch_wwr`: the first `max(1, limit)` job anchors' records, or the HTTP error of the listing. */
  function Fetched(query: Option<string>, listing: string -> Option<seq<Anchor>>, detail: string -> Option<string>, limit: int): Result<seq<JobDict>, string> {
    match listing(ListUrl(query))
    case None => Err(HttpErrorStatus)
    case Some(anchors) => Ok(Take(FilterMap(anchors, Selector(detail)), Cap(limit)))
  }

  method FetchWwr(query: Option<string>, listing: string -> Option<seq<Anchor>>, detail: string -> Option<string>, limit: int)
    returns (r: Result<seq<JobDict>, string>)
    ensures r == Fetched(query, listing, detail, limit)
  {
    var anchors := listing(ListUrl(query));
    if anchors.None? {
      return Err(HttpErrorStatus);
    }
    var out := KeepJobs(anchors.value, detail, Cap(limit));
    return Ok(out);
  }

  /** The anchor loop, with `if len(out) >= limit: break` after each append. */
  method KeepJobs(anchors: seq<Anchor>, detail: string -> Option<string>, n: nat) returns (out: seq<JobDict>)
    requires n >= 1
    ensures out == Take(FilterMap(anchors, Selector(detail)), n)
  {
    out := AppendSelected([], anchors, Selector(detail), n);
    EmptyAppend(FilterMap(anchors, Selector(detail)));
  }

  lemma SelectSound(detail: string -> Option<string>, a: Anchor, d: JobDict)
    requires Select(detail, a) == Some(d)
    ensures IsJobLink(a) && d == Record(a, OrElse(detail(JobUrl(a.href.value)), ""))
  {
  }

  /** Every returned record comes from a job anchor of the listing and points at that job's page. */
  lemma FetchedSound(query: Option<string>, listing: string -> Option<seq<Anchor>>, detail: string -> Option<string>, limit: int, d: JobDict)
    requires Fetched(query, listing, detail, limit).Ok? && d in Fetched(query, listing, detail, limit).value
    ensures exists a :: a in listing(ListUrl(query)).value && IsJobLink(a) && d == Record(a, OrElse(detail(JobUrl(a.href.value)), ""))
  {
    var a := KeptSound(listing(ListUrl(query)).value, detail, Cap(limit), d);
  }

  /** A record among the first `n` kept ones comes from a job anchor. */
  lemma KeptSound(anchors: seq<Anchor>, detail: string -> Option<string>, n: nat, d: JobDict) returns (a: Anchor)
    requires d in Take(FilterMap(anchors, Selector(detail)), n)
    ensures a in anchors && IsJobLink(a) && d == Record(a, OrElse(detail(JobUrl(a.href.value)), ""))
  {
    TakeMember(FilterMap(anchors, Selector(detail)), n, d);
    var k := FilterMapSource(anchors, Selector(detail), d);
    a := anchors[k];
    SelectSound(detail, a, d);
  }

  /** The host of the board's URLs holds no `www.` ... */
  lemma NoWwwInHost()
    ensures !Contains(Host, "www.")
  {
    assert NoPair(Host, 'w', 'w');
    NoPairNoContains(Host, "www.");
  }

  /** ... and is a plain host name. */
  lemma HostIsPlain()
    ensures Urls.PlainHost(Host)
  {
  }

  /** The authority of every job URL is the board's host ... */
  lemma JobUrlNetloc(href: string)
    requires StartsWith(href, JobPathPrefix)
    requires forall k :: 0 <= k < |href| ==> !Urls.IsUnsafe(href[k])
    ensures Urls.Netloc(JobUrl(href)) == Some(Host)
  {
    HostIsPlain();
    assert href[0] == JobPathPrefix[0];
    Urls.NetlocOfHttps(Host, href);
  }

  /** ... and so is its origin domain. */
  lemma JobUrlOrigin(href: string)
    requires StartsWith(href, JobPathPrefix)
    requires forall k :: 0 <= k < |href| ==> !Urls.IsUnsafe(href[k])
    ensures Urls.OriginDomainAsIs(Some(JobUrl(href))) == Some(Host)
  {
    JobUrlNetloc(href);
    NoWwwInHost();
    Urls.OriginDomainAsIsKeepsCase(JobUrl(href), Host);
  }

  /** Hence the records of job anchors carry that origin domain. */
  lemma RecordOrigin(a: Anchor, desc: string)
    requires IsJobLink(a)
    requires forall k :: 0 <= k < |a.href.value| ==> !Urls.IsUnsafe(a.href.value[k])
    ensures Record(a, desc).originDomain == Some(Host)
  {
    JobUrlOrigin(a.href.value);
  }
}
