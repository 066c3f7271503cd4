/**
 * The Arbeitnow adapter (backend/app/ingest/fetch_arbeitnow.py). The adapter
 * follows the `links.next` chain of the job-board API and filters the jobs
 * itself. The answers are a parameter `pages`: the responses the adapter would
 * receive, in request order, the first for the fixed board URL and each later
 * one for the previous page's `next` link. `Failed` is an answer with an error
 * status, which `raise_for_status` turns into an exception.
 */
module FetchArbeitnow {
  import opened Wrappers
  import opened Strings
  import opened Seqs
  import opened Records
  import Urls

  /** A job of a page. `remote` is the truthiness of its `remote` field. */
  datatype Item = Item(
    title: Option<string>,
    companyName: Option<string>,
    description: Option<string>,
    url: Option<string>,
    slug: Option<string>,
    location: Option<string>,
    remote: bool)

  /** One answer: an error status, or the page's `data` list and its `next` link. */
  datatype Response = Failed | Page(items: seq<Item>, next: Option<string>)

  /** `(query or "").strip().lower()`. */
  function Needle(query: Option<string>): string {
    Lower(Strip(OrElse(query, "")))
  }

  /** `f"{title} {company} {desc}".lower()` of the stripped fields. */
  function Hay(j: Item): string {
    Lower(Strip(OrElse(j.title, "")) + " " + Strip(OrElse(j.companyName, "")) + " " + Strip(OrElse(j.description, "")))
  }

  /** A job is kept unless the needle is non-empty and missing from the hay. */
  predicate Matches(q: string, j: Item) {
    q == "" || Contains(Hay(j), q)
  }

  /** The job dictionary of a kept job. */
  function Record(j: Item): (r: JobDict)
    ensures r.source == "arbeitnow" && r.title != "" && r.company != ""
    ensures r.remote == j.remote && !r.contract && r.postedAt.None?
    ensures r.tags == (if j.remote then ["remote"] else [])
    ensures j.remote ==> r.location == Some("Remote")
    ensures Strip(OrElse(j.title, "")) != "" ==> r.title == Strip(OrElse(j.title, ""))
    ensures Strip(OrElse(j.title, "")) == "" ==> r.title == "Unknown"
    ensures Strip(OrElse(j.companyName, "")) != "" ==> r.company == Strip(OrElse(j.companyName, ""))
    ensures Strip(OrElse(j.companyName, "")) == "" ==> r.company == "Unknown"
    ensures !j.remote ==> (r.location.None? <==> !Truthy(j.location))
    ensures !j.remote && Truthy(j.location) ==> r.location == Some(j.location.value)
    ensures Truthy(j.slug) ==> r.sourceJobId == j.slug.value
    ensures !Truthy(j.slug) ==> r.sourceJobId == Strip(OrElse(j.url, ""))
    ensures r.url == Some(Strip(OrElse(j.url, ""))) && r.url == r.applyUrl
    ensures r.description == Some(Strip(OrElse(j.description, "")))
    ensures r.originDomain == Urls.OriginDomainAsIs(r.url)
    ensures r.description.Some? && r.snippet == Some(Ellipsized(r.description.value))
  {
    var desc := Strip(OrElse(j.description, ""));
    var applyUrl := Strip(OrElse(j.url, ""));
    JobDict(
      source := "arbeitnow",
      sourceJobId := OrElse(j.slug, applyUrl),
      title := NonEmptyOr(Strip(OrElse(j.title, "")), "Unknown"),
      company := NonEmptyOr(Strip(OrElse(j.companyName, "")), "Unknown"),
      location := if j.remote then Some("Remote") else NoneIfEmpty(OrElse(j.location, "")),
      remote := j.remote,
      contract := false,
      tags := if j.remote then ["remote"] else [],
      url := Some(applyUrl),
      applyUrl := Some(applyUrl),
      originDomain := Urls.OriginDomainAsIs(Some(applyUrl)),
      description := Some(desc),
      snippet := Some(Ellipsized(desc)),
      postedAt := None)
  }

  function Select(q: string, j: Item): (r: Option<JobDict>)
    ensures r.Some? <==> Matches(q, j)
  {
    if Matches(q, j) then Some(Record(j)) else None
  }

  function Selector(q: string): Item -> Option<JobDict> {
    j => Select(q, j)
  }

  /**
   * The request loop `while next_url and len(jobs) < limit`, from the answer
   * `pages[0]` on, with `acc` collected so far: stop when `n` jobs are held,
   * fail on an error status, otherwise add the page's selected jobs up to the
   * cap and follow the `next` link if it is truthy.
   */
  function Walk(pages: seq<Response>, sel: Item -> Option<JobDict>, n: nat, acc: seq<JobDict>): Result<seq<JobDict>, string>
    decreases |pages|
  {
    if pages == [] || |acc| >= n then Ok(acc)
    else match pages[0]
      case Failed => Err(HttpErrorStatus)
      case Page(items, next) =>
        var acc' := Take(acc + FilterMap(items, sel), n);
        if Truthy(next) then Walk(pages[1..], sel, n, acc') else Ok(acc')
  }

  /** The output of `fetch_arbeitnow`; a limit below one makes no request at all. */
  function Fetched(pages: seq<Response>, query: Option<string>, limit: int): Result<seq<JobDict>, string> {
    if limit <= 0 then Ok([]) else Walk(pages, Selector(Needle(query)), limit, [])
  }

  method FetchArbeitnow(pages: seq<Response>, query: Option<string>, limit: int)
    returns (r: Result<seq<JobDict>, string>)
    ensures r == Fetched(pages, query, limit)
  {
    if limit <= 0 {
      return Ok([]);
    }
    var q := Lower(Strip(OrElse(query, "")));
    var sel := Selector(q);
    var jobs: seq<JobDict> := [];
    var k := 0;
    while k < |pages| && |jobs| < limit
      invariant k <= |pages|
      invariant Walk(pages[k..], sel, limit, jobs) == Walk(pages, sel, limit, [])
      decreases |pages| - k
    {
      assert pages[k..][1..] == pages[k + 1..];
      if pages[k].Failed? {
        return Err(HttpErrorStatus);
      }
      // the job loop, with `if len(jobs) >= limit: break` after each append
      jobs := AppendSelected(jobs, pages[k].items, sel, limit);
      if !Truthy(pages[k].next) {
        return Ok(jobs);
      }
      k := k + 1;
    }
    return Ok(jobs);
  }

  /** The jobs of a chain of pages, in order. */
  function ChainItems(pages: seq<Response>): seq<Item>
    decreases |pages|
  {
    if pages == [] then [] else (if pages[0].Page? then pages[0].items else []) + ChainItems(pages[1..])
  }

  /**
   * A chain of pages answered without error, each but the last with a `next`
   * link, yields the first `n` selected jobs of all its pages together.
   */
  lemma {:induction false} WalkChain(pages: seq<Response>, sel: Item -> Option<JobDict>, n: nat, acc: seq<JobDict>)
    requires forall i :: 0 <= i < |pages| ==> pages[i].Page?
    requires forall i :: 0 <= i < |pages| - 1 ==> Truthy(pages[i].next)
    requires |acc| <= n
    ensures Walk(pages, sel, n, acc) == Ok(Take(acc + FilterMap(ChainItems(pages), sel), n))
    decreases |pages|
  {
    var all := FilterMap(ChainItems(pages), sel);
    if pages == [] {
      assert acc + all == acc;
    } else if |acc| >= n {
      TakeAppendFull(acc, all, n);
    } else {
      var items := pages[0].items;
      var rest := ChainItems(pages[1..]);
      var acc' := Take(acc + FilterMap(items, sel), n);
      FilterMapAppend(items, rest, sel);
      Assoc(acc, FilterMap(items, sel), FilterMap(rest, sel));
      if Truthy(pages[0].next) {
        WalkChain(pages[1..], sel, n, acc');
        TakeOfTake(acc + FilterMap(items, sel), FilterMap(rest, sel), n);
      } else {
        assert |pages| == 1 && rest == [];
        assert FilterMap(rest, sel) == [];
        assert acc + FilterMap(items, sel) + [] == acc + FilterMap(items, sel);
      }
    }
  }

  /** The same for the adapter: a run over an error-free chain returns the first `limit` matching jobs of the whole chain. */
  lemma FetchedChain(pages: seq<Response>, query: Option<string>, limit: int)
    requires forall i :: 0 <= i < |pages| ==> pages[i].Page?
    requires forall i :: 0 <= i < |pages| - 1 ==> Truthy(pages[i].next)
    requires limit >= 1
    ensures Fetched(pages, query, limit) == Ok(Take(FilterMap(ChainItems(pages), Selector(Needle(query))), limit))
  {
    WalkChain(pages, Selector(Needle(query)), limit, []);
    EmptyAppend(FilterMap(ChainItems(pages), Selector(Needle(query))));
  }

  /** An error status on the first answer fails the run. */
  lemma FailedFirstPage(pages: seq<Response>, query: Option<string>, limit: int)
    requires pages != [] && pages[0].Failed? && limit >= 1
    ensures Fetched(pages, query, limit).Err?
  {
  }

  /** Every returned job holds the needle in its title, company or description. */
  lemma {:induction false} WalkSound(pages: seq<Response>, q: string, n: nat, acc: seq<JobDict>, d: JobDict)
    requires Walk(pages, Selector(q), n, acc).Ok? && d in Walk(pages, Selector(q), n, acc).value
    requires d !in acc
    ensures exists j: Item :: Matches(q, j) && d == Record(j)
    decreases |pages|
  {
    var sel := Selector(q);
    if pages != [] && |acc| < n && pages[0].Page? {
      var items := pages[0].items;
      var acc' := Take(acc + FilterMap(items, sel), n);
      if d in acc' {
        assert d in acc + FilterMap(items, sel);
        var k := FilterMapSource(items, sel, d);
        SelectSound(q, items[k], d);
      } else {
        WalkSound(pages[1..], q, n, acc', d);
      }
    }
  }

  lemma SelectSound(q: string, j: Item, d: JobDict)
    requires Select(q, j) == Some(d)
    ensures Matches(q, j) && d == Record(j)
  {
  }

  /** The same for the adapter's output. */
  lemma FetchedSound(pages: seq<Response>, query: Option<string>, limit: int, d: JobDict)
    requires Fetched(pages, query, limit).Ok? && d in Fetched(pages, query, limit).value
    ensures exists j: Item :: Matches(Needle(query), j) && d == Record(j)
  {
    WalkSound(pages, Needle(query), limit, [], d);
  }

  /** A needle found in the job's title keeps the job ... */
  lemma MatchInTitle(q: string, j: Item)
    requires Contains(Lower(Strip(OrElse(j.title, ""))), q)
    ensures Matches(q, j)
  {
    var t := Strip(OrElse(j.title, ""));
    var c := Strip(OrElse(j.companyName, ""));
    LowerContainsLeft(t, " ", q);
    LowerContainsLeft(t + " ", c, q);
    LowerContainsLeft(t + " " + c, " ", q);
    LowerContainsLeft(t + " " + c + " ", Strip(OrElse(j.description, "")), q);
  }

  /** ... and so does one found in its description. */
  lemma MatchInDescription(q: string, j: Item)
    requires Contains(Lower(Strip(OrElse(j.description, ""))), q)
    ensures Matches(q, j)
  {
    var front := Strip(OrElse(j.title, "")) + " " + Strip(OrElse(j.companyName, "")) + " ";
    var desc := Strip(OrElse(j.description, ""));
    LowerAppend(front, desc);
    ContainsInRight(Lower(front), Lower(desc), q);
  }
}
