/**
 * The backend's Adzuna adapter (backend/app/ingest/fetch_adzuna.py). The
 * credentials are the values of `ADZUNA_APP_ID` and `ADZUNA_APP_KEY` (`None`
 * when unset); the search API is a parameter `api` that gives, for a request,
 * the decoded `results` list, or `None` when the answer has an error status,
 * which `raise_for_status` turns into an exception.
 */
module FetchAdzuna {
  import opened Wrappers
  import opened Strings
  import opened Seqs
  import opened Records
  import Urls

  /** The placeholder id that counts as a missing credential. */
  const Placeholder: string := "YOUR_ID_HERE"

  /** The message of the error raised for missing credentials. */
  const MissingCredentialsMessage: string := "Missing ADZUNA_APP_ID / ADZUNA_APP_KEY in container env"

  /**
   * One request to `/v1/api/jobs/us/search/{page}`: the page number and the
   * query parameters that vary (`results_per_page` is always 50).
   */
  datatype Request = Request(page: nat, appId: string, appKey: string, what: string, where: string)

  /**
   * A result. `companyName`, `locationName`, `category` and `id` are given as
   * `str()` renders the `display_name`, `label` or `id` value (`None` when
   * missing or falsy); `postedAt` is the parsed `created` timestamp.
   */
  datatype Item = Item(
    title: Option<string>,
    companyName: Option<string>,
    locationName: Option<string>,
    description: Option<string>,
    redirectUrl: Option<string>,
    category: Option<string>,
    id: Option<string>,
    postedAt: Option<int>)

  /** `range(1, max(1, pages) + 1)`. */
  function PageNumbers(pages: int): (r: seq<nat>)
    ensures |r| == Cap(pages)
    ensures forall i :: 0 <= i < |r| ==> r[i] == i + 1
  {
    seq(Cap(pages), i => i + 1)
  }

  /** The stripped value of a credential variable, `os.getenv(name, "").strip()`. */
  function Credential(env: Option<string>): string {
    Strip(OrElse(env, ""))
  }

  /** `not app_id or not app_key or app_id == "YOUR_ID_HERE"`. */
  predicate CredentialsMissing(appId: string, appKey: string) {
    appId == "" || appKey == "" || appId == Placeholder
  }

  /** The job dictionary of one result. */
  function Record(j: Item): (r: JobDict)
    ensures r.source == "adzuna" && r.title != "" && r.company != ""
    ensures !r.remote && !r.contract
    ensures Strip(OrElse(j.title, "")) != "" ==> r.title == Strip(OrElse(j.title, ""))
    ensures Strip(OrElse(j.title, "")) == "" ==> r.title == "Unknown"
    ensures Strip(OrElse(j.companyName, "")) != "" ==> r.company == Strip(OrElse(j.companyName, ""))
    ensures Strip(OrElse(j.companyName, "")) == "" ==> r.company == "Unknown"
    ensures |r.tags| <= 1 && (r.tags != [] <==> Truthy(j.category))
    ensures Truthy(j.category) ==> r.tags == [Strip(j.category.value)]
    ensures r.location.Some? <==> Truthy(j.locationName)
    ensures Truthy(j.locationName) ==> r.location == Some(Strip(j.locationName.value))
    ensures r.url == Some(Strip(OrElse(j.redirectUrl, ""))) && r.url == r.applyUrl
    ensures r.description == Some(Strip(OrElse(j.description, "")))
    ensures r.originDomain == Urls.OriginDomainAsIs(r.url)
    ensures r.sourceJobId == OrElse(j.id, "")
    ensures r.description.Some? && r.snippet == Some(Ellipsized(r.description.value))
  {
    var desc := Strip(OrElse(j.description, ""));
    var applyUrl := Strip(OrElse(j.redirectUrl, ""));
    JobDict(
      source := "adzuna",
      sourceJobId := OrElse(j.id, ""),
      title := NonEmptyOr(Strip(OrElse(j.title, "")), "Unknown"),
      company := NonEmptyOr(Strip(OrElse(j.companyName, "")), "Unknown"),
      location := if Truthy(j.locationName) then Some(Strip(j.locationName.value)) else None,
      remote := false,
      contract := false,
      tags := if Truthy(j.category) then [Strip(j.category.value)] else [],
      url := Some(applyUrl),
      applyUrl := Some(applyUrl),
      originDomain := Urls.OriginDomainAsIs(Some(applyUrl)),
      description := Some(desc),
      snippet := Some(Ellipsized(desc)),
      postedAt := j.postedAt)
  }

  function PageFails(api: Request -> Option<seq<Item>>, appId: string, appKey: string, what: string, where: string): nat -> bool {
    (page: nat) => api(Request(page, appId, appKey, what, where)).None?
  }

  function PageRecords(api: Request -> Option<seq<Item>>, appId: string, appKey: string, what: string, where: string): nat -> seq<JobDict> {
    (page: nat) => match api(Request(page, appId, appKey, what, where))
      case None => []
      case Some(items) => FilterMap(items, Total(Record))
  }

  /**
   * The output of `fetch_adzuna`: the credentials error; or the HTTP error of
   * the first page answered with an error status; or the records of pages
   * `1..max(1, pages)` in order.
   */
  function Fetched(appIdEnv: Option<string>, appKeyEnv: Option<string>, query: Option<string>, where: string, pages: int,
                   api: Request -> Option<seq<Item>>): Result<seq<JobDict>, string>
  {
    var appId := Credential(appIdEnv);
    var appKey := Credential(appKeyEnv);
    if CredentialsMissing(appId, appKey) then Err(MissingCredentialsMessage)
    else
      var what := Strip(OrElse(query, ""));
      var ns := PageNumbers(pages);
      if FirstIndex(ns, PageFails(api, appId, appKey, what, where)) < |ns| then Err(HttpErrorStatus)
      else Ok(ConcatMap(ns, PageRecords(api, appId, appKey, what, where)))
  }

  method FetchAdzuna(appIdEnv: Option<string>, appKeyEnv: Option<string>, query: Option<string>, where: string, pages: int,
                     api: Request -> Option<seq<Item>>) returns (r: Result<seq<JobDict>, string>)
    ensures r == Fetched(appIdEnv, appKeyEnv, query, where, pages, api)
  {
    var appId := Strip(OrElse(appIdEnv, ""));
    var appKey := Strip(OrElse(appKeyEnv, ""));
    if appId == "" || appKey == "" || appId == Placeholder {
      return Err(MissingCredentialsMessage);
    }
    var what := Strip(OrElse(query, ""));
    // the page loop, each page's results appended in order
    var out, failed := ConcatUntil(PageNumbers(pages), PageFails(api, appId, appKey, what, where), PageRecords(api, appId, appKey, what, where));
    if failed {
      return Err(HttpErrorStatus);
    }
    return Ok(out);
  }

  /** Missing, blank or placeholder credentials fail the run before any request. */
  lemma MissingCredentials(appIdEnv: Option<string>, appKeyEnv: Option<string>, query: Option<string>, where: string, pages: int,
                           api: Request -> Option<seq<Item>>)
    requires Credential(appIdEnv) == "" || Credential(appKeyEnv) == "" || Credential(appIdEnv) == Placeholder
    ensures Fetched(appIdEnv, appKeyEnv, query, where, pages, api) == Err(MissingCredentialsMessage)
  {
  }

  /** A successful run has valid credentials and concatenates the pages' records. */
  lemma FetchedOk(appIdEnv: Option<string>, appKeyEnv: Option<string>, query: Option<string>, where: string, pages: int,
                  api: Request -> Option<seq<Item>>)
    requires Fetched(appIdEnv, appKeyEnv, query, where, pages, api).Ok?
    ensures !CredentialsMissing(Credential(appIdEnv), Credential(appKeyEnv))
    ensures Fetched(appIdEnv, appKeyEnv, query, where, pages, api).value
         == ConcatMap(PageNumbers(pages), PageRecords(api, Credential(appIdEnv), Credential(appKeyEnv), Strip(OrElse(query, "")), where))
  {
  }

  /** Every returned record converts a result of one of the pages `1..max(1, pages)`, requested with the stripped query. */
  lemma FetchedSound(appIdEnv: Option<string>, appKeyEnv: Option<string>, query: Option<string>, where: string, pages: int,
                     api: Request -> Option<seq<Item>>, d: JobDict)
    requires Fetched(appIdEnv, appKeyEnv, query, where, pages, api).Ok?
    requires d in Fetched(appIdEnv, appKeyEnv, query, where, pages, api).value
    ensures exists page: nat ::
      1 <= page <= Cap(pages) &&
      d in PageRecords(api, Credential(appIdEnv), Credential(appKeyEnv), Strip(OrElse(query, "")), where)(page)
  {
    FetchedOk(appIdEnv, appKeyEnv, query, where, pages, api);
    var ns := PageNumbers(pages);
    var i := ConcatMapMember(ns, PageRecords(api, Credential(appIdEnv), Credential(appKeyEnv), Strip(OrElse(query, "")), where), d);
    assert ns[i] == i + 1;
  }

  /** A page's records convert that page's results. */
  lemma PageRecordsSound(api: Request -> Option<seq<Item>>, req: Request, d: JobDict)
    requires d in PageRecords(api, req.appId, req.appKey, req.what, req.where)(req.page)
    ensures api(req).Some? && exists j :: j in api(req).value && d == Record(j)
  {
    var items := api(req).value;
    var k := FilterMapSource(items, Total(Record), d);
    assert items[k] in items;
  }

  /** One page's records are exactly its results, converted in order. */
  lemma PageRecordsInOrder(api: Request -> Option<seq<Item>>, req: Request, i: nat)
    requires api(req).Some? && i < |api(req).value|
    ensures var rs := PageRecords(api, req.appId, req.appKey, req.what, req.where)(req.page);
      |rs| == |api(req).value| && rs[i] == Record(api(req).value[i])
  {
    FilterMapIndex(api(req).value, Total(Record), i);
  }
}
