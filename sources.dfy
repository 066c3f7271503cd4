/**
 * The job board's three adapters (jobboard/backend/app/ingest/sources.py):
 * Adzuna with the API credentials, the RemoteOK feed and the We Work Remotely
 * RSS feed, each producing normalised jobs.
 *
 * The answers of the network are parameters: the Adzuna API maps a request
 * to the decoded `results` list (`None` for an error status, which
 * `raise_for_status` turns into an exception), the RemoteOK API is the decoded
 * top-level list (or `None`), and the RSS feed is the list of entries that
 * `feedparser.parse` gives (it reports no error of its own). Date parsing is
 * not modelled: each item carries its parsed timestamp, or `None`.
 *
 * The board's own normalize.py is not part of this model; its `clean_ws`,
 * `origin_domain` and `JobNorm` are taken to be the backend's, modelled in
 * module Normalize.
 */
module Sources {
  import opened Wrappers
  import opened Strings
  import opened Seqs
  import opened Normalize
  import Urls

  /** The length of `description_snippet`, `desc[:300]`. */
  const SnippetLength: nat := 300

  // ---------------------------------------------------------------- Adzuna

  /** One request to `{ADZUNA_BASE}/{country}/search/{page}` with its query parameters. */
  datatype AdzunaRequest = AdzunaRequest(
    country: string,
    page: nat,
    appId: string,
    appKey: string,
    what: string,
    where: Option<string>,
    resultsPerPage: int)

  /**
   * A result. The `display_name` of `company` and `location`, the `label` of
   * `category` and the `id` are given as `str()` renders them (`None` when
   * missing); `postedAt` is the parsed `created` or `created_at`.
   */
  datatype AdzunaItem = AdzunaItem(
    title: Option<string>,
    companyName: Option<string>,
    locationName: Option<string>,
    description: Option<string>,
    redirectUrl: Option<string>,
    adref: Option<string>,
    url: Option<string>,
    adzunaUrl: Option<string>,
    contractTime: Option<string>,
    category: Option<string>,
    id: Option<string>,
    postedAt: Option<int>)

  /** `range(1, pages + 1)`: no page at all when `pages` is below one. */
  function AdzunaPages(pages: int): (r: seq<nat>)
    ensures pages <= 0 ==> r == []
    ensures pages > 0 ==> |r| == pages
    ensures forall i :: 0 <= i < |r| ==> r[i] == i + 1
  {
    seq(if pages > 0 then pages else 0, i => i + 1)
  }

  /** The parameters of one page's request; `where` is sent only when truthy. */
  function AdzunaRequestOf(country: string, page: nat, appId: string, appKey: string, what: string, where: Option<string>, resultsPerPage: int): (r: AdzunaRequest)
    ensures r.page == page && r.appId == appId && r.appKey == appKey && r.what == what
    ensures r.where.Some? <==> Truthy(where)
  {
    AdzunaRequest(country, page, appId, appKey, what, if Truthy(where) then where else None, resultsPerPage)
  }

  /** The first truthy of `redirect_url`, `adref`, `url` and `adzuna_url`, or `""`. */
  function AdzunaLink(j: AdzunaItem): string {
    OrElse(j.redirectUrl, OrElse(j.adref, OrElse(j.url, OrElse(j.adzunaUrl, ""))))
  }

  /** The remote heuristic: "remote" in the title, the location before its default, or the description. */
  predicate MentionsRemote(title: string, location: string, desc: string) {
    Contains(Lower(title), "remote") || Contains(Lower(location), "remote") || Contains(Lower(desc), "remote")
  }

  /** The normalised job of one result. */
  function AdzunaRecord(j: AdzunaItem): (r: JobNorm)
    ensures r.source == "adzuna" && r.title != "" && r.company != "" && r.location != ""
    ensures CleanWs(j.title) != "" ==> r.title == CleanWs(j.title)
    ensures CleanWs(j.title) == "" ==> r.title == "Unknown"
    ensures CleanWs(j.companyName) != "" ==> r.company == CleanWs(j.companyName)
    ensures CleanWs(j.companyName) == "" ==> r.company == "Unknown"
    ensures CleanWs(Some(OrElse(j.locationName, ""))) != "" ==> r.location == CleanWs(Some(OrElse(j.locationName, "")))
    ensures CleanWs(Some(OrElse(j.locationName, ""))) == "" ==> r.location == "US"
    ensures r.remote <==> MentionsRemote(CleanWs(j.title), CleanWs(Some(OrElse(j.locationName, ""))),
                                         CleanWs(Some(OrElse(j.description, ""))))
    ensures r.snippet == Take(CleanWs(Some(OrElse(j.description, ""))), SnippetLength)
    ensures r.sourceJobId == j.id && r.postedAt == j.postedAt
    ensures r.applyUrl == CleanWs(Some(AdzunaLink(j))) && r.originDomain == OriginDomain(Some(r.applyUrl))
    ensures |r.snippet| <= SnippetLength
    ensures r.contract <==> Contains(Lower(OrElse(j.contractTime, "")), "contract")
    ensures |r.tags| <= 1 && (r.tags != [] <==> Truthy(j.category))
    ensures Truthy(j.category) ==> r.tags == [CleanWs(j.category)]
  {
    var title := CleanWs(j.title);
    var company := CleanWs(j.companyName);
    var location := CleanWs(Some(OrElse(j.locationName, "")));
    var desc := CleanWs(Some(OrElse(j.description, "")));
    var applyUrl := CleanWs(Some(AdzunaLink(j)));
    JobNorm(
      source := "adzuna",
      sourceJobId := j.id,
      title := if title != "" then title else "Unknown",
      company := if company != "" then company else "Unknown",
      location := if location != "" then location else "US",
      remote := MentionsRemote(title, location, desc),
      contract := Contains(Lower(OrElse(j.contractTime, "")), "contract"),
      postedAt := j.postedAt,
      applyUrl := applyUrl,
      originDomain := OriginDomain(Some(applyUrl)),
      snippet := Take(desc, SnippetLength),
      tags := if Truthy(j.category) then [CleanWs(j.category)] else [])
  }

  function AdzunaFails(api: AdzunaRequest -> Option<seq<AdzunaItem>>, country: string, appId: string, appKey: string,
                       what: string, where: Option<string>, resultsPerPage: int): nat -> bool {
    (page: nat) => api(AdzunaRequestOf(country, page, appId, appKey, what, where, resultsPerPage)).None?
  }

  function AdzunaPageJobs(api: AdzunaRequest -> Option<seq<AdzunaItem>>, country: string, appId: string, appKey: string,
                          what: string, where: Option<string>, resultsPerPage: int): nat -> seq<JobNorm> {
    (page: nat) => match api(AdzunaRequestOf(country, page, appId, appKey, what, where, resultsPerPage))
      case None => []
      case Some(items) => FilterMap(items, Total(AdzunaRecord))
  }

  /** The message of the error raised when a credential is missing. */
  const AdzunaCredentialsMessage: string := "Missing ADZUNA_APP_ID or ADZUNA_APP_KEY"

  /**
   * The output of `fetch_adzuna`: the credentials error when either
   * variable is unset or empty; else the HTTP error of the first page answered
   * with an error status; else the jobs of pages `1..pages`, in order.
   */
  function AdzunaFetched(appIdEnv: Option<string>, appKeyEnv: Option<string>, country: string, what: string,
                         where: Option<string>, pages: int, resultsPerPage: int,
                         api: AdzunaRequest -> Option<seq<AdzunaItem>>): Result<seq<JobNorm>, string>
  {
    if !Truthy(appIdEnv) || !Truthy(appKeyEnv) then Err(AdzunaCredentialsMessage)
    else
      var ns := AdzunaPages(pages);
      var fails := AdzunaFails(api, country, appIdEnv.value, appKeyEnv.value, what, where, resultsPerPage);
      if FirstIndex(ns, fails) < |ns| then Err(HttpErrorStatus)
      else Ok(ConcatMap(ns, AdzunaPageJobs(api, country, appIdEnv.value, appKeyEnv.value, what, where, resultsPerPage)))
  }

  method FetchAdzuna(appIdEnv: Option<string>, appKeyEnv: Option<string>, country: string, what: string,
                     where: Option<string>, pages: int, resultsPerPage: int,
                     api: AdzunaRequest -> Option<seq<AdzunaItem>>) returns (r: Result<seq<JobNorm>, string>)
    ensures r == AdzunaFetched(appIdEnv, appKeyEnv, country, what, where, pages, resultsPerPage, api)
  {
    if appIdEnv.None? || appIdEnv.value == "" || appKeyEnv.None? || appKeyEnv.value == "" {
      return Err(AdzunaCredentialsMessage);
    }
    var appId := appIdEnv.value;
    var appKey := appKeyEnv.value;
    // the page loop, each page's results appended in order
    var out, failed := ConcatUntil(AdzunaPages(pages),
      AdzunaFails(api, country, appId, appKey, what, where, resultsPerPage),
      AdzunaPageJobs(api, country, appId, appKey, what, where, resultsPerPage));
    if failed {
      return Err(HttpErrorStatus);
    }
    return Ok(out);
  }

  /** An unset or empty credential fails the run before any request. */
  lemma AdzunaMissingCredentials(appIdEnv: Option<string>, appKeyEnv: Option<string>, country: string, what: string,
                                 where: Option<string>, pages: int, resultsPerPage: int,
                                 api: AdzunaRequest -> Option<seq<AdzunaItem>>)
    ensures AdzunaFetched(appIdEnv, appKeyEnv, country, what, where, pages, resultsPerPage, api).Err?
         <== !Truthy(appIdEnv) || !Truthy(appKeyEnv)
  {
  }

  /** With credentials and a page count below one the run makes no request and returns nothing. */
  lemma AdzunaNoPages(appIdEnv: Option<string>, appKeyEnv: Option<string>, country: string, what: string,
                      where: Option<string>, pages: int, resultsPerPage: int,
                      api: AdzunaRequest -> Option<seq<AdzunaItem>>)
    requires Truthy(appIdEnv) && Truthy(appKeyEnv) && pages <= 0
    ensures AdzunaFetched(appIdEnv, appKeyEnv, country, what, where, pages, resultsPerPage, api) == Ok([])
  {
  }

  /** Every returned job converts a result of one of the pages `1..pages`, asked with the given credentials. */
  lemma AdzunaFetchedSound(appIdEnv: Option<string>, appKeyEnv: Option<string>, country: string, what: string,
                           where: Option<string>, pages: int, resultsPerPage: int,
                           api: AdzunaRequest -> Option<seq<AdzunaItem>>, d: JobNorm)
    requires AdzunaFetched(appIdEnv, appKeyEnv, country, what, where, pages, resultsPerPage, api).Ok?
    requires d in AdzunaFetched(appIdEnv, appKeyEnv, country, what, where, pages, resultsPerPage, api).value
    ensures Truthy(appIdEnv) && Truthy(appKeyEnv)
    ensures exists page: nat :: 1 <= page <= pages && d in AdzunaPageJobs(api, country, appIdEnv.value, appKeyEnv.value, what, where, resultsPerPage)(page)
  {
    var ns := AdzunaPages(pages);
    var i := ConcatMapMember(ns, AdzunaPageJobs(api, country, appIdEnv.value, appKeyEnv.value, what, where, resultsPerPage), d);
    assert ns[i] == i + 1;
  }

  /** A page's jobs are exactly its results, converted in order. */
  lemma AdzunaPageInOrder(api: AdzunaRequest -> Option<seq<AdzunaItem>>, req: AdzunaRequest, i: nat)
    requires req.where.None? || Truthy(req.where)
    requires api(req).Some? && i < |api(req).value|
    ensures var rs := AdzunaPageJobs(api, req.country, req.appId, req.appKey, req.what, req.where, req.resultsPerPage)(req.page);
      |rs| == |api(req).value| && rs[i] == AdzunaRecord(api(req).value[i])
  {
    assert AdzunaRequestOf(req.country, req.page, req.appId, req.appKey, req.what, req.where, req.resultsPerPage) == req;
    FilterMapIndex(api(req).value, Total(AdzunaRecord), i);
  }

  /** A blank category still yields one tag, the empty string: only a missing or empty label yields none. */
  lemma AdzunaBlankCategory(j: AdzunaItem)
    requires j.category == Some(" ")
    ensures AdzunaRecord(j).tags == [""]
  {
  }

  // -------------------------------------------------------------- RemoteOK

  /**
   * An element of the feed: an object, or anything else. `hasPosition` says
   * whether the object has the key `position` at all; `id` is given as `str()`
   * renders it (`None` when missing or null).
   */
  datatype RemoteOkEntry =
    | NotAnObject
    | RemoteOkEntry(
        hasPosition: bool,
        position: Option<string>,
        company: Option<string>,
        location: Option<string>,
        tags: seq<string>,
        applyUrl: Option<string>,
        url: Option<string>,
        description: Option<string>,
        id: Option<string>,
        postedAt: Option<int>)

  /** `t.lower() in ("contract", "freelance")`. */
  predicate IsContractTag(t: string) {
    Lower(t) == "contract" || Lower(t) == "freelance"
  }

  /** `clean_ws(location or "Remote")`. */
  function RemoteOkLocation(location: Option<string>): string {
    CleanWs(Some(OrElse(location, "Remote")))
  }

  /** `any(t.lower() in ("contract", "freelance") for t in tags)`. */
  predicate HasContractTag(tags: seq<string>) {
    exists k :: 0 <= k < |tags| && IsContractTag(tags[k])
  }

  /** The normalised job of an object with a `position` key. */
  function RemoteOkRecord(e: RemoteOkEntry): (r: JobNorm)
    requires e.RemoteOkEntry?
    ensures r.source == "remoteok" && r.remote && r.title != "" && r.company != ""
    ensures CleanWs(e.position) != "" ==> r.title == CleanWs(e.position)
    ensures CleanWs(e.position) == "" ==> r.title == "Unknown"
    ensures CleanWs(e.company) != "" ==> r.company == CleanWs(e.company)
    ensures CleanWs(e.company) == "" ==> r.company == "Unknown"
    ensures Truthy(e.applyUrl) ==> r.applyUrl == CleanWs(e.applyUrl)
    ensures !Truthy(e.applyUrl) ==> r.applyUrl == CleanWs(Some(OrElse(e.url, "")))
    ensures r.snippet == Take(CleanWs(Some(OrElse(e.description, ""))), SnippetLength)
    ensures r.sourceJobId == e.id && r.postedAt == e.postedAt
    ensures r.location == RemoteOkLocation(e.location)
    ensures r.tags == CleanedTags(e.tags) && r.contract == HasContractTag(r.tags)
    ensures r.originDomain == OriginDomain(Some(r.applyUrl)) && |r.snippet| <= SnippetLength
  {
    var title := CleanWs(e.position);
    var company := CleanWs(e.company);
    var tags := CleanedTags(e.tags);
    var applyUrl := CleanWs(Some(OrElse(e.applyUrl, OrElse(e.url, ""))));
    var desc := CleanWs(Some(OrElse(e.description, "")));
    JobNorm(
      source := "remoteok",
      sourceJobId := e.id,
      title := if title != "" then title else "Unknown",
      company := if company != "" then company else "Unknown",
      location := RemoteOkLocation(e.location),
      remote := true,
      contract := HasContractTag(tags),
      postedAt := e.postedAt,
      applyUrl := applyUrl,
      originDomain := OriginDomain(Some(applyUrl)),
      snippet := Take(desc, SnippetLength),
      tags := tags)
  }

  /** Objects with a `position` key are converted; anything else is skipped. */
  function RemoteOkKept(e: RemoteOkEntry): (r: Option<JobNorm>)
    ensures r.Some? <==> e.RemoteOkEntry? && e.hasPosition
  {
    if e.RemoteOkEntry? && e.hasPosition then Some(RemoteOkRecord(e)) else None
  }

  /** The output of `fetch_remoteok`: the HTTP error, or the jobs of every object with a `position`. */
  function RemoteOkFetched(api: Option<seq<RemoteOkEntry>>): Result<seq<JobNorm>, string> {
    if api.None? then Err(HttpErrorStatus) else Ok(FilterMap(api.value, RemoteOkKept))
  }

  method FetchRemoteOk(api: Option<seq<RemoteOkEntry>>) returns (r: Result<seq<JobNorm>, string>)
    ensures r == RemoteOkFetched(api)
  {
    if api.None? {
      return Err(HttpErrorStatus);
    }
    // the item loop, skipping non-objects and objects without `position`
    var out := SelectAll(api.value, RemoteOkKept);
    return Ok(out);
  }

  /** Every returned job converts an object of the feed that has a `position` key ... */
  lemma RemoteOkFetchedSound(entries: seq<RemoteOkEntry>, d: JobNorm)
    requires d in RemoteOkFetched(Some(entries)).value
    ensures exists e :: e in entries && e.RemoteOkEntry? && e.hasPosition && d == RemoteOkRecord(e)
  {
    var k := FilterMapSource(entries, RemoteOkKept, d);
    assert entries[k] in entries;
  }

  /** ... and every such object is converted. */
  lemma RemoteOkFetchedComplete(entries: seq<RemoteOkEntry>, i: nat)
    requires i < |entries| && entries[i].RemoteOkEntry? && entries[i].hasPosition
    ensures RemoteOkRecord(entries[i]) in RemoteOkFetched(Some(entries)).value
  {
    FilterMapMember(entries, RemoteOkKept, RemoteOkRecord(entries[i]));
  }

  /** An object without a truthy `location` is placed at "Remote". */
  lemma RemoteOkDefaultLocation(location: Option<string>)
    requires !Truthy(location)
    ensures RemoteOkLocation(location) == "Remote"
  {
    var r := OrElse(location, "Remote");
    assert r == "Remote";
    assert r[0] == 'R' && r[1] == 'e' && r[2] == 'm' && r[3] == 'o' && r[4] == 't' && r[5] == 'e';
    assert forall k :: 0 <= k < |r| ==> !IsSpace(r[k]);
    CleanWsNoSpace(r);
  }

  /** A tag that cleans to "contract" or "freelance", in any letter case, marks the job as a contract. */
  lemma RemoteOkContractTag(e: RemoteOkEntry, i: nat)
    requires e.RemoteOkEntry? && i < |e.tags| && IsContractTag(CleanWs(Some(e.tags[i])))
    ensures RemoteOkRecord(e).contract
  {
    var tags := CleanedTags(e.tags);
    var t := CleanWs(Some(e.tags[i]));
    CleanedTagsMember(e.tags, i);
    var k :| 0 <= k < |tags| && tags[k] == t;
    assert IsContractTag(tags[k]);
  }

  /** A tag whose cleaned form is non-empty is kept, cleaned. */
  lemma {:induction false} CleanedTagsMember(tags: seq<string>, i: nat)
    requires i < |tags| && CleanWs(Some(tags[i])) != ""
    ensures CleanWs(Some(tags[i])) in CleanedTags(tags)
    decreases |tags|
  {
    var c := CleanWs(Some(tags[0]));
    var rest := CleanedTags(tags[1..]);
    assert CleanedTags(tags) == (if c != "" then [c] else []) + rest;
    if i > 0 {
      TailIndex(tags, i);
      CleanedTagsMember(tags[1..], i - 1);
    }
  }

  // ------------------------------------------------------- We Work Remotely

  /** An entry of the RSS feed; `postedAt` is the parsed `published` value. */
  datatype RssEntry = RssEntry(
    title: Option<string>,
    link: Option<string>,
    summary: Option<string>,
    id: Option<string>,
    postedAt: Option<int>)

  /**
   * Whether `s` starts with a match of `<[^>]+>`: a `<`, at least one
   * character other than `>`, then `>`.
   */
  predicate IsTagAt(s: string) {
    |s| >= 3 && s[0] == '<' && 1 <= Urls.IndexOf(s[1..], '>') < |s| - 1
  }

  /** The length of the tag `s` starts with. */
  function TagLength(s: string): (r: nat)
    requires IsTagAt(s)
    ensures 3 <= r <= |s| && s[r - 1] == '>'
    ensures forall k :: 1 <= k < r - 1 ==> s[k] != '>'
  {
    Urls.IndexOf(s[1..], '>') + 2
  }

  /** `re.sub(r"<[^>]+>", " ", s)`: every tag, scanning from the left, becomes one space. */
  function StripTags(s: string): (r: string)
    ensures |r| <= |s|
    decreases |s|
  {
    if s == [] then []
    else if IsTagAt(s) then " " + StripTags(s[TagLength(s)..])
    else [s[0]] + StripTags(s[1..])
  }

  /** Text without `<` is left as it is. */
  lemma {:induction false} StripTagsPlain(s: string)
    requires '<' !in s
    ensures StripTags(s) == s
    decreases |s|
  {
    if s != [] {
      StripTagsPlain(s[1..]);
    }
  }

  /** Removing tags adds no `>`. */
  lemma {:induction false} StripTagsKeepsOutClose(s: string)
    requires '>' !in s
    ensures '>' !in StripTags(s)
    decreases |s|
  {
    if s != [] {
      assert '>' !in s[1..];
      StripTagsKeepsOutClose(s[1..]);
    }
  }

  /** Stripping tags is idempotent: its output holds no tag. */
  lemma {:induction false} StripTagsIdempotent(s: string)
    ensures StripTags(StripTags(s)) == StripTags(s)
    decreases |s|
  {
    if s == [] {
    } else if IsTagAt(s) {
      var rest := StripTags(s[TagLength(s)..]);
      StripTagsIdempotent(s[TagLength(s)..]);
      assert (" " + rest)[1..] == rest;
    } else if s[0] != '<' {
      var rest := StripTags(s[1..]);
      StripTagsIdempotent(s[1..]);
      assert ([s[0]] + rest)[1..] == rest;
    } else {
      var rest := StripTags(s[1..]);
      StripTagsIdempotent(s[1..]);
      var out := "<" + rest;
      assert out[1..] == rest;
      assert !IsTagAt(out) by {
        var k := Urls.IndexOf(s[1..], '>');
        if k < |s[1..]| {
          // `<>`: the `>` right after `<` survives at the head of the rest
          assert k == 0 && s[1] == '>';
          assert rest[0] == '>';
          assert Urls.IndexOf(rest, '>') == 0;
        } else {
          // no `>` after the `<`, none in the rest either
          assert '>' !in s[1..];
          StripTagsKeepsOutClose(s[1..]);
          assert Urls.IndexOf(rest, '>') == |rest|;
        }
      }
    }
  }

  /** A leading tag `<inner>` becomes one space. */
  lemma StripTagsLeadingTag(inner: string, rest: string)
    requires inner != [] && '>' !in inner
    ensures StripTags("<" + inner + ">" + rest) == " " + StripTags(rest)
  {
    var s := "<" + inner + ">" + rest;
    assert s[1..][..|inner|] == inner && s[1..][|inner|] == '>';
    IndexOfFirst(s[1..], inner, '>');
    assert IsTagAt(s) && TagLength(s) == |inner| + 2;
    assert s[|inner| + 2..] == rest;
  }

  /** Text without `<` in front of the rest is kept as it is. */
  lemma {:induction false} StripTagsPlainThen(text: string, rest: string)
    requires '<' !in text
    ensures StripTags(text + rest) == text + StripTags(rest)
    decreases |text|
  {
    if text != [] {
      var s := text + rest;
      assert s[0] == text[0] && !IsTagAt(s);
      assert s[1..] == text[1..] + rest;
      StripTagsPlainThen(text[1..], rest);
      assert [text[0]] + text[1..] == text;
    } else {
      assert text + rest == rest;
    }
  }

  /** Plain text followed by a closing tag keeps the text and turns the tag into a space. */
  lemma StripTagsTrailingTag(text: string, close: string)
    requires close != [] && '>' !in close && '<' !in text
    ensures StripTags(text + ("<" + close + ">")) == text + " "
  {
    var closing := "<" + close + ">";
    var empty: string := [];
    StripTagsPlainThen(text, closing);
    assert closing == closing + empty;
    StripTagsLeadingTag(close, empty);
  }

  /** An element around plain text, such as `<p>text</p>`, loses its two tags, each becoming a space. */
  lemma StripTagsElement(open: string, text: string, close: string)
    requires open != [] && '>' !in open && close != [] && '>' !in close
    requires '<' !in text
    ensures StripTags("<" + open + ">" + text + "<" + close + ">") == " " + text + " "
  {
    var tail := text + ("<" + close + ">");
    assert "<" + open + ">" + text + "<" + close + ">" == "<" + open + ">" + tail;
    StripTagsLeadingTag(open, tail);
    StripTagsTrailingTag(text, close);
    assert " " + (text + " ") == " " + text + " ";
  }

  /**
   * `"Company: Role"`: the cleaned text before the first `:` is the company
   * and the cleaned text after it the title; without a `:` the company is
   * `"Unknown"` and the title is the whole cleaned title.
   */
  function SplitTitle(titleRaw: string): (r: (string, string))
    ensures ':' !in titleRaw ==> r == ("Unknown", titleRaw)
    ensures ':' in titleRaw ==> ':' !in r.0
    ensures ':' in titleRaw ==>
      exists i :: (0 <= i < |titleRaw| && titleRaw[i] == ':' && ':' !in titleRaw[..i] &&
                   r == (CleanWs(Some(titleRaw[..i])), CleanWs(Some(titleRaw[i + 1..]))))
  {
    var i := Urls.IndexOf(titleRaw, ':');
    if i < |titleRaw| then
      CleanWsKeepsOut(Some(titleRaw[..i]), ':');
      (CleanWs(Some(titleRaw[..i])), CleanWs(Some(titleRaw[i + 1..])))
    else ("Unknown", titleRaw)
  }

  /** The split undoes writing `company + ": " + role` for clean parts and a company without `:`. */
  lemma SplitTitleRoundTrip(company: string, role: string)
    requires ':' !in company && WsNormal(company) && WsNormal(role)
    ensures SplitTitle(company + ": " + role) == (company, role)
  {
    var t := company + ": " + role;
    assert t[..|company|] == company;
    IndexOfFirst(t, company, ':');
    assert t[|company| + 1..] == " " + role;
    assert SplitTitle(t) == (CleanWs(Some(company)), CleanWs(Some(" " + role)));
    CleanWsNormalFixed(company);
    CleanWsLeadingSpace(role);
  }

  /** The first `c` of `prefix + [c] + rest` is right after a `c`-free prefix. */
  lemma IndexOfFirst(t: string, prefix: string, c: char)
    requires c !in prefix && |prefix| < |t| && t[..|prefix|] == prefix && t[|prefix|] == c
    ensures Urls.IndexOf(t, c) == |prefix|
  {
    assert forall k :: 0 <= k < |prefix| ==> t[k] == prefix[k];
  }

  /** One leading space before clean text is dropped by `clean_ws`. */
  lemma CleanWsLeadingSpace(s: string)
    requires WsNormal(s)
    ensures CleanWs(Some(" " + s)) == s
  {
    var t := " " + s;
    assert LStrip(t) == s by { assert t[1..] == s; }
    assert CollapseWs(t) == t by { CollapseWsNormal(s); }
    assert Strip(t) == s by { StripTrimmed(s); }
  }

  /** The normalised job of an RSS entry. */
  function WwrRecord(e: RssEntry): (r: JobNorm)
    ensures r.source == "wwr" && r.location == "Remote" && r.remote && !r.contract && r.tags == []
    ensures r.title != "" && r.company != "" && r.postedAt == e.postedAt
    ensures r.applyUrl == CleanWs(e.link) && r.originDomain == OriginDomain(Some(r.applyUrl))
    ensures r.sourceJobId.None? <==> CleanWs(Some(OrElse(e.id, CleanWs(e.link)))) == ""
    ensures SplitTitle(CleanWs(Some(OrElse(e.title, "")))).0 != "" ==> r.company == SplitTitle(CleanWs(Some(OrElse(e.title, "")))).0
    ensures SplitTitle(CleanWs(Some(OrElse(e.title, "")))).0 == "" ==> r.company == "Unknown"
    ensures SplitTitle(CleanWs(Some(OrElse(e.title, "")))).1 != "" ==> r.title == SplitTitle(CleanWs(Some(OrElse(e.title, "")))).1
    ensures SplitTitle(CleanWs(Some(OrElse(e.title, "")))).1 == "" ==> r.title == "Unknown"
    ensures |r.snippet| <= SnippetLength
    ensures r.snippet == Take(CleanWs(Some(StripTags(OrElse(e.summary, "")))), SnippetLength)
  {
    var titleRaw := CleanWs(Some(OrElse(e.title, "")));
    var link := CleanWs(Some(OrElse(e.link, "")));
    var text := CleanWs(Some(StripTags(OrElse(e.summary, ""))));
    var (company, title) := SplitTitle(titleRaw);
    var jobId := CleanWs(Some(OrElse(e.id, link)));
    JobNorm(
      source := "wwr",
      sourceJobId := if jobId != "" then Some(jobId) else None,
      title := if title != "" then title else "Unknown",
      company := if company != "" then company else "Unknown",
      location := "Remote",
      remote := true,
      contract := false,
      postedAt := e.postedAt,
      applyUrl := link,
      originDomain := OriginDomain(Some(link)),
      snippet := Take(text, SnippetLength),
      tags := [])
  }

  /** The output of `fetch_wwr_rss`: one job per feed entry, in order. */
  function WwrFetched(entries: seq<RssEntry>): seq<JobNorm> {
    FilterMap(entries, Total(WwrRecord))
  }

  method FetchWwrRss(entries: seq<RssEntry>) returns (r: seq<JobNorm>)
    ensures r == WwrFetched(entries)
  {
    r := SelectAll(entries, Total(WwrRecord));
  }

  /** The feed's i-th entry becomes the i-th job. */
  lemma WwrFetchedInOrder(entries: seq<RssEntry>, i: nat)
    requires i < |entries|
    ensures |WwrFetched(entries)| == |entries| && WwrFetched(entries)[i] == WwrRecord(entries[i])
  {
    FilterMapIndex(entries, Total(WwrRecord), i);
  }

  /** An entry titled `"Company: Role"` with clean parts gives that company and role. */
  lemma WwrRecordSplitsTitle(e: RssEntry, company: string, role: string)
    requires ':' !in company && WsNormal(company) && WsNormal(role) && company != "" && role != ""
    requires e.title == Some(company + ": " + role)
    ensures WwrRecord(e).company == company && WwrRecord(e).title == role
  {
    var t := company + ": " + role;
    CleanWsNormalFixed(t) by { ColonJoinNormal(company, role); }
    SplitTitleRoundTrip(company, role);
  }

  /** `company + ": " + role` is clean when both parts are clean and non-empty. */
  lemma ColonJoinNormal(company: string, role: string)
    requires WsNormal(company) && WsNormal(role) && company != "" && role != ""
    ensures WsNormal(company + ": " + role)
  {
    var t := company + ": " + role;
    forall k | 0 <= k < |t| - 1
      ensures !(IsSpace(t[k]) && IsSpace(t[k + 1]))
    {
      if k < |company| - 1 {
        assert t[k] == company[k] && t[k + 1] == company[k + 1];
      } else if k >= |company| + 2 {
        assert t[k] == role[k - |company| - 2] && t[k + 1] == role[k - |company| - 1];
      }
    }
  }
}
