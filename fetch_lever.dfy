/**
 * The Lever adapter (backend/app/ingest/fetch_lever.py). The postings API is a
 * parameter `postings`: for a slug it gives the decoded response, or `None` when
 * the request fails or answers with a status other than 200.
 */
module FetchLever {
  import opened Wrappers
  import opened Strings
  import opened Seqs
  import opened Records
  import Normalize

  /** A configured company, `{"name": ..., "lever": ...}`. */
  datatype Company = Company(name: Option<string>, lever: Option<string>)

  /**
   * The `categories` object of a posting; a missing or non-object value reads as
   * an object without keys. `location` is read with `.strip()`, so only a string
   * (or nothing) can stand there.
   */
  datatype Categories = Categories(team: Option<Val>, commitment: Option<Val>, location: Option<string>, department: Option<Val>)

  /** An element of the response list: a posting object, or anything else. `postedAt` is the converted `createdAt`. */
  datatype Posting =
    | NotAnObject
    | Posting(
        text: Option<string>,
        title: Option<string>,
        id: Option<string>,
        hostedUrl: Option<string>,
        categories: Categories,
        postedAt: Option<int>,
        descriptionPlain: Option<Val>,
        description: Option<Val>)

  /** The decoded response: a list of postings, or some other JSON value. */
  datatype Response = NotAList | Postings(items: seq<Posting>)

  /** `(c.get("lever") or "").strip()`. */
  function SlugOf(c: Company): string {
    Strip(OrElse(c.lever, ""))
  }

  /** `(c.get("name") or slug).strip()`. */
  function CompanyName(c: Company): string {
    Strip(OrElse(c.name, SlugOf(c)))
  }

  /** `v.strip()` for a string value whose stripped form is non-blank. */
  function StrTag(v: Option<Val>): Option<string> {
    match v
    case Some(VStr(s)) => if Strip(s) != "" then Some(Strip(s)) else None
    case _ => None
  }

  /** The category values in the order the adapter visits the keys. */
  function CategoryValues(c: Categories): seq<Option<Val>> {
    [c.team, c.commitment, if c.location.Some? then Some(VStr(c.location.value)) else None, c.department]
  }

  function Tags(c: Categories): (r: seq<string>)
    ensures |r| <= 4
  {
    FilterMap(CategoryValues(c), StrTag)
  }

  /** The tag loop `for key in ("team", "commitment", "location", "department")`. */
  method CollectTags(c: Categories) returns (tags: seq<string>)
    ensures tags == Tags(c)
  {
    var values := CategoryValues(c);
    tags := [];
    for i := 0 to |values|
      invariant tags == FilterMap(values[..i], StrTag)
    {
      FilterMapSnoc(values, i, StrTag);
      match values[i]
      case Some(VStr(v)) =>
        if Strip(v) != "" {
          tags := tags + [Strip(v)];
        }
      case _ =>
    }
    assert values[..|values|] == values;
  }

  /** `descriptionPlain or description or ""`, replaced by `""` when not a string. */
  function Description(plain: Option<Val>, html: Option<Val>): string {
    var v := if ValTruthy(plain) then plain else html;
    if ValTruthy(v) && v.value.VStr? then v.value.s else ""
  }

  /** `"contract" in " ".join(tags).lower()`. */
  predicate IsContract(tags: seq<string>) {
    Contains(Lower(Join(tags, " ")), "contract")
  }

  /** A tag that mentions "contract" in any letter case marks the posting as a contract. */
  lemma ContractFromTag(tags: seq<string>, i: nat)
    requires i < |tags| && Contains(Lower(tags[i]), "contract")
    ensures IsContract(tags)
  {
    JoinContainsPart(tags, " ", i);
    LowerKeepsContains(Join(tags, " "), tags[i]);
    ContainsTrans(Lower(Join(tags, " ")), Lower(tags[i]), "contract");
  }

  /** And nothing else does: without tags there is no contract. */
  lemma NoTagsNoContract()
    ensures !IsContract([])
  {
    assert Lower(Join([], " ")) == "";
    assert !IsPrefix("contract", "");
  }

  /** The job dictionary of a posting object. */
  function Record(company: string, j: Posting): (r: JobDict)
    requires j.Posting?
    ensures r.source == "lever" && r.company == company
    ensures r.title != "" && !r.remote
    ensures Truthy(j.text) && Strip(j.text.value) != "" ==> r.title == Strip(j.text.value)
    ensures !Truthy(j.text) && Truthy(j.title) && Strip(j.title.value) != "" ==> r.title == Strip(j.title.value)
    ensures Strip(OrElse(j.text, OrElse(j.title, ""))) == "" ==> r.title == "Unknown"
    ensures Strip(OrElse(j.categories.location, "")) == "" ==> r.location.None?
    ensures Strip(OrElse(j.categories.location, "")) != "" ==> r.location == Some(Strip(OrElse(j.categories.location, "")))
    ensures Strip(OrElse(j.hostedUrl, "")) == "" ==> r.url.None?
    ensures Strip(OrElse(j.hostedUrl, "")) != "" ==> r.url == Some(Strip(OrElse(j.hostedUrl, "")))
    ensures r.url == r.applyUrl
    ensures r.contract <==> IsContract(r.tags)
    ensures r.tags == Tags(j.categories)
    ensures r.description.None? <==> r.snippet.None?
    ensures r.description == NoneIfEmpty(Description(j.descriptionPlain, j.description))
    ensures r.snippet == SnippetOrNone(Description(j.descriptionPlain, j.description))
    ensures r.originDomain == Normalize.OriginDomain(r.url)
    ensures r.sourceJobId == OrElse(j.id, "")
  {
    var url := StripOrNone(j.hostedUrl);
    var desc := Description(j.descriptionPlain, j.description);
    var tags := Tags(j.categories);
    JobDict(
      source := "lever",
      sourceJobId := OrElse(j.id, ""),
      title := NonEmptyOr(Strip(OrElse(j.text, OrElse(j.title, ""))), "Unknown"),
      company := company,
      location := StripOrNone(j.categories.location),
      remote := false,
      contract := IsContract(tags),
      tags := tags,
      url := url,
      applyUrl := url,
      originDomain := Normalize.OriginDomain(url),
      description := NoneIfEmpty(desc),
      snippet := SnippetOrNone(desc),
      postedAt := j.postedAt)
  }

  /** The record of a posting object, kept only when it matches the query. */
  function Select(company: string, q: string, j: Posting): (r: Option<JobDict>)
    ensures j.NotAnObject? ==> r.None?
  {
    if j.NotAnObject? then None
    else
      var d := Record(company, j);
      if MatchesQuery(d, q) then Some(d) else None
  }

  function Selector(company: string, q: string): Posting -> Option<JobDict> {
    j => Select(company, q, j)
  }

  /** The job dictionary of a posting, with the tags collected by the adapter's loop. */
  method BuildRecord(company: string, j: Posting) returns (d: JobDict)
    requires j.Posting?
    ensures d == Record(company, j)
  {
    var tags := CollectTags(j.categories);
    var url := StripOrNone(j.hostedUrl);
    var desc := Description(j.descriptionPlain, j.description);
    d := JobDict(
      source := "lever",
      sourceJobId := OrElse(j.id, ""),
      title := NonEmptyOr(Strip(OrElse(j.text, OrElse(j.title, ""))), "Unknown"),
      company := company,
      location := StripOrNone(j.categories.location),
      remote := false,
      contract := Contains(Lower(Join(tags, " ")), "contract"),
      tags := tags,
      url := url,
      applyUrl := url,
      originDomain := Normalize.OriginDomain(url),
      description := NoneIfEmpty(desc),
      snippet := SnippetOrNone(desc),
      postedAt := j.postedAt);
  }

  /** What one company contributes: nothing for a blank slug, a failed request or a non-list response. */
  function CompanyRecords(c: Company, postings: string -> Option<Response>, q: string, limitPerCompany: int): (r: seq<JobDict>)
    ensures SlugOf(c) == "" ==> r == []
    ensures SlugOf(c) != "" && (postings(SlugOf(c)).None? || postings(SlugOf(c)).value.NotAList?) ==> r == []
    ensures |r| <= Cap(limitPerCompany)
  {
    var slug := SlugOf(c);
    if slug == "" then []
    else
      var response := postings(slug);
      if response.None? || response.value.NotAList? then []
      else
        var kept := FilterMap(response.value.items, Selector(CompanyName(c), q));
        Take(kept, Cap(limitPerCompany))
  }

  function Contribution(postings: string -> Option<Response>, q: string, limitPerCompany: int): Company -> seq<JobDict> {
    c => CompanyRecords(c, postings, q, limitPerCompany)
  }

  /** The output of `fetch_lever`: the companies' contributions in order. */
  function Fetched(companies: seq<Company>, postings: string -> Option<Response>, query: Option<string>, limitPerCompany: int): seq<JobDict> {
    ConcatMap(companies, Contribution(postings, OrElse(query, ""), limitPerCompany))
  }

  method FetchLever(companies: seq<Company>, postings: string -> Option<Response>, query: Option<string>, limitPerCompany: int)
    returns (out: seq<JobDict>)
    ensures out == Fetched(companies, postings, query, limitPerCompany)
  {
    out := [];
    var q := OrElse(query, "");
    for i := 0 to |companies|
      invariant out == ConcatMap(companies[..i], Contribution(postings, q, limitPerCompany))
    {
      ConcatMapSnoc(companies, i, Contribution(postings, q, limitPerCompany));
      var c := companies[i];
      var slug := Strip(OrElse(c.lever, ""));
      if slug == "" {
        continue;
      }
      var companyName := Strip(OrElse(c.name, slug));
      var response := postings(slug);
      if response.None? || response.value.NotAList? {
        continue;
      }
      // the posting loop, with `count += 1; if count >= limit_per_company: break`
      var items := response.value.items;
      var part := AppendSelected([], items, Selector(companyName, q), Cap(limitPerCompany));
      EmptyAppend(FilterMap(items, Selector(companyName, q)));
      out := out + part;
    }
    assert companies[..|companies|] == companies;
  }

  /** Each company contributes at most `max(1, limit_per_company)` records. */
  lemma FetchedBound(companies: seq<Company>, postings: string -> Option<Response>, query: Option<string>, limitPerCompany: int)
    ensures |Fetched(companies, postings, query, limitPerCompany)| <= |companies| * Cap(limitPerCompany)
  {
    var g := Contribution(postings, OrElse(query, ""), limitPerCompany);
    forall c | c in companies
      ensures |g(c)| <= Cap(limitPerCompany)
    {
      assert g(c) == CompanyRecords(c, postings, OrElse(query, ""), limitPerCompany);
    }
    ConcatMapBound(companies, g, Cap(limitPerCompany));
  }

  /** A kept posting matches the query and takes its contract flag from its tags. */
  lemma SelectSound(company: string, q: string, j: Posting, d: JobDict)
    requires Select(company, q, j) == Some(d)
    ensures j.Posting? && d.source == "lever" && MatchesQuery(d, q) && d.company == company
    ensures d.contract <==> IsContract(d.tags)
  {
  }

  /** A company's records are selected postings of a list response. */
  lemma CompanyRecordsSelected(c: Company, postings: string -> Option<Response>, q: string, limitPerCompany: int, d: JobDict)
    requires d in CompanyRecords(c, postings, q, limitPerCompany)
    ensures SlugOf(c) != "" && postings(SlugOf(c)).Some? && postings(SlugOf(c)).value.Postings?
    ensures d in FilterMap(postings(SlugOf(c)).value.items, Selector(CompanyName(c), q))
  {
  }

  /** A company's records come from its posting objects, match the query and take their contract flag from their tags. */
  lemma CompanyRecordsSound(c: Company, postings: string -> Option<Response>, q: string, limitPerCompany: int, d: JobDict)
    requires d in CompanyRecords(c, postings, q, limitPerCompany)
    ensures d.source == "lever" && MatchesQuery(d, q) && d.company == CompanyName(c) && SlugOf(c) != ""
    ensures d.contract <==> IsContract(d.tags)
  {
    CompanyRecordsSelected(c, postings, q, limitPerCompany, d);
    var items := postings(SlugOf(c)).value.items;
    var k := FilterMapSource(items, Selector(CompanyName(c), q), d);
    SelectSound(CompanyName(c), q, items[k], d);
  }

  /** Every record of the whole run satisfies the same, for one of the configured companies. */
  lemma FetchedSound(companies: seq<Company>, postings: string -> Option<Response>, query: Option<string>, limitPerCompany: int, d: JobDict)
    requires d in Fetched(companies, postings, query, limitPerCompany)
    ensures d.source == "lever" && MatchesQuery(d, OrElse(query, ""))
    ensures d.contract <==> IsContract(d.tags)
    ensures exists c :: c in companies && SlugOf(c) != "" && d.company == CompanyName(c)
  {
    var q := OrElse(query, "");
    var i := ConcatMapMember(companies, Contribution(postings, q, limitPerCompany), d);
    CompanyRecordsSound(companies[i], postings, q, limitPerCompany, d);
  }
}
