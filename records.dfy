/**
 * The job dictionary the backend's `fetch_*` adapters return, and the rules the
 * adapters share: Python's `x or default` idioms, the ellipsised 300-character
 * snippet and the case-insensitive query match of `_matches_query`.
 */
module Records {
  import opened Wrappers
  import opened Strings

  /** A JSON value the adapters test with `isinstance(v, str)`; anything else only has a truthiness. */
  datatype Val = VStr(s: string) | VOther(truthy: bool)

  predicate ValTruthy(v: Option<Val>) {
    match v
    case None => false
    case Some(VStr(s)) => s != ""
    case Some(VOther(t)) => t
  }

  /**
   * The dictionary an adapter emits. `sourceJobId` is always a string; `url`,
   * `applyUrl`, `description` and `snippet` are `None` where the adapter writes
   * Python `None`.
   */
  datatype JobDict = JobDict(
    source: string,
    sourceJobId: string,
    title: string,
    company: string,
    location: Option<string>,
    remote: bool,
    contract: bool,
    tags: seq<string>,
    url: Option<string>,
    applyUrl: Option<string>,
    originDomain: Option<string>,
    description: Option<string>,
    snippet: Option<string>,
    postedAt: Option<int>)

  // ------------------------------------------------------------ `or` idioms

  /** `s or d` for a string that is always present. */
  function NonEmptyOr(s: string, d: string): (r: string)
    ensures d != "" ==> r != ""
    ensures s != "" ==> r == s
    ensures s == "" ==> r == d
  {
    if s == "" then d else s
  }

  /** `s or None`. */
  function NoneIfEmpty(s: string): (r: Option<string>)
    ensures r.None? <==> s == ""
    ensures r.Some? ==> r.value == s
  {
    if s == "" then None else Some(s)
  }

  /** `(o or "").strip() or None`. */
  function StripOrNone(o: Option<string>): (r: Option<string>)
    ensures r.Some? ==> r.value != "" && Trimmed(r.value)
    ensures !Truthy(o) ==> r.None?
    ensures Strip(OrElse(o, "")) == "" ==> r.None?
    ensures Strip(OrElse(o, "")) != "" ==> r == Some(Strip(OrElse(o, "")))
  {
    NoneIfEmpty(Strip(OrElse(o, "")))
  }

  // ---------------------------------------------------------------- snippet

  /** `(desc[:300] + "...") if len(desc) > 300 else desc`. */
  function Ellipsized(desc: string): (r: string)
    ensures |r| <= 303
    ensures |desc| > 300 ==> |r| == 303 && r[..300] == desc[..300] && r[300..] == "..."
    ensures |desc| <= 300 ==> r == desc
  {
    if |desc| > 300 then desc[..300] + "..." else desc
  }

  /** A snippet is already short enough: cutting it again changes nothing. */
  lemma EllipsizedIdempotent(desc: string)
    ensures Ellipsized(Ellipsized(desc)) == Ellipsized(desc)
  {
    var r := Ellipsized(desc);
    if |desc| > 300 {
      assert r[..300] + "..." == r[..300] + r[300..] == r;
    }
  }

  /** `(desc[:300] + "...") if len(desc) > 300 else (desc or None)`. */
  function SnippetOrNone(desc: string): (r: Option<string>)
    ensures r.None? <==> desc == ""
    ensures r.Some? ==> r.value == Ellipsized(desc)
  {
    if |desc| > 300 then Some(desc[..300] + "...") else NoneIfEmpty(desc)
  }

  // ------------------------------------------------------------ query match

  /** The stripped, lower-cased query. */
  function Needle(q: string): string {
    Lower(Strip(q))
  }

  /** `" ".join([title, company, location or "", description or "", " ".join(tags)])`. */
  function QueryHay(d: JobDict): string {
    Join(QueryFields(d), " ")
  }

  /** `_matches_query(job, q)` of the Greenhouse and Lever adapters. */
  predicate MatchesQuery(d: JobDict, q: string) {
    Needle(q) == "" || Contains(Lower(QueryHay(d)), Needle(q))
  }

  /** A blank or whitespace-only query keeps every job. */
  lemma MatchesBlankQuery(d: JobDict, q: string)
    requires Strip(q) == ""
    ensures MatchesQuery(d, q)
  {
  }

  /** The searched fields, in the order they are joined. */
  function QueryFields(d: JobDict): seq<string> {
    [d.title, d.company, OrElse(d.location, ""), OrElse(d.description, ""), Join(d.tags, " ")]
  }

  /**
   * The query is searched in every field: an occurrence in the lower-cased
   * title, company, location or description is a match ...
   */
  lemma MatchesQueryInField(d: JobDict, q: string, i: nat)
    requires i < 4 && Contains(Lower(QueryFields(d)[i]), Needle(q))
    ensures MatchesQuery(d, q)
  {
    var hay := QueryHay(d);
    JoinContainsPart(QueryFields(d), " ", i);
    LowerKeepsContains(hay, QueryFields(d)[i]);
    ContainsTrans(Lower(hay), Lower(QueryFields(d)[i]), Needle(q));
  }

  /** ... and so is an occurrence in any one tag. */
  lemma MatchesQueryInTag(d: JobDict, q: string, i: nat)
    requires i < |d.tags| && Contains(Lower(d.tags[i]), Needle(q))
    ensures MatchesQuery(d, q)
  {
    var hay := QueryHay(d);
    JoinContainsPart(d.tags, " ", i);
    JoinContainsPart(QueryFields(d), " ", 4);
    ContainsTrans(hay, Join(d.tags, " "), d.tags[i]);
    LowerKeepsContains(hay, d.tags[i]);
    ContainsTrans(Lower(hay), Lower(d.tags[i]), Needle(q));
  }
}
