/**
 * The job listing of the backend API (backend/app/main.py): the filters that
 * `list_jobs` and `list_dashboard_jobs` put on the `jobs` table, as
 * predicates on a row under SQL's three-valued logic, and their composition.
 * The ordering by `created_at` is not modelled: the listing keeps the table's
 * order.
 */
module Api {
  import opened Wrappers
  import opened Strings
  import opened Seqs
  import opened JobTable
  import opened Rows

  // ------------------------------------------------------ exclude filters

  const TutoringPatterns: seq<string> := [
    "tutor", "tutoring", "teacher", "instructor", "trainer", "training", "bootcamp",
    "course", "academy", "education", "school", "university"]
  const InternPatterns: seq<string> := ["intern", "internship", "co-op", "coop"]
  const EntryPatterns: seq<string> := [
    "entry level", "entry-level", "new grad", "graduate", "jr", "junior", "trainee", "apprentice"]

  /** The texts of the enabled `ILIKE '%…%'` patterns: tutoring, then intern, then entry level. */
  function ExcludePatterns(excludeIntern: bool, excludeTutoring: bool, excludeEntry: bool): (r: seq<string>)
    ensures r == [] <==> !excludeIntern && !excludeTutoring && !excludeEntry
    ensures excludeTutoring ==> forall p :: p in TutoringPatterns ==> p in r
    ensures excludeIntern ==> forall p :: p in InternPatterns ==> p in r
    ensures excludeEntry ==> forall p :: p in EntryPatterns ==> p in r
    ensures forall p :: p in r <==>
      (excludeTutoring && p in TutoringPatterns) || (excludeIntern && p in InternPatterns) || (excludeEntry && p in EntryPatterns)
  {
    (if excludeTutoring then TutoringPatterns else [])
    + (if excludeIntern then InternPatterns else [])
    + (if excludeEntry then EntryPatterns else [])
  }

  /**
   * `or_(Job.title.ilike(p), Job.description.ilike(p), Job.tags.ilike(p))`: TRUE
   * when a non-NULL column holds the pattern, FALSE only when every column is
   * non-NULL and none holds it.
   */
  function PatternHit(row: JobRow, p: string): (r: Truth)
    ensures r == True <==>
      IContains(row.title, p) || (row.description.Some? && IContains(row.description.value, p))
      || (row.tags.Some? && IContains(row.tags.value, p))
    ensures r == False <==>
      row.description.Some? && row.tags.Some? && !IContains(row.title, p)
      && !IContains(row.description.value, p) && !IContains(row.tags.value, p)
  {
    Or(Or(ILike(Some(row.title), p), ILike(row.description, p)), ILike(row.tags, p))
  }

  /** The hits of every pattern, in order. */
  function Hits(row: JobRow, ps: seq<string>): (r: seq<Truth>)
    ensures |r| == |ps| && forall i :: 0 <= i < |ps| ==> r[i] == PatternHit(row, ps[i])
  {
    seq(|ps|, i requires 0 <= i < |ps| => PatternHit(row, ps[i]))
  }

  /** A pattern held, ignoring case, by the title, the description or the tags of a row with non-NULL columns. */
  predicate TextHit(row: JobRow, p: string)
    requires row.description.Some? && row.tags.Some?
  {
    IContains(row.title, p) || IContains(row.description.value, p) || IContains(row.tags.value, p)
  }

  /** The condition `apply_exclude_filters` adds: none when no flag is set, else `NOT or_(...)`. */
  predicate ExcludeKeeps(row: JobRow, excludeIntern: bool, excludeTutoring: bool, excludeEntry: bool) {
    var ps := ExcludePatterns(excludeIntern, excludeTutoring, excludeEntry);
    ps == [] || Kept(Not(AnyOf(Hits(row, ps))))
  }

  function ApplyExcludeFilters(rows: seq<JobRow>, excludeIntern: bool, excludeTutoring: bool, excludeEntry: bool): seq<JobRow> {
    Filter(rows, (row: JobRow) => ExcludeKeeps(row, excludeIntern, excludeTutoring, excludeEntry))
  }

  /** With every flag off the query is left as it is. */
  lemma ExcludeOff(rows: seq<JobRow>)
    ensures ApplyExcludeFilters(rows, false, false, false) == rows
  {
    FilterAll(rows, (row: JobRow) => ExcludeKeeps(row, false, false, false));
  }

  /** For a row with non-NULL columns the NOT of the disjunction is TRUE exactly when every pattern misses. */
  lemma NotAnyHitIff(row: JobRow, ps: seq<string>)
    requires row.description.Some? && row.tags.Some?
    ensures Kept(Not(AnyOf(Hits(row, ps)))) <==> forall i :: 0 <= i < |ps| ==> !TextHit(row, ps[i])
  {
    AnyOfFalse(Hits(row, ps));
  }

  /**
   * A row with non-NULL description and tags survives the exclusion exactly
   * when no enabled pattern occurs, ignoring case, in its title, description
   * or tags.
   */
  lemma ExcludeNonNull(row: JobRow, excludeIntern: bool, excludeTutoring: bool, excludeEntry: bool)
    requires row.description.Some? && row.tags.Some?
    ensures ExcludeKeeps(row, excludeIntern, excludeTutoring, excludeEntry) <==>
      forall p :: p in ExcludePatterns(excludeIntern, excludeTutoring, excludeEntry) ==> !TextHit(row, p)
  {
    NotAnyHitIff(row, ExcludePatterns(excludeIntern, excludeTutoring, excludeEntry));
  }

  /** A NULL description or NULL tags make the hit of a pattern TRUE or UNKNOWN, never FALSE ... */
  lemma NullNeverMisses(row: JobRow, ps: seq<string>)
    requires row.description.None? || row.tags.None?
    ensures ps != [] ==> !Kept(Not(AnyOf(Hits(row, ps))))
  {
    if ps != [] {
      AnyOfFalse(Hits(row, ps));
      assert Hits(row, ps)[0] != False;
    }
  }

  /**
   * ... so once any flag is set, a row survives the exclusion only if its
   * description and tags are both non-NULL: NOT UNKNOWN is UNKNOWN and
   * `WHERE` drops it, whatever the row's text.
   */
  lemma ExcludeNeedsColumns(row: JobRow, excludeIntern: bool, excludeTutoring: bool, excludeEntry: bool)
    requires excludeIntern || excludeTutoring || excludeEntry
    requires ExcludeKeeps(row, excludeIntern, excludeTutoring, excludeEntry)
    ensures row.description.Some? && row.tags.Some?
  {
    if row.description.None? || row.tags.None? {
      NullNeverMisses(row, ExcludePatterns(excludeIntern, excludeTutoring, excludeEntry));
    }
  }

  // ---------------------------------------------------------- role filter

  /** `ROLE_KEYWORDS.get(role)`. */
  function RoleKeywords(role: string): (r: Option<seq<string>>)
    ensures r.Some? <==> role in {"devops", "java", "dotnet"}
    ensures r.Some? ==> r.value != []
  {
    if role == "devops" then Some([
      "devops", "site reliability", "sre", "platform", "infrastructure",
      "cloud", "kubernetes", "k8s", "docker", "terraform", "ansible",
      "ci/cd", "jenkins", "github actions", "azure devops", "helm", "argo",
      "observability", "prometheus", "grafana", "splunk", "logging",
      "aws", "azure", "gcp", "eks", "aks"])
    else if role == "java" then Some([
      "java", "spring", "spring boot", "microservices", "hibernate",
      "kafka", "j2ee", "rest", "api", "backend", "maven", "gradle"])
    else if role == "dotnet" then Some([
      ".net", "dotnet", "c#", "asp.net", "asp.net core", "entity framework",
      "ef core", "azure", "web api", "mvc"])
    else None
  }

  /** `ROLE_EXCLUDES.get(role, [])`. */
  function RoleExcludes(role: string): (r: seq<string>)
    ensures RoleKeywords(role).Some? ==> r != []
  {
    if role == "devops" then ["teacher", "tutor", "instructor", "student", "working student"]
    else if role == "java" || role == "dotnet" then ["teacher", "tutor", "instructor"]
    else []
  }

  /** `role.lower().strip()`. */
  function RoleKey(role: string): string {
    Strip(Lower(role))
  }

  /**
   * The conditions `apply_role_filter` adds: none for a missing, empty or
   * unknown role; else some role keyword must hit and, when the role has
   * excludes, none of them may.
   */
  predicate RoleKeeps(row: JobRow, role: Option<string>) {
    if !Truthy(role) then true
    else
      var key := RoleKey(role.value);
      match RoleKeywords(key)
      case None => true
      case Some(kws) =>
        Kept(AnyOf(Hits(row, kws)))
        && (RoleExcludes(key) == [] || Kept(Not(AnyOf(Hits(row, RoleExcludes(key))))))
  }

  function ApplyRoleFilter(rows: seq<JobRow>, role: Option<string>): seq<JobRow> {
    Filter(rows, (row: JobRow) => RoleKeeps(row, role))
  }

  /** A missing or unknown role leaves the query as it is. */
  lemma RoleUnknown(rows: seq<JobRow>, role: Option<string>)
    requires !Truthy(role) || RoleKeywords(RoleKey(role.value)).None?
    ensures ApplyRoleFilter(rows, role) == rows
  {
    FilterAll(rows, (row: JobRow) => RoleKeeps(row, role));
  }

  /**
   * For a known role and a row with non-NULL columns: the row survives exactly
   * when some keyword of the role and no exclude of the role occurs in its
   * title, description or tags, ignoring case.
   */
  lemma RoleNonNull(row: JobRow, role: string)
    requires row.description.Some? && row.tags.Some?
    requires RoleKeywords(RoleKey(role)).Some?
    ensures RoleKeeps(row, Some(role)) <==>
      (exists kw :: kw in RoleKeywords(RoleKey(role)).value && TextHit(row, kw))
      && (forall ex :: ex in RoleExcludes(RoleKey(role)) ==> !TextHit(row, ex))
  {
    var key := RoleKey(role);
    var kws := RoleKeywords(key).value;
    var exs := RoleExcludes(key);
    assert RoleKeeps(row, Some(role)) == (Kept(AnyOf(Hits(row, kws))) && (exs == [] || Kept(Not(AnyOf(Hits(row, exs))))));
    IncludeExcludeIff(row, kws, exs);
  }

  /** Some include pattern hits and no exclude pattern does, for a row with non-NULL columns. */
  lemma IncludeExcludeIff(row: JobRow, kws: seq<string>, exs: seq<string>)
    requires row.description.Some? && row.tags.Some?
    ensures (Kept(AnyOf(Hits(row, kws))) && (exs == [] || Kept(Not(AnyOf(Hits(row, exs)))))) <==>
      (exists kw :: kw in kws && TextHit(row, kw)) && (forall ex :: ex in exs ==> !TextHit(row, ex))
  {
    AnyOfTrue(Hits(row, kws));
    NotAnyHitIff(row, exs);
    assert (forall i :: 0 <= i < |exs| ==> !TextHit(row, exs[i])) <==> (forall ex :: ex in exs ==> !TextHit(row, ex));
    if exists kw :: kw in kws && TextHit(row, kw) {
      var kw :| kw in kws && TextHit(row, kw);
      var i :| 0 <= i < |kws| && kws[i] == kw;
      assert Hits(row, kws)[i] == True;
    }
    if Kept(AnyOf(Hits(row, kws))) {
      var i :| 0 <= i < |kws| && Hits(row, kws)[i] == True;
      assert TextHit(row, kws[i]) && kws[i] in kws;
    }
  }

  /** A known role drops every row with a NULL description or NULL tags, as all three roles have excludes. */
  lemma RoleNeedsColumns(row: JobRow, role: string)
    requires RoleKeywords(RoleKey(role)).Some? && RoleKeeps(row, Some(role))
    ensures row.description.Some? && row.tags.Some?
  {
    if row.description.None? || row.tags.None? {
      NullNeverMisses(row, RoleExcludes(RoleKey(role)));
    }
  }

  // ------------------------------------------------------- common filters

  /** The query parameters of `list_jobs`; the exclude flags default to true. */
  datatype JobQuery = JobQuery(
    q: Option<string>,
    remote: Option<bool>,
    contract: Option<bool>,
    source: Option<string>,
    company: Option<string>,
    originDomain: Option<string>,
    onlyAts: Option<bool>,
    role: Option<string>,
    excludeIntern: bool,
    excludeTutoring: bool,
    excludeEntry: bool)

  /** The conditions `apply_common_filters` adds, one per parameter given. */
  predicate CommonKeeps(row: JobRow, p: JobQuery) {
    && (!Truthy(p.q) || Kept(QueryHit(row, p.q.value)))
    && (p.remote.None? || row.remote == p.remote.value)
    && (p.contract.None? || row.contract == p.contract.value)
    && (!Truthy(p.source) || row.source == p.source)
    && (!Truthy(p.company) || Kept(ILike(Some(row.company), p.company.value)))
    && (!Truthy(p.originDomain) || Kept(ILike(row.originDomain, p.originDomain.value)))
    && (p.onlyAts != Some(true) || row.source == Some("greenhouse") || row.source == Some("lever"))
  }

  function ApplyCommonFilters(rows: seq<JobRow>, p: JobQuery): seq<JobRow> {
    Filter(rows, (row: JobRow) => CommonKeeps(row, p))
  }

  /** Without any parameter the common filters leave the query as it is. */
  lemma CommonNone(rows: seq<JobRow>, p: JobQuery)
    requires p.q.None? && p.remote.None? && p.contract.None? && p.source.None?
    requires p.company.None? && p.originDomain.None? && p.onlyAts.None?
    ensures ApplyCommonFilters(rows, p) == rows
  {
    FilterAll(rows, (row: JobRow) => CommonKeeps(row, p));
  }

  /**
   * `list_jobs`: the common filters, then the exclusions, then the role filter.
   * A row is listed exactly when it is in the table and passes all three.
   */
  function ListJobs(rows: seq<JobRow>, p: JobQuery): (r: seq<JobRow>)
    ensures forall row :: row in r <==>
      row in rows && CommonKeeps(row, p) && ExcludeKeeps(row, p.excludeIntern, p.excludeTutoring, p.excludeEntry) && RoleKeeps(row, p.role)
  {
    ApplyRoleFilter(ApplyExcludeFilters(ApplyCommonFilters(rows, p), p.excludeIntern, p.excludeTutoring, p.excludeEntry), p.role)
  }

  /**
   * With the default flags every listed job has a non-NULL description and
   * non-NULL tags: a job stored without tags is never listed.
   */
  lemma DefaultListingNeedsColumns(rows: seq<JobRow>, p: JobQuery, row: JobRow)
    requires p.excludeIntern && p.excludeTutoring && p.excludeEntry
    requires row in ListJobs(rows, p)
    ensures row.description.Some? && row.tags.Some?
  {
    ExcludeNeedsColumns(row, true, true, true);
  }

  /** `list_dashboard_jobs`: without a role given, the profile's name is used as the role. */
  function DashboardRole(role: Option<string>, profileName: Option<string>): (r: Option<string>)
    ensures Truthy(role) ==> r == role
    ensures !Truthy(role) && profileName.Some? ==> r == profileName
    ensures !Truthy(role) && profileName.None? ==> r == role
  {
    if !Truthy(role) && profileName.Some? then profileName else role
  }
}
