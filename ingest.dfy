/**
 * backend/app/ingest/ingest.py, the batch pipeline: the text a job is searched
 * in, the exclusion and profile keyword filters, `dedupe_by_fp`, and the
 * filter sequence `main` runs before storing the batch.
 *
 * `re.search` is a parameter `search(pattern, text)`: the patterns are kept as
 * data, their regular-expression meaning is not modelled. The fingerprint is
 * a parameter `key` of the deduplication, instantiated with `JobNorm.Fp`.
 */
module Ingest {
  import opened Wrappers
  import opened Strings
  import opened Seqs
  import opened Normalize

  /** Tutoring and teaching posts. */
  const ExcludePatterns: seq<string> := [
    "\\btutor(ing)?\\b", "\\bteacher\\b", "\\binstructor\\b", "\\btrainer\\b",
    "\\btraining\\b", "\\bcourse\\b", "\\bboot ?camp\\b", "\\beducation\\b",
    "\\bschool\\b", "\\buniversity\\b", "\\bstudent\\b", "\\bacadem(y|ic)\\b",
    "\\bcoach(ing)?\\b", "\\bpart[- ]?time tutor\\b"]

  /** Junior and early-career posts. */
  const ExcludeLevelPatterns: seq<string> := [
    "\\bintern(ship)?\\b", "\\bco[- ]?op\\b", "\\bgraduate\\b", "\\bnew grad\\b",
    "\\bentry[- ]level\\b", "\\bjr\\.?\\b", "\\bjunior\\b", "\\btrainee\\b",
    "\\bapprentice\\b"]

  /** Volunteer and unpaid posts. */
  const ExcludeMiscPatterns: seq<string> := ["\\bvolunteer\\b", "\\bunpaid\\b"]

  const JavaMustHave: seq<string> := ["java", "spring", "spring boot", "microservices"]
  const DevopsMustHave: seq<string> := ["devops", "kubernetes", "docker", "terraform", "ci/cd", "jenkins", "aws", "azure"]
  const DotnetMustHave: seq<string> := [".net", "dotnet", "c#", "asp.net", "aspnet", "ef core", "entity framework"]

  // ------------------------------------------------------------------ blob

  /** `blob(j)`: title, company, location and snippet, space-separated and lower-cased. */
  function Blob(j: JobNorm): string {
    Lower(j.title + " " + j.company + " " + j.location + " " + j.snippet)
  }

  /** The blob holds no upper-case letter and contains each of the four fields, lower-cased. */
  lemma BlobContainsFields(j: JobNorm)
    ensures IsLower(Blob(j))
    ensures Contains(Blob(j), Lower(j.title)) && Contains(Blob(j), Lower(j.company))
    ensures Contains(Blob(j), Lower(j.location)) && Contains(Blob(j), Lower(j.snippet))
  {
    var p1 := j.title + " ";
    var p2 := p1 + j.company;
    var p3 := p2 + " ";
    var p4 := p3 + j.location;
    var p5 := p4 + " ";
    var x := p5 + j.snippet;
    assert Blob(j) == Lower(x);
    LowerIsLower(x);
    // the title, at the front
    ContainsAt(j.title, j.title, 0);
    ContainsInLeft(j.title, " ", j.title);
    ContainsInLeft(p1, j.company, j.title);
    ContainsInLeft(p2, " ", j.title);
    ContainsInLeft(p3, j.location, j.title);
    ContainsInLeft(p4, " ", j.title);
    ContainsInLeft(p5, j.snippet, j.title);
    LowerKeepsContains(x, j.title);
    // the company, after the title
    ContainsAt(j.company, j.company, 0);
    ContainsInRight(p1, j.company, j.company);
    ContainsInLeft(p2, " ", j.company);
    ContainsInLeft(p3, j.location, j.company);
    ContainsInLeft(p4, " ", j.company);
    ContainsInLeft(p5, j.snippet, j.company);
    LowerKeepsContains(x, j.company);
    // the location, after the company
    ContainsAt(j.location, j.location, 0);
    ContainsInRight(p3, j.location, j.location);
    ContainsInLeft(p4, " ", j.location);
    ContainsInLeft(p5, j.snippet, j.location);
    LowerKeepsContains(x, j.location);
    // the snippet, at the end
    ContainsAt(j.snippet, j.snippet, 0);
    ContainsInRight(p5, j.snippet, j.snippet);
    LowerKeepsContains(x, j.snippet);
  }

  // ------------------------------------------------------- keyword filters

  /** `any(search(p, t) for p in patterns)`. */
  function AnyMatch(search: (string, string) -> bool, patterns: seq<string>, t: string): (r: bool)
    ensures r <==> exists k :: 0 <= k < |patterns| && search(patterns[k], t)
  {
    if patterns == [] then false
    else search(patterns[0], t) || AnyMatch(search, patterns[1..], t)
  }

  /** `excluded(j, patterns)`: some pattern matches the job's blob. */
  function Excluded(search: (string, string) -> bool, j: JobNorm, patterns: seq<string>): bool {
    AnyMatch(search, patterns, Blob(j))
  }

  /** `any(k in t for k in keywords)`. */
  function AnyContained(keywords: seq<string>, t: string): (r: bool)
    ensures r <==> exists k :: 0 <= k < |keywords| && Contains(t, keywords[k])
  {
    if keywords == [] then false
    else Contains(t, keywords[0]) || AnyContained(keywords[1..], t)
  }

  /** `must_have_any(j, keywords)`: some keyword is a substring of the job's blob. */
  function MustHaveAny(j: JobNorm, keywords: seq<string>): bool {
    AnyContained(keywords, Blob(j))
  }

  /** `profile_keywords(profile)`: the keyword list of a known profile, `[]` for any other. */
  function ProfileKeywords(profile: string): (r: seq<string>)
    ensures r != [] <==> profile in {"java", "devops", "dotnet"}
    ensures profile == "java" ==> r == JavaMustHave
    ensures profile == "devops" ==> r == DevopsMustHave
    ensures profile == "dotnet" ==> r == DotnetMustHave
  {
    if profile == "java" then JavaMustHave
    else if profile == "devops" then DevopsMustHave
    else if profile == "dotnet" then DotnetMustHave
    else []
  }

  // ---------------------------------------------------------------- query

  /** The keyword filter of `main`: the query occurs in the lower-cased title and snippet. */
  predicate QueryMatches(j: JobNorm, q: string) {
    Contains(Lower(j.title) + " " + Lower(j.snippet), q)
  }

  /** `main`'s keyword filter: applied only when the stripped, lower-cased query is non-empty. */
  function QueryFiltered(jobs: seq<JobNorm>, query: string): seq<JobNorm> {
    var q := Lower(Strip(query));
    if q == "" then jobs else Filter(jobs, (j: JobNorm) => QueryMatches(j, q))
  }

  /** A blank query keeps the batch; otherwise exactly the matching jobs remain. */
  lemma QueryFilteredKeeps(jobs: seq<JobNorm>, query: string)
    ensures Lower(Strip(query)) == "" ==> QueryFiltered(jobs, query) == jobs
    ensures Lower(Strip(query)) != "" ==>
      forall j :: j in QueryFiltered(jobs, query) <==> j in jobs && QueryMatches(j, Lower(Strip(query)))
  {
  }

  // ----------------------------------------------------------- dedupe_by_fp

  /** `j.posted_at and (not cur.posted_at or j.posted_at > cur.posted_at)`. */
  predicate Newer(j: JobNorm, cur: JobNorm) {
    j.postedAt.Some? && (cur.postedAt.None? || j.postedAt.value > cur.postedAt.value)
  }

  lemma NewerIrreflexive(j: JobNorm)
    ensures !Newer(j, j)
  {
  }

  /** Replacing the kept record by a newer one keeps it at least as new as everything seen. */
  lemma NewerStep(x: JobNorm, b: JobNorm, c: JobNorm)
    requires !Newer(x, b) && Newer(c, b)
    ensures !Newer(x, c) && Newer(c, x)
  {
  }

  /**
   * The state of the `best` dict after a prefix of the batch: the keys in
   * insertion order, and for each key the position of the record it holds.
   */
  datatype Scan = Scan(order: seq<string>, pick: map<string, nat>)

  /** One iteration of the loop of `dedupe_by_fp`, for record `x` after the records `seen`. */
  function ScanStep(key: JobNorm -> string, seen: seq<JobNorm>, x: JobNorm, s: Scan): (t: Scan)
    requires forall f :: f in s.pick ==> s.pick[f] < |seen|
    ensures forall f :: f in t.pick ==> t.pick[f] <= |seen|
  {
    var f := key(x);
    if f !in s.pick then Scan(s.order + [f], s.pick[f := |seen|])
    else if Newer(x, seen[s.pick[f]]) then Scan(s.order, s.pick[f := |seen|])
    else s
  }

  /** The loop of `dedupe_by_fp` over the whole batch. */
  function DedupeScan(key: JobNorm -> string, jobs: seq<JobNorm>): (s: Scan)
    ensures forall f :: f in s.pick ==> s.pick[f] < |jobs|
    decreases |jobs|
  {
    if jobs == [] then Scan([], map[])
    else
      var n := |jobs| - 1;
      ScanStep(key, jobs[..n], jobs[n], DedupeScan(key, jobs[..n]))
  }

  /**
   * The keys are distinct and are exactly the fingerprints of the records
   * seen, and each key holds the position of a record carrying it.
   */
  ghost predicate ScanValid(key: JobNorm -> string, jobs: seq<JobNorm>, s: Scan) {
    && (forall a, b :: 0 <= a < b < |s.order| ==> s.order[a] != s.order[b])
    && (forall f :: f in s.pick <==> f in s.order)
    && (forall f :: f in s.pick ==> s.pick[f] < |jobs| && key(jobs[s.pick[f]]) == f)
    && (forall k :: 0 <= k < |jobs| ==> key(jobs[k]) in s.pick)
  }

  /** No record of a group is newer than the one held, and every earlier one is strictly older. */
  ghost predicate ScanNewest(key: JobNorm -> string, jobs: seq<JobNorm>, s: Scan) {
    forall f, k :: f in s.pick && s.pick[f] < |jobs| && 0 <= k < |jobs| && key(jobs[k]) == f ==>
      && !Newer(jobs[k], jobs[s.pick[f]])
      && (k < s.pick[f] ==> Newer(jobs[s.pick[f]], jobs[k]))
  }

  /** Every record carrying a later key comes after some record carrying an earlier key. */
  ghost predicate ScanOrdered(key: JobNorm -> string, jobs: seq<JobNorm>, s: Scan) {
    forall a, b, k :: 0 <= a < b < |s.order| && 0 <= k < |jobs| && key(jobs[k]) == s.order[b] ==>
      exists k' :: 0 <= k' < k && key(jobs[k']) == s.order[a]
  }

  lemma ScanStepValid(key: JobNorm -> string, seen: seq<JobNorm>, x: JobNorm, s: Scan)
    requires ScanValid(key, seen, s)
    ensures ScanValid(key, seen + [x], ScanStep(key, seen, x, s))
  {
    var jobs := seen + [x];
    var t := ScanStep(key, seen, x, s);
    var g := key(x);
    var n := |seen|;
    assert forall k :: 0 <= k < n ==> jobs[k] == seen[k];
    assert jobs[n] == x;
    if g !in s.pick {
      forall a, b | 0 <= a < b < |t.order| ensures t.order[a] != t.order[b] {
        if b == |s.order| {
          assert s.order[a] in s.pick;
        }
      }
    }
    forall f | f in t.pick ensures t.pick[f] < |jobs| && key(jobs[t.pick[f]]) == f {
      if f != g {
        assert t.pick[f] == s.pick[f];
      }
    }
    forall k | 0 <= k < |jobs| ensures key(jobs[k]) in t.pick {
      if k < n {
        assert key(seen[k]) in s.pick;
      }
    }
  }

  lemma ScanStepNewest(key: JobNorm -> string, seen: seq<JobNorm>, x: JobNorm, s: Scan)
    requires ScanValid(key, seen, s) && ScanNewest(key, seen, s)
    ensures ScanNewest(key, seen + [x], ScanStep(key, seen, x, s))
  {
    var jobs := seen + [x];
    var t := ScanStep(key, seen, x, s);
    var g := key(x);
    var n := |seen|;
    assert forall k :: 0 <= k < n ==> jobs[k] == seen[k];
    assert jobs[n] == x;
    forall f, k | f in t.pick && t.pick[f] < |jobs| && 0 <= k < |jobs| && key(jobs[k]) == f
      ensures !Newer(jobs[k], jobs[t.pick[f]])
      ensures k < t.pick[f] ==> Newer(jobs[t.pick[f]], jobs[k])
    {
      if k == n {
        if t.pick[f] == n {
          NewerIrreflexive(x);
        }
      } else if f == g && t.pick[f] == n {
        NewerStep(seen[k], seen[s.pick[g]], x);
      } else {
        assert t.pick[f] == s.pick[f];
      }
    }
  }

  lemma ScanStepOrdered(key: JobNorm -> string, seen: seq<JobNorm>, x: JobNorm, s: Scan)
    requires ScanValid(key, seen, s) && ScanOrdered(key, seen, s)
    ensures ScanOrdered(key, seen + [x], ScanStep(key, seen, x, s))
  {
    var jobs := seen + [x];
    var t := ScanStep(key, seen, x, s);
    var n := |seen|;
    assert forall k :: 0 <= k < n ==> jobs[k] == seen[k];
    forall a, b, k | 0 <= a < b < |t.order| && 0 <= k < |jobs| && key(jobs[k]) == t.order[b]
      ensures exists k' :: 0 <= k' < k && key(jobs[k']) == t.order[a]
    {
      assert a < |s.order| && t.order[a] == s.order[a];
      if k == n {
        var w := s.pick[s.order[a]];
        assert w < n && key(seen[w]) == s.order[a];
        assert jobs[w] == seen[w];
      } else {
        assert jobs[k] == seen[k];
        assert key(seen[k]) in s.pick;
        assert b < |s.order| && t.order[b] == s.order[b];
        var k' :| 0 <= k' < k && key(seen[k']) == s.order[a];
        assert jobs[k'] == seen[k'];
      }
    }
    assert ScanOrdered(key, jobs, t);
  }

  /** What the loop guarantees after every prefix of the batch: see `ScanValid`. */
  lemma {:induction false} DedupeScanValid(key: JobNorm -> string, jobs: seq<JobNorm>)
    ensures ScanValid(key, jobs, DedupeScan(key, jobs))
    decreases |jobs|
  {
    if jobs != [] {
      var n := |jobs| - 1;
      DedupeScanValid(key, jobs[..n]);
      assert jobs[..n] + [jobs[n]] == jobs;
      ScanStepValid(key, jobs[..n], jobs[n], DedupeScan(key, jobs[..n]));
    }
  }

  lemma {:induction false} DedupeScanNewest(key: JobNorm -> string, jobs: seq<JobNorm>)
    ensures ScanNewest(key, jobs, DedupeScan(key, jobs))
    decreases |jobs|
  {
    if jobs != [] {
      var n := |jobs| - 1;
      DedupeScanValid(key, jobs[..n]);
      DedupeScanNewest(key, jobs[..n]);
      assert jobs[..n] + [jobs[n]] == jobs;
      ScanStepNewest(key, jobs[..n], jobs[n], DedupeScan(key, jobs[..n]));
    }
  }

  lemma {:induction false} DedupeScanOrdered(key: JobNorm -> string, jobs: seq<JobNorm>)
    ensures ScanOrdered(key, jobs, DedupeScan(key, jobs))
    decreases |jobs|
  {
    if jobs != [] {
      var n := |jobs| - 1;
      DedupeScanValid(key, jobs[..n]);
      DedupeScanOrdered(key, jobs[..n]);
      assert jobs[..n] + [jobs[n]] == jobs;
      ScanStepOrdered(key, jobs[..n], jobs[n], DedupeScan(key, jobs[..n]));
    }
  }

  /** `dedupe_by_fp(jobs)`: the values of `best`, in insertion order. */
  function Deduped(key: JobNorm -> string, jobs: seq<JobNorm>): (r: seq<JobNorm>)
    ensures |r| <= |jobs|
  {
    var s := DedupeScan(key, jobs);
    DedupeScanValid(key, jobs);
    DistinctBound(key, jobs, s);
    seq(|s.order|, m requires 0 <= m < |s.order| => jobs[s.pick[s.order[m]]])
  }

  lemma DistinctBound(key: JobNorm -> string, jobs: seq<JobNorm>, s: Scan)
    requires ScanValid(key, jobs, s)
    ensures |s.order| <= |jobs|
  {
    var idx := seq(|s.order|, m requires 0 <= m < |s.order| => s.pick[s.order[m]]);
    forall a, b | 0 <= a < b < |idx| ensures idx[a] != idx[b] {
      assert key(jobs[idx[a]]) == s.order[a] && key(jobs[idx[b]]) == s.order[b];
    }
    IndexSetSize(idx, |jobs|);
  }

  /** Distinct positions below `n` are at most `n` many. */
  lemma {:induction false} IndexSetSize(idx: seq<nat>, n: nat)
    requires forall m :: 0 <= m < |idx| ==> idx[m] < n
    requires forall a, b :: 0 <= a < b < |idx| ==> idx[a] != idx[b]
    ensures |idx| <= n
    decreases |idx|
  {
    if idx != [] {
      var last := idx[|idx| - 1];
      var rest := seq(|idx| - 1, m requires 0 <= m < |idx| - 1 => if idx[m] == n - 1 then last else idx[m]);
      forall m | 0 <= m < |rest| ensures rest[m] < n - 1 {
        assert idx[m] != last;
      }
      forall a, b | 0 <= a < b < |rest| ensures rest[a] != rest[b] {
        assert idx[a] != idx[b];
        assert idx[a] != last && idx[b] != last;
      }
      IndexSetSize(rest, n - 1);
    }
  }

  /** `dedupe_by_fp` as the source writes it: a loop over the batch updating a dict. */
  method DedupeByFp(key: JobNorm -> string, jobs: seq<JobNorm>) returns (r: seq<JobNorm>)
    ensures r == Deduped(key, jobs)
  {
    var order: seq<string> := [];
    var best: map<string, JobNorm> := map[];
    ghost var pick: map<string, nat> := map[];
    for i := 0 to |jobs|
      invariant DedupeScan(key, jobs[..i]) == Scan(order, pick)
      invariant BestAgrees(best, pick, jobs[..i])
    {
      var j := jobs[i];
      var fp := key(j);
      DedupeScanSnoc(key, jobs, i);
      if fp !in best {
        BestAgreesPut(best, pick, jobs[..i], j, fp);
        best := best[fp := j];
        order := order + [fp];
        pick := pick[fp := i];
      } else if Newer(j, best[fp]) {
        BestAgreesPicked(best, pick, jobs[..i], fp);
        BestAgreesPut(best, pick, jobs[..i], j, fp);
        best := best[fp := j];
        pick := pick[fp := i];
      } else {
        BestAgreesPicked(best, pick, jobs[..i], fp);
        BestAgreesKeep(best, pick, jobs[..i], j);
      }
    }
    assert jobs[..|jobs|] == jobs;
    DedupedFromBest(key, jobs, order, best, pick);
    r := seq(|order|, m requires 0 <= m < |order| => best[order[m]]);
  }

  /** The `best` dict holds, for each key, the record at the position the scan picked. */
  ghost predicate BestAgrees(best: map<string, JobNorm>, pick: map<string, nat>, seen: seq<JobNorm>) {
    && best.Keys == pick.Keys
    && forall f :: f in pick ==> pick[f] < |seen| && best[f] == seen[pick[f]]
  }

  lemma BestAgreesPicked(best: map<string, JobNorm>, pick: map<string, nat>, seen: seq<JobNorm>, f: string)
    requires BestAgrees(best, pick, seen) && f in best
    ensures f in pick && pick[f] < |seen| && seen[pick[f]] == best[f]
  {
  }

  lemma BestAgreesPut(best: map<string, JobNorm>, pick: map<string, nat>, seen: seq<JobNorm>, x: JobNorm, f: string)
    requires BestAgrees(best, pick, seen)
    ensures BestAgrees(best[f := x], pick[f := |seen|], seen + [x])
  {
    var seen' := seen + [x];
    assert forall k :: 0 <= k < |seen| ==> seen'[k] == seen[k];
  }

  lemma BestAgreesKeep(best: map<string, JobNorm>, pick: map<string, nat>, seen: seq<JobNorm>, x: JobNorm)
    requires BestAgrees(best, pick, seen)
    ensures BestAgrees(best, pick, seen + [x])
  {
    var seen' := seen + [x];
    assert forall k :: 0 <= k < |seen| ==> seen'[k] == seen[k];
  }

  /** One more record of the batch is one more step of the scan. */
  lemma DedupeScanSnoc(key: JobNorm -> string, jobs: seq<JobNorm>, i: nat)
    requires i < |jobs|
    ensures jobs[..i + 1] == jobs[..i] + [jobs[i]]
    ensures DedupeScan(key, jobs[..i + 1]) == ScanStep(key, jobs[..i], jobs[i], DedupeScan(key, jobs[..i]))
  {
    assert jobs[..i + 1][..i] == jobs[..i];
  }

  /** Reading `best` in key order after the whole batch gives the deduplicated records. */
  lemma DedupedFromBest(key: JobNorm -> string, jobs: seq<JobNorm>, order: seq<string>, best: map<string, JobNorm>, pick: map<string, nat>)
    requires DedupeScan(key, jobs) == Scan(order, pick) && BestAgrees(best, pick, jobs)
    ensures |Deduped(key, jobs)| == |order|
    ensures forall m :: 0 <= m < |order| ==> order[m] in best && Deduped(key, jobs)[m] == best[order[m]]
  {
    DedupeScanValid(key, jobs);
    forall m | 0 <= m < |order|
      ensures order[m] in best && Deduped(key, jobs)[m] == best[order[m]]
    {
      assert order[m] in pick;
    }
  }

  /** Every kept record is a record of the batch, and no fingerprint is kept twice. */
  lemma DedupedDistinct(key: JobNorm -> string, jobs: seq<JobNorm>)
    ensures DistinctKeys(Deduped(key, jobs), key)
    ensures forall j :: j in Deduped(key, jobs) ==> j in jobs
  {
    var s := DedupeScan(key, jobs);
    DedupeScanValid(key, jobs);
    var r := Deduped(key, jobs);
    forall a, b | 0 <= a < b < |r| ensures key(r[a]) != key(r[b]) {
      assert r[a] == jobs[s.pick[s.order[a]]] && r[b] == jobs[s.pick[s.order[b]]];
      assert key(r[a]) == s.order[a] && key(r[b]) == s.order[b];
    }
    forall j | j in r ensures j in jobs {
      var m :| 0 <= m < |r| && r[m] == j;
      assert r[m] == jobs[s.pick[s.order[m]]];
    }
  }

  /** Every fingerprint of the batch is kept. */
  lemma DedupedCovers(key: JobNorm -> string, jobs: seq<JobNorm>, k: nat)
    requires k < |jobs|
    ensures exists m :: 0 <= m < |Deduped(key, jobs)| && key(Deduped(key, jobs)[m]) == key(jobs[k])
  {
    var s := DedupeScan(key, jobs);
    DedupeScanValid(key, jobs);
    var f := key(jobs[k]);
    assert f in s.order;
    var m :| 0 <= m < |s.order| && s.order[m] == f;
    assert key(Deduped(key, jobs)[m]) == f;
  }

  /**
   * For every kept record there is a position `i` of the batch holding it such
   * that no record with the same fingerprint is newer, and every earlier one
   * is strictly older: among equally new records the first one seen is kept.
   */
  lemma DedupedKeepsNewest(key: JobNorm -> string, jobs: seq<JobNorm>, m: nat) returns (i: nat)
    requires m < |Deduped(key, jobs)|
    ensures i < |jobs| && jobs[i] == Deduped(key, jobs)[m]
    ensures forall k :: 0 <= k < |jobs| && key(jobs[k]) == key(jobs[i]) ==> !Newer(jobs[k], jobs[i])
    ensures forall k :: 0 <= k < i && key(jobs[k]) == key(jobs[i]) ==> Newer(jobs[i], jobs[k])
  {
    var s := DedupeScan(key, jobs);
    DedupeScanValid(key, jobs);
    DedupeScanNewest(key, jobs);
    var f := s.order[m];
    i := s.pick[f];
    assert key(jobs[i]) == f;
  }

  /** When some record of the group has a date, the kept one has the greatest date of the group. */
  lemma DedupedKeepsLatestDate(key: JobNorm -> string, jobs: seq<JobNorm>, m: nat, k: nat)
    requires m < |Deduped(key, jobs)| && k < |jobs|
    requires key(jobs[k]) == key(Deduped(key, jobs)[m]) && jobs[k].postedAt.Some?
    ensures Deduped(key, jobs)[m].postedAt.Some?
    ensures jobs[k].postedAt.value <= Deduped(key, jobs)[m].postedAt.value
  {
    var i := DedupedKeepsNewest(key, jobs, m);
    assert !Newer(jobs[k], jobs[i]);
  }

  /** When no record of the group has a date, the first record of the group is kept. */
  lemma DedupedUndatedKeepsFirst(key: JobNorm -> string, jobs: seq<JobNorm>, m: nat) returns (i: nat)
    requires m < |Deduped(key, jobs)|
    requires forall k :: 0 <= k < |jobs| && key(jobs[k]) == key(Deduped(key, jobs)[m]) ==> jobs[k].postedAt.None?
    ensures i < |jobs| && jobs[i] == Deduped(key, jobs)[m]
    ensures forall k :: 0 <= k < i ==> key(jobs[k]) != key(jobs[i])
  {
    i := DedupedKeepsNewest(key, jobs, m);
    assert jobs[i].postedAt.None?;
  }

  /**
   * The output follows the order of first appearance: every record carrying
   * the fingerprint of a later output position comes after some record
   * carrying the fingerprint of an earlier one.
   */
  lemma DedupedFirstAppearanceOrder(key: JobNorm -> string, jobs: seq<JobNorm>, a: nat, b: nat, k: nat)
    requires a < b < |Deduped(key, jobs)| && k < |jobs|
    requires key(jobs[k]) == key(Deduped(key, jobs)[b])
    ensures exists k' :: 0 <= k' < k && key(jobs[k']) == key(Deduped(key, jobs)[a])
  {
    DedupeScanValid(key, jobs);
    DedupeScanOrdered(key, jobs);
    var s := DedupeScan(key, jobs);
    assert key(Deduped(key, jobs)[b]) == s.order[b];
    assert key(Deduped(key, jobs)[a]) == s.order[a];
  }

  // ---------------------------------------------------------- the pipeline

  /** Not excluded by any of the three hard-filter pattern lists. */
  predicate PassesHardFilters(search: (string, string) -> bool, j: JobNorm) {
    && !Excluded(search, j, ExcludePatterns)
    && !Excluded(search, j, ExcludeLevelPatterns)
    && !Excluded(search, j, ExcludeMiscPatterns)
  }

  /**
   * Lines 159-175 of `main`: keyword filter, deduplication, the three hard
   * filters (always on), then the profile filter when the profile is given
   * and known.
   */
  function FilterBatch(hash: string -> string, search: (string, string) -> bool,
                       jobs: seq<JobNorm>, query: string, profile: Option<string>): seq<JobNorm> {
    var d := Deduped((j: JobNorm) => j.Fp(hash), QueryFiltered(jobs, query));
    var e1 := Filter(d, (j: JobNorm) => !Excluded(search, j, ExcludePatterns));
    var e2 := Filter(e1, (j: JobNorm) => !Excluded(search, j, ExcludeLevelPatterns));
    var e3 := Filter(e2, (j: JobNorm) => !Excluded(search, j, ExcludeMiscPatterns));
    if Truthy(profile) && ProfileKeywords(profile.value) != [] then
      Filter(e3, (j: JobNorm) => MustHaveAny(j, ProfileKeywords(profile.value)))
    else e3
  }

  /**
   * Every job that reaches the store is a job of the batch that matches the
   * query (when one is given), passes the hard filters and, for a known
   * profile, mentions one of its keywords.
   */
  lemma FilterBatchSound(hash: string -> string, search: (string, string) -> bool,
                         jobs: seq<JobNorm>, query: string, profile: Option<string>)
    ensures forall j :: j in FilterBatch(hash, search, jobs, query, profile) ==>
      && j in jobs
      && (Lower(Strip(query)) != "" ==> QueryMatches(j, Lower(Strip(query))))
      && PassesHardFilters(search, j)
      && (Truthy(profile) ==> ProfileKeywords(profile.value) == [] || MustHaveAny(j, ProfileKeywords(profile.value)))
  {
    var key := (j: JobNorm) => j.Fp(hash);
    var qf := QueryFiltered(jobs, query);
    QueryFilteredKeeps(jobs, query);
    var d := Deduped(key, qf);
    DedupedDistinct(key, qf);
    var p1 := (j: JobNorm) => !Excluded(search, j, ExcludePatterns);
    var p2 := (j: JobNorm) => !Excluded(search, j, ExcludeLevelPatterns);
    var p3 := (j: JobNorm) => !Excluded(search, j, ExcludeMiscPatterns);
    var e1 := Filter(d, p1);
    var e2 := Filter(e1, p2);
    var e3 := Filter(e2, p3);
    var known := Truthy(profile) && ProfileKeywords(profile.value) != [];
    var out := FilterBatch(hash, search, jobs, query, profile);
    assert out == if known then Filter(e3, (j: JobNorm) => MustHaveAny(j, ProfileKeywords(profile.value))) else e3;
    forall j | j in out
      ensures j in jobs
      ensures Lower(Strip(query)) != "" ==> QueryMatches(j, Lower(Strip(query)))
      ensures PassesHardFilters(search, j)
      ensures Truthy(profile) ==> ProfileKeywords(profile.value) == [] || MustHaveAny(j, ProfileKeywords(profile.value))
    {
      assert j in e3;
      assert j in e2 && p3(j);
      assert j in e1 && p2(j);
      assert j in d && p1(j);
      assert j in qf;
    }
  }

  /** No two jobs that reach the store share a fingerprint. */
  lemma FilterBatchDistinct(hash: string -> string, search: (string, string) -> bool,
                            jobs: seq<JobNorm>, query: string, profile: Option<string>)
    ensures DistinctKeys(FilterBatch(hash, search, jobs, query, profile), (j: JobNorm) => j.Fp(hash))
  {
    var key := (j: JobNorm) => j.Fp(hash);
    var qf := QueryFiltered(jobs, query);
    var d := Deduped(key, qf);
    DedupedDistinct(key, qf);
    var p1 := (j: JobNorm) => !Excluded(search, j, ExcludePatterns);
    var p2 := (j: JobNorm) => !Excluded(search, j, ExcludeLevelPatterns);
    var p3 := (j: JobNorm) => !Excluded(search, j, ExcludeMiscPatterns);
    var e1 := Filter(d, p1);
    var e2 := Filter(e1, p2);
    var e3 := Filter(e2, p3);
    FilterKeepsDistinct(d, p1, key);
    FilterKeepsDistinct(e1, p2, key);
    FilterKeepsDistinct(e2, p3, key);
    if Truthy(profile) && ProfileKeywords(profile.value) != [] {
      FilterKeepsDistinct(e3, (j: JobNorm) => MustHaveAny(j, ProfileKeywords(profile.value)), key);
    }
  }

  /** A profile without keywords applies no profile filter. */
  lemma FilterBatchUnknownProfile(hash: string -> string, search: (string, string) -> bool,
                                  jobs: seq<JobNorm>, query: string, profile: string)
    requires profile !in {"java", "devops", "dotnet"}
    ensures FilterBatch(hash, search, jobs, query, Some(profile)) == FilterBatch(hash, search, jobs, query, None)
  {
  }
}
