/**
 * `upsert_by_fingerprint` of backend/app/ingest/ingest.py and the loop of
 * `main` that stores a batch (lines 177-180). The database is an in-memory
 * store: a sequence of rows and the next id the database would assign.
 * `db.query(...).filter(...).first()` is the first row, in store order, with
 * the fingerprint; `datetime.now` is the parameter `now`.
 */
module IngestStore {
  import opened Wrappers
  import opened Seqs
  import opened Normalize
  import opened Rows
  import opened Ingest

  /** The contents of the store. */
  datatype Store = Store(rows: seq<JobRow>, nextId: nat)

  /** Ids are distinct and below the next id to assign. */
  predicate StoreValid(st: Store) {
    && (forall k :: 0 <= k < |st.rows| ==> st.rows[k].id < st.nextId)
    && (forall a, b :: 0 <= a < b < |st.rows| ==> st.rows[a].id != st.rows[b].id)
  }

  /** `first()` of the rows whose fingerprint is `fp`. */
  function FirstMatch(rows: seq<JobRow>, fp: string): (r: Option<nat>)
    ensures r.Some? ==> r.value < |rows| && rows[r.value].fingerprint == Some(fp)
    ensures r.Some? ==> forall k :: 0 <= k < r.value ==> rows[k].fingerprint != Some(fp)
    ensures r.None? ==> forall k :: 0 <= k < |rows| ==> rows[k].fingerprint != Some(fp)
  {
    if rows == [] then None
    else if rows[0].fingerprint == Some(fp) then Some(0)
    else match FirstMatch(rows[1..], fp)
      case None => None
      case Some(k) => Some(k + 1)
  }

  /** The fields the update branch overwrites (lines 98-112). */
  function Overwritten(row: JobRow, jn: JobNorm): JobRow {
    row.(title := jn.title, company := jn.company, location := Some(jn.location),
         remote := jn.remote, contract := jn.contract, tags := Some(TagsToDb(jn.tags)),
         source := Some(jn.source), sourceJobId := jn.sourceJobId, postedAt := jn.postedAt,
         applyUrl := Some(jn.applyUrl), url := Some(jn.applyUrl), originDomain := jn.originDomain,
         descriptionSnippet := Some(jn.snippet), description := Some(jn.snippet))
  }

  /** The row the insert branch adds (lines 115-132). */
  function NewRow(id: nat, fp: string, jn: JobNorm, now: int): JobRow {
    JobRow(id, jn.title, jn.company, Some(jn.location), jn.remote, jn.contract,
           Some(TagsToDb(jn.tags)), Some(jn.applyUrl), jn.sourceJobId, jn.postedAt,
           Some(jn.applyUrl), jn.originDomain, Some(jn.snippet), Some(jn.snippet),
           Some(jn.source), Some(fp), now)
  }

  /** `upsert_by_fingerprint(db, jn)` on the store contents. */
  function Upserted(st: Store, hash: string -> string, jn: JobNorm, now: int): Store {
    var fp := jn.Fp(hash);
    match FirstMatch(st.rows, fp)
      case Some(k) => Store(st.rows[k := Overwritten(st.rows[k], jn)], st.nextId)
      case None => Store(st.rows + [NewRow(st.nextId, fp, jn, now)], st.nextId + 1)
  }

  /**
   * With a row of the same fingerprint, the first such row gets the job's
   * fields and keeps its id, fingerprint and creation time; no other row
   * changes and none is added.
   */
  lemma UpsertUpdates(st: Store, hash: string -> string, jn: JobNorm, now: int, k: nat)
    requires FirstMatch(st.rows, jn.Fp(hash)) == Some(k)
    ensures |Upserted(st, hash, jn, now).rows| == |st.rows|
    ensures Upserted(st, hash, jn, now).nextId == st.nextId
    ensures Upserted(st, hash, jn, now).rows[k] == Overwritten(st.rows[k], jn)
    ensures Upserted(st, hash, jn, now).rows[k].id == st.rows[k].id
    ensures Upserted(st, hash, jn, now).rows[k].fingerprint == st.rows[k].fingerprint
    ensures Upserted(st, hash, jn, now).rows[k].createdAt == st.rows[k].createdAt
    ensures forall i :: 0 <= i < |st.rows| && i != k ==> Upserted(st, hash, jn, now).rows[i] == st.rows[i]
  {
  }

  /**
   * Without one, exactly one row is appended, carrying the fingerprint, the
   * apply URL as `url`, the snippet as `description`, the next id and `now`.
   */
  lemma UpsertInserts(st: Store, hash: string -> string, jn: JobNorm, now: int)
    requires FirstMatch(st.rows, jn.Fp(hash)).None?
    ensures Upserted(st, hash, jn, now).rows[..|st.rows|] == st.rows
    ensures |Upserted(st, hash, jn, now).rows| == |st.rows| + 1
    ensures var r := Upserted(st, hash, jn, now).rows[|st.rows|];
      && r.fingerprint == Some(jn.Fp(hash)) && r.url == Some(jn.applyUrl) && r.applyUrl == Some(jn.applyUrl)
      && r.description == Some(jn.snippet) && r.id == st.nextId && r.createdAt == now
  {
  }

  /** Replacing a row by one with the same id keeps the store valid. */
  lemma ValidAfterUpdate(st: Store, k: nat, row: JobRow)
    requires StoreValid(st) && k < |st.rows| && row.id == st.rows[k].id
    ensures StoreValid(Store(st.rows[k := row], st.nextId))
  {
    var rows' := st.rows[k := row];
    assert forall j :: 0 <= j < |rows'| ==> rows'[j].id == st.rows[j].id;
  }

  /** Appending a row with the next id, and moving past it, keeps the store valid. */
  lemma ValidAfterAppend(st: Store, row: JobRow)
    requires StoreValid(st) && row.id == st.nextId
    ensures StoreValid(Store(st.rows + [row], st.nextId + 1))
  {
    var rows' := st.rows + [row];
    assert rows'[|st.rows|].id == st.nextId;
    assert forall j :: 0 <= j < |st.rows| ==> rows'[j] == st.rows[j];
  }

  /** The number of rows grows by at most one, and the store stays valid. */
  lemma UpsertBounds(st: Store, hash: string -> string, jn: JobNorm, now: int)
    requires StoreValid(st)
    ensures |st.rows| <= |Upserted(st, hash, jn, now).rows| <= |st.rows| + 1
    ensures StoreValid(Upserted(st, hash, jn, now))
  {
    var fp := jn.Fp(hash);
    match FirstMatch(st.rows, fp)
    case Some(k) =>
      ValidAfterUpdate(st, k, Overwritten(st.rows[k], jn));
    case None =>
      ValidAfterAppend(st, NewRow(st.nextId, fp, jn, now));
  }

  lemma OverwrittenIdempotent(row: JobRow, jn: JobNorm)
    ensures Overwritten(Overwritten(row, jn), jn) == Overwritten(row, jn)
  {
  }

  /** The row that `first()` finds for `fp` already holds the job's fields. */
  predicate Reflects(rows: seq<JobRow>, fp: string, jn: JobNorm) {
    match FirstMatch(rows, fp)
      case None => false
      case Some(k) => rows[k] == Overwritten(rows[k], jn)
  }

  /** After an upsert the store reflects the job. */
  lemma UpsertReflects(st: Store, hash: string -> string, jn: JobNorm, now: int)
    ensures Reflects(Upserted(st, hash, jn, now).rows, jn.Fp(hash), jn)
  {
    var fp := jn.Fp(hash);
    var rows' := Upserted(st, hash, jn, now).rows;
    match FirstMatch(st.rows, fp)
    case Some(k) =>
      OverwrittenIdempotent(st.rows[k], jn);
      FirstMatchAfterUpdate(st.rows, fp, k, Overwritten(st.rows[k], jn));
    case None =>
      FirstMatchAfterAppend(st.rows, fp, NewRow(st.nextId, fp, jn, now));
  }

  /** Upserting a job the store already reflects changes nothing. */
  lemma UpsertReflected(st: Store, hash: string -> string, jn: JobNorm, now: int)
    requires Reflects(st.rows, jn.Fp(hash), jn)
    ensures Upserted(st, hash, jn, now) == st
  {
  }

  /** The same upsert twice is the same upsert once, whatever the second `now`. */
  lemma UpsertIdempotent(st: Store, hash: string -> string, jn: JobNorm, now1: int, now2: int)
    ensures Upserted(Upserted(st, hash, jn, now1), hash, jn, now2) == Upserted(st, hash, jn, now1)
  {
    UpsertReflects(st, hash, jn, now1);
    UpsertReflected(Upserted(st, hash, jn, now1), hash, jn, now2);
  }

  lemma FirstMatchAfterUpdate(rows: seq<JobRow>, fp: string, k: nat, row: JobRow)
    requires FirstMatch(rows, fp) == Some(k) && row.fingerprint == rows[k].fingerprint
    ensures FirstMatch(rows[k := row], fp) == Some(k)
  {
    FirstMatchIs(rows[k := row], fp, k);
  }

  lemma FirstMatchAfterAppend(rows: seq<JobRow>, fp: string, row: JobRow)
    requires FirstMatch(rows, fp).None? && row.fingerprint == Some(fp)
    ensures FirstMatch(rows + [row], fp) == Some(|rows|)
  {
    FirstMatchIs(rows + [row], fp, |rows|);
  }

  /** `first()` is determined by where the first matching row is. */
  lemma {:induction false} FirstMatchIs(rows: seq<JobRow>, fp: string, k: nat)
    requires k < |rows| && rows[k].fingerprint == Some(fp)
    requires forall i :: 0 <= i < k ==> rows[i].fingerprint != Some(fp)
    ensures FirstMatch(rows, fp) == Some(k)
  {
    if k > 0 {
      FirstMatchIs(rows[1..], fp, k - 1);
    }
  }

  lemma FirstMatchNone(rows: seq<JobRow>, fp: string)
    requires forall i :: 0 <= i < |rows| ==> rows[i].fingerprint != Some(fp)
    ensures FirstMatch(rows, fp).None?
  {
  }

  /** Upserting a job with another fingerprint keeps the store reflecting `jn`. */
  lemma UpsertKeepsReflects(st: Store, hash: string -> string, jn: JobNorm, other: JobNorm, now: int)
    requires Reflects(st.rows, jn.Fp(hash), jn) && other.Fp(hash) != jn.Fp(hash)
    ensures Reflects(Upserted(st, hash, other, now).rows, jn.Fp(hash), jn)
  {
    var fp := jn.Fp(hash);
    var k := FirstMatch(st.rows, fp).value;
    var rows' := Upserted(st, hash, other, now).rows;
    match FirstMatch(st.rows, other.Fp(hash))
    case Some(k2) =>
      assert k2 != k;
      FirstMatchIs(rows', fp, k);
    case None =>
      FirstMatchIs(rows', fp, k);
  }

  /** The loop of `main` that stores the batch. */
  function UpsertedAll(st: Store, hash: string -> string, jobs: seq<JobNorm>, now: int): Store
    decreases |jobs|
  {
    if jobs == [] then st else UpsertedAll(Upserted(st, hash, jobs[0], now), hash, jobs[1..], now)
  }

  /** After storing a batch, the store reflects every job of the batch (fingerprints distinct). */
  lemma {:induction false} UpsertedAllReflects(st: Store, hash: string -> string, jobs: seq<JobNorm>, now: int)
    requires DistinctKeys(jobs, (j: JobNorm) => j.Fp(hash))
    ensures forall i :: 0 <= i < |jobs| ==> Reflects(UpsertedAll(st, hash, jobs, now).rows, jobs[i].Fp(hash), jobs[i])
    decreases |jobs|
  {
    if jobs != [] {
      var st1 := Upserted(st, hash, jobs[0], now);
      var rest := jobs[1..];
      assert DistinctKeys(rest, (j: JobNorm) => j.Fp(hash)) by {
        forall a, b | 0 <= a < b < |rest| ensures rest[a].Fp(hash) != rest[b].Fp(hash) {
          assert rest[a] == jobs[a + 1] && rest[b] == jobs[b + 1];
        }
      }
      UpsertedAllReflects(st1, hash, rest, now);
      UpsertReflects(st, hash, jobs[0], now);
      UpsertedAllKeepsReflects(st1, hash, rest, now, jobs[0]);
      forall i | 0 <= i < |jobs| ensures Reflects(UpsertedAll(st, hash, jobs, now).rows, jobs[i].Fp(hash), jobs[i]) {
        if i > 0 {
          assert jobs[i] == rest[i - 1];
        }
      }
    }
  }

  lemma {:induction false} UpsertedAllKeepsReflects(st: Store, hash: string -> string, jobs: seq<JobNorm>, now: int, jn: JobNorm)
    requires Reflects(st.rows, jn.Fp(hash), jn)
    requires forall i :: 0 <= i < |jobs| ==> jobs[i].Fp(hash) != jn.Fp(hash)
    ensures Reflects(UpsertedAll(st, hash, jobs, now).rows, jn.Fp(hash), jn)
    decreases |jobs|
  {
    if jobs != [] {
      UpsertKeepsReflects(st, hash, jn, jobs[0], now);
      UpsertedAllKeepsReflects(Upserted(st, hash, jobs[0], now), hash, jobs[1..], now, jn);
    }
  }

  lemma {:induction false} UpsertedAllReflected(st: Store, hash: string -> string, jobs: seq<JobNorm>, now: int)
    requires forall i :: 0 <= i < |jobs| ==> Reflects(st.rows, jobs[i].Fp(hash), jobs[i])
    ensures UpsertedAll(st, hash, jobs, now) == st
    decreases |jobs|
  {
    if jobs != [] {
      UpsertReflected(st, hash, jobs[0], now);
      UpsertedAllReflected(st, hash, jobs[1..], now);
    }
  }

  /**
   * Storing a batch whose fingerprints are distinct (as `main`'s batch is,
   * after deduplication) a second time changes nothing.
   */
  lemma UpsertedAllIdempotent(st: Store, hash: string -> string, jobs: seq<JobNorm>, now1: int, now2: int)
    requires DistinctKeys(jobs, (j: JobNorm) => j.Fp(hash))
    ensures UpsertedAll(UpsertedAll(st, hash, jobs, now1), hash, jobs, now2) == UpsertedAll(st, hash, jobs, now1)
  {
    UpsertedAllReflects(st, hash, jobs, now1);
    UpsertedAllReflected(UpsertedAll(st, hash, jobs, now1), hash, jobs, now2);
  }

  /** Running the ingestion pipeline's storing step twice on its filtered batch changes nothing the second time. */
  lemma IngestBatchIdempotent(st: Store, hash: string -> string, search: (string, string) -> bool,
                              jobs: seq<JobNorm>, query: string, profile: Option<string>, now1: int, now2: int)
    ensures var batch := FilterBatch(hash, search, jobs, query, profile);
      UpsertedAll(UpsertedAll(st, hash, batch, now1), hash, batch, now2) == UpsertedAll(st, hash, batch, now1)
  {
    var batch := FilterBatch(hash, search, jobs, query, profile);
    FilterBatchDistinct(hash, search, jobs, query, profile);
    UpsertedAllIdempotent(st, hash, batch, now1, now2);
  }

  /** The job table as the ingestion job sees it through its session. */
  class JobStore {
    var rows: seq<JobRow>
    var nextId: nat

    ghost predicate Valid()
      reads this
    {
      StoreValid(Store(rows, nextId))
    }

    constructor ()
      ensures rows == [] && nextId == 1 && Valid()
    {
      rows := [];
      nextId := 1;
    }

    /** `db.query(Job).filter(Job.fingerprint == fp).first()`. */
    method FindByFingerprint(fp: string) returns (found: Option<nat>)
      ensures found == FirstMatch(rows, fp)
    {
      var i := 0;
      while i < |rows|
        invariant 0 <= i <= |rows|
        invariant forall k :: 0 <= k < i ==> rows[k].fingerprint != Some(fp)
      {
        if rows[i].fingerprint == Some(fp) {
          FirstMatchIs(rows, fp, i);
          return Some(i);
        }
        i := i + 1;
      }
      FirstMatchNone(rows, fp);
      return None;
    }

    /** `upsert_by_fingerprint(db, jn)`. */
    method Upsert(hash: string -> string, jn: JobNorm, now: int)
      requires Valid()
      modifies this
      ensures Store(rows, nextId) == Upserted(old(Store(rows, nextId)), hash, jn, now)
      ensures Valid()
    {
      UpsertBounds(Store(rows, nextId), hash, jn, now);
      var fp := jn.Fp(hash);
      var existing := FindByFingerprint(fp);
      match existing {
        case Some(k) =>
          rows := rows[k := Overwritten(rows[k], jn)];
        case None =>
          rows := rows + [NewRow(nextId, fp, jn, now)];
          nextId := nextId + 1;
      }
    }

    /** Lines 177-180 of `main`: upsert every job of the batch, in order. */
    method UpsertAll(hash: string -> string, jobs: seq<JobNorm>, now: int)
      requires Valid()
      modifies this
      ensures Store(rows, nextId) == UpsertedAll(old(Store(rows, nextId)), hash, jobs, now)
      ensures Valid()
    {
      for i := 0 to |jobs|
        invariant Valid()
        invariant UpsertedAll(old(Store(rows, nextId)), hash, jobs, now)
               == UpsertedAll(Store(rows, nextId), hash, jobs[i..], now)
      {
        assert jobs[i..][1..] == jobs[i + 1..];
        Upsert(hash, jobs[i], now);
      }
    }
  }
}
