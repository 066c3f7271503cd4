/**
 * `list_jobs` of jobboard/backend/app/main.py: the free-text query over seven
 * columns and the `remote` and `contract` flags, with none of the backend's
 * exclusions or role filter.
 */
module BoardApi {
  import opened Wrappers
  import opened Strings
  import opened Seqs
  import opened JobTable
  import opened Rows
  import Api

  /** The conditions the jobboard's `list_jobs` adds, one per parameter given. */
  predicate BoardKeeps(row: JobRow, q: Option<string>, remote: Option<bool>, contract: Option<bool>) {
    && (!Truthy(q) || Kept(QueryHit(row, q.value)))
    && (remote.None? || row.remote == remote.value)
    && (contract.None? || row.contract == contract.value)
  }

  /**
   * `list_jobs`: a row is listed exactly when the query, if non-empty, occurs
   * in one of its non-NULL searched columns (ignoring letter case) and the
   * flags given agree with its own.
   */
  function BoardListJobs(rows: seq<JobRow>, q: Option<string>, remote: Option<bool>, contract: Option<bool>): (r: seq<JobRow>)
    ensures |r| <= |rows|
    ensures forall row :: row in r <==>
      && row in rows
      && (!Truthy(q) || exists i :: 0 <= i < 7 && SearchedColumns(row)[i].Some? && IContains(SearchedColumns(row)[i].value, Lower(q.value)))
      && (remote.None? || row.remote == remote.value)
      && (contract.None? || row.contract == contract.value)
  {
    forall row | row in rows && Truthy(q) {
      QueryHitIff(row, q.value);
    }
    Filter(rows, (row: JobRow) => BoardKeeps(row, q, remote, contract))
  }

  /** Without parameters (or with an empty query) every job is listed. */
  lemma BoardListAll(rows: seq<JobRow>, q: Option<string>)
    requires !Truthy(q)
    ensures BoardListJobs(rows, q, None, None) == rows
  {
    FilterAll(rows, (row: JobRow) => BoardKeeps(row, q, None, None));
  }

  /** A job whose title holds the query is listed whatever its nullable columns hold. */
  lemma BoardTitleHit(rows: seq<JobRow>, row: JobRow, q: string)
    requires row in rows && q != "" && IContains(row.title, Lower(q))
    ensures row in BoardListJobs(rows, Some(q), None, None)
  {
    assert SearchedColumns(row)[0] == Some(row.title);
  }

  /**
   * The jobboard listing is the backend's common filtering restricted to the
   * three parameters it accepts; the backend then also applies its exclusions
   * and role filter.
   */
  lemma BoardIsBackendCommon(rows: seq<JobRow>, q: Option<string>, remote: Option<bool>, contract: Option<bool>)
    ensures BoardListJobs(rows, q, remote, contract)
      == Api.ApplyCommonFilters(rows, Api.JobQuery(q, remote, contract, None, None, None, None, None, false, false, false))
  {
    var p := Api.JobQuery(q, remote, contract, None, None, None, None, None, false, false, false);
    SameFilter(rows, (row: JobRow) => BoardKeeps(row, q, remote, contract), (row: JobRow) => Api.CommonKeeps(row, p));
  }
}
