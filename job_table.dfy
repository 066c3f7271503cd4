/**
 * The `jobs` table as the two APIs query it (jobboard/backend/app/models.py)
 * and the part of SQL their filters use: three-valued logic, where a
 * comparison with NULL is UNKNOWN and `WHERE` keeps only the rows whose
 * condition is TRUE, and `ILIKE '%text%'`, a case-insensitive substring test.
 */
module JobTable {
  import opened Wrappers
  import opened Strings
  import opened Rows

  /** SQL's truth values. */
  datatype Truth = True | False | Unknown

  /** `a OR b`: TRUE wins, then UNKNOWN. */
  function Or(a: Truth, b: Truth): (r: Truth)
    ensures r == True <==> a == True || b == True
    ensures r == False <==> a == False && b == False
  {
    match (a, b)
    case (True, _) => True
    case (_, True) => True
    case (False, False) => False
    case _ => Unknown
  }

  /** `NOT a`: UNKNOWN stays UNKNOWN. */
  function Not(a: Truth): (r: Truth)
    ensures r == True <==> a == False
    ensures r == False <==> a == True
  {
    match a
    case True => False
    case False => True
    case Unknown => Unknown
  }

  /** `or_(*conds)`: the disjunction of a list, FALSE for an empty one. */
  function AnyOf(conds: seq<Truth>): Truth
    decreases |conds|
  {
    if conds == [] then False else Or(AnyOf(conds[..|conds| - 1]), conds[|conds| - 1])
  }

  /** The disjunction is TRUE exactly when one of its terms is TRUE ... */
  lemma {:induction false} AnyOfTrue(conds: seq<Truth>)
    ensures AnyOf(conds) == True <==> exists i :: 0 <= i < |conds| && conds[i] == True
    decreases |conds|
  {
    if conds != [] {
      var init := conds[..|conds| - 1];
      AnyOfTrue(init);
      assert forall i :: 0 <= i < |init| ==> init[i] == conds[i];
    }
  }

  /** ... and FALSE exactly when all its terms are FALSE. */
  lemma {:induction false} AnyOfFalse(conds: seq<Truth>)
    ensures AnyOf(conds) == False <==> forall i :: 0 <= i < |conds| ==> conds[i] == False
    decreases |conds|
  {
    if conds != [] {
      var init := conds[..|conds| - 1];
      AnyOfFalse(init);
      assert forall i :: 0 <= i < |init| ==> init[i] == conds[i];
    }
  }

  /** A case-insensitive substring test. */
  predicate IContains(text: string, needle: string) {
    Contains(Lower(text), Lower(needle))
  }

  /** `col ILIKE '%needle%'` for a needle without `%`, `_` or `\`; UNKNOWN on NULL. */
  function ILike(col: Option<string>, needle: string): (r: Truth)
    ensures r == Unknown <==> col.None?
    ensures r == True <==> col.Some? && IContains(col.value, needle)
  {
    if col.None? then Unknown else if IContains(col.value, needle) then True else False
  }

  /** `WHERE cond` keeps a row only when the condition is TRUE. */
  predicate Kept(cond: Truth) {
    cond == True
  }

  /** The seven columns the free-text query searches: title, company, location, description, tags, source, origin. */
  function SearchedColumns(row: JobRow): seq<Option<string>> {
    [Some(row.title), Some(row.company), row.location, row.description, row.tags, row.source, row.originDomain]
  }

  /**
   * `or_(Job.title.ilike(ql), ..., Job.origin_domain.ilike(ql))` with
   * `ql = f"%{q.lower()}%"`.
   */
  function QueryHit(row: JobRow, q: string): Truth {
    var cols := SearchedColumns(row);
    AnyOf(seq(|cols|, i requires 0 <= i < |cols| => ILike(cols[i], Lower(q))))
  }

  /**
   * A row matches the query exactly when one of its non-NULL searched columns
   * holds the lower-cased query, ignoring letter case; NULL columns never match.
   */
  lemma QueryHitIff(row: JobRow, q: string)
    ensures Kept(QueryHit(row, q)) <==>
      exists i :: 0 <= i < 7 && SearchedColumns(row)[i].Some? && IContains(SearchedColumns(row)[i].value, Lower(q))
  {
    var cols := SearchedColumns(row);
    var conds := seq(|cols|, i requires 0 <= i < |cols| => ILike(cols[i], Lower(q)));
    AnyOfTrue(conds);
    assert |cols| == 7;
    assert forall i :: 0 <= i < 7 ==> (conds[i] == True <==> cols[i].Some? && IContains(cols[i].value, Lower(q)));
  }
}
