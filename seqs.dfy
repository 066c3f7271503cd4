/**
 * List helpers: comprehensions with a condition, `[x for x in xs if p(x)]`,
 * and the "map, skip some, append until a cap is reached" loops of the adapters.
 */
module Seqs {
  import opened Wrappers

  function Filter<T(==,!new)>(xs: seq<T>, p: T -> bool): (r: seq<T>)
    ensures |r| <= |xs|
    ensures forall x :: x in r <==> x in xs && p(x)
  {
    if xs == [] then []
    else (if p(xs[0]) then [xs[0]] else []) + Filter(xs[1..], p)
  }

  /** Keys that are pairwise distinct along `xs`. */
  predicate DistinctKeys<T, K(==)>(xs: seq<T>, key: T -> K) {
    forall a, b :: 0 <= a < b < |xs| ==> key(xs[a]) != key(xs[b])
  }

  /** Filtering keeps the relative order, so distinct keys stay distinct. */
  lemma {:induction false} FilterKeepsDistinct<T(!new), K>(xs: seq<T>, p: T -> bool, key: T -> K)
    requires DistinctKeys(xs, key)
    ensures DistinctKeys(Filter(xs, p), key)
  {
    if xs != [] {
      var rest := xs[1..];
      assert DistinctKeys(rest, key) by {
        forall a, b | 0 <= a < b < |rest| ensures key(rest[a]) != key(rest[b]) {
          assert rest[a] == xs[a + 1] && rest[b] == xs[b + 1];
        }
      }
      FilterKeepsDistinct(rest, p, key);
      var fr := Filter(rest, p);
      forall y | y in fr ensures key(y) != key(xs[0]) {
        var b :| 0 <= b < |rest| && rest[b] == y;
        assert xs[b + 1] == y;
      }
    }
  }

  /** A condition every element meets removes nothing. */
  lemma {:induction false} FilterAll<T(!new)>(xs: seq<T>, p: T -> bool)
    requires forall x :: x in xs ==> p(x)
    ensures Filter(xs, p) == xs
  {
    if xs != [] {
      FilterAll(xs[1..], p);
      assert [xs[0]] + xs[1..] == xs;
    }
  }

  /** Two conditions that agree on every element filter alike. */
  lemma {:induction false} SameFilter<T(!new)>(xs: seq<T>, p: T -> bool, q: T -> bool)
    requires forall x :: x in xs ==> p(x) == q(x)
    ensures Filter(xs, p) == Filter(xs, q)
  {
    if xs != [] {
      SameFilter(xs[1..], p, q);
    }
  }

  /** A condition no element meets removes everything. */
  lemma {:induction false} FilterNone<T(!new)>(xs: seq<T>, p: T -> bool)
    requires forall x :: x in xs ==> !p(x)
    ensures Filter(xs, p) == []
  {
    if xs != [] {
      FilterNone(xs[1..], p);
    }
  }

  /**
   * `[f(x) for x in xs if f(x) is not None]`: each element maps to at most one
   * output element, in order. Defined from the last element so that a loop that
   * appends to a list is one unfolding away from it.
   */
  function FilterMap<T, U>(xs: seq<T>, f: T -> Option<U>): (r: seq<U>)
    ensures |r| <= |xs|
    decreases |xs|
  {
    if xs == [] then []
    else FilterMap(xs[..|xs| - 1], f) + Emitted(f(xs[|xs| - 1]))
  }

  /** The selection that keeps every element, converted by `f`. */
  function Total<T(!new), U>(f: T -> U): (r: T -> Option<U>)
    ensures forall x :: r(x) == Some(f(x))
  {
    x => Some(f(x))
  }

  /** The output of one element: `[u]` for `Some(u)`, nothing for `None`. */
  function Emitted<U>(o: Option<U>): seq<U> {
    match o
    case Some(u) => [u]
    case None => []
  }

  /** One more element processed. */
  lemma {:induction false} FilterMapSnoc<T, U>(xs: seq<T>, k: nat, f: T -> Option<U>)
    requires k < |xs|
    ensures FilterMap(xs[..k + 1], f) == FilterMap(xs[..k], f) + Emitted(f(xs[k]))
  {
    assert xs[..k + 1][..k] == xs[..k];
  }

  lemma {:induction false} FilterMapAppend<T, U>(xs: seq<T>, ys: seq<T>, f: T -> Option<U>)
    ensures FilterMap(xs + ys, f) == FilterMap(xs, f) + FilterMap(ys, f)
    decreases |ys|
  {
    if ys != [] {
      var zs := ys[..|ys| - 1];
      assert (xs + ys)[..|xs + ys| - 1] == xs + zs;
      FilterMapAppend(xs, zs, f);
    } else {
      assert xs + ys == xs;
    }
  }

  /** An element is in the output iff some input element maps to it. */
  lemma {:induction false} FilterMapMember<T, U>(xs: seq<T>, f: T -> Option<U>, u: U)
    ensures u in FilterMap(xs, f) <==> exists i :: 0 <= i < |xs| && f(xs[i]) == Some(u)
    decreases |xs|
  {
    if xs != [] {
      var n := |xs| - 1;
      FilterMapMember(xs[..n], f, u);
      if u in FilterMap(xs, f) && u !in FilterMap(xs[..n], f) {
        assert f(xs[n]) == Some(u);
      }
      if exists i :: 0 <= i < |xs| && f(xs[i]) == Some(u) {
        var i :| 0 <= i < |xs| && f(xs[i]) == Some(u);
        if i < n {
          assert xs[..n][i] == xs[i];
        }
      }
    }
  }

  /** The input element an output element comes from. */
  lemma {:induction false} FilterMapSource<T, U>(xs: seq<T>, f: T -> Option<U>, u: U) returns (i: nat)
    requires u in FilterMap(xs, f)
    ensures i < |xs| && f(xs[i]) == Some(u)
  {
    FilterMapMember(xs, f, u);
    i :| 0 <= i < |xs| && f(xs[i]) == Some(u);
  }

  /** Processing more elements never shortens the output. */
  lemma {:induction false} FilterMapGrows<T, U>(xs: seq<T>, i: nat, j: nat, f: T -> Option<U>)
    requires i <= j <= |xs|
    ensures |FilterMap(xs[..i], f)| <= |FilterMap(xs[..j], f)|
  {
    assert xs[..j] == xs[..i] + xs[i..j];
    FilterMapAppend(xs[..i], xs[i..j], f);
  }

  /** `xs[:n]`. */
  function Take<T>(xs: seq<T>, n: nat): (r: seq<T>)
    ensures |r| <= n && |r| <= |xs|
    ensures |r| == n || r == xs
    ensures r == xs[..|r|]
  {
    if |xs| <= n then xs else xs[..n]
  }

  /** Whatever follows a prefix that already reaches the cap is cut off. */
  lemma {:induction false} TakeAppendFull<T>(a: seq<T>, b: seq<T>, n: nat)
    requires |a| >= n
    ensures Take(a + b, n) == Take(a, n)
  {
    assert (a + b)[..n] == a[..n];
  }

  lemma TakeMember<T>(xs: seq<T>, n: nat, x: T)
    requires x in Take(xs, n)
    ensures x in xs
  {
    var r := Take(xs, n);
    var i :| 0 <= i < |r| && r[i] == x;
    assert xs[i] == x;
  }

  /** A prefix cut at the cap and then extended is cut at the same place as the whole. */
  lemma TakeOfTake<T>(a: seq<T>, b: seq<T>, n: nat)
    ensures Take(Take(a, n) + b, n) == Take(a + b, n)
  {
    if |a| >= n {
      TakeAppendFull(a[..n], b, n);
      TakeAppendFull(a, b, n);
    }
  }

  /** A selection that keeps every element keeps the length. */
  lemma {:induction false} FilterMapTotal<T, U>(xs: seq<T>, f: T -> Option<U>)
    requires forall x :: x in xs ==> f(x).Some?
    ensures |FilterMap(xs, f)| == |xs|
    decreases |xs|
  {
    if xs != [] {
      var m := |xs| - 1;
      assert forall x :: x in xs[..m] ==> x in xs;
      FilterMapTotal(xs[..m], f);
      assert xs[m] in xs;
    }
  }

  /** ... and its positions: the i-th output comes from the i-th input. */
  lemma {:induction false} FilterMapIndex<T, U>(xs: seq<T>, f: T -> Option<U>, i: nat)
    requires forall x :: x in xs ==> f(x).Some?
    requires i < |xs|
    ensures |FilterMap(xs, f)| == |xs| && FilterMap(xs, f)[i] == f(xs[i]).value
    decreases |xs|
  {
    var m := |xs| - 1;
    assert forall x :: x in xs[..m] ==> x in xs;
    assert xs[m] in xs;
    FilterMapTotal(xs, f);
    FilterMapTotal(xs[..m], f);
    if i < m {
      FilterMapIndex(xs[..m], f, i);
    }
  }

  /**
   * The cap of the adapters' `count += 1; if count >= limit: break` loops: the
   * check runs after an append, so a limit below one still lets one record through.
   */
  function Cap(limit: int): (r: nat)
    ensures r >= 1
    ensures limit >= 1 ==> r == limit
  {
    if limit >= 1 then limit else 1
  }

  lemma SplitAt<T>(xs: seq<T>, k: nat)
    requires k <= |xs|
    ensures xs[..k] + xs[k..] == xs
  {
  }

  /** The output for `xs` is the output for `xs[..k]` followed by the output for the rest. */
  lemma {:induction false} FilterMapSplit<T, U>(xs: seq<T>, k: nat, f: T -> Option<U>)
    requires k <= |xs|
    ensures FilterMap(xs, f) == FilterMap(xs[..k], f) + FilterMap(xs[k..], f)
  {
    FilterMapAppend(xs[..k], xs[k..], f);
    SplitAt(xs, k);
  }

  lemma EmptyAppend<T>(xs: seq<T>)
    ensures [] + xs == xs
  {
  }

  lemma TailIndex<T>(xs: seq<T>, i: nat)
    requires 0 < i < |xs|
    ensures xs[1..][i - 1] == xs[i]
  {
  }

  lemma Assoc<T>(a: seq<T>, b: seq<T>, c: seq<T>)
    ensures a + (b + c) == (a + b) + c
  {
  }

  /**
   * The step of such a loop: once the output reaches the cap after element `k`,
   * the elements after `k` cannot change the capped result.
   */
  lemma {:induction false} CapStep<T, U>(out0: seq<U>, xs: seq<T>, k: nat, f: T -> Option<U>, n: nat)
    requires k < |xs| && |out0 + FilterMap(xs[..k + 1], f)| >= n
    ensures Take(out0 + FilterMap(xs, f), n) == Take(out0 + FilterMap(xs[..k + 1], f), n)
  {
    FilterMapSplit(xs, k + 1, f);
    Assoc(out0, FilterMap(xs[..k + 1], f), FilterMap(xs[k + 1..], f));
    TakeAppendFull(out0 + FilterMap(xs[..k + 1], f), FilterMap(xs[k + 1..], f), n);
  }

  /**
   * The loop the adapters share: walk `xs`, append what `select` keeps to a list
   * that already holds `out0`, and stop as soon as the list holds `n` elements.
   */
  method AppendSelected<T, U>(out0: seq<U>, xs: seq<T>, select: T -> Option<U>, n: nat) returns (out: seq<U>)
    requires |out0| < n
    ensures out == Take(out0 + FilterMap(xs, select), n)
  {
    out := out0;
    var k := 0;
    while k < |xs|
      invariant k <= |xs|
      invariant out == out0 + FilterMap(xs[..k], select)
      invariant |out| < n
    {
      FilterMapSnoc(xs, k, select);
      var kept := select(xs[k]);
      Assoc(out0, FilterMap(xs[..k], select), Emitted(kept));
      if kept.Some? {
        out := out + [kept.value];
        if |out| >= n {
          CapStep(out0, xs, k, select, n);
          return;
        }
      }
      k := k + 1;
    }
    assert xs[..|xs|] == xs;
  }

  /** The index of the first element that satisfies `p`, or `|xs|` when none does. */
  function FirstIndex<T>(xs: seq<T>, p: T -> bool): (r: nat)
    ensures r <= |xs|
    ensures r < |xs| ==> p(xs[r])
    ensures forall i :: 0 <= i < r ==> !p(xs[i])
    decreases |xs|
  {
    if xs == [] then 0 else if p(xs[0]) then 0 else 1 + FirstIndex(xs[1..], p)
  }

  lemma WholePrefix<T>(xs: seq<T>)
    ensures xs[..|xs|] == xs
  {
  }

  lemma FailsFirst<T, U>(xs: seq<T>, fails: T -> bool, f: T -> Option<U>)
    requires xs != [] && fails(xs[0])
    ensures FirstIndex(xs, fails) == 0 && FilterMap(xs[..FirstIndex(xs, fails)], f) == []
  {
    assert xs[..0] == [];
  }

  lemma FirstIndexNone<T>(xs: seq<T>, p: T -> bool)
    requires forall x :: x in xs ==> !p(x)
    ensures FirstIndex(xs, p) == |xs|
  {
  }

  /** `CapStep` for the elements before index `e`. */
  lemma CapStepBefore<T, U>(out0: seq<U>, xs: seq<T>, e: nat, k: nat, f: T -> Option<U>, n: nat)
    requires k < e <= |xs| && |out0 + FilterMap(xs[..k + 1], f)| >= n
    ensures Take(out0 + FilterMap(xs[..e], f), n) == Take(out0 + FilterMap(xs[..k + 1], f), n)
  {
    assert xs[..e][..k + 1] == xs[..k + 1];
    CapStep(out0, xs[..e], k, f, n);
  }

  /**
   * `AppendSelected` for a loop whose body raises on an element that satisfies
   * `fails`: the loop raises at the first such element unless the cap was
   * reached before it, and otherwise selects among the elements before it.
   */
  method AppendSelectedUntil<T, U>(out0: seq<U>, xs: seq<T>, fails: T -> bool, select: T -> Option<U>, n: nat)
    returns (out: seq<U>, failed: bool)
    requires |out0| < n
    ensures var e := FirstIndex(xs, fails);
      failed <==> e < |xs| && |out0 + FilterMap(xs[..e], select)| < n
    ensures var e := FirstIndex(xs, fails);
      !failed ==> out == Take(out0 + FilterMap(xs[..e], select), n)
  {
    ghost var e := FirstIndex(xs, fails);
    out := out0;
    failed := false;
    var k := 0;
    while k < |xs|
      invariant k <= e
      invariant out == out0 + FilterMap(xs[..k], select)
      invariant |out| < n
    {
      if fails(xs[k]) {
        failed := true;
        return;
      }
      FilterMapSnoc(xs, k, select);
      var kept := select(xs[k]);
      Assoc(out0, FilterMap(xs[..k], select), Emitted(kept));
      if kept.Some? {
        out := out + [kept.value];
        if |out| >= n {
          CapStepBefore(out0, xs, e, k, select, n);
          return;
        }
      }
      k := k + 1;
    }
    assert xs[..e] == xs;
  }

  /** `[y for x in xs for y in g(x)]`, defined from the last element like `FilterMap`. */
  function ConcatMap<T, U>(xs: seq<T>, g: T -> seq<U>): seq<U>
    decreases |xs|
  {
    if xs == [] then [] else ConcatMap(xs[..|xs| - 1], g) + g(xs[|xs| - 1])
  }

  lemma {:induction false} ConcatMapSnoc<T, U>(xs: seq<T>, k: nat, g: T -> seq<U>)
    requires k < |xs|
    ensures ConcatMap(xs[..k + 1], g) == ConcatMap(xs[..k], g) + g(xs[k])
  {
    assert xs[..k + 1][..k] == xs[..k];
  }

  /** With at most `n` elements per unit, `m` units give at most `m * n` elements. */
  lemma {:induction false} ConcatMapBound<T, U>(xs: seq<T>, g: T -> seq<U>, n: nat)
    requires forall x :: x in xs ==> |g(x)| <= n
    ensures |ConcatMap(xs, g)| <= |xs| * n
    decreases |xs|
  {
    if xs != [] {
      var m := |xs| - 1;
      assert forall x :: x in xs[..m] ==> x in xs;
      ConcatMapBound(xs[..m], g, n);
      assert |xs| * n == m * n + n;
    }
  }

  /** Every output element comes from some unit. */
  lemma {:induction false} ConcatMapMember<T, U>(xs: seq<T>, g: T -> seq<U>, u: U) returns (i: nat)
    requires u in ConcatMap(xs, g)
    ensures i < |xs| && u in g(xs[i])
    decreases |xs|
  {
    var m := |xs| - 1;
    if u in g(xs[m]) {
      i := m;
    } else {
      i := ConcatMapMember(xs[..m], g, u);
      assert xs[..m][i] == xs[i];
    }
  }

  /**
   * The loop `for x in xs: ...; out += g(x)` whose body raises on an element
   * that satisfies `fails`: it raises at the first such element and otherwise
   * concatenates the units.
   */
  method ConcatUntil<T, U>(xs: seq<T>, fails: T -> bool, g: T -> seq<U>) returns (out: seq<U>, failed: bool)
    ensures failed <==> FirstIndex(xs, fails) < |xs|
    ensures !failed ==> out == ConcatMap(xs, g)
  {
    out := [];
    for k := 0 to |xs|
      invariant forall i :: 0 <= i < k ==> !fails(xs[i])
      invariant out == ConcatMap(xs[..k], g)
    {
      if fails(xs[k]) {
        FirstIndexAt(xs, fails, k);
        return out, true;
      }
      ConcatMapSnoc(xs, k, g);
      out := out + g(xs[k]);
    }
    FirstIndexNone(xs, fails);
    WholePrefix(xs);
    failed := false;
  }

  /** The first element that satisfies `p` after a run of elements that do not. */
  lemma FirstIndexAt<T>(xs: seq<T>, p: T -> bool, k: nat)
    requires k < |xs| && p(xs[k])
    requires forall i :: 0 <= i < k ==> !p(xs[i])
    ensures FirstIndex(xs, p) == k
  {
  }

  /** The loop `for x in xs: if select(x) is not None: out.append(...)` without a cap. */
  method SelectAll<T, U>(xs: seq<T>, select: T -> Option<U>) returns (out: seq<U>)
    ensures out == FilterMap(xs, select)
  {
    out := [];
    for k := 0 to |xs|
      invariant out == FilterMap(xs[..k], select)
    {
      FilterMapSnoc(xs, k, select);
      var kept := select(xs[k]);
      if kept.Some? {
        out := out + [kept.value];
      }
    }
    WholePrefix(xs);
  }

  /** A selection that keeps every element as it is leaves the sequence unchanged. */
  lemma {:induction false} FilterMapSome<T>(xs: seq<T>, f: T -> Option<T>)
    requires forall x :: x in xs ==> f(x) == Some(x)
    ensures FilterMap(xs, f) == xs
    decreases |xs|
  {
    if xs != [] {
      var init := xs[..|xs| - 1];
      assert forall x :: x in init ==> x in xs;
      FilterMapSome(init, f);
      assert xs[|xs| - 1] in xs;
      assert init + [xs[|xs| - 1]] == xs;
    }
  }
}
