/**
 * Collecting results in completion order and putting them back in input order:
 * `asyncio.as_completed` hands the results over in some order, modelled as a permutation of the
 * record positions, and `results.sort(key=lambda r: r["__idx"])` (a stable sort) undoes it.
 */
module Reorder {
  import opened Python

  /** The sort key `r["__idx"]`. */
  function IdxOf(d: Dict): int {
    match Get(d, "__idx")
    case Some(JInt(i)) => i
    case _ => -1
  }

  predicate SortedByIdx(ys: seq<Dict>) {
    forall i, j :: 0 <= i < j < |ys| ==> IdxOf(ys[i]) <= IdxOf(ys[j])
  }

  predicate StrictlyIncreasing(ys: seq<Dict>) {
    forall i, j :: 0 <= i < j < |ys| ==> IdxOf(ys[i]) < IdxOf(ys[j])
  }

  /** Puts `x` before the first element whose key is not smaller, so equal keys keep their order. */
  function Insert(x: Dict, ys: seq<Dict>): (r: seq<Dict>)
    ensures multiset(r) == multiset(ys) + multiset{x}
    ensures |r| == |ys| + 1 && r[0] == if ys == [] || IdxOf(x) <= IdxOf(ys[0]) then x else ys[0]
  {
    if ys == [] then [x]
    else if IdxOf(x) <= IdxOf(ys[0]) then [x] + ys
    else
      assert ys == [ys[0]] + ys[1..];
      [ys[0]] + Insert(x, ys[1..])
  }

  /** A key no larger than the head of a sorted sequence can go in front of it. */
  lemma ConsSorted(a: Dict, r: seq<Dict>)
    requires SortedByIdx(r) && (r != [] ==> IdxOf(a) <= IdxOf(r[0]))
    ensures SortedByIdx([a] + r)
  {
    var s := [a] + r;
    forall i, j | 0 <= i < j < |s| ensures IdxOf(s[i]) <= IdxOf(s[j]) {
      if i == 0 {
        assert IdxOf(r[0]) <= IdxOf(r[j - 1]);
      }
    }
  }

  lemma {:induction false} InsertSorted(x: Dict, ys: seq<Dict>)
    requires SortedByIdx(ys)
    ensures SortedByIdx(Insert(x, ys))
    decreases |ys|
  {
    if ys == [] {
    } else if IdxOf(x) <= IdxOf(ys[0]) {
      ConsSorted(x, ys);
    } else {
      InsertSorted(x, ys[1..]);
      ConsSorted(ys[0], Insert(x, ys[1..]));
    }
  }

  /** `list.sort(key=lambda r: r["__idx"])` */
  function SortByIdx(xs: seq<Dict>): (r: seq<Dict>)
    ensures SortedByIdx(r) && multiset(r) == multiset(xs)
  {
    if xs == [] then []
    else
      assert xs == [xs[0]] + xs[1..];
      InsertSorted(xs[0], SortByIdx(xs[1..]));
      Insert(xs[0], SortByIdx(xs[1..]))
  }

  /** A sorted rearrangement of a sequence whose keys strictly increase is that sequence itself. */
  lemma {:induction false} SortedUnique(a: seq<Dict>, b: seq<Dict>)
    requires StrictlyIncreasing(a) && SortedByIdx(b) && multiset(a) == multiset(b)
    ensures a == b
    decreases |a|
  {
    assert |a| == |multiset(a)| == |multiset(b)| == |b|;
    if a != [] {
      SameHead(a, b);
      TailMultiset(a);
      TailMultiset(b);
      SortedUnique(a[1..], b[1..]);
    }
  }

  /** Both start with the element of the smallest key. */
  lemma SameHead(a: seq<Dict>, b: seq<Dict>)
    requires StrictlyIncreasing(a) && SortedByIdx(b) && multiset(a) == multiset(b) && a != [] && b != []
    ensures a[0] == b[0]
  {
    assert b[0] in multiset(a);
    var k :| 0 <= k < |a| && a[k] == b[0];
    assert a[0] in multiset(b);
    var m :| 0 <= m < |b| && b[m] == a[0];
    assert IdxOf(b[0]) <= IdxOf(b[m]);
    assert k == 0;
  }

  lemma TailMultiset(a: seq<Dict>)
    requires a != []
    ensures multiset(a[1..]) == multiset(a) - multiset{a[0]}
  {
    assert a == [a[0]] + a[1..];
  }

  lemma RemoveAtMultiset(s: seq<nat>, p: nat)
    requires p < |s|
    ensures multiset(s[..p] + s[p + 1..]) == multiset(s) - multiset{s[p]}
  {
    assert s == s[..p] + [s[p]] + s[p + 1..];
  }

  function Range(n: nat): (r: seq<nat>)
    ensures |r| == n && forall i :: 0 <= i < n ==> r[i] == i
  {
    seq(n, i => i)
  }

  /** `order` lists each of the positions `0 .. n-1` exactly once. */
  predicate IsPermutation(order: seq<nat>, n: nat) {
    multiset(order) == multiset(Range(n))
  }

  lemma PermutationBounds(order: seq<nat>, n: nat)
    requires IsPermutation(order, n)
    ensures |order| == n && forall j :: 0 <= j < |order| ==> order[j] < n
  {
    assert |order| == |multiset(order)| == |multiset(Range(n))| == n;
    forall j | 0 <= j < |order| ensures order[j] < n {
      assert order[j] in multiset(Range(n));
    }
  }

  /** `[f(0), ..., f(n-1)]`, built up one element at a time. */
  function Build<T>(f: nat --> T, n: nat): (r: seq<T>)
    requires forall i :: 0 <= i < n ==> f.requires(i)
    ensures |r| == n
  {
    if n == 0 then [] else Build(f, n - 1) + [f(n - 1)]
  }

  lemma {:induction false} BuildAt<T>(f: nat --> T, n: nat, i: nat)
    requires forall k :: 0 <= k < n ==> f.requires(k)
    requires i < n
    ensures Build(f, n)[i] == f(i)
    decreases n
  {
    if i < n - 1 {
      BuildAt(f, n - 1, i);
    }
  }

  /** Every position is completed at some point of the order. */
  lemma PermutationCovers(order: seq<nat>, n: nat, i: nat)
    requires IsPermutation(order, n) && i < n
    ensures exists j :: 0 <= j < |order| && order[j] == i
  {
    assert Range(n)[i] == i;
    assert i in multiset(Range(n));
    assert i in multiset(order);
  }

  /** Each position occurs once in `Range(n)`. */
  lemma {:induction false} RangeOnce(n: nat, x: nat)
    ensures multiset(Range(n))[x] == if x < n then 1 else 0
  {
    if n > 0 {
      assert Range(n) == Range(n - 1) + [n - 1];
      RangeOnce(n - 1, x);
    }
  }

  /** No position is completed twice. */
  lemma PermutationDistinct(order: seq<nat>, n: nat, a: nat, b: nat)
    requires IsPermutation(order, n) && a < b < |order|
    ensures order[a] != order[b]
  {
    if order[a] == order[b] {
      assert order == order[..a] + [order[a]] + order[a + 1..b] + [order[b]] + order[b + 1..];
      assert multiset(order)[order[a]] >= 2;
      RangeOnce(n, order[a]);
    }
  }

  /** The elements of `ys` in the order `order` names them: the order in which the tasks complete. */
  function Pick(ys: seq<Dict>, order: seq<nat>): (r: seq<Dict>)
    requires forall j :: 0 <= j < |order| ==> order[j] < |ys|
    ensures |r| == |order| && forall j :: 0 <= j < |order| ==> r[j] == ys[order[j]]
  {
    seq(|order|, j requires 0 <= j < |order| => ys[order[j]])
  }

  /** One more completed task appends its result. */
  lemma PickSnoc(ys: seq<Dict>, order: seq<nat>, j: nat)
    requires j < |order| && forall i :: 0 <= i < |order| ==> order[i] < |ys|
    ensures Pick(ys, order[..j + 1]) == Pick(ys, order[..j]) + [ys[order[j]]]
  {
    assert order[..j + 1] == order[..j] + [order[j]];
  }

  /** Taking the elements in the order of a permutation loses none and duplicates none. */
  lemma {:induction false} PickMultiset(ys: seq<Dict>, order: seq<nat>)
    requires IsPermutation(order, |ys|)
    ensures PermutationBoundsHold(order, |ys|) && multiset(Pick(ys, order)) == multiset(ys)
    decreases |ys|
  {
    PermutationBounds(order, |ys|);
    if ys != [] {
      var n: nat := |ys| - 1;
      assert n in multiset(Range(n + 1)) by {
        assert Range(n + 1)[n] == n;
      }
      var p :| 0 <= p < |order| && order[p] == n;
      var rest := order[..p] + order[p + 1..];
      PermutationRemoveLast(order, n, p);
      PickMultiset(ys[..n], rest);
      PickRemoveLast(ys, order, p);
      assert ys == ys[..n] + [ys[n]];
    }
  }

  /** Removing the largest position from a permutation leaves a permutation of the others. */
  lemma PermutationRemoveLast(order: seq<nat>, n: nat, p: nat)
    requires IsPermutation(order, n + 1) && p < |order| && order[p] == n
    ensures IsPermutation(order[..p] + order[p + 1..], n)
    ensures forall j :: 0 <= j < |order| && j != p ==> order[j] < n
  {
    PermutationBounds(order, n + 1);
    var rest := order[..p] + order[p + 1..];
    RemoveAtMultiset(order, p);
    assert Range(n + 1) == Range(n) + [n];
    PermutationBounds(rest, n);
    forall j | 0 <= j < |order| && j != p ensures order[j] < n {
      if j < p {
        assert rest[j] == order[j];
      } else {
        assert rest[j - 1] == order[j];
      }
    }
  }

  /** Taking the last element out of `ys` and its position out of `order`. */
  lemma PickRemoveLast(ys: seq<Dict>, order: seq<nat>, p: nat)
    requires ys != [] && p < |order| && order[p] == |ys| - 1
    requires forall j :: 0 <= j < |order| && j != p ==> order[j] < |ys| - 1
    ensures forall j :: 0 <= j < |order| ==> order[j] < |ys|
    ensures multiset(Pick(ys, order)) == multiset(Pick(ys[..|ys| - 1], order[..p] + order[p + 1..])) + multiset{ys[|ys| - 1]}
  {
    var n := |ys| - 1;
    var left, right := order[..p], order[p + 1..];
    assert order == left + [n] + right;
    PickConcat(ys, left + [n], right);
    PickConcat(ys, left, [n]);
    PickConcat(ys, left, right);
    PickPrefix(ys, n, left + right);
  }

  /** Positions below `m` pick the same elements from `ys[..m]` as from `ys`. */
  lemma PickPrefix(ys: seq<Dict>, m: nat, s: seq<nat>)
    requires m <= |ys| && forall j :: 0 <= j < |s| ==> s[j] < m
    ensures Pick(ys[..m], s) == Pick(ys, s)
  {
  }

  /** Picking along two position lists one after the other. */
  lemma PickConcat(ys: seq<Dict>, a: seq<nat>, b: seq<nat>)
    requires forall j :: 0 <= j < |a + b| ==> (a + b)[j] < |ys|
    ensures (forall j :: 0 <= j < |a| ==> a[j] < |ys|) && (forall j :: 0 <= j < |b| ==> b[j] < |ys|)
    ensures Pick(ys, a + b) == Pick(ys, a) + Pick(ys, b)
  {
    assert forall j :: 0 <= j < |a| ==> a[j] == (a + b)[j];
    assert forall j :: 0 <= j < |b| ==> b[j] == (a + b)[|a| + j];
  }

  predicate PermutationBoundsHold(order: seq<nat>, n: nat) {
    |order| == n && forall j :: 0 <= j < |order| ==> order[j] < n
  }

  /**
   * Whatever order the results complete in, sorting them by `__idx` gives back the input order,
   * provided the records' `__idx` values strictly increase in input order.
   */
  lemma RestoreOrder(ys: seq<Dict>, order: seq<nat>)
    requires IsPermutation(order, |ys|) && StrictlyIncreasing(ys)
    ensures PermutationBoundsHold(order, |ys|) && SortByIdx(Pick(ys, order)) == ys
  {
    PickMultiset(ys, order);
    SortedUnique(ys, SortByIdx(Pick(ys, order)));
  }
}
