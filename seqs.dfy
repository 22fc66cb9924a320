/**
 * The array helpers the source leans on everywhere, as total functions:
 * `findIndex`/`find` (first match), `filter`, `Math.max(0, ...xs)` and a
 * stable sort by an integer key (`sort((a, b) => a.k - b.k)`).
 */
module Seqs {
  import opened Types

  /** `s.findIndex(p)`: the index of the first element satisfying `p`, or None (-1 in the source). */
  function FirstIndex<T>(s: seq<T>, p: T -> bool): (r: Option<nat>)
    ensures r.Some? ==> r.value < |s| && p(s[r.value])
    ensures r.Some? ==> forall j :: 0 <= j < r.value ==> !p(s[j])
    ensures r.None? <==> forall j :: 0 <= j < |s| ==> !p(s[j])
  {
    if |s| == 0 then None
    else if p(s[0]) then Some(0)
    else match FirstIndex(s[1..], p)
      case None => None
      case Some(k) => Some(k + 1)
  }

  /** Replacing the head of `[x] + t` leaves the tail as it is. */
  lemma ReplaceHead<T>(x: T, y: T, t: seq<T>)
    ensures ([x] + t)[0 := y] == [y] + t
  {
  }

  /** Any index that satisfies `p` with no earlier one satisfying it is the one `FirstIndex` finds. */
  lemma FirstIndexIs<T>(s: seq<T>, p: T -> bool, k: nat)
    requires k < |s| && p(s[k])
    requires forall j :: 0 <= j < k ==> !p(s[j])
    ensures FirstIndex(s, p) == Some(k)
  {
  }

  /** Past a head that does not satisfy `p`, the first index is one more than in the tail. */
  lemma FirstIndexSkip<T>(s: seq<T>, p: T -> bool)
    requires |s| > 0 && !p(s[0])
    ensures FirstIndex(s, p) == if FirstIndex(s[1..], p).None? then None else Some(FirstIndex(s[1..], p).value + 1)
  {
  }

  /**
   * The index a `new Map(s.map(x => [key(x), x]))` lookup lands on: the
   * last element satisfying `p`, since later entries overwrite earlier ones.
   */
  function LastIndex<T>(s: seq<T>, p: T -> bool): (r: Option<nat>)
    ensures r.Some? ==> r.value < |s| && p(s[r.value])
    ensures r.Some? ==> forall j :: r.value < j < |s| ==> !p(s[j])
    ensures r.None? <==> forall j :: 0 <= j < |s| ==> !p(s[j])
  {
    if |s| == 0 then None
    else if p(s[|s| - 1]) then Some(|s| - 1)
    else LastIndex(s[..|s| - 1], p)
  }

  /** `s.filter(p)`. */
  function Filter<T>(s: seq<T>, p: T -> bool): (r: seq<T>)
    ensures |r| <= |s|
    ensures forall i :: 0 <= i < |r| ==> r[i] in s && p(r[i])
    ensures forall i :: 0 <= i < |s| && p(s[i]) ==> s[i] in r
  {
    if |s| == 0 then []
    else if p(s[0]) then [s[0]] + Filter(s[1..], p)
    else Filter(s[1..], p)
  }

  /** Filtering keeps relative order: it distributes over concatenation. */
  lemma {:induction false} FilterAppend<T>(a: seq<T>, b: seq<T>, p: T -> bool)
    ensures Filter(a + b, p) == Filter(a, p) + Filter(b, p)
  {
    if |a| == 0 {
      assert a + b == b;
    } else {
      assert (a + b)[0] == a[0] && (a + b)[1..] == a[1..] + b;
      FilterAppend(a[1..], b, p);
    }
  }

  /** A sequence is its part before `k`, its entry at `k` and its part after `k`. */
  lemma SplitAt<T>(s: seq<T>, k: int)
    requires 0 <= k < |s|
    ensures s == s[..k] + ([s[k]] + s[k + 1..])
  {
    assert s[k..] == [s[k]] + s[k + 1..];
    assert s == s[..k] + s[k..];
  }

  /** The last `|b|` entries of `a + b` are `b`. */
  lemma AppendSuffix<T>(a: seq<T>, b: seq<T>)
    ensures forall i :: 0 <= i < |b| ==> (a + b)[|a + b| - |b| + i] == b[i]
  {
  }

  /** A filter that every element passes keeps the whole sequence. */
  lemma {:induction false} FilterAll<T>(s: seq<T>, p: T -> bool)
    requires forall i :: 0 <= i < |s| ==> p(s[i])
    ensures Filter(s, p) == s
  {
    if |s| > 0 {
      FilterAll(s[1..], p);
    }
  }

  /** A filter that fails only the entry at `k` removes that entry and keeps the rest in order. */
  lemma FilterDropsOne<T>(s: seq<T>, k: int, p: T -> bool)
    requires 0 <= k < |s| && !p(s[k])
    requires forall i :: 0 <= i < |s| && i != k ==> p(s[i])
    ensures Filter(s, p) == s[..k] + s[k + 1..]
  {
    SplitAt(s, k);
    FilterKeepsAround(s, k, p);
    FilterAppend(s[..k], [s[k]] + s[k + 1..], p);
    FilterSkipsHead(s[k], s[k + 1..], p);
  }

  /** Every entry other than the one at `k` passes, so both sides of it are kept whole. */
  lemma FilterKeepsAround<T>(s: seq<T>, k: int, p: T -> bool)
    requires 0 <= k < |s|
    requires forall i :: 0 <= i < |s| && i != k ==> p(s[i])
    ensures Filter(s[..k], p) == s[..k] && Filter(s[k + 1..], p) == s[k + 1..]
  {
    var before, after := s[..k], s[k + 1..];
    assert forall i :: 0 <= i < |before| ==> before[i] == s[i];
    FilterAll(before, p);
    assert forall i :: 0 <= i < |after| ==> after[i] == s[k + 1 + i];
    FilterAll(after, p);
  }

  /** A head that fails the filter is dropped. */
  lemma FilterSkipsHead<T>(x: T, t: seq<T>, p: T -> bool)
    requires !p(x)
    ensures Filter([x] + t, p) == Filter(t, p)
  {
    assert ([x] + t)[1..] == t;
  }

  /** A filter that drops nothing returns its input. */
  lemma {:induction false} FilterSameLength<T>(s: seq<T>, p: T -> bool)
    requires |Filter(s, p)| == |s|
    ensures Filter(s, p) == s
  {
    if |s| > 0 {
      FilterSameLength(s[1..], p);
    }
  }

  /** Every two entries, in list order, are related by `differ`. */
  predicate Pairwise<T>(s: seq<T>, differ: (T, T) -> bool)
  {
    forall i, j :: 0 <= i < j < |s| ==> differ(s[i], s[j])
  }

  /** An entry related to every entry of a pairwise list can go in front of it. */
  lemma PairwisePrepend<T>(x: T, s: seq<T>, differ: (T, T) -> bool)
    requires Pairwise(s, differ)
    requires forall k :: 0 <= k < |s| ==> differ(x, s[k])
    ensures Pairwise([x] + s, differ)
  {
    var all := [x] + s;
    forall i, j | 0 <= i < j < |all| ensures differ(all[i], all[j]) {
      assert all[j] == s[j - 1];
      if i > 0 {
        assert all[i] == s[i - 1];
      }
    }
  }

  /** `Math.max(0, ...xs)`. */
  function MaxOrZero(xs: seq<int>): (r: int)
    ensures r >= 0
    ensures forall i :: 0 <= i < |xs| ==> xs[i] <= r
    ensures r == 0 || r in xs
  {
    if |xs| == 0 then 0
    else
      var rest := MaxOrZero(xs[1..]);
      if xs[0] > rest then xs[0] else rest
  }

  predicate SortedBy<T>(s: seq<T>, key: T -> int)
  {
    forall i, j :: 0 <= i < j < |s| ==> key(s[i]) <= key(s[j])
  }

  function InsertBy<T>(x: T, s: seq<T>, key: T -> int): (r: seq<T>)
    requires SortedBy(s, key)
    ensures SortedBy(r, key)
    ensures multiset(r) == multiset(s) + multiset{x}
    ensures |r| == |s| + 1
  {
    if |s| == 0 then [x]
    else if key(x) <= key(s[0]) then [x] + s
    else
      var tail := InsertBy(x, s[1..], key);
      assert s == [s[0]] + s[1..];
      KeysStayAbove(tail, s[1..], x, key, key(s[0]));
      SortedPrepend(s[0], tail, key);
      [s[0]] + tail
  }

  /** An entry keyed at or below every entry of a sorted list can go in front of it. */
  lemma SortedPrepend<T>(y: T, t: seq<T>, key: T -> int)
    requires SortedBy(t, key) && forall k :: 0 <= k < |t| ==> key(y) <= key(t[k])
    ensures SortedBy([y] + t, key)
  {
    var all := [y] + t;
    forall i, j | 0 <= i < j < |all| ensures key(all[i]) <= key(all[j]) {
      assert all[j] == t[j - 1];
      if i > 0 {
        assert all[i] == t[i - 1];
      }
    }
  }

  /** A rearrangement of `u` plus `x` keeps every key at or above a bound that `u` and `x` respect. */
  lemma KeysStayAbove<T>(t: seq<T>, u: seq<T>, x: T, key: T -> int, bound: int)
    requires multiset(t) == multiset(u) + multiset{x}
    requires bound <= key(x) && forall k :: 0 <= k < |u| ==> bound <= key(u[k])
    ensures forall k :: 0 <= k < |t| ==> bound <= key(t[k])
  {
    forall k | 0 <= k < |t| ensures bound <= key(t[k]) {
      assert t[k] in multiset(t);
      if t[k] != x {
        assert t[k] in multiset(u);
        assert t[k] in u;
      }
    }
  }

  /** A stable insertion sort standing for `Array.prototype.sort` with a numeric comparator. */
  function SortBy<T>(s: seq<T>, key: T -> int): (r: seq<T>)
    ensures SortedBy(r, key)
    ensures multiset(r) == multiset(s)
    ensures |r| == |s|
  {
    if |s| == 0 then []
    else
      assert s == [s[0]] + s[1..];
      InsertBy(s[0], SortBy(s[1..], key), key)
  }
}
