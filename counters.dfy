/**
 * Python's `collections.Counter`, as far as the aggregations use it.
 *
 * A counter is a dict, so it remembers the order in which keys were first
 * inserted; it is modelled as its items in that order, each key at most once.
 * A key that is missing reads as 0.
 */
module Counters {

  type Counter<K> = seq<(K, int)>

  /** Each key occurs at most once. */
  ghost predicate DistinctKeys<K>(c: Counter<K>) {
    forall i, j :: 0 <= i < j < |c| ==> c[i].0 != c[j].0
  }

  /** Position of key `k` in insertion order, or `|c|` when `k` is absent. */
  function KeyIndex<K(==)>(c: Counter<K>, k: K): (i: nat)
    ensures i <= |c|
    ensures i < |c| ==> c[i].0 == k
  {
    if |c| == 0 then 0
    else if c[0].0 == k then 0
    else 1 + KeyIndex(c[1..], k)
  }

  /** `counter[k]`: the count of `k`, 0 for a missing key. */
  function Get<K(==)>(c: Counter<K>, k: K): int {
    var i := KeyIndex(c, k);
    if i < |c| then c[i].1 else 0
  }

  /** `counter[k] += v`: a missing key is inserted last, with 0 + v. */
  function Add<K(==)>(c: Counter<K>, k: K, v: int): (r: Counter<K>)
    ensures |r| == |c| || r == c + [(k, v)]
  {
    var i := KeyIndex(c, k);
    if i < |c| then c[i := (k, c[i].1 + v)] else c + [(k, v)]
  }

  /** `counter[k] = v`: a missing key is inserted last. */
  function Put<K(==)>(c: Counter<K>, k: K, v: int): (r: Counter<K>)
    ensures |r| == |c| || r == c + [(k, v)]
  {
    var i := KeyIndex(c, k);
    if i < |c| then c[i := (k, v)] else c + [(k, v)]
  }

  /** The sum of all counts. */
  function Sum<K>(c: Counter<K>): int {
    if c == [] then 0 else c[0].1 + Sum(c[1..])
  }

  /** Places `x` after every item whose count is at least `x`'s. */
  function Insert<K>(t: Counter<K>, x: (K, int)): (r: Counter<K>)
    ensures |r| == |t| + 1
  {
    if t == [] then [x]
    else if t[0].1 >= x.1 then
      assert t == [t[0]] + t[1..];
      [t[0]] + Insert(t[1..], x)
    else [x] + t
  }

  /**
   * `counter.most_common()`: the items sorted by descending count. Python's
   * sort is stable even with `reverse=True`, so equal counts keep their
   * insertion order; insertion sort from the left has the same result.
   */
  function MostCommon<K(==)>(c: Counter<K>): (r: Counter<K>)
    ensures |r| == |c|
  {
    if c == [] then []
    else
      assert c == c[..|c| - 1] + [c[|c| - 1]];
      Insert(MostCommon(c[..|c| - 1]), c[|c| - 1])
  }

  /**
   * `counter.most_common(n)`: the first `n` items of `most_common()`
   * (`heapq.nlargest`, which Python uses here, keeps the same tie order).
   */
  function MostCommonN<K(==)>(c: Counter<K>, n: nat): (r: Counter<K>)
    ensures |r| == if n < |c| then n else |c|
  {
    var all := MostCommon(c);
    if n < |all| then all[..n] else all
  }

  /**
   * `r` lists items in descending count, equal counts in the order their
   * keys were first inserted into `c`.
   */
  ghost predicate RankedBy<K>(r: Counter<K>, c: Counter<K>) {
    forall i, j :: 0 <= i < j < |r| ==> Before(r[i], r[j], c)
  }

  /** Item `a` ranks ahead of item `b`: a larger count, or an equal count and an earlier key. */
  ghost predicate Before<K>(a: (K, int), b: (K, int), c: Counter<K>) {
    a.1 > b.1 || (a.1 == b.1 && KeyIndex(c, a.0) < KeyIndex(c, b.0))
  }

  // ---------------------------------------------------------------------
  // Lookup and update

  /** No key before position `KeyIndex(c, k)` is `k`. */
  lemma {:induction false} KeyIndexFirst<K>(c: Counter<K>, k: K)
    ensures forall j :: 0 <= j < KeyIndex(c, k) ==> c[j].0 != k
  {
    if c != [] && c[0].0 != k {
      KeyIndexFirst(c[1..], k);
    }
  }

  lemma {:induction false} KeyIndexOf<K>(c: Counter<K>, i: nat)
    requires DistinctKeys(c) && i < |c|
    ensures KeyIndex(c, c[i].0) == i
  {
    KeyIndexFirst(c, c[i].0);
  }

  /** Adding keeps every key at its position and appends a missing key last. */
  lemma AddKeys<K>(c: Counter<K>, k: K, v: int)
    ensures forall i :: 0 <= i < |c| ==> Add(c, k, v)[i].0 == c[i].0
    ensures KeyIndex(c, k) < |c| ==> |Add(c, k, v)| == |c|
    ensures KeyIndex(c, k) == |c| ==> Add(c, k, v) == c + [(k, v)]
  {
  }

  /** Adding keeps each key once. */
  lemma AddDistinct<K>(c: Counter<K>, k: K, v: int)
    requires DistinctKeys(c)
    ensures DistinctKeys(Add(c, k, v))
  {
    AddKeys(c, k, v);
    KeyIndexFirst(c, k);
  }

  /** Adding changes exactly the count of `k`, by `v`. */
  lemma AddGet<K>(c: Counter<K>, k: K, v: int, k': K)
    requires DistinctKeys(c)
    ensures Get(Add(c, k, v), k') == Get(c, k') + (if k' == k then v else 0)
  {
    var r := Add(c, k, v);
    AddKeys(c, k, v);
    AddDistinct(c, k, v);
    KeyIndexFirst(c, k');
    var j := KeyIndex(c, k');
    if j < |c| {
      KeyIndexOf(c, j);
      KeyIndexOf(r, j);
    } else if k' == k {
      KeyIndexOf(r, |c|);
    } else {
      assert forall m :: 0 <= m < |r| ==> r[m].0 != k';
    }
  }

  /** Adding `v` to one count adds `v` to the total. */
  lemma AddSum<K>(c: Counter<K>, k: K, v: int)
    ensures Sum(Add(c, k, v)) == Sum(c) + v
  {
    var i := KeyIndex(c, k);
    if i < |c| {
      SumUpdate(c, i, (k, c[i].1 + v));
    } else {
      SumAppend(c, [(k, v)]);
    }
  }

  /** Setting a key keeps each key once and gives `k` the count `v`. */
  lemma {:induction false} PutSpec<K>(c: Counter<K>, k: K, v: int)
    requires DistinctKeys(c)
    ensures DistinctKeys(Put(c, k, v))
    ensures Get(Put(c, k, v), k) == v
    ensures forall k' :: k' != k ==> Get(Put(c, k, v), k') == Get(c, k')
  {
    var r := Put(c, k, v);
    var i := KeyIndex(c, k);
    KeyIndexFirst(c, k);
    assert DistinctKeys(r);
    if i < |c| {
      KeyIndexOf(r, i);
    } else {
      KeyIndexOf(r, |c|);
    }
    forall k' | k' != k ensures Get(r, k') == Get(c, k') {
      KeyIndexFirst(c, k');
      var j := KeyIndex(c, k');
      if j < |c| {
        KeyIndexOf(c, j);
        KeyIndexOf(r, j);
      } else {
        assert forall m :: 0 <= m < |r| ==> r[m].0 != k';
      }
    }
  }

  // ---------------------------------------------------------------------
  // Sums

  lemma {:induction false} SumAppend<K>(a: Counter<K>, b: Counter<K>)
    ensures Sum(a + b) == Sum(a) + Sum(b)
  {
    if a == [] {
      assert a + b == b;
    } else {
      assert (a + b)[1..] == a[1..] + b;
      SumAppend(a[1..], b);
    }
  }

  lemma {:induction false} SumUpdate<K>(c: Counter<K>, i: nat, x: (K, int))
    requires i < |c|
    ensures Sum(c[i := x]) == Sum(c) - c[i].1 + x.1
  {
    if i > 0 {
      assert c[i := x][1..] == c[1..][i - 1 := x];
      SumUpdate(c[1..], i - 1, x);
    }
  }

  lemma {:induction false} SumInsert<K>(t: Counter<K>, x: (K, int))
    ensures Sum(Insert(t, x)) == Sum(t) + x.1
  {
    if t != [] && t[0].1 >= x.1 {
      SumInsert(t[1..], x);
    }
  }

  /** Inserting adds exactly `x` to the items. */
  lemma {:induction false} InsertPermutes<K>(t: Counter<K>, x: (K, int))
    ensures multiset(Insert(t, x)) == multiset(t) + multiset{x}
  {
    if t != [] && t[0].1 >= x.1 {
      InsertPermutes(t[1..], x);
      assert t == [t[0]] + t[1..];
    }
  }

  /** `most_common()` reorders the items: it neither drops nor adds one. */
  lemma {:induction false} MostCommonPermutes<K>(c: Counter<K>)
    ensures multiset(MostCommon(c)) == multiset(c)
  {
    if c != [] {
      var p, x := c[..|c| - 1], c[|c| - 1];
      MostCommonPermutes(p);
      InsertPermutes(MostCommon(p), x);
      assert c == p + [x];
    }
  }

  /** Ranking reorders the items and so keeps their total. */
  lemma {:induction false} SumMostCommon<K>(c: Counter<K>)
    ensures Sum(MostCommon(c)) == Sum(c)
  {
    if c != [] {
      var p, x := c[..|c| - 1], c[|c| - 1];
      calc {
        Sum(MostCommon(c));
        Sum(Insert(MostCommon(p), x));
        { SumInsert(MostCommon(p), x); }
        Sum(MostCommon(p)) + x.1;
        { SumMostCommon(p); }
        Sum(p) + x.1;
        { SumAppend(p, [x]); }
        Sum(p + [x]);
        { assert p + [x] == c; }
        Sum(c);
      }
    }
  }

  // ---------------------------------------------------------------------
  // Ranking

  lemma ConsRanked<K>(a: (K, int), t: Counter<K>, c: Counter<K>)
    requires RankedBy(t, c)
    requires forall j :: 0 <= j < |t| ==> Before(a, t[j], c)
    ensures RankedBy([a] + t, c)
  {
    var r := [a] + t;
    forall i, j | 0 <= i < j < |r| ensures Before(r[i], r[j], c) {
      if i > 0 {
        assert r[i] == t[i - 1] && r[j] == t[j - 1];
      } else {
        assert r[j] == t[j - 1];
      }
    }
  }

  lemma {:induction false} InsertRanked<K>(t: Counter<K>, x: (K, int), c: Counter<K>)
    requires RankedBy(t, c)
    requires forall y :: y in t ==> KeyIndex(c, y.0) < KeyIndex(c, x.0)
    ensures RankedBy(Insert(t, x), c)
  {
    if t == [] {
    } else if t[0].1 >= x.1 {
      var rest := t[1..];
      RankedTail(t, c);
      assert forall y :: y in rest ==> y in t;
      InsertRanked(rest, x, c);
      var tail := Insert(rest, x);
      InsertAfter(t, x, c);
      ConsRanked(t[0], tail, c);
    } else {
      forall j | 0 <= j < |t| ensures Before(x, t[j], c) {
        if j > 0 {
          assert Before(t[0], t[j], c);
        }
      }
      ConsRanked(x, t, c);
    }
  }

  /** Dropping the first item of a ranking leaves a ranking. */
  lemma RankedTail<K>(t: Counter<K>, c: Counter<K>)
    requires RankedBy(t, c) && t != []
    ensures RankedBy(t[1..], c)
  {
    var rest := t[1..];
    forall i, j | 0 <= i < j < |rest| ensures Before(rest[i], rest[j], c) {
      assert rest[i] == t[i + 1] && rest[j] == t[j + 1];
    }
  }

  /** The head of a ranking ranks ahead of everything once `x`, which it also beats, is inserted behind it. */
  lemma InsertAfter<K>(t: Counter<K>, x: (K, int), c: Counter<K>)
    requires RankedBy(t, c) && t != [] && t[0].1 >= x.1
    requires KeyIndex(c, t[0].0) < KeyIndex(c, x.0)
    ensures forall j :: 0 <= j < |Insert(t[1..], x)| ==> Before(t[0], Insert(t[1..], x)[j], c)
  {
    var rest := t[1..];
    var tail := Insert(rest, x);
    InsertPermutes(rest, x);
    forall j | 0 <= j < |tail| ensures Before(t[0], tail[j], c) {
      assert tail[j] in multiset(tail);
      if tail[j] != x {
        assert tail[j] in multiset(rest);
        var m :| 0 <= m < |rest| && rest[m] == tail[j];
        assert t[m + 1] == tail[j];
      }
    }
  }

  /**
   * `most_common()` ranks by descending count with ties in insertion order.
   */
  lemma {:induction false} MostCommonRanked<K>(c: Counter<K>)
    requires DistinctKeys(c)
    ensures RankedBy(MostCommon(c), c)
  {
    if c != [] {
      var n := |c|;
      var p := c[..n - 1];
      assert DistinctKeys(p);
      MostCommonRanked(p);
      var t := MostCommon(p);
      MostCommonPermutes(p);
      PrefixKeyIndex(c, t);
      RankedReindex(t, p, c);
      KeyIndexOf(c, n - 1);
      InsertRanked(t, c[n - 1], c);
    }
  }

  /** Items of the first `|c| - 1` entries keep their positions in all of `c`. */
  lemma PrefixKeyIndex<K>(c: Counter<K>, t: Counter<K>)
    requires DistinctKeys(c) && c != []
    requires multiset(t) == multiset(c[..|c| - 1])
    ensures forall y :: y in t ==> KeyIndex(c, y.0) == KeyIndex(c[..|c| - 1], y.0) < |c| - 1
  {
    var p := c[..|c| - 1];
    forall y | y in t ensures KeyIndex(c, y.0) == KeyIndex(p, y.0) < |c| - 1 {
      assert y in multiset(p);
      var m :| 0 <= m < |p| && p[m] == y;
      PrefixKeyIndexAt(c, m);
    }
  }

  lemma PrefixKeyIndexAt<K>(c: Counter<K>, m: nat)
    requires DistinctKeys(c) && m < |c| - 1
    ensures KeyIndex(c, c[m].0) == KeyIndex(c[..|c| - 1], c[m].0) == m
  {
    var p := c[..|c| - 1];
    assert DistinctKeys(p) by {
      forall i, j | 0 <= i < j < |p| ensures p[i].0 != p[j].0 {
        assert p[i] == c[i] && p[j] == c[j];
      }
    }
    assert p[m] == c[m];
    KeyIndexOf(c, m);
    KeyIndexOf(p, m);
  }

  /** A ranking by `p` is a ranking by `c` when every key has the same position in both. */
  lemma RankedReindex<K>(t: Counter<K>, p: Counter<K>, c: Counter<K>)
    requires RankedBy(t, p)
    requires forall y :: y in t ==> KeyIndex(c, y.0) == KeyIndex(p, y.0)
    ensures RankedBy(t, c)
  {
    forall i, j | 0 <= i < j < |t| ensures Before(t[i], t[j], c) {
      assert t[i] in t && t[j] in t;
    }
  }

  /** Ranked items are in non-increasing order of count. */
  lemma RankedDescending<K>(r: Counter<K>, c: Counter<K>)
    requires RankedBy(r, c)
    ensures forall i, j :: 0 <= i <= j < |r| ==> r[i].1 >= r[j].1
  {
  }

  /** An item of a sequence whose keys are distinct occurs in it once. */
  lemma OccursOnce<K>(c: Counter<K>, a: nat)
    requires DistinctKeys(c) && a < |c|
    ensures multiset(c)[c[a]] == 1
  {
    assert c == c[..a] + [c[a]] + c[a + 1..];
    assert c[a] !in multiset(c[..a]) by {
      forall m | 0 <= m < a ensures c[m] != c[a] { }
    }
    assert c[a] !in multiset(c[a + 1..]) by {
      forall m | a + 1 <= m < |c| ensures c[m] != c[a] { }
    }
  }

  /** A reordering of items with distinct keys has distinct keys. */
  lemma {:induction false} DistinctKeysPermutation<K>(c: Counter<K>, r: Counter<K>)
    requires DistinctKeys(c) && multiset(r) == multiset(c)
    ensures DistinctKeys(r)
  {
    forall i, j | 0 <= i < j < |r| ensures r[i].0 != r[j].0 {
      assert r[i] in multiset(c) && r[j] in multiset(c);
      var a :| 0 <= a < |c| && c[a] == r[i];
      var b :| 0 <= b < |c| && c[b] == r[j];
      if r[i] == r[j] {
        assert r == r[..i] + [r[i]] + r[i + 1..j] + [r[j]] + r[j + 1..];
        OccursOnce(c, a);
        assert false;
      } else {
        assert a != b;
      }
    }
  }
}
