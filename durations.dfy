/**
 * Durations: the merged sessions of activity that the summary and
 * leaderboard code consume, and the per-key totals they fold them into.
 *
 * The merger that produces durations is outside this model; a duration is
 * taken as given, with integer seconds and a nullable project and language.
 * The service stores heartbeat times as floats; that rounding is not modelled.
 */
module Durations {
  import opened Common
  import opened Counters

  datatype Duration = Duration(
    userId: string,
    project: Option<string>,
    language: Option<string>,
    start: int,
    end: int)

  /** `duration['end'] - duration['start']`. */
  function Seconds(d: Duration): int {
    d.end - d.start
  }

  function UserOf(d: Duration): string {
    d.userId
  }

  function ProjectOf(d: Duration): Option<string> {
    d.project
  }

  function LanguageOf(d: Duration): Option<string> {
    d.language
  }

  /** The seconds of all durations, each counted once. */
  function TotalSeconds(ds: seq<Duration>): int {
    if ds == [] then 0 else TotalSeconds(ds[..|ds| - 1]) + Seconds(ds[|ds| - 1])
  }

  /** The seconds of the durations whose key is `k`. */
  function SecondsWhere<K(==)>(ds: seq<Duration>, key: Duration -> K, k: K): int {
    if ds == [] then 0
    else SecondsWhere(ds[..|ds| - 1], key, k) + (if key(ds[|ds| - 1]) == k then Seconds(ds[|ds| - 1]) else 0)
  }

  /** The keys that occur among the durations. */
  ghost function KeysOf<K>(ds: seq<Duration>, key: Duration -> K): set<K> {
    set d | d in ds :: key(d)
  }

  /** Position of the first duration with key `k`, or `|ds|` when there is none. */
  function FirstIndex<K(==)>(ds: seq<Duration>, key: Duration -> K, k: K): (i: nat)
    ensures i <= |ds|
    ensures i < |ds| ==> key(ds[i]) == k
  {
    if ds == [] then 0
    else if key(ds[0]) == k then 0
    else 1 + FirstIndex(ds[1..], key, k)
  }

  /**
   * The counter that the loop `for d in ds: counter[key(d)] += end - start`
   * leaves behind, starting from an empty counter.
   */
  function Tally<K(==)>(ds: seq<Duration>, key: Duration -> K): Counter<K> {
    if ds == [] then []
    else Add(Tally(ds[..|ds| - 1], key), key(ds[|ds| - 1]), Seconds(ds[|ds| - 1]))
  }

  // ---------------------------------------------------------------------

  /** No duration before position `FirstIndex(ds, key, k)` has key `k`. */
  lemma {:induction false} FirstIndexFirst<K>(ds: seq<Duration>, key: Duration -> K, k: K)
    ensures forall j :: 0 <= j < FirstIndex(ds, key, k) ==> key(ds[j]) != k
  {
    if ds != [] && key(ds[0]) != k {
      FirstIndexFirst(ds[1..], key, k);
    }
  }

  lemma FirstIndexSnoc<K>(ds: seq<Duration>, key: Duration -> K, k: K)
    requires ds != []
    ensures var p := ds[..|ds| - 1];
      FirstIndex(ds, key, k) ==
        if FirstIndex(p, key, k) < |p| then FirstIndex(p, key, k)
        else if key(ds[|ds| - 1]) == k then |p|
        else |ds|
  {
    var p := ds[..|ds| - 1];
    assert forall j :: 0 <= j < |p| ==> p[j] == ds[j];
    FirstIndexFirst(p, key, k);
    FirstIndexFirst(ds, key, k);
  }

  /** The tally holds each key once. */
  lemma {:induction false} TallyDistinct<K>(ds: seq<Duration>, key: Duration -> K)
    ensures DistinctKeys(Tally(ds, key))
  {
    if ds != [] {
      var p := ds[..|ds| - 1];
      TallyDistinct(p, key);
      AddDistinct(Tally(p, key), key(ds[|ds| - 1]), Seconds(ds[|ds| - 1]));
    }
  }

  /** The tally holds a key exactly when some duration has it. */
  lemma {:induction false} TallyHasKey<K>(ds: seq<Duration>, key: Duration -> K, k: K)
    ensures KeyIndex(Tally(ds, key), k) < |Tally(ds, key)| <==> FirstIndex(ds, key, k) < |ds|
  {
    if ds != [] {
      var p := ds[..|ds| - 1];
      var d := ds[|ds| - 1];
      var t := Tally(p, key);
      var r := Tally(ds, key);
      TallyHasKey(p, key, k);
      AddKeys(t, key(d), Seconds(d));
      KeyIndexFirst(t, k);
      KeyIndexFirst(r, k);
      FirstIndexSnoc(ds, key, k);
      var m := KeyIndex(t, k);
      if m < |t| {
        assert r[m].0 == k;
      } else if k != key(d) {
        assert forall j :: 0 <= j < |r| ==> r[j].0 != k;
      } else {
        assert r[|t|].0 == k;
      }
    }
  }

  /** The tally lists its keys in the order of their first durations. */
  lemma {:induction false} TallyOrder<K>(ds: seq<Duration>, key: Duration -> K)
    ensures forall i, j :: 0 <= i < j < |Tally(ds, key)| ==>
      FirstIndex(ds, key, Tally(ds, key)[i].0) < FirstIndex(ds, key, Tally(ds, key)[j].0) < |ds|
  {
    if ds != [] {
      var p := ds[..|ds| - 1];
      var d := ds[|ds| - 1];
      var t := Tally(p, key);
      var r := Tally(ds, key);
      TallyOrder(p, key);
      TallyDistinct(p, key);
      AddKeys(t, key(d), Seconds(d));
      forall i | 0 <= i < |t| ensures FirstIndex(ds, key, r[i].0) == FirstIndex(p, key, t[i].0) < |p| {
        FirstIndexSnoc(ds, key, t[i].0);
        KeyIndexOf(t, i);
        TallyHasKey(p, key, t[i].0);
      }
      if KeyIndex(t, key(d)) == |t| {
        FirstIndexSnoc(ds, key, key(d));
        TallyHasKey(p, key, key(d));
      }
    }
  }

  /** Each key's count is the seconds of that key's durations. */
  lemma {:induction false} TallyCounts<K>(ds: seq<Duration>, key: Duration -> K, k: K)
    ensures Get(Tally(ds, key), k) == SecondsWhere(ds, key, k)
  {
    if ds != [] {
      var p := ds[..|ds| - 1];
      TallyCounts(p, key, k);
      TallyDistinct(p, key);
      AddGet(Tally(p, key), key(ds[|ds| - 1]), Seconds(ds[|ds| - 1]), k);
    }
  }

  /** The counts add up to the seconds of all durations. */
  lemma {:induction false} TallySum<K>(ds: seq<Duration>, key: Duration -> K)
    ensures Sum(Tally(ds, key)) == TotalSeconds(ds)
  {
    if ds != [] {
      var p := ds[..|ds| - 1];
      TallySum(p, key);
      AddSum(Tally(p, key), key(ds[|ds| - 1]), Seconds(ds[|ds| - 1]));
    }
  }

  /** The tally has one item per distinct key. */
  lemma {:induction false} TallySize<K>(ds: seq<Duration>, key: Duration -> K)
    ensures |Tally(ds, key)| == |KeysOf(ds, key)|
  {
    if ds != [] {
      var p := ds[..|ds| - 1];
      var d := ds[|ds| - 1];
      var t := Tally(p, key);
      assert Tally(ds, key) == Add(t, key(d), Seconds(d));
      TallySize(p, key);
      TallyHasKey(p, key, key(d));
      AddKeys(t, key(d), Seconds(d));
      KeysOfSnoc(ds, key);
      KeysOfFirst(p, key, key(d));
      if FirstIndex(p, key, key(d)) < |p| {
        assert KeysOf(ds, key) == KeysOf(p, key);
      } else {
        assert |KeysOf(ds, key)| == |KeysOf(p, key)| + 1;
      }
    }
  }

  lemma KeysOfSnoc<K>(ds: seq<Duration>, key: Duration -> K)
    requires ds != []
    ensures KeysOf(ds, key) == KeysOf(ds[..|ds| - 1], key) + {key(ds[|ds| - 1])}
  {
    assert ds == ds[..|ds| - 1] + [ds[|ds| - 1]];
  }

  /** A key occurs among the durations exactly when it has a first duration. */
  lemma KeysOfFirst<K>(ds: seq<Duration>, key: Duration -> K, k: K)
    ensures k in KeysOf(ds, key) <==> FirstIndex(ds, key, k) < |ds|
  {
    var f := FirstIndex(ds, key, k);
    if f < |ds| {
      assert ds[f] in ds;
    } else {
      FirstIndexFirst(ds, key, k);
      forall e | e in ds ensures key(e) != k {
        var m :| 0 <= m < |ds| && ds[m] == e;
      }
    }
  }

  lemma TallyEmpty<K>(ds: seq<Duration>, key: Duration -> K)
    ensures Tally(ds, key) == [] <==> ds == []
  {
    if ds != [] {
      TallyHasKey(ds, key, key(ds[0]));
      assert FirstIndex(ds, key, key(ds[0])) == 0;
    }
  }

  /** The tally ranked by `Counter.most_common()`. */
  function Ranked<K(==)>(ds: seq<Duration>, key: Duration -> K): Counter<K> {
    MostCommon(Tally(ds, key))
  }

  /** Each ranked item is the tally's item at its key's position. */
  lemma RankedItem<K>(ds: seq<Duration>, key: Duration -> K, i: nat)
    requires i < |Ranked(ds, key)|
    ensures var t, r := Tally(ds, key), Ranked(ds, key);
      KeyIndex(t, r[i].0) < |t| && t[KeyIndex(t, r[i].0)] == r[i]
    ensures Ranked(ds, key)[i].1 == SecondsWhere(ds, key, Ranked(ds, key)[i].0)
  {
    var t, r := Tally(ds, key), Ranked(ds, key);
    TallyDistinct(ds, key);
    MostCommonPermutes(t);
    assert r[i] in multiset(t);
    var m :| 0 <= m < |t| && t[m] == r[i];
    KeyIndexOf(t, m);
    TallyCounts(ds, key, r[i].0);
  }

  /**
   * Ranking a tally gives one item per key that occurs, with distinct keys,
   * each holding the seconds of that key's durations, all of them adding up
   * to the seconds of all durations.
   */
  lemma RankingContents<K>(ds: seq<Duration>, key: Duration -> K)
    ensures var r := Ranked(ds, key);
      && DistinctKeys(r)
      && |r| == |KeysOf(ds, key)|
      && Sum(r) == TotalSeconds(ds)
      && (forall i :: 0 <= i < |r| ==> r[i].1 == SecondsWhere(ds, key, r[i].0))
  {
    var t, r := Tally(ds, key), Ranked(ds, key);
    TallyDistinct(ds, key);
    TallySize(ds, key);
    TallySum(ds, key);
    SumMostCommon(t);
    MostCommonPermutes(t);
    DistinctKeysPermutation(t, r);
    forall i | 0 <= i < |r| ensures r[i].1 == SecondsWhere(ds, key, r[i].0) {
      RankedItem(ds, key, i);
    }
  }

  /** A key occurs among the durations exactly when the ranking lists it. */
  lemma RankingMembers<K>(ds: seq<Duration>, key: Duration -> K, k: K)
    ensures k in KeysOf(ds, key) <==> exists i :: 0 <= i < |Ranked(ds, key)| && Ranked(ds, key)[i].0 == k
  {
    var t, r := Tally(ds, key), Ranked(ds, key);
    TallyHasKey(ds, key, k);
    MostCommonPermutes(t);
    FirstIndexFirst(ds, key, k);
    if k in KeysOf(ds, key) {
      var d :| d in ds && key(d) == k;
      var m :| 0 <= m < |ds| && ds[m] == d;
      var a := KeyIndex(t, k);
      assert t[a] in multiset(r);
      var i :| 0 <= i < |r| && r[i] == t[a];
    }
    if exists i :: 0 <= i < |r| && r[i].0 == k {
      var i :| 0 <= i < |r| && r[i].0 == k;
      RankedItem(ds, key, i);
      var f := FirstIndex(ds, key, k);
      assert ds[f] in ds;
    }
  }

  /**
   * The ranking is in descending order of seconds, equal seconds in the
   * order of the keys' first durations (Python's sort is stable).
   */
  lemma RankingOrder<K>(ds: seq<Duration>, key: Duration -> K)
    ensures var r := Ranked(ds, key);
      forall i, j :: 0 <= i < j < |r| ==>
        r[i].1 > r[j].1 ||
        (r[i].1 == r[j].1 && FirstIndex(ds, key, r[i].0) < FirstIndex(ds, key, r[j].0))
  {
    var t, r := Tally(ds, key), Ranked(ds, key);
    TallyOrder(ds, key);
    MostCommonRanked(t);
    forall i, j | 0 <= i < j < |r|
      ensures r[i].1 > r[j].1 ||
        (r[i].1 == r[j].1 && FirstIndex(ds, key, r[i].0) < FirstIndex(ds, key, r[j].0))
    {
      assert Before(r[i], r[j], t);
      RankedItem(ds, key, i);
      RankedItem(ds, key, j);
    }
  }

  /** The seconds of durations that all have zero length add up to zero. */
  lemma {:induction false} ZeroLengthTotal(ds: seq<Duration>)
    requires forall d :: d in ds ==> Seconds(d) == 0
    ensures TotalSeconds(ds) == 0
  {
    if ds != [] {
      var p := ds[..|ds| - 1];
      assert forall d :: d in p ==> d in ds;
      ZeroLengthTotal(p);
      assert ds[|ds| - 1] in ds;
    }
  }
}
