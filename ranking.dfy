/**
  Ranking of a count map: `sorted(d.items(), key=lambda kv: kv[1], reverse=True)[:n]`.
  Python's sort is stable, also with `reverse=True`, so entries with equal counts keep
  the dict's insertion order.
 */
module Ranking {
  import opened Counters

  /** An `(ip, count)` pair. */
  type Entry = (string, nat)

  /** `list(c.items())` */
  function Items(c: Counter): (r: seq<Entry>)
    ensures |r| == |c.keys|
    ensures forall i :: 0 <= i < |r| ==> r[i] == (c.keys[i], Get(c, c.keys[i]))
  {
    seq(|c.keys|, i requires 0 <= i < |c.keys| => (c.keys[i], Get(c, c.keys[i])))
  }

  /** Counts never increase along the sequence. */
  predicate NonIncreasing(s: seq<Entry>) {
    forall i, j :: 0 <= i < j < |s| ==> s[i].1 >= s[j].1
  }

  /** The entries whose count is `n`, in their order of appearance. */
  function WithCount(s: seq<Entry>, n: nat): seq<Entry> {
    if s == [] then [] else (if s[0].1 == n then [s[0]] else []) + WithCount(s[1..], n)
  }

  /** Places `x` before the first entry whose count does not exceed its own. */
  function Insert(x: Entry, s: seq<Entry>): seq<Entry> {
    if s == [] || x.1 >= s[0].1 then [x] + s else [s[0]] + Insert(x, s[1..])
  }

  /** A stable sort by descending count. */
  function SortByCount(s: seq<Entry>): seq<Entry> {
    if s == [] then [] else Insert(s[0], SortByCount(s[1..]))
  }

  /** `items[:n]`, with Python's meaning of a negative bound (drop that many from the end). */
  function SliceTo<T>(s: seq<T>, n: int): (r: seq<T>)
    ensures |r| == if n >= 0 then Min(n, |s|) else Max(0, |s| + n)
    ensures r == s[..|r|]
  {
    if n >= 0 then s[..Min(n, |s|)] else s[..Max(0, |s| + n)]
  }

  function Min(a: int, b: int): int {
    if a <= b then a else b
  }

  function Max(a: int, b: int): int {
    if a >= b then a else b
  }

  /** The `n` entries with the highest counts, ties in insertion order. */
  function TopN(c: Counter, n: int): seq<Entry> {
    SliceTo(SortByCount(Items(c)), n)
  }

  lemma {:induction false} InsertPermutes(x: Entry, s: seq<Entry>)
    ensures multiset(Insert(x, s)) == multiset(s) + multiset{x}
  {
    if s != [] && x.1 < s[0].1 {
      InsertPermutes(x, s[1..]);
      assert s == [s[0]] + s[1..];
    }
  }

  lemma {:induction false} InsertSorted(x: Entry, s: seq<Entry>)
    requires NonIncreasing(s)
    ensures NonIncreasing(Insert(x, s))
  {
    if s != [] && x.1 < s[0].1 {
      InsertSorted(x, s[1..]);
      InsertPermutes(x, s[1..]);
      var r := Insert(x, s[1..]);
      forall j | 0 <= j < |r|
        ensures s[0].1 >= r[j].1
      {
        assert r[j] in multiset(s[1..]) + multiset{x};
        if r[j] != x {
          var m :| 0 <= m < |s[1..]| && s[1..][m] == r[j];
          assert s[m + 1] == r[j];
        }
      }
    }
  }

  lemma WithCountCons(e: Entry, t: seq<Entry>, n: nat)
    ensures WithCount([e] + t, n) == (if e.1 == n then [e] else []) + WithCount(t, n)
  {
    assert ([e] + t)[0] == e;
    assert ([e] + t)[1..] == t;
  }

  lemma {:induction false} InsertWithCount(x: Entry, s: seq<Entry>, n: nat)
    ensures WithCount(Insert(x, s), n) == (if x.1 == n then [x] else []) + WithCount(s, n)
  {
    if s != [] && x.1 < s[0].1 {
      var rest := Insert(x, s[1..]);
      InsertWithCount(x, s[1..], n);
      WithCountCons(s[0], rest, n);
      WithCountCons(s[0], s[1..], n);
      assert s == [s[0]] + s[1..];
      if x.1 == n {
        assert s[0].1 != n;
        assert WithCount(Insert(x, s), n) == WithCount(rest, n);
      } else {
        assert WithCount(Insert(x, s), n) == (if s[0].1 == n then [s[0]] else []) + WithCount(s[1..], n);
      }
    } else {
      WithCountCons(x, s, n);
    }
  }

  /** The sort is a permutation of its input. */
  lemma {:induction false} SortPermutes(s: seq<Entry>)
    ensures multiset(SortByCount(s)) == multiset(s)
  {
    if s != [] {
      SortPermutes(s[1..]);
      InsertPermutes(s[0], SortByCount(s[1..]));
      assert s == [s[0]] + s[1..];
    }
  }

  /** The sort orders by descending count. */
  lemma {:induction false} SortSorted(s: seq<Entry>)
    ensures NonIncreasing(SortByCount(s))
  {
    if s != [] {
      SortSorted(s[1..]);
      InsertSorted(s[0], SortByCount(s[1..]));
    }
  }

  /** The sort is stable: entries of equal count keep their relative order. */
  lemma {:induction false} SortStable(s: seq<Entry>, n: nat)
    ensures WithCount(SortByCount(s), n) == WithCount(s, n)
  {
    if s != [] {
      SortStable(s[1..], n);
      InsertWithCount(s[0], SortByCount(s[1..]), n);
    }
  }

  /** Taking a prefix keeps a prefix of each equal-count run. */
  lemma {:induction false} WithCountPrefix(s: seq<Entry>, k: nat, n: nat)
    requires k <= |s|
    ensures WithCount(s[..k], n) <= WithCount(s, n)
  {
    if k > 0 {
      WithCountPrefix(s[1..], k - 1, n);
      assert s[..k][1..] == s[1..][..k - 1];
    }
  }

  /** Some entry of `s` has key `k`. */
  predicate HasKey(s: seq<Entry>, k: string) {
    exists j :: 0 <= j < |s| && s[j].0 == k
  }

  /** The entries of a valid counter are its keys with their counts, each key once. */
  lemma ItemsDistinctKeys(c: Counter)
    requires Valid(c)
    ensures forall i, j :: 0 <= i < j < |Items(c)| ==> Items(c)[i].0 != Items(c)[j].0
  {
  }

  /** The sort keeps the number of entries. */
  lemma SortLength(s: seq<Entry>)
    ensures |SortByCount(s)| == |s|
  {
    SortPermutes(s);
    assert |multiset(SortByCount(s))| == |multiset(s)|;
  }

  /** Every ranked entry is a key of the counter with its count. */
  lemma TopNEntries(c: Counter, n: int)
    ensures forall i :: 0 <= i < |TopN(c, n)| ==>
      TopN(c, n)[i].0 in c.keys && TopN(c, n)[i].1 == Get(c, TopN(c, n)[i].0)
  {
    var items := Items(c);
    var sorted := SortByCount(items);
    var r := TopN(c, n);
    SortPermutes(items);
    forall i | 0 <= i < |r|
      ensures r[i].0 in c.keys && r[i].1 == Get(c, r[i].0)
    {
      assert r[i] == sorted[i];
      assert sorted[i] in multiset(items);
      var m :| 0 <= m < |items| && items[m] == sorted[i];
    }
  }

  /** Every key of the counter has a place in the sorted entries. */
  lemma KeyRanked(c: Counter, k: string) returns (p: nat)
    requires k in c.keys
    ensures p < |SortByCount(Items(c))| && SortByCount(Items(c))[p] == (k, Get(c, k))
  {
    var items := Items(c);
    SortPermutes(items);
    var m :| 0 <= m < |c.keys| && c.keys[m] == k;
    assert items[m] in multiset(SortByCount(items));
    p :| 0 <= p < |SortByCount(items)| && SortByCount(items)[p] == items[m];
  }

  /** One omitted key against one kept entry. */
  lemma TopNOmittedOne(c: Counter, n: int, i: nat, k: string)
    requires i < |TopN(c, n)| && k in c.keys && !HasKey(TopN(c, n), k)
    ensures Get(c, k) <= TopN(c, n)[i].1
  {
    var sorted := SortByCount(Items(c));
    var r := TopN(c, n);
    var p := KeyRanked(c, k);
    assert r == sorted[..|r|];
    assert forall q :: 0 <= q < |r| ==> r[q].0 != k;
    assert p >= |r|;
    SortSorted(Items(c));
    assert sorted[i].1 >= sorted[p].1;
  }

  /** No key left out of the ranking has a higher count than a kept one. */
  lemma TopNOmitted(c: Counter, n: int)
    ensures forall i, k :: 0 <= i < |TopN(c, n)| && k in c.keys && !HasKey(TopN(c, n), k) ==>
      Get(c, k) <= TopN(c, n)[i].1
  {
    forall i, k | 0 <= i < |TopN(c, n)| && k in c.keys && !HasKey(TopN(c, n), k)
      ensures Get(c, k) <= TopN(c, n)[i].1
    {
      TopNOmittedOne(c, n, i, k);
    }
  }

  /** The ranking's counts do not increase, and equal counts keep the dict's order. */
  lemma TopNOrder(c: Counter, n: int)
    ensures NonIncreasing(TopN(c, n))
    ensures forall m :: WithCount(TopN(c, n), m) <= WithCount(Items(c), m)
  {
    var items := Items(c);
    var sorted := SortByCount(items);
    var r := TopN(c, n);
    SortSorted(items);
    assert r == sorted[..|r|];
    forall m: nat
      ensures WithCount(r, m) <= WithCount(items, m)
    {
      WithCountPrefix(sorted, |r|, m);
      SortStable(items, m);
    }
  }

  /**
    `TopN(c, n)` for `n >= 0`: the first `min(n, |c|)` entries of the ranking, taken from `c`
    with their counts; counts do not increase; no key left out has a higher count than one
    kept; and entries with equal counts appear in the dict's insertion order.
   */
  lemma TopNSpec(c: Counter, n: int)
    requires Valid(c)
    ensures |TopN(c, n)| == if n >= 0 then Min(n, |c.keys|) else Max(0, |c.keys| + n)
    ensures NonIncreasing(TopN(c, n))
    ensures forall i :: 0 <= i < |TopN(c, n)| ==>
      TopN(c, n)[i].0 in c.keys && TopN(c, n)[i].1 == Get(c, TopN(c, n)[i].0)
    ensures forall i, k :: 0 <= i < |TopN(c, n)| && k in c.keys && !HasKey(TopN(c, n), k) ==>
      Get(c, k) <= TopN(c, n)[i].1
    ensures forall m :: WithCount(TopN(c, n), m) <= WithCount(Items(c), m)
  {
    SortLength(Items(c));
    TopNEntries(c, n);
    TopNOmitted(c, n);
    TopNOrder(c, n);
  }
}
