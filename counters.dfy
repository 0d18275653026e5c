/**
  Python `dict[str, int]` count maps as the log analysers build them (`collections.Counter`
  serialised with `dict(...)`, or a plain dict updated with `d[k] = d.get(k, 0) + n`).
  A Python dict remembers insertion order, and that order decides ties in the rankings, so a
  counter is an ordered key sequence together with the mapping from keys to counts.
 */
module Counters {
  import opened Wrappers

  datatype Counter = Counter(keys: seq<string>, counts: map<string, nat>)

  predicate Distinct(ks: seq<string>) {
    forall i, j :: 0 <= i < j < |ks| ==> ks[i] != ks[j]
  }

  /** The key sequence lists every key of the mapping exactly once. */
  ghost predicate Valid(c: Counter) {
    Distinct(c.keys) && (forall k :: k in c.counts <==> k in c.keys)
  }

  /** Every stored count is at least one, as for a Counter that was only ever incremented. */
  predicate Positive(c: Counter) {
    forall k :: k in c.counts ==> c.counts[k] >= 1
  }

  const Empty: Counter := Counter([], map[])

  /** `c.get(k, 0)` */
  function Get(c: Counter, k: string): nat {
    if k in c.counts then c.counts[k] else 0
  }

  /** `c[k] = c.get(k, 0) + n`: an existing key keeps its place, a new key goes last. */
  function Add(c: Counter, k: string, n: nat): (r: Counter)
    requires Valid(c)
    ensures Valid(r)
    ensures Get(r, k) == Get(c, k) + n
    ensures forall k' :: k' != k ==> Get(r, k') == Get(c, k')
    ensures forall k' :: k' in r.counts <==> k' in c.counts || k' == k
    ensures r.keys == if k in c.keys then c.keys else c.keys + [k]
  {
    if k in c.counts then Counter(c.keys, c.counts[k := c.counts[k] + n])
    else Counter(c.keys + [k], c.counts[k := n])
  }

  /** Counting the keys of `ks` into `c`, one `c[k] += 1` per element, in order. */
  function TallyInto(c: Counter, ks: seq<string>): (r: Counter)
    requires Valid(c)
    ensures Valid(r)
  {
    if ks == [] then c else Add(TallyInto(c, ks[..|ks| - 1]), ks[|ks| - 1], 1)
  }

  /** The key a line yields, as a sequence of zero or one keys. */
  function Opt(o: Option<string>): seq<string> {
    if o.Some? then [o.value] else []
  }

  /** `d[k] = d.get(k, 0) + 1` when the line yields a key, nothing otherwise. */
  function Bump(c: Counter, o: Option<string>): (r: Counter)
    requires Valid(c)
    ensures Valid(r)
  {
    if o.Some? then Add(c, o.value, 1) else c
  }

  /** `dict(Counter(ks))` */
  function Tally(ks: seq<string>): Counter {
    TallyInto(Empty, ks)
  }

  /** Tallying adds each key's number of occurrences, and nothing else. */
  lemma {:induction false} TallyIntoGet(c: Counter, ks: seq<string>, k: string)
    requires Valid(c)
    ensures Get(TallyInto(c, ks), k) == Get(c, k) + multiset(ks)[k]
    ensures k in TallyInto(c, ks).counts <==> k in c.counts || k in ks
  {
    if ks != [] {
      var init := ks[..|ks| - 1];
      assert ks == init + [ks[|ks| - 1]];
      TallyIntoGet(c, init, k);
    }
  }

  /** Tallying two runs of keys one after the other counts what the two tallies count. */
  lemma TallyConcatGet(xs: seq<string>, ys: seq<string>, k: string)
    ensures Get(Tally(xs + ys), k) == Get(Tally(xs), k) + Get(Tally(ys), k)
    ensures k in Tally(xs + ys).counts <==> k in Tally(xs).counts || k in Tally(ys).counts
  {
    TallyIntoGet(Empty, xs + ys, k);
    TallyIntoGet(Empty, xs, k);
    TallyIntoGet(Empty, ys, k);
    assert multiset(xs + ys) == multiset(xs) + multiset(ys);
  }

  /** Tallying keys that are already present leaves the key order alone. */
  lemma {:induction false} TallyIntoKeepsKeys(c: Counter, ks: seq<string>)
    requires Valid(c)
    requires forall i :: 0 <= i < |ks| ==> ks[i] in c.keys
    ensures TallyInto(c, ks).keys == c.keys
  {
    if ks != [] {
      TallyIntoKeepsKeys(c, ks[..|ks| - 1]);
    }
  }

  /** A tally of a sequence stores only counts of at least one. */
  lemma {:induction false} TallyPositive(ks: seq<string>)
    ensures Positive(Tally(ks))
  {
    if ks != [] {
      TallyPositive(ks[..|ks| - 1]);
    }
  }

  /** Counts of `ks` and of the keys of `c` (or 0), added up in the order of `ks`. */
  function SumOver(ks: seq<string>, c: Counter): nat {
    if ks == [] then 0 else SumOver(ks[..|ks| - 1], c) + Get(c, ks[|ks| - 1])
  }

  /** `sum(c.values())` */
  function Sum(c: Counter): nat {
    SumOver(c.keys, c)
  }

  lemma {:induction false} SumOverAway(ks: seq<string>, c: Counter, d: Counter, k: string)
    requires k !in ks
    requires forall k' :: k' != k ==> Get(c, k') == Get(d, k')
    ensures SumOver(ks, c) == SumOver(ks, d)
  {
    if ks != [] {
      SumOverAway(ks[..|ks| - 1], c, d, k);
    }
  }

  lemma {:induction false} SumOverOnce(ks: seq<string>, c: Counter, d: Counter, k: string, n: nat)
    requires Distinct(ks) && k in ks
    requires forall k' :: k' != k ==> Get(c, k') == Get(d, k')
    requires Get(d, k) == Get(c, k) + n
    ensures SumOver(ks, d) == SumOver(ks, c) + n
  {
    var init := ks[..|ks| - 1];
    if ks[|ks| - 1] == k {
      assert k !in init;
      SumOverAway(init, c, d, k);
    } else {
      assert k in init;
      SumOverOnce(init, c, d, k, n);
    }
  }

  /** Adding `n` to one key raises the sum of the values by `n`. */
  lemma SumAdd(c: Counter, k: string, n: nat)
    requires Valid(c)
    ensures Sum(Add(c, k, n)) == Sum(c) + n
  {
    var r := Add(c, k, n);
    if k in c.keys {
      SumOverOnce(c.keys, c, r, k, n);
    } else {
      assert r.keys[..|r.keys| - 1] == c.keys;
      SumOverAway(c.keys, c, r, k);
    }
  }

  /** The values of a tally add up to the number of elements tallied. */
  lemma {:induction false} SumTallyInto(c: Counter, ks: seq<string>)
    requires Valid(c)
    ensures Sum(TallyInto(c, ks)) == Sum(c) + |ks|
  {
    if ks != [] {
      SumTallyInto(c, ks[..|ks| - 1]);
      SumAdd(TallyInto(c, ks[..|ks| - 1]), ks[|ks| - 1], 1);
    }
  }

  /** Adding the counts of `b` for the keys `ks`, in the order of `ks`. */
  function AddKeys(a: Counter, ks: seq<string>, b: Counter): (r: Counter)
    requires Valid(a)
    ensures Valid(r)
  {
    if ks == [] then a
    else Add(AddKeys(a, ks[..|ks| - 1], b), ks[|ks| - 1], Get(b, ks[|ks| - 1]))
  }

  /** `for k, n in b.items(): a[k] = a.get(k, 0) + n` */
  function AddAll(a: Counter, b: Counter): Counter
    requires Valid(a)
  {
    AddKeys(a, b.keys, b)
  }

  lemma {:induction false} AddKeysGet(a: Counter, ks: seq<string>, b: Counter, k: string)
    requires Valid(a) && Distinct(ks)
    ensures Get(AddKeys(a, ks, b), k) == Get(a, k) + (if k in ks then Get(b, k) else 0)
    ensures k in AddKeys(a, ks, b).counts <==> k in a.counts || k in ks
  {
    if ks != [] {
      var init := ks[..|ks| - 1];
      assert ks == init + [ks[|ks| - 1]];
      AddKeysGet(a, init, b, k);
    }
  }

  /** Merging a count map into another adds the counts key by key. */
  lemma AddAllGet(a: Counter, b: Counter, k: string)
    requires Valid(a) && Valid(b)
    ensures Get(AddAll(a, b), k) == Get(a, k) + Get(b, k)
    ensures k in AddAll(a, b).counts <==> k in a.counts || k in b.counts
  {
    AddKeysGet(a, b.keys, b, k);
  }

  /** Dropping the last of distinct keys leaves distinct keys without it. */
  lemma DistinctInit(ks: seq<string>)
    requires Distinct(ks) && ks != []
    ensures Distinct(ks[..|ks| - 1]) && ks[|ks| - 1] !in ks[..|ks| - 1]
  {
  }

  /** Merging distinct keys into an empty dict lists them in order. */
  lemma {:induction false} AddKeysFreshKeys(ks: seq<string>, b: Counter)
    requires Distinct(ks)
    ensures AddKeys(Empty, ks, b).keys == ks
  {
    if ks != [] {
      var init := ks[..|ks| - 1];
      var x := ks[|ks| - 1];
      DistinctInit(ks);
      AddKeysFreshKeys(init, b);
      assert AddKeys(Empty, ks, b) == Add(AddKeys(Empty, init, b), x, Get(b, x));
    }
  }

  /** Merging into an empty dict copies the dict, key order included. */
  lemma AddAllIntoEmpty(b: Counter)
    requires Valid(b)
    ensures AddAll(Empty, b) == b
  {
    var r := AddKeys(Empty, b.keys, b);
    AddKeysFreshKeys(b.keys, b);
    forall k
      ensures Get(r, k) == Get(b, k)
      ensures k in r.counts <==> k in b.counts
    {
      AddKeysGet(Empty, b.keys, b, k);
    }
    SameCounts(r, b);
    assert r.keys == b.keys && r.counts == b.counts;
  }

  lemma AddKeysStep(a: Counter, ks: seq<string>, b: Counter, i: nat)
    requires Valid(a) && i < |ks|
    ensures AddKeys(a, ks[..i + 1], b) == Add(AddKeys(a, ks[..i], b), ks[i], Get(b, ks[i]))
  {
    assert ks[..i + 1][..i] == ks[..i];
  }

  /** The loop of `a[k] = a.get(k, 0) + n` over `b.items()`, which updates `a` in place. */
  method AddInto(a: Counter, b: Counter) returns (r: Counter)
    requires Valid(a)
    ensures r == AddAll(a, b)
  {
    r := a;
    for i := 0 to |b.keys|
      invariant r == AddKeys(a, b.keys[..i], b)
    {
      AddKeysStep(a, b.keys, b, i);
      r := Add(r, b.keys[i], Get(b, b.keys[i]));
    }
    assert b.keys[..|b.keys|] == b.keys;
  }

  /** Two valid counters that agree on every key's count and presence hold the same mapping. */
  lemma SameCounts(a: Counter, b: Counter)
    requires forall k :: Get(a, k) == Get(b, k)
    requires forall k :: k in a.counts <==> k in b.counts
    ensures a.counts == b.counts
  {
    forall k | k in a.counts
      ensures a.counts[k] == b.counts[k]
    {
      assert Get(a, k) == Get(b, k);
    }
  }

  /** Python dict equality: the same mapping, whatever the insertion order. */
  predicate DictEq(a: Counter, b: Counter) {
    a.counts == b.counts
  }

  /** The sum of `f` over a sequence. */
  function SumOf<T>(xs: seq<T>, f: T -> nat): nat {
    if xs == [] then 0 else SumOf(xs[..|xs| - 1], f) + f(xs[|xs| - 1])
  }

  lemma {:induction false} SumOfConcat<T>(xs: seq<T>, ys: seq<T>, f: T -> nat)
    ensures SumOf(xs + ys, f) == SumOf(xs, f) + SumOf(ys, f)
  {
    if ys != [] {
      assert (xs + ys)[..|xs + ys| - 1] == xs + ys[..|ys| - 1];
      SumOfConcat(xs, ys[..|ys| - 1], f);
    } else {
      assert xs + ys == xs;
    }
  }

  /** Appending one element adds its value to the sum. */
  lemma SumOfSnoc<T>(xs: seq<T>, x: T, f: T -> nat)
    ensures SumOf(xs + [x], f) == SumOf(xs, f) + f(x)
  {
    assert (xs + [x])[..|xs|] == xs;
  }

  /** Taking one element out of a sequence takes its value out of the sum. */
  lemma SumOfRemove<T>(pre: seq<T>, y: T, post: seq<T>, f: T -> nat)
    ensures SumOf(pre + [y] + post, f) == SumOf(pre + post, f) + f(y)
  {
    SumOfConcat(pre + [y], post, f);
    SumOfSnoc(pre, y, f);
    SumOfConcat(pre, post, f);
  }

  /** A sum over a sequence does not depend on the order of its elements. */
  lemma {:induction false} SumOfPermutation<T>(xs: seq<T>, ys: seq<T>, f: T -> nat)
    requires multiset(xs) == multiset(ys)
    ensures SumOf(xs, f) == SumOf(ys, f)
    decreases |xs|
  {
    if xs == [] {
      assert |ys| == |multiset(ys)| == 0;
    } else {
      var x := xs[|xs| - 1];
      var init := xs[..|xs| - 1];
      assert multiset(init) == multiset(xs) - multiset{x} by {
        assert xs == init + [x];
      }
      assert x in multiset(ys);
      var j :| 0 <= j < |ys| && ys[j] == x;
      var pre, post := ys[..j], ys[j + 1..];
      assert ys == pre + [x] + post;
      SumOfPermutation(init, pre + post, f);
      SumOfRemove(pre, x, post, f);
    }
  }
}
