/**
  Sorting file names and paths: Python compares strings code point by code point, a proper
  prefix coming first. `sorted(...)` and `list.sort()` are modelled as an insertion sort.
 */
module Names {

  /** Python's `a <= b` on strings. */
  predicate StrLe(a: string, b: string) {
    a == [] || (b != [] && (a[0] < b[0] || (a[0] == b[0] && StrLe(a[1..], b[1..]))))
  }

  lemma {:induction false} StrLeTotal(a: string, b: string)
    ensures StrLe(a, b) || StrLe(b, a)
  {
    if a != [] && b != [] && a[0] == b[0] {
      StrLeTotal(a[1..], b[1..]);
    }
  }

  lemma {:induction false} StrLeTrans(a: string, b: string, c: string)
    requires StrLe(a, b) && StrLe(b, c)
    ensures StrLe(a, c)
  {
    if a != [] && b != [] && c != [] && a[0] == b[0] == c[0] {
      StrLeTrans(a[1..], b[1..], c[1..]);
    }
  }

  predicate Ascending(s: seq<string>) {
    forall i, j :: 0 <= i < j < |s| ==> StrLe(s[i], s[j])
  }

  function InsertName(x: string, s: seq<string>): seq<string> {
    if s == [] || StrLe(x, s[0]) then [x] + s else [s[0]] + InsertName(x, s[1..])
  }

  /** `sorted(s)` */
  function SortNames(s: seq<string>): seq<string> {
    if s == [] then [] else InsertName(s[0], SortNames(s[1..]))
  }

  lemma {:induction false} InsertNamePermutes(x: string, s: seq<string>)
    ensures multiset(InsertName(x, s)) == multiset(s) + multiset{x}
  {
    if s != [] && !StrLe(x, s[0]) {
      InsertNamePermutes(x, s[1..]);
      assert s == [s[0]] + s[1..];
    }
  }

  lemma {:induction false} InsertNameAscending(x: string, s: seq<string>)
    requires Ascending(s)
    ensures Ascending(InsertName(x, s))
  {
    if s == [] {
    } else if StrLe(x, s[0]) {
      forall j | 0 <= j < |s|
        ensures StrLe(x, s[j])
      {
        if j > 0 {
          StrLeTrans(x, s[0], s[j]);
        }
      }
      var r := [x] + s;
      forall i, j | 0 <= i < j < |r|
        ensures StrLe(r[i], r[j])
      {
        if i > 0 {
          assert r[i] == s[i - 1] && r[j] == s[j - 1];
        }
      }
    } else {
      StrLeTotal(x, s[0]);
      InsertNameAscending(x, s[1..]);
      InsertNamePermutes(x, s[1..]);
      var t := InsertName(x, s[1..]);
      forall j | 0 <= j < |t|
        ensures StrLe(s[0], t[j])
      {
        assert t[j] in multiset(s[1..]) + multiset{x};
        if t[j] != x {
          var m :| 0 <= m < |s[1..]| && s[1..][m] == t[j];
          assert s[m + 1] == t[j];
        }
      }
      var r := [s[0]] + t;
      forall i, j | 0 <= i < j < |r|
        ensures StrLe(r[i], r[j])
      {
        if i > 0 {
          assert r[i] == t[i - 1] && r[j] == t[j - 1];
        }
      }
    }
  }

  /** Sorting yields the same names, duplicates included, in ascending order. */
  lemma {:induction false} SortNamesSpec(s: seq<string>)
    ensures multiset(SortNames(s)) == multiset(s)
    ensures Ascending(SortNames(s))
  {
    if s != [] {
      SortNamesSpec(s[1..]);
      InsertNamePermutes(s[0], SortNames(s[1..]));
      InsertNameAscending(s[0], SortNames(s[1..]));
      assert s == [s[0]] + s[1..];
    }
  }
}
