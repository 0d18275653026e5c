/**
  The pieces of Python's `str` API that the log parsers rely on:
  `strip()`, `strip(chars)`, `rstrip("\n")`, `split(sep, maxsplit)`, `upper()`
  and the decimal rendering of integers.
 */
module Text {
  import opened Wrappers

  /** The characters for which Python's `str.isspace()` holds; `str.strip()` removes exactly these. */
  predicate IsSpace(c: char) {
    c == ' ' || ('\t' <= c <= '\r') || ('\U{1C}' <= c <= '\U{1F}')
    || c == '\U{85}' || c == '\U{A0}' || c == '\U{1680}'
    || ('\U{2000}' <= c <= '\U{200A}') || c == '\U{2028}' || c == '\U{2029}'
    || c == '\U{202F}' || c == '\U{205F}' || c == '\U{3000}'
  }

  /** The number of occurrences of `c` in `s`. */
  function Count(s: string, c: char): nat {
    multiset(s)[c]
  }

  /** Removes every leading character satisfying `drop`. */
  function TrimLeft(s: string, drop: char -> bool): (r: string)
    ensures |r| <= |s| && r == s[|s| - |r|..]
    ensures r == [] || !drop(r[0])
    ensures forall i :: 0 <= i < |s| - |r| ==> drop(s[i])
  {
    if s != [] && drop(s[0]) then
      var r := TrimLeft(s[1..], drop);
      assert forall i :: 1 <= i < |s| ==> s[1..][i - 1] == s[i];
      r
    else s
  }

  /** Removes every trailing character satisfying `drop`. */
  function TrimRight(s: string, drop: char -> bool): (r: string)
    ensures |r| <= |s| && r == s[..|r|]
    ensures r == [] || !drop(r[|r| - 1])
    ensures forall i :: |r| <= i < |s| ==> drop(s[i])
  {
    if s != [] && drop(s[|s| - 1]) then TrimRight(s[..|s| - 1], drop) else s
  }

  /** Trimming only removes characters. */
  lemma {:induction false} TrimKeepsOut(s: string, drop: char -> bool, c: char)
    requires c !in s
    ensures c !in TrimLeft(s, drop) && c !in TrimRight(s, drop)
  {
  }

  /** Python's `s.strip()`. */
  function Strip(s: string): string {
    TrimRight(TrimLeft(s, IsSpace), IsSpace)
  }

  /** Python's `s.strip(chars)`. */
  function StripChars(s: string, chars: set<char>): string {
    TrimRight(TrimLeft(s, InSet(chars)), InSet(chars))
  }

  /** Membership in `chars`, as the test `strip(chars)` applies to each end character. */
  function InSet(chars: set<char>): char -> bool {
    c => c in chars
  }

  /** Python's `s.rstrip("\n")`. */
  function RStripNewlines(s: string): string {
    TrimRight(s, c => c == '\n')
  }

  /** A string whose ends are not whitespace is left alone by `strip()`. */
  lemma StripKeeps(s: string)
    requires s == [] || (!IsSpace(s[0]) && !IsSpace(s[|s| - 1]))
    ensures Strip(s) == s
  {
  }

  /** The index of the first occurrence of `c` in `s`. */
  function IndexOf(s: string, c: char): (r: Option<nat>)
    ensures r.Some? ==> r.value < |s|
  {
    if s == [] then None
    else if s[0] == c then Some(0)
    else match IndexOf(s[1..], c)
      case None => None
      case Some(i) => Some(i + 1)
  }

  /** `IndexOf` finds the first occurrence, and finds none exactly when `c` does not occur. */
  lemma {:induction false} IndexOfSpec(s: string, c: char)
    ensures IndexOf(s, c).None? ==> forall j :: 0 <= j < |s| ==> s[j] != c
    ensures IndexOf(s, c).Some? ==> s[IndexOf(s, c).value] == c && forall j :: 0 <= j < IndexOf(s, c).value ==> s[j] != c
  {
    if s != [] && s[0] != c {
      IndexOfSpec(s[1..], c);
    }
  }

  /** The converse: a position holding `c` with no `c` before it is what `IndexOf` finds. */
  lemma {:induction false} IndexOfAt(s: string, c: char, i: nat)
    requires i < |s| && s[i] == c
    requires forall j :: 0 <= j < i ==> s[j] != c
    ensures IndexOf(s, c) == Some(i)
  {
    if i > 0 {
      assert s[1..][i - 1] == c;
      IndexOfAt(s[1..], c, i - 1);
    }
  }

  function Min(a: nat, b: nat): nat {
    if a <= b then a else b
  }

  /** Joins `parts` with the single separator `sep`; the inverse of `Split`. */
  function JoinWith(parts: seq<string>, sep: char): string
    requires |parts| >= 1
  {
    if |parts| == 1 then parts[0] else parts[0] + [sep] + JoinWith(parts[1..], sep)
  }

  /**
    Python's `s.split(sep, maxsplit)` for a one-character separator: cuts at the first
    `maxsplit` occurrences of `sep`, keeping empty pieces.
   */
  function Split(s: string, sep: char, maxsplit: nat): (r: seq<string>)
    ensures |r| >= 1
    decreases |s|
  {
    if maxsplit == 0 then [s]
    else match IndexOf(s, sep)
      case None => [s]
      case Some(i) => [s[..i]] + Split(s[i + 1..], sep, maxsplit - 1)
  }

  /** With `maxsplit` at least the length, `Split` cuts at every separator, whatever its value. */
  lemma {:induction false} SplitAll(s: string, sep: char, k: nat)
    requires k >= |s|
    ensures Split(s, sep, k) == Split(s, sep, |s|)
    decreases |s|
  {
    match IndexOf(s, sep)
    case None =>
    case Some(i) =>
      SplitAll(s[i + 1..], sep, k - 1);
      SplitAll(s[i + 1..], sep, |s| - 1);
  }

  /** One step of `Split`: the piece before the first separator, then the split of the rest. */
  lemma SplitUnfold(s: string, sep: char, maxsplit: nat, i: nat)
    requires maxsplit != 0 && IndexOf(s, sep) == Some(i)
    ensures Split(s, sep, maxsplit) == [s[..i]] + Split(s[i + 1..], sep, maxsplit - 1)
  {
  }

  lemma CutAt(s: string, i: nat)
    requires i < |s|
    ensures s == s[..i] + [s[i]] + s[i + 1..]
  {
    assert s == s[..i] + s[i..];
    assert s[i..] == [s[i]] + s[i + 1..];
  }

  lemma JoinCons(head: string, rest: seq<string>, sep: char)
    requires |rest| >= 1
    ensures JoinWith([head] + rest, sep) == head + [sep] + JoinWith(rest, sep)
  {
    assert ([head] + rest)[1..] == rest;
  }

  lemma CountCut(s: string, c: char, i: nat)
    requires i < |s| && s[i] == c
    ensures Count(s, c) == Count(s[..i], c) + 1 + Count(s[i + 1..], c)
  {
    CutAt(s, i);
    assert multiset(s) == multiset(s[..i]) + multiset([c]) + multiset(s[i + 1..]);
  }

  lemma CountNone(s: string, c: char)
    requires forall j :: 0 <= j < |s| ==> s[j] != c
    ensures Count(s, c) == 0
  {
    assert c !in s;
  }

  lemma SplitLengthStep(s: string, sep: char, maxsplit: nat, i: nat)
    requires maxsplit != 0 && IndexOf(s, sep) == Some(i)
    requires |Split(s[i + 1..], sep, maxsplit - 1)| == Min(Count(s[i + 1..], sep), maxsplit - 1) + 1
    ensures |Split(s, sep, maxsplit)| == Min(Count(s, sep), maxsplit) + 1
  {
    SplitUnfold(s, sep, maxsplit, i);
    IndexOfSpec(s, sep);
    CountCut(s, sep, i);
    CountNone(s[..i], sep);
  }

  lemma SplitLengthBase(s: string, sep: char, maxsplit: nat)
    requires maxsplit == 0 || IndexOf(s, sep).None?
    ensures |Split(s, sep, maxsplit)| == Min(Count(s, sep), maxsplit) + 1
  {
    if maxsplit != 0 {
      IndexOfSpec(s, sep);
      CountNone(s, sep);
    }
  }

  /** Splitting yields one piece more than the number of cuts: the occurrences of `sep`, at most `maxsplit`. */
  lemma {:induction false} SplitLength(s: string, sep: char, maxsplit: nat)
    ensures |Split(s, sep, maxsplit)| == Min(Count(s, sep), maxsplit) + 1
    decreases |s|
  {
    var idx := IndexOf(s, sep);
    if maxsplit != 0 && idx.Some? {
      var i := idx.value;
      var rest := s[i + 1..];
      assert |rest| < |s|;
      SplitLength(rest, sep, maxsplit - 1);
      SplitLengthStep(s, sep, maxsplit, i);
    } else {
      SplitLengthBase(s, sep, maxsplit);
    }
  }

  lemma SplitJoinStep(s: string, sep: char, maxsplit: nat, i: nat)
    requires maxsplit != 0 && IndexOf(s, sep) == Some(i)
    requires JoinWith(Split(s[i + 1..], sep, maxsplit - 1), sep) == s[i + 1..]
    ensures JoinWith(Split(s, sep, maxsplit), sep) == s
  {
    SplitUnfold(s, sep, maxsplit, i);
    JoinCons(s[..i], Split(s[i + 1..], sep, maxsplit - 1), sep);
    IndexOfSpec(s, sep);
    CutAt(s, i);
  }

  lemma SplitJoinBase(s: string, sep: char, maxsplit: nat)
    requires maxsplit == 0 || IndexOf(s, sep).None?
    ensures JoinWith(Split(s, sep, maxsplit), sep) == s
  {
  }

  /** Joining the pieces of a split with the separator gives the string back. */
  lemma {:induction false} SplitJoin(s: string, sep: char, maxsplit: nat)
    ensures JoinWith(Split(s, sep, maxsplit), sep) == s
    decreases |s|
  {
    var idx := IndexOf(s, sep);
    if maxsplit != 0 && idx.Some? {
      SplitJoin(s[idx.value + 1..], sep, maxsplit - 1);
      SplitJoinStep(s, sep, maxsplit, idx.value);
    } else {
      SplitJoinBase(s, sep, maxsplit);
    }
  }

  /**
    Only the last piece of a split may still hold `sep`, and only when all `maxsplit` cuts
    were made.
   */
  lemma {:induction false} SplitPieces(s: string, sep: char, maxsplit: nat)
    ensures forall i :: 0 <= i < |Split(s, sep, maxsplit)| - 1 ==> sep !in Split(s, sep, maxsplit)[i]
    ensures |Split(s, sep, maxsplit)| <= maxsplit ==> sep !in Split(s, sep, maxsplit)[|Split(s, sep, maxsplit)| - 1]
    decreases |s|
  {
    IndexOfSpec(s, sep);
    var idx := IndexOf(s, sep);
    if maxsplit != 0 && idx.Some? {
      var i := idx.value;
      var rest := Split(s[i + 1..], sep, maxsplit - 1);
      SplitPieces(s[i + 1..], sep, maxsplit - 1);
      SplitUnfold(s, sep, maxsplit, i);
      var r := Split(s, sep, maxsplit);
      forall j | 0 <= j < |r| - 1
        ensures sep !in r[j]
      {
        if j > 0 { assert r[j] == rest[j - 1]; }
      }
    }
  }

  /** Cutting at a first separator that sits right after a separator-free head. */
  lemma SplitFirst(head: string, rest: string, sep: char, maxsplit: nat)
    requires sep !in head && maxsplit >= 1
    ensures Split(head + [sep] + rest, sep, maxsplit) == [head] + Split(rest, sep, maxsplit - 1)
  {
    var s := head + [sep] + rest;
    assert s[|head|] == sep;
    assert forall j :: 0 <= j < |head| ==> s[j] == head[j];
    IndexOfAt(s, sep, |head|);
    SplitUnfold(s, sep, maxsplit, |head|);
    assert s[..|head|] == head && s[|head| + 1..] == rest;
  }

  /** A string without the separator is not cut. */
  lemma SplitNone(s: string, sep: char, maxsplit: nat)
    requires sep !in s
    ensures Split(s, sep, maxsplit) == [s]
  {
    IndexOfSpec(s, sep);
  }

  /**
    `Split` inverts `JoinWith`: when the first `k` pieces are free of the separator, cutting the
    joined string at its first `k` separators gives back those pieces and the rest, joined.
   */
  lemma {:induction false} SplitJoinWith(parts: seq<string>, sep: char, k: nat)
    requires k < |parts|
    requires forall i :: 0 <= i < k ==> sep !in parts[i]
    ensures Split(JoinWith(parts, sep), sep, k) == parts[..k] + [JoinWith(parts[k..], sep)]
  {
    if k > 0 {
      SplitJoinWith(parts[1..], sep, k - 1);
      SplitJoinWithStep(parts, sep, k);
    } else {
      assert parts[k..] == parts;
    }
  }

  lemma SplitJoinWithStep(parts: seq<string>, sep: char, k: nat)
    requires 0 < k < |parts| && sep !in parts[0]
    requires Split(JoinWith(parts[1..], sep), sep, k - 1) == parts[1..][..k - 1] + [JoinWith(parts[1..][k - 1..], sep)]
    ensures Split(JoinWith(parts, sep), sep, k) == parts[..k] + [JoinWith(parts[k..], sep)]
  {
    var rest := parts[1..];
    SplitFirst(parts[0], JoinWith(rest, sep), sep, k);
    assert rest[k - 1..] == parts[k..];
    assert [parts[0]] + rest[..k - 1] == parts[..k];
  }

  /** The first two pieces, with the separator between them, begin the joined string. */
  lemma JoinWithPrefix(parts: seq<string>, sep: char)
    requires |parts| >= 3
    ensures var d := parts[0] + [sep] + parts[1];
      |d| < |JoinWith(parts, sep)| && JoinWith(parts, sep)[..|d|] == d && JoinWith(parts, sep)[|d|] == sep
  {
    var d := parts[0] + [sep] + parts[1];
    var tail := JoinWith(parts[2..], sep);
    assert parts[1..][0] == parts[1] && parts[1..][1..] == parts[2..];
    assert JoinWith(parts, sep) == parts[0] + [sep] + (parts[1] + [sep] + tail);
    assert parts[0] + [sep] + (parts[1] + [sep] + tail) == d + ([sep] + tail);
  }

  /** ASCII upper-casing of one character. */
  function UpperChar(c: char): char {
    if 'a' <= c <= 'z' then (c as int - 'a' as int + 'A' as int) as char else c
  }

  /** Python's `s.upper()`, restricted to ASCII letters. */
  function Upper(s: string): (r: string)
    ensures |r| == |s|
    ensures forall i :: 0 <= i < |s| ==> r[i] == UpperChar(s[i])
  {
    seq(|s|, i requires 0 <= i < |s| => UpperChar(s[i]))
  }

  function DigitChar(d: nat): char
    requires d < 10
  {
    ('0' as int + d) as char
  }

  /** Python's `str(n)` for a natural number. */
  function NatToString(n: nat): (r: string)
    ensures |r| >= 1
    ensures forall i :: 0 <= i < |r| ==> '0' <= r[i] <= '9'
    decreases n
  {
    if n < 10 then [DigitChar(n)] else NatToString(n / 10) + [DigitChar(n % 10)]
  }

  /** Python's `str(n)` (or an f-string field) for an integer. */
  function IntToString(n: int): string {
    if n < 0 then "-" + NatToString(-n) else NatToString(n)
  }
}
