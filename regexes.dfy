/**
  The three regular expressions of log_Analyzer.py and its `\bERROR\b` test, as scanners.
  `re.search` finds the leftmost position where the pattern matches; at that position the
  alternatives and repetitions are tried in the order the regex engine tries them.
  Word characters, digits and case-insensitive letters are their ASCII members.
 */
module Regexes {
  import opened Wrappers
  import opened Text

  predicate IsAsciiDigit(c: char) {
    '0' <= c <= '9'
  }

  /** `\w`: letters, digits and the underscore. */
  predicate IsWordChar(c: char) {
    ('a' <= c <= 'z') || ('A' <= c <= 'Z') || IsAsciiDigit(c) || c == '_'
  }

  /** `\b` at position `i` (between `s[i-1]` and `s[i]`). */
  predicate Boundary(s: string, i: nat)
    requires i <= |s|
  {
    (i > 0 && IsWordChar(s[i - 1])) != (i < |s| && IsWordChar(s[i]))
  }

  /** The upper-case word `w` spelled, in any case, at position `i`. */
  predicate WordAt(s: string, i: nat, w: string) {
    i + |w| <= |s| && Upper(s[i..i + |w|]) == w
  }

  /** `\bW\b` with `re.I` matches at `i`. */
  predicate WholeWordAt(s: string, i: nat, w: string) {
    i <= |s| && Boundary(s, i) && WordAt(s, i, w) && Boundary(s, i + |w|)
  }

  // ---------------------------------------------------------------------------------------
  // LEVEL_RE = \b(INFO|WARN(?:ING)?|ERROR)\b  with re.I

  /** The text of group 1 when `LEVEL_RE` matches at `i`: alternatives in order, `(?:ING)?` greedy. */
  function LevelMatchAt(s: string, i: nat): (r: Option<string>)
    requires i <= |s|
    ensures r.Some? ==> i + |r.value| <= |s| && r.value == s[i..i + |r.value|]
  {
    if WholeWordAt(s, i, "INFO") then Some(s[i..i + 4])
    else if WholeWordAt(s, i, "WARNING") then Some(s[i..i + 7])
    else if WholeWordAt(s, i, "WARN") then Some(s[i..i + 4])
    else if WholeWordAt(s, i, "ERROR") then Some(s[i..i + 5])
    else None
  }

  /** `LEVEL_RE.search(s[i:])` relative to `s`: the leftmost match at or after `i`. */
  function LevelSearchFrom(s: string, i: nat): Option<string>
    requires i <= |s|
    decreases |s| - i
  {
    if LevelMatchAt(s, i).Some? then LevelMatchAt(s, i)
    else if i == |s| then None
    else LevelSearchFrom(s, i + 1)
  }

  /** `LEVEL_RE.search(line)`, group 1. */
  function LevelSearch(s: string): Option<string> {
    LevelSearchFrom(s, 0)
  }

  // ---------------------------------------------------------------------------------------
  // IP_RE = \b\d{1,3}(?:\.\d{1,3}){3}\b

  /** The length of the run of digits that starts at `i`. */
  function DigitRun(s: string, i: nat): (r: nat)
    requires i <= |s|
    ensures i + r <= |s|
    ensures forall j :: i <= j < i + r ==> IsAsciiDigit(s[j])
    ensures i + r == |s| || !IsAsciiDigit(s[i + r])
    decreases |s| - i
  {
    if i < |s| && IsAsciiDigit(s[i]) then 1 + DigitRun(s, i + 1) else 0
  }

  /**
    Where `\d{1,3}(?:\.\d{1,3}){groups-1}\b` ends when it matches at `i`. A group that does not
    take its whole digit run is followed by a digit, which is neither `.` nor a word boundary,
    so backtracking never succeeds with fewer digits: every group is a whole run of 1 to 3
    digits.
   */
  function DottedEnd(s: string, i: nat, groups: nat): (r: Option<nat>)
    requires i <= |s| && groups >= 1
    ensures r.Some? ==> i < r.value <= |s| && Boundary(s, r.value)
    decreases groups
  {
    var run := DigitRun(s, i);
    if run < 1 || run > 3 then None
    else if groups == 1 then (if Boundary(s, i + run) then Some(i + run) else None)
    else if i + run < |s| && s[i + run] == '.' then
      match DottedEnd(s, i + run + 1, groups - 1)
      case None => None
      case Some(e) => Some(e)
    else None
  }

  /** One `\d{1,3}` group. */
  predicate Octet(t: string) {
    1 <= |t| <= 3 && forall k :: 0 <= k < |t| ==> IsAsciiDigit(t[k])
  }

  /** `t.split(".")` gives `groups` pieces, each of one to three digits. */
  predicate DottedDigits(t: string, groups: nat) {
    var parts := Split(t, '.', |t|);
    |parts| == groups && forall k :: 0 <= k < |parts| ==> Octet(parts[k])
  }

  /** The text `IP_RE` matches at `i`. */
  function IpMatchAt(s: string, i: nat): (r: Option<string>)
    requires i <= |s|
    ensures r.Some? ==> i + |r.value| <= |s| && r.value == s[i..i + |r.value|]
  {
    if !Boundary(s, i) then None
    else match DottedEnd(s, i, 4)
      case None => None
      case Some(e) => Some(s[i..e])
  }

  function IpSearchFrom(s: string, i: nat): Option<string>
    requires i <= |s|
    decreases |s| - i
  {
    if IpMatchAt(s, i).Some? then IpMatchAt(s, i)
    else if i == |s| then None
    else IpSearchFrom(s, i + 1)
  }

  /** `IP_RE.search(line).group(0)` */
  function IpSearch(s: string): Option<string> {
    IpSearchFrom(s, 0)
  }

  // ---------------------------------------------------------------------------------------
  // DATE_DAY_RE = (\d{4}-\d{2}-\d{2})

  predicate DigitsAt(s: string, i: nat, n: nat) {
    i + n <= |s| && forall j :: i <= j < i + n ==> IsAsciiDigit(s[j])
  }

  /** `\d{4}-\d{2}-\d{2}` matches at `i`. */
  predicate DayAt(s: string, i: nat) {
    i + 10 <= |s| && DigitsAt(s, i, 4) && s[i + 4] == '-' && DigitsAt(s, i + 5, 2) && s[i + 7] == '-'
    && DigitsAt(s, i + 8, 2)
  }

  function DaySearchFrom(s: string, i: nat): (r: Option<string>)
    requires i <= |s|
    ensures r.Some? ==> |r.value| == 10
    decreases |s| - i
  {
    if DayAt(s, i) then Some(s[i..i + 10])
    else if i == |s| then None
    else DaySearchFrom(s, i + 1)
  }

  /** `DATE_DAY_RE.search(line).group(1)` */
  function DaySearch(s: string): Option<string> {
    DaySearchFrom(s, 0)
  }

  // ---------------------------------------------------------------------------------------
  // re.search(r"\bERROR\b", line, re.I)

  /** Some position at or after `i` holds the whole word ERROR, in any case. */
  predicate HasErrorWordFrom(s: string, i: nat)
    requires i <= |s|
    decreases |s| - i
  {
    WholeWordAt(s, i, "ERROR") || (i < |s| && HasErrorWordFrom(s, i + 1))
  }

  predicate HasErrorWord(s: string) {
    HasErrorWordFrom(s, 0)
  }

  // ---------------------------------------------------------------------------------------
  // Properties of the scanners

  /** The group `LEVEL_RE` captures is, upper-cased, one of its four spellings. */
  lemma {:induction false} LevelSearchFromSpelling(s: string, i: nat)
    requires i <= |s|
    ensures LevelSearchFrom(s, i).Some? ==>
      Upper(LevelSearchFrom(s, i).value) in ["INFO", "WARNING", "WARN", "ERROR"]
    decreases |s| - i
  {
    if LevelMatchAt(s, i).None? && i < |s| {
      LevelSearchFromSpelling(s, i + 1);
    }
  }

  /** The search result is the match at the leftmost position that has one. */
  lemma {:induction false} LevelSearchFromLeftmost(s: string, i: nat, j: nat)
    requires i <= j <= |s| && LevelMatchAt(s, j).Some?
    requires forall m :: i <= m < j ==> LevelMatchAt(s, m).None?
    ensures LevelSearchFrom(s, i) == LevelMatchAt(s, j)
    decreases j - i
  {
    if i < j {
      LevelSearchFromLeftmost(s, i + 1, j);
    }
  }

  lemma CountDotJoin(a: string, b: string)
    ensures Count(a + "." + b, '.') == Count(a, '.') + 1 + Count(b, '.')
  {
    assert multiset(a + "." + b) == multiset(a) + multiset{'.'} + multiset(b);
  }

  /** A dotted match holds only digits and dots. */
  lemma {:induction false} DottedEndChars(s: string, i: nat, groups: nat)
    requires i <= |s| && groups >= 1 && DottedEnd(s, i, groups).Some?
    ensures forall j :: i <= j < DottedEnd(s, i, groups).value ==> IsAsciiDigit(s[j]) || s[j] == '.'
    decreases groups
  {
    if groups > 1 {
      DottedEndChars(s, i + DigitRun(s, i) + 1, groups - 1);
    }
  }

  /** A dotted match of `groups` digit groups holds `groups - 1` dots. */
  lemma {:induction false} DottedEndDots(s: string, i: nat, groups: nat)
    requires i <= |s| && groups >= 1 && DottedEnd(s, i, groups).Some?
    ensures Count(s[i..DottedEnd(s, i, groups).value], '.') == groups - 1
    decreases groups
  {
    var run := DigitRun(s, i);
    var e := DottedEnd(s, i, groups).value;
    if groups == 1 {
      assert e == i + run;
      DigitsNoDot(s, i, i + run);
    } else {
      var m := DottedEndStep(s, i, groups);
      DottedEndDots(s, m, groups - 1);
      DotsJoin(s, i, i + run, m, e, groups - 2);
    }
  }

  /** Digits, a dot, then a stretch with `n` dots: `n + 1` dots in all. */
  lemma DotsJoin(s: string, i: nat, k: nat, m: nat, e: nat, n: nat)
    requires i <= k < e <= |s| && m == k + 1 && s[k] == '.' && Count(s[m..e], '.') == n
    requires k == i + DigitRun(s, i)
    ensures Count(s[i..e], '.') == n + 1
  {
    DigitsNoDot(s, i, k);
    CutAtDot(s, i, k, m, e);
    CountDotJoin(s[i..k], s[m..e]);
  }

  /** A match of several groups is a digit run, a dot, and a match of the remaining groups. */
  lemma DottedEndStep(s: string, i: nat, groups: nat) returns (m: nat)
    requires i <= |s| && groups > 1 && DottedEnd(s, i, groups).Some?
    ensures m == i + DigitRun(s, i) + 1 && m <= |s| && s[m - 1] == '.'
    ensures DottedEnd(s, m, groups - 1) == DottedEnd(s, i, groups)
  {
    m := i + DigitRun(s, i) + 1;
  }

  lemma DigitsNoDot(s: string, i: nat, j: nat)
    requires i <= j <= |s| && forall k :: i <= k < j ==> IsAsciiDigit(s[k])
    ensures Count(s[i..j], '.') == 0
  {
    assert '.' !in s[i..j];
  }

  /** A matched address is a substring of the line made of four dot-separated digit groups. */
  lemma DottedEndShape(s: string, i: nat, groups: nat)
    requires i <= |s| && groups >= 1 && DottedEnd(s, i, groups).Some?
    ensures forall j :: i <= j < DottedEnd(s, i, groups).value ==> IsAsciiDigit(s[j]) || s[j] == '.'
    ensures Count(s[i..DottedEnd(s, i, groups).value], '.') == groups - 1
  {
    DottedEndChars(s, i, groups);
    DottedEndDots(s, i, groups);
  }

  lemma CutAtDot(s: string, i: nat, k: nat, m: nat, e: nat)
    requires i <= k < e <= |s| && m == k + 1 && s[k] == '.'
    ensures s[i..e] == s[i..k] + "." + s[m..e]
  {
    assert s[i..e] == s[i..k] + s[k..m] + s[m..e];
  }

  /**
    A matched address is four groups of one to three digits joined by dots: it splits at its
    dots into four such groups, and so holds exactly three dots and otherwise only digits.
   */
  lemma {:induction false} IpSearchFromShape(s: string, i: nat)
    requires i <= |s|
    ensures IpSearchFrom(s, i).Some? ==>
      var ip := IpSearchFrom(s, i).value;
      DottedDigits(ip, 4) && Count(ip, '.') == 3 && (forall j :: 0 <= j < |ip| ==> IsAsciiDigit(ip[j]) || ip[j] == '.')
    decreases |s| - i
  {
    if IpMatchAt(s, i).Some? {
      var e := DottedEnd(s, i, 4).value;
      DottedEndShape(s, i, 4);
      DottedEndSound(s, i, 4);
      assert IpSearchFrom(s, i).value == s[i..e];
    } else if i < |s| {
      IpSearchFromShape(s, i + 1);
    }
  }

  /** The length of a digit run is fixed by the digits and the first non-digit after them. */
  lemma DigitRunExact(s: string, i: nat, n: nat)
    requires i + n <= |s| && forall k :: i <= k < i + n ==> IsAsciiDigit(s[k])
    requires i + n == |s| || !IsAsciiDigit(s[i + n])
    ensures DigitRun(s, i) == n
  {
  }

  /** Splitting a dot-free group, a dot and a rest at every dot: the group, then the rest's pieces. */
  lemma SplitAtFirstDot(head: string, rest: string)
    requires '.' !in head
    ensures Split(head + "." + rest, '.', |head + "." + rest|) == [head] + Split(rest, '.', |rest|)
  {
    SplitFirst(head, rest, '.', |head + "." + rest|);
    SplitAll(rest, '.', |head + "." + rest| - 1);
  }

  /** A group of one to three digits, a dot, then `n` dotted groups make `n + 1` dotted groups. */
  lemma GroupThenRest(s: string, i: nat, k: nat, m: nat, e: nat, n: nat)
    requires i < k < e <= |s| && m == k + 1 && s[k] == '.' && k - i <= 3
    requires forall j :: i <= j < k ==> IsAsciiDigit(s[j])
    requires DottedDigits(s[m..e], n)
    ensures DottedDigits(s[i..e], n + 1)
  {
    var head := s[i..k];
    GroupOctet(s, i, k);
    CutAtDot(s, i, k, m, e);
    SplitAtFirstDot(head, s[m..e]);
    OctetsCons(head, Split(s[m..e], '.', |s[m..e]|));
  }

  /** One to three digits of the line form a dot-free group. */
  lemma GroupOctet(s: string, i: nat, k: nat)
    requires i < k <= |s| && k - i <= 3 && forall j :: i <= j < k ==> IsAsciiDigit(s[j])
    ensures Octet(s[i..k]) && '.' !in s[i..k]
  {
    var head := s[i..k];
    forall j | 0 <= j < |head| ensures IsAsciiDigit(head[j]) {
      assert head[j] == s[i + j];
    }
  }

  lemma OctetsCons(head: string, rest: seq<string>)
    requires Octet(head) && forall j :: 0 <= j < |rest| ==> Octet(rest[j])
    ensures forall j :: 0 <= j < |[head] + rest| ==> Octet(([head] + rest)[j])
  {
    forall j | 0 <= j < |[head] + rest| ensures Octet(([head] + rest)[j]) {
      if j > 0 {
        assert ([head] + rest)[j] == rest[j - 1];
      }
    }
  }

  /** What `DottedEnd` matches splits at its dots into `groups` groups of one to three digits. */
  lemma {:induction false} DottedEndSound(s: string, i: nat, groups: nat)
    requires i <= |s| && groups >= 1 && DottedEnd(s, i, groups).Some?
    ensures DottedDigits(s[i..DottedEnd(s, i, groups).value], groups)
    decreases groups
  {
    var run := DigitRun(s, i);
    var e := DottedEnd(s, i, groups).value;
    if groups == 1 {
      var t := s[i..e];
      assert e == i + run;
      assert '.' !in t by {
        forall j | 0 <= j < |t| ensures t[j] != '.' {
          assert t[j] == s[i + j];
        }
      }
      SplitNone(t, '.', |t|);
      assert Octet(t) by {
        forall j | 0 <= j < |t| ensures IsAsciiDigit(t[j]) {
          assert t[j] == s[i + j];
        }
      }
    } else {
      var m := DottedEndStep(s, i, groups);
      DottedEndSound(s, m, groups - 1);
      GroupThenRest(s, i, m - 1, m, e, groups - 1);
    }
  }

  /** The first group of a dotted match with more groups to come: digits and then a dot. */
  lemma FirstGroup(t: string, p: nat, groups: nat)
    requires DottedDigits(t, groups) && IndexOf(t, '.') == Some(p)
    ensures groups >= 2 && 1 <= p <= 3 && t[p] == '.'
    ensures forall j :: 0 <= j < p ==> IsAsciiDigit(t[j])
    ensures DottedDigits(t[p + 1..], groups - 1)
  {
    var rest := t[p + 1..];
    SplitAllUnfold(t, p);
    OctetsUncons(t[..p], Split(rest, '.', |rest|));
    IndexOfSpec(t, '.');
    assert forall j :: 0 <= j < p ==> t[..p][j] == t[j];
  }

  /** Splitting at every dot: the piece before the first dot, then the pieces of the rest. */
  lemma SplitAllUnfold(t: string, p: nat)
    requires IndexOf(t, '.') == Some(p)
    ensures Split(t, '.', |t|) == [t[..p]] + Split(t[p + 1..], '.', |t[p + 1..]|)
  {
    SplitUnfold(t, '.', |t|, p);
    SplitAll(t[p + 1..], '.', |t| - 1);
  }

  lemma OctetsUncons(head: string, rest: seq<string>)
    requires forall j :: 0 <= j < |[head] + rest| ==> Octet(([head] + rest)[j])
    ensures Octet(head) && forall j :: 0 <= j < |rest| ==> Octet(rest[j])
  {
    assert ([head] + rest)[0] == head;
    forall j | 0 <= j < |rest| ensures Octet(rest[j]) {
      assert rest[j] == ([head] + rest)[j + 1];
    }
  }

  /**
    Conversely, `groups` dotted groups followed by a word boundary are exactly what
    `DottedEnd` matches.
   */
  lemma {:induction false} DottedEndComplete(s: string, i: nat, e: nat, groups: nat)
    requires i <= e <= |s| && groups >= 1
    requires DottedDigits(s[i..e], groups) && Boundary(s, e)
    ensures DottedEnd(s, i, groups) == Some(e)
    decreases groups
  {
    var last, p, m := FirstOfGroups(s, i, e, groups);
    if !last {
      DottedEndComplete(s, m, e, groups - 1);
      GroupStep(s, i, e, p, groups);
    }
  }

  /** Either the groups are one last group, matched whole, or a first group comes before a dot. */
  lemma FirstOfGroups(s: string, i: nat, e: nat, groups: nat) returns (last: bool, p: nat, m: nat)
    requires i <= e <= |s| && groups >= 1
    requires DottedDigits(s[i..e], groups) && Boundary(s, e)
    ensures last ==> DottedEnd(s, i, groups) == Some(e)
    ensures !last ==> m == i + p + 1 && m <= e && groups >= 2 && GroupAt(s, i, p) && DottedDigits(s[m..e], groups - 1)
  {
    var idx := IndexOf(s[i..e], '.');
    if idx.None? {
      last, p, m := true, 0, 0;
      NoDotEnd(s, i, e, groups);
    } else {
      last, p := false, idx.value;
      m := DotStep(s, i, e, p, groups);
    }
  }

  /** Dotted groups without a dot are one group. */
  lemma NoDotEnd(s: string, i: nat, e: nat, groups: nat)
    requires i <= e <= |s| && IndexOf(s[i..e], '.').None?
    requires DottedDigits(s[i..e], groups) && Boundary(s, e)
    ensures DottedEnd(s, i, groups) == Some(e)
  {
    var t := s[i..e];
    IndexOfSpec(t, '.');
    SplitNone(t, '.', |t|);
    assert Split(t, '.', |t|)[0] == t;
    OneGroupEnd(s, i, e);
  }

  /** Dotted groups with a dot at `p`: a first group before it and the other groups after it. */
  lemma DotStep(s: string, i: nat, e: nat, p: nat, groups: nat) returns (m: nat)
    requires i <= e <= |s| && IndexOf(s[i..e], '.') == Some(p)
    requires DottedDigits(s[i..e], groups)
    ensures m == i + p + 1 && m <= e && groups >= 2 && GroupAt(s, i, p)
    ensures DottedDigits(s[m..e], groups - 1)
  {
    var t := s[i..e];
    FirstGroup(t, p, groups);
    m := i + p + 1;
    assert t[p + 1..] == s[m..e];
    assert t[p] == s[i + p];
    forall j | i <= j < i + p ensures IsAsciiDigit(s[j]) {
      assert s[j] == t[j - i];
    }
  }

  /** One to three digits at `i`, then a dot. */
  predicate GroupAt(s: string, i: nat, p: nat) {
    1 <= p <= 3 && i + p < |s| && s[i + p] == '.' && forall j :: i <= j < i + p ==> IsAsciiDigit(s[j])
  }

  /** A last group of one to three digits, followed by a word boundary, is matched whole. */
  lemma OneGroupEnd(s: string, i: nat, e: nat)
    requires i <= e <= |s| && Octet(s[i..e]) && Boundary(s, e)
    ensures DottedEnd(s, i, 1) == Some(e)
  {
    forall j | i <= j < e ensures IsAsciiDigit(s[j]) {
      assert s[j] == s[i..e][j - i];
    }
    assert IsWordChar(s[e - 1]);
    DigitRunExact(s, i, e - i);
  }

  /** A first group of `p` digits and a dot, before a match of the other groups ending at `e`. */
  lemma GroupStep(s: string, i: nat, e: nat, p: nat, groups: nat)
    requires GroupAt(s, i, p) && groups >= 2
    requires DottedEnd(s, i + p + 1, groups - 1) == Some(e)
    ensures DottedEnd(s, i, groups) == Some(e)
  {
    DigitRunExact(s, i, p);
  }

  /**
    `IP_RE` matches `s[i..e]` exactly when it splits at its dots into four groups of one to
    three digits with a word boundary at each end.
   */
  lemma IpMatchAtSpec(s: string, i: nat, e: nat)
    requires i <= e <= |s|
    ensures IpMatchAt(s, i) == Some(s[i..e]) <==> Boundary(s, i) && Boundary(s, e) && DottedDigits(s[i..e], 4)
  {
    if IpMatchAt(s, i) == Some(s[i..e]) {
      var f := DottedEnd(s, i, 4).value;
      assert |s[i..f]| == |s[i..e]|;
      DottedEndSound(s, i, 4);
    }
    if Boundary(s, i) && Boundary(s, e) && DottedDigits(s[i..e], 4) {
      DottedEndComplete(s, i, e, 4);
    }
  }

  /** The address search returns the match at the leftmost position that has one. */
  lemma {:induction false} IpSearchFromLeftmost(s: string, i: nat, j: nat)
    requires i <= j <= |s| && IpMatchAt(s, j).Some?
    requires forall m :: i <= m < j ==> IpMatchAt(s, m).None?
    ensures IpSearchFrom(s, i) == IpMatchAt(s, j)
    decreases j - i
  {
    if i < j {
      IpSearchFromLeftmost(s, i + 1, j);
    }
  }

  /** The address search finds nothing exactly when no position at or after `i` matches. */
  lemma {:induction false} IpSearchFromNone(s: string, i: nat)
    requires i <= |s|
    ensures IpSearchFrom(s, i).None? <==> forall m :: i <= m <= |s| ==> IpMatchAt(s, m).None?
    decreases |s| - i
  {
    if IpMatchAt(s, i).None? && i < |s| {
      IpSearchFromNone(s, i + 1);
    }
  }

  /** The level search finds nothing exactly when no position at or after `i` matches. */
  lemma {:induction false} LevelSearchFromNone(s: string, i: nat)
    requires i <= |s|
    ensures LevelSearchFrom(s, i).None? <==> forall m :: i <= m <= |s| ==> LevelMatchAt(s, m).None?
    decreases |s| - i
  {
    if LevelMatchAt(s, i).None? && i < |s| {
      LevelSearchFromNone(s, i + 1);
    }
  }

  /**
    A matched day is the ten characters `dddd-dd-dd` at the leftmost position at or after
    `i` where they occur.
   */
  lemma {:induction false} DaySearchFromShape(s: string, i: nat)
    requires i <= |s|
    ensures DaySearchFrom(s, i).Some? ==>
      exists j :: i <= j && j + 10 <= |s| && DayAt(s, j) && DaySearchFrom(s, i).value == s[j..j + 10]
        && forall m :: i <= m < j ==> !DayAt(s, m)
    decreases |s| - i
  {
    if !DayAt(s, i) && i < |s| {
      DaySearchFromShape(s, i + 1);
    }
  }

  /** The day search returns the day at the leftmost position that has one. */
  lemma {:induction false} DaySearchFromLeftmost(s: string, i: nat, j: nat)
    requires i <= j <= |s| && DayAt(s, j)
    requires forall m :: i <= m < j ==> !DayAt(s, m)
    ensures DaySearchFrom(s, i) == Some(s[j..j + 10])
    decreases j - i
  {
    if i < j {
      DaySearchFromLeftmost(s, i + 1, j);
    }
  }

  /** The day search finds nothing exactly when no position at or after `i` holds a day. */
  lemma {:induction false} DaySearchFromNone(s: string, i: nat)
    requires i <= |s|
    ensures DaySearchFrom(s, i).None? <==> forall m :: i <= m <= |s| ==> !DayAt(s, m)
    decreases |s| - i
  {
    if !DayAt(s, i) && i < |s| {
      DaySearchFromNone(s, i + 1);
    }
  }
}
