/**
  The chunk summariser and the accumulator of analysis.py.

  `analyze_chunk` runs every line through `parse_log_line` and counts, per chunk, the lines,
  the upper-cased levels, the addresses, and the ERROR lines per hour (`"YYYY-MM-DD HH"`, or
  `"unknown"` when the timestamp does not parse). `merge_partial_results` adds one such partial
  result into an accumulator dict in place.
 */
module Analysis {
  import opened Wrappers
  import opened Text
  import opened Counters
  import opened Ranking
  import opened Timestamps
  import LogUtils

  /** What `analyze_chunk` returns: `lines_total`, `by_level`, `top_ips`, `errors_by_hour`. */
  datatype Partial = Partial(linesTotal: nat, byLevel: Counter, topIps: Counter, errorsByHour: Counter)

  /** What one line contributes: at most one level, at most one address, at most one error bucket. */
  datatype LineClass = LineClass(level: Option<string>, ip: Option<string>, bucket: Option<string>)

  /** The bucket of an ERROR line: its hour if the timestamp parses, `"unknown"` otherwise. */
  function ErrorBucket(dt: string): string {
    match SafeParseDatetime(dt)
    case Some(d) => HourKey(d)
    case None => "unknown"
  }

  /**
    The classification of one line in the loop of `analyze_chunk`: nothing for a line the
    parser rejects; otherwise the upper-cased level if non-empty, the address if non-empty,
    and a bucket exactly when the upper-cased level is `ERROR`.
   */
  function Classify(line: string): LineClass {
    match LogUtils.ParseLogLine(line)
    case None => LineClass(None, None, None)
    case Some(f) =>
      var level := Upper(f.level);
      LineClass(if level != [] then Some(level) else None,
                if f.ip != [] then Some(f.ip) else None,
                if level == "ERROR" then Some(ErrorBucket(f.datetime)) else None)
  }

  /** The level keys counted for `lines`, line after line. */
  function LevelKeys(lines: seq<string>): seq<string> {
    if lines == [] then [] else LevelKeys(lines[..|lines| - 1]) + Opt(Classify(lines[|lines| - 1]).level)
  }

  /** The addresses counted for `lines`, line after line. */
  function IpKeys(lines: seq<string>): seq<string> {
    if lines == [] then [] else IpKeys(lines[..|lines| - 1]) + Opt(Classify(lines[|lines| - 1]).ip)
  }

  /** The error buckets counted for `lines`, line after line. */
  function BucketKeys(lines: seq<string>): seq<string> {
    if lines == [] then [] else BucketKeys(lines[..|lines| - 1]) + Opt(Classify(lines[|lines| - 1]).bucket)
  }

  /** The partial result of a chunk: its length and the tallies of the keys its lines yield. */
  function Summary(lines: seq<string>): Partial {
    Partial(|lines|, Tally(LevelKeys(lines)), Tally(IpKeys(lines)), Tally(BucketKeys(lines)))
  }

  /** Which section of a partial. */
  datatype Section = Levels | Ips | Hours

  function Of(p: Partial, s: Section): Counter {
    match s
    case Levels => p.byLevel
    case Ips => p.topIps
    case Hours => p.errorsByHour
  }

  ghost predicate ValidPartial(p: Partial) {
    Valid(p.byLevel) && Valid(p.topIps) && Valid(p.errorsByHour)
  }

  lemma TallySnoc(ks: seq<string>, o: Option<string>)
    ensures Tally(ks + Opt(o)) == if o.Some? then Add(Tally(ks), o.value, 1) else Tally(ks)
  {
    if o.Some? {
      assert (ks + [o.value])[..|ks|] == ks;
    } else {
      assert ks + [] == ks;
    }
  }

  lemma SummarySnoc(lines: seq<string>, i: nat)
    requires i < |lines|
    ensures var s := Summary(lines[..i]); var c := Classify(lines[i]);
      Summary(lines[..i + 1])
        == Partial(i + 1, Bump(s.byLevel, c.level), Bump(s.topIps, c.ip), Bump(s.errorsByHour, c.bucket))
  {
    var pre := lines[..i];
    assert lines[..i + 1][..i] == pre;
    var c := Classify(lines[i]);
    TallySnoc(LevelKeys(pre), c.level);
    TallySnoc(IpKeys(pre), c.ip);
    TallySnoc(BucketKeys(pre), c.bucket);
  }

  /** One turn of the loop of `analyze_chunk`: the counters a line raises go up by one. */
  method CountLine(levels: Counter, ips: Counter, errors: Counter, line: string)
    returns (levels': Counter, ips': Counter, errors': Counter)
    requires Valid(levels) && Valid(ips) && Valid(errors)
    ensures var c := Classify(line);
      levels' == Bump(levels, c.level) && ips' == Bump(ips, c.ip) && errors' == Bump(errors, c.bucket)
  {
    levels', ips', errors' := levels, ips, errors;
    var c := Classify(line);
    if c.level.Some? {
      levels' := Add(levels, c.level.value, 1);
    }
    if c.ip.Some? {
      ips' := Add(ips, c.ip.value, 1);
    }
    if c.bucket.Some? {
      errors' := Add(errors, c.bucket.value, 1);
    }
  }

  /** `analyze_chunk(lines)`: the loop that counts every line and increments the three counters. */
  method AnalyzeChunk(lines: seq<string>) returns (r: Partial)
    ensures r == Summary(lines)
  {
    var linesTotal := 0;
    var levels := Empty;
    var ips := Empty;
    var errors := Empty;
    for i := 0 to |lines|
      invariant Summary(lines[..i]) == Partial(linesTotal, levels, ips, errors)
    {
      SummarySnoc(lines, i);
      linesTotal := linesTotal + 1;
      levels, ips, errors := CountLine(levels, ips, errors, lines[i]);
    }
    assert lines[..|lines|] == lines;
    r := Partial(linesTotal, levels, ips, errors);
  }

  /** A summary holds well-formed count maps. */
  lemma SummaryValid(lines: seq<string>)
    ensures ValidPartial(Summary(lines))
  {
  }

  /** Lines the parser rejects are counted and nothing else: the maps stay empty. */
  lemma {:induction false} MalformedOnly(lines: seq<string>)
    requires forall i :: 0 <= i < |lines| ==> Count(lines[i], ' ') < 3
    ensures Summary(lines) == Partial(|lines|, Empty, Empty, Empty)
  {
    if lines != [] {
      var init := lines[..|lines| - 1];
      MalformedOnly(init);
      LogUtils.ParseLogLineFails(lines[|lines| - 1]);
      assert LevelKeys(lines) == [] && IpKeys(lines) == [] && BucketKeys(lines) == [];
    }
  }

  /** Each line yields at most one level key, one address and one bucket. */
  lemma {:induction false} KeysBounded(lines: seq<string>)
    ensures |LevelKeys(lines)| <= |lines| && |IpKeys(lines)| <= |lines| && |BucketKeys(lines)| <= |lines|
  {
    if lines != [] {
      KeysBounded(lines[..|lines| - 1]);
    }
  }

  /** One bucket per ERROR-level line and none for any other line. */
  lemma {:induction false} BucketsAreErrors(lines: seq<string>)
    ensures |BucketKeys(lines)| == multiset(LevelKeys(lines))["ERROR"]
  {
    if lines != [] {
      var init := lines[..|lines| - 1];
      BucketsAreErrors(init);
      var c := Classify(lines[|lines| - 1]);
      assert LevelKeys(lines) == LevelKeys(init) + Opt(c.level);
      assert BucketKeys(lines) == BucketKeys(init) + Opt(c.bucket);
      BucketIffError(lines[|lines| - 1]);
      assert multiset(LevelKeys(lines)) == multiset(LevelKeys(init)) + multiset(Opt(c.level));
    }
  }

  /** A line yields an hour bucket exactly when its level is ERROR. */
  lemma BucketIffError(line: string)
    ensures |Opt(Classify(line).bucket)| == multiset(Opt(Classify(line).level))["ERROR"]
  {
    var c := Classify(line);
    assert c.bucket.Some? <==> c.level == Some("ERROR");
    ErrorCount(c.level, c.bucket);
  }

  lemma ErrorCount(level: Option<string>, bucket: Option<string>)
    requires bucket.Some? <==> level == Some("ERROR")
    ensures |Opt(bucket)| == multiset(Opt(level))["ERROR"]
  {
  }

  lemma TallyFacts(ks: seq<string>)
    ensures Sum(Tally(ks)) == |ks|
    ensures Positive(Tally(ks))
    ensures Valid(Tally(ks))
  {
    SumTallyInto(Empty, ks);
    TallyPositive(ks);
  }

  /**
    The invariants of a summary: `lines_total` is the number of lines; every stored count is at
    least one; each map's counts add up to at most `lines_total`; and the ERROR buckets add up to
    the ERROR level count (0 when absent), so every ERROR line lands in exactly one bucket.
   */
  lemma SummarySpec(lines: seq<string>)
    ensures Summary(lines).linesTotal == |lines|
    ensures Positive(Summary(lines).byLevel) && Positive(Summary(lines).topIps) && Positive(Summary(lines).errorsByHour)
    ensures Sum(Summary(lines).byLevel) <= |lines| && Sum(Summary(lines).topIps) <= |lines|
    ensures Sum(Summary(lines).errorsByHour) <= |lines|
    ensures Sum(Summary(lines).errorsByHour) == Get(Summary(lines).byLevel, "ERROR")
  {
    KeysBounded(lines);
    TallyFacts(LevelKeys(lines));
    TallyFacts(IpKeys(lines));
    TallyFacts(BucketKeys(lines));
    BucketsAreErrors(lines);
    TallyIntoGet(Empty, LevelKeys(lines), "ERROR");
  }

  /**
    What a line written `date time [LEVEL] ip message` counts for: the level upper-cased, and
    only when it is non-empty (`warn` stays `WARN`; there is no renaming to `WARNING`); its
    address; and an hour bucket taken from its date and time exactly when the level is ERROR
    in any case.
   */
  lemma ClassifyFormatted(date: string, time: string, level: string, ip: string, message: string)
    requires ' ' !in date && ' ' !in time
    requires forall i :: 0 <= i < |level| ==> !IsSpace(level[i]) && level[i] != '[' && level[i] != ']'
    requires ip != [] && forall i :: 0 <= i < |ip| ==> !IsSpace(ip[i])
    requires message == [] || !IsSpace(message[|message| - 1])
    ensures var c := Classify(LogUtils.FormatLine(date, time, level, ip, message));
      c.level == (if level == [] then None else Some(Upper(level)))
      && c.ip == Some(ip)
      && c.bucket == (if Upper(level) == "ERROR" then Some(ErrorBucket(date + " " + time)) else None)
  {
    LogUtils.ParseFormatted(date, time, level, ip, message);
  }

  /** An ERROR line is bucketed by the first 13 characters of its timestamp, or as `"unknown"`. */
  lemma ErrorBucketSpec(dt: string)
    ensures SafeParseDatetime(dt).Some? ==> ErrorBucket(dt) == dt[..13]
    ensures SafeParseDatetime(dt).None? ==> ErrorBucket(dt) == "unknown"
  {
    if SafeParseDatetime(dt).Some? {
      SafeParseDatetimeSpec(dt);
    }
  }

  lemma {:induction false} LevelKeysConcat(a: seq<string>, b: seq<string>)
    ensures LevelKeys(a + b) == LevelKeys(a) + LevelKeys(b)
  {
    if b != [] {
      var init, last := b[..|b| - 1], b[|b| - 1];
      assert (a + b)[..|a + b| - 1] == a + init && (a + b)[|a + b| - 1] == last;
      LevelKeysConcat(a, init);
      var k := Opt(Classify(last).level);
      assert LevelKeys(a + b) == LevelKeys(a + init) + k;
      assert LevelKeys(b) == LevelKeys(init) + k;
    } else {
      assert a + b == a;
    }
  }

  lemma {:induction false} IpKeysConcat(a: seq<string>, b: seq<string>)
    ensures IpKeys(a + b) == IpKeys(a) + IpKeys(b)
  {
    if b != [] {
      var init, last := b[..|b| - 1], b[|b| - 1];
      assert (a + b)[..|a + b| - 1] == a + init && (a + b)[|a + b| - 1] == last;
      IpKeysConcat(a, init);
      var k := Opt(Classify(last).ip);
      assert IpKeys(a + b) == IpKeys(a + init) + k;
      assert IpKeys(b) == IpKeys(init) + k;
    } else {
      assert a + b == a;
    }
  }

  lemma {:induction false} BucketKeysConcat(a: seq<string>, b: seq<string>)
    ensures BucketKeys(a + b) == BucketKeys(a) + BucketKeys(b)
  {
    if b != [] {
      var init, last := b[..|b| - 1], b[|b| - 1];
      assert (a + b)[..|a + b| - 1] == a + init && (a + b)[|a + b| - 1] == last;
      BucketKeysConcat(a, init);
      var k := Opt(Classify(last).bucket);
      assert BucketKeys(a + b) == BucketKeys(a + init) + k;
      assert BucketKeys(b) == BucketKeys(init) + k;
    } else {
      assert a + b == a;
    }
  }

  /**
    Chunk boundaries do not matter: the summary of two runs of lines put together counts, key
    by key, what the two summaries count, and holds a key exactly when one of them does.
   */
  lemma SummaryConcat(a: seq<string>, b: seq<string>, s: Section, k: string)
    ensures Summary(a + b).linesTotal == Summary(a).linesTotal + Summary(b).linesTotal
    ensures Get(Of(Summary(a + b), s), k) == Get(Of(Summary(a), s), k) + Get(Of(Summary(b), s), k)
    ensures k in Of(Summary(a + b), s).counts <==> k in Of(Summary(a), s).counts || k in Of(Summary(b), s).counts
  {
    match s
    case Levels =>
      LevelKeysConcat(a, b);
      TallyConcatGet(LevelKeys(a), LevelKeys(b), k);
    case Ips =>
      IpKeysConcat(a, b);
      TallyConcatGet(IpKeys(a), IpKeys(b), k);
    case Hours =>
      BucketKeysConcat(a, b);
      TallyConcatGet(BucketKeys(a), BucketKeys(b), k);
  }

  // ---------------------------------------------------------------------------------------
  // The accumulator of `merge_partial_results`

  /**
    The accumulator dict: each of its four sections may be missing (`acc = {}` at the start)
    until the first merge creates it.
   */
  datatype Acc = Acc(linesTotal: Option<nat>, byLevel: Option<Counter>, topIps: Option<Counter>,
                     errorsByHour: Option<Counter>)

  const Init: Acc := Acc(None, None, None, None)

  function OrEmpty(c: Option<Counter>): Counter {
    if c.Some? then c.value else Empty
  }

  ghost predicate ValidAcc(a: Acc) {
    Valid(OrEmpty(a.byLevel)) && Valid(OrEmpty(a.topIps)) && Valid(OrEmpty(a.errorsByHour))
  }

  /** `merge_partial_results(acc, part)` on values: missing sections start at 0 / `{}`, then add. */
  function Merge(a: Acc, p: Partial): (r: Acc)
    requires ValidAcc(a)
    ensures ValidAcc(r)
  {
    Acc(Some(if a.linesTotal.Some? then a.linesTotal.value + p.linesTotal else p.linesTotal),
        Some(AddAll(OrEmpty(a.byLevel), p.byLevel)),
        Some(AddAll(OrEmpty(a.topIps), p.topIps)),
        Some(AddAll(OrEmpty(a.errorsByHour), p.errorsByHour)))
  }

  /** The total so far, 0 when the section is missing (`acc.get("lines_total", 0)`). */
  function Total(a: Acc): nat {
    if a.linesTotal.Some? then a.linesTotal.value else 0
  }

  /**
    What a merge does: every section is present afterwards; the total grows by the part's
    total; every key's count grows by the part's count for it (a key the part lacks keeps its
    count and its presence).
   */
  lemma MergeSpec(a: Acc, p: Partial, k: string)
    requires ValidAcc(a) && ValidPartial(p)
    ensures var r := Merge(a, p);
      && r.linesTotal.Some? && r.byLevel.Some? && r.topIps.Some? && r.errorsByHour.Some?
      && Total(r) == Total(a) + p.linesTotal
      && Get(OrEmpty(r.byLevel), k) == Get(OrEmpty(a.byLevel), k) + Get(p.byLevel, k)
      && Get(OrEmpty(r.topIps), k) == Get(OrEmpty(a.topIps), k) + Get(p.topIps, k)
      && Get(OrEmpty(r.errorsByHour), k) == Get(OrEmpty(a.errorsByHour), k) + Get(p.errorsByHour, k)
      && (k in OrEmpty(r.byLevel).counts <==> k in OrEmpty(a.byLevel).counts || k in p.byLevel.counts)
      && (k in OrEmpty(r.topIps).counts <==> k in OrEmpty(a.topIps).counts || k in p.topIps.counts)
      && (k in OrEmpty(r.errorsByHour).counts <==> k in OrEmpty(a.errorsByHour).counts || k in p.errorsByHour.counts)
  {
    AddAllGet(OrEmpty(a.byLevel), p.byLevel, k);
    AddAllGet(OrEmpty(a.topIps), p.topIps, k);
    AddAllGet(OrEmpty(a.errorsByHour), p.errorsByHour, k);
  }

  /** One section of two accumulators: present in both or in neither, with the same mapping. */
  predicate SameSection(a: Acc, b: Acc, s: Section) {
    AccOf(a, s).Some? == AccOf(b, s).Some? && OrEmpty(AccOf(a, s)).counts == OrEmpty(AccOf(b, s)).counts
  }

  /** Python's `==` on two accumulator dicts: same sections, same totals, same mappings. */
  predicate SameAcc(a: Acc, b: Acc) {
    a.linesTotal == b.linesTotal && SameSection(a, b, Levels) && SameSection(a, b, Ips) && SameSection(a, b, Hours)
  }

  /** Merging two partials in either order gives the same mapping in one section. */
  lemma MergeCommutesSection(a: Acc, p: Partial, q: Partial, s: Section)
    requires ValidAcc(a) && ValidPartial(p) && ValidPartial(q)
    ensures SameSection(Merge(Merge(a, p), q), Merge(Merge(a, q), p), s)
  {
    var x := OrEmpty(AccOf(Merge(Merge(a, p), q), s));
    var y := OrEmpty(AccOf(Merge(Merge(a, q), p), s));
    forall k
      ensures Get(x, k) == Get(y, k) && (k in x.counts <==> k in y.counts)
    {
      MergeSection(a, p, s, k);
      MergeSection(a, q, s, k);
      MergeSection(Merge(a, p), q, s, k);
      MergeSection(Merge(a, q), p, s, k);
    }
    SameCounts(x, y);
  }

  /** Merging two partials in either order gives the same accumulator. */
  lemma MergeCommutes(a: Acc, p: Partial, q: Partial)
    requires ValidAcc(a) && ValidPartial(p) && ValidPartial(q)
    ensures SameAcc(Merge(Merge(a, p), q), Merge(Merge(a, q), p))
  {
    MergeCommutesSection(a, p, q, Levels);
    MergeCommutesSection(a, p, q, Ips);
    MergeCommutesSection(a, p, q, Hours);
  }

  /** Merging a sequence of partials one after the other. */
  function FoldMerge(a: Acc, ps: seq<Partial>): (r: Acc)
    requires ValidAcc(a)
    ensures ValidAcc(r)
  {
    if ps == [] then a else Merge(FoldMerge(a, ps[..|ps| - 1]), ps[|ps| - 1])
  }

  ghost predicate AllValid(ps: seq<Partial>) {
    forall i :: 0 <= i < |ps| ==> ValidPartial(ps[i])
  }

  function AccOf(a: Acc, s: Section): Option<Counter> {
    match s
    case Levels => a.byLevel
    case Ips => a.topIps
    case Hours => a.errorsByHour
  }

  /** The sum of the `lines_total` of the partials. */
  function LinesSum(ps: seq<Partial>): nat {
    if ps == [] then 0 else LinesSum(ps[..|ps| - 1]) + ps[|ps| - 1].linesTotal
  }

  /** The sum of the counts of key `k` in section `s` over the partials. */
  function KeySum(ps: seq<Partial>, s: Section, k: string): nat {
    if ps == [] then 0 else KeySum(ps[..|ps| - 1], s, k) + Get(Of(ps[|ps| - 1], s), k)
  }

  /** Some partial has key `k` in section `s`. */
  predicate KeyIn(ps: seq<Partial>, s: Section, k: string) {
    exists i :: 0 <= i < |ps| && k in Of(ps[i], s).counts
  }

  /** One merge, seen through one section: the section exists afterwards and adds key by key. */
  lemma MergeSection(a: Acc, p: Partial, s: Section, k: string)
    requires ValidAcc(a) && ValidPartial(p)
    ensures AccOf(Merge(a, p), s).Some?
    ensures Get(OrEmpty(AccOf(Merge(a, p), s)), k) == Get(OrEmpty(AccOf(a, s)), k) + Get(Of(p, s), k)
    ensures k in OrEmpty(AccOf(Merge(a, p), s)).counts <==> k in OrEmpty(AccOf(a, s)).counts || k in Of(p, s).counts
  {
    match s
    case Levels => AddAllGet(OrEmpty(a.byLevel), p.byLevel, k);
    case Ips => AddAllGet(OrEmpty(a.topIps), p.topIps, k);
    case Hours => AddAllGet(OrEmpty(a.errorsByHour), p.errorsByHour, k);
  }

  lemma KeyInSnoc(ps: seq<Partial>, s: Section, k: string)
    requires ps != []
    ensures KeyIn(ps, s, k) <==> KeyIn(ps[..|ps| - 1], s, k) || k in Of(ps[|ps| - 1], s).counts
  {
    var init := ps[..|ps| - 1];
    if KeyIn(init, s, k) {
      var i :| 0 <= i < |init| && k in Of(init[i], s).counts;
      assert ps[i] == init[i];
    }
    if KeyIn(ps, s, k) {
      var i :| 0 <= i < |ps| && k in Of(ps[i], s).counts;
      if i < |init| { assert init[i] == ps[i]; }
    }
  }

  /** Folding from `{}`: the total is the sum of the totals, and with no partial the result is `{}`. */
  lemma {:induction false} FoldMergeTotal(ps: seq<Partial>)
    requires AllValid(ps)
    ensures ps == [] ==> FoldMerge(Init, ps) == Init
    ensures ps != [] ==> FoldMerge(Init, ps).linesTotal == Some(LinesSum(ps))
  {
    if |ps| > 1 {
      FoldMergeTotal(ps[..|ps| - 1]);
    }
  }

  /**
    Folding from `{}`: each key's count is the sum of its counts, present exactly when some
    partial has it, and every section exists once a partial was merged.
   */
  lemma {:induction false} FoldMergeSums(ps: seq<Partial>, s: Section, k: string)
    requires AllValid(ps)
    ensures ps != [] ==> AccOf(FoldMerge(Init, ps), s).Some?
    ensures Get(OrEmpty(AccOf(FoldMerge(Init, ps), s)), k) == KeySum(ps, s, k)
    ensures k in OrEmpty(AccOf(FoldMerge(Init, ps), s)).counts <==> KeyIn(ps, s, k)
  {
    if ps != [] {
      var init := ps[..|ps| - 1];
      FoldMergeSums(init, s, k);
      MergeSection(FoldMerge(Init, init), ps[|ps| - 1], s, k);
      KeyInSnoc(ps, s, k);
    }
  }

  lemma {:induction false} LinesSumIsSumOf(ps: seq<Partial>)
    ensures LinesSum(ps) == SumOf(ps, (p: Partial) => p.linesTotal)
  {
    if ps != [] {
      LinesSumIsSumOf(ps[..|ps| - 1]);
    }
  }

  lemma {:induction false} KeySumIsSumOf(ps: seq<Partial>, s: Section, k: string)
    ensures KeySum(ps, s, k) == SumOf(ps, (p: Partial) => Get(Of(p, s), k))
  {
    if ps != [] {
      KeySumIsSumOf(ps[..|ps| - 1], s, k);
    }
  }

  lemma KeyInPermutation(ps: seq<Partial>, qs: seq<Partial>, s: Section, k: string)
    requires multiset(ps) == multiset(qs)
    ensures KeyIn(ps, s, k) ==> KeyIn(qs, s, k)
  {
    if KeyIn(ps, s, k) {
      var i :| 0 <= i < |ps| && k in Of(ps[i], s).counts;
      assert ps[i] in multiset(qs);
      var j :| 0 <= j < |qs| && qs[j] == ps[i];
    }
  }

  /**
    The fold does not depend on the order of the partials: folding any rearrangement of the
    same partials from `{}` gives the same accumulator.
   */
  lemma FoldMergePermutation(ps: seq<Partial>, qs: seq<Partial>)
    requires AllValid(ps) && multiset(ps) == multiset(qs)
    ensures AllValid(qs)
    ensures SameAcc(FoldMerge(Init, ps), FoldMerge(Init, qs))
  {
    forall j | 0 <= j < |qs|
      ensures ValidPartial(qs[j])
    {
      assert qs[j] in multiset(ps);
    }
    assert |ps| == |qs| by {
      assert |multiset(ps)| == |multiset(qs)|;
    }
    LinesSumIsSumOf(ps);
    LinesSumIsSumOf(qs);
    SumOfPermutation(ps, qs, (p: Partial) => p.linesTotal);
    FoldMergeTotal(ps);
    FoldMergeTotal(qs);
    FoldMergeSectionPermutation(ps, qs, Levels);
    FoldMergeSectionPermutation(ps, qs, Ips);
    FoldMergeSectionPermutation(ps, qs, Hours);
  }

  /** One section of the fold does not depend on the order of the partials. */
  lemma FoldMergeSectionPermutation(ps: seq<Partial>, qs: seq<Partial>, s: Section)
    requires AllValid(ps) && AllValid(qs) && multiset(ps) == multiset(qs) && |ps| == |qs|
    ensures SameSection(FoldMerge(Init, ps), FoldMerge(Init, qs), s)
  {
    var x := OrEmpty(AccOf(FoldMerge(Init, ps), s));
    var y := OrEmpty(AccOf(FoldMerge(Init, qs), s));
    forall k
      ensures Get(x, k) == Get(y, k) && (k in x.counts <==> k in y.counts)
    {
      FoldMergeSums(ps, s, k);
      FoldMergeSums(qs, s, k);
      KeySumIsSumOf(ps, s, k);
      KeySumIsSumOf(qs, s, k);
      SumOfPermutation(ps, qs, (p: Partial) => Get(Of(p, s), k));
      KeyInPermutation(ps, qs, s, k);
      KeyInPermutation(qs, ps, s, k);
    }
    SameCounts(x, y);
    FoldMergeSums(ps, s, "");
    FoldMergeSums(qs, s, "");
  }

  /** `get_top_n_ips_from_acc(acc, n)`: the ranking of `acc.get("top_ips") or {}`. */
  function GetTopNIpsFromAcc(a: Acc, n: int): (r: seq<Entry>)
    requires ValidAcc(a)
    ensures |r| == if n >= 0 then Ranking.Min(n, |OrEmpty(a.topIps).keys|) else Ranking.Max(0, |OrEmpty(a.topIps).keys| + n)
    ensures NonIncreasing(r)
    ensures forall i :: 0 <= i < |r| ==> r[i].0 in OrEmpty(a.topIps).keys && r[i].1 == Get(OrEmpty(a.topIps), r[i].0)
    ensures forall i, k :: 0 <= i < |r| && k in OrEmpty(a.topIps).keys && !HasKey(r, k) ==>
      Get(OrEmpty(a.topIps), k) <= r[i].1
    ensures forall m :: WithCount(r, m) <= WithCount(Items(OrEmpty(a.topIps)), m)
    ensures a.topIps.None? ==> r == []
  {
    TopNSpec(OrEmpty(a.topIps), n);
    TopN(OrEmpty(a.topIps), n)
  }

  /** The accumulator dict that `merge_partial_results` mutates in place. */
  class Accumulator {
    var linesTotal: Option<nat>
    var byLevel: Option<Counter>
    var topIps: Option<Counter>
    var errorsByHour: Option<Counter>

    /** The dict's current contents. */
    function State(): Acc
      reads this
    {
      Acc(linesTotal, byLevel, topIps, errorsByHour)
    }

    ghost predicate Valid()
      reads this
    {
      ValidAcc(State())
    }

    /** `acc = {}` */
    constructor ()
      ensures Valid() && State() == Init
    {
      linesTotal, byLevel, topIps, errorsByHour := None, None, None, None;
    }

    /**
      `merge_partial_results(acc, part)`: creates the missing sections, adds the total, and runs
      `acc[sec][k] = acc[sec].get(k, 0) + n` over each section of the part; it returns the same
      accumulator.
     */
    method MergePartialResults(part: Partial) returns (same: Accumulator)
      requires Valid()
      modifies this
      ensures Valid() && same == this
      ensures State() == Merge(old(State()), part)
    {
      if linesTotal.None? { linesTotal := Some(0); }
      if byLevel.None? { byLevel := Some(Empty); }
      if topIps.None? { topIps := Some(Empty); }
      if errorsByHour.None? { errorsByHour := Some(Empty); }
      linesTotal := Some(linesTotal.value + part.linesTotal);
      var levels := AddInto(byLevel.value, part.byLevel);
      byLevel := Some(levels);
      var ips := AddInto(topIps.value, part.topIps);
      topIps := Some(ips);
      var hours := AddInto(errorsByHour.value, part.errorsByHour);
      errorsByHour := Some(hours);
      same := this;
    }
  }
}
