/**
  The production pipeline of log_Analyzer.py: the per-chunk summary that `worker_entry`
  computes with regular expressions, the worker's loop over the task queue, the producer that
  cuts the matching files into chunks and appends one stop sentinel per worker, the merge of
  the partial results, and the clamping constructor of `LogAnalyzer`.

  Queues are sequences. Processes, the result collector's timeouts and the monitor thread are
  not modelled; the workers are run one after the other over the same task sequence.
 */
module LogAnalyzer {
  import opened Wrappers
  import opened Text
  import opened Counters
  import opened Ranking
  import opened Regexes
  import opened Chunking
  import opened Names

  // ---------------------------------------------------------------------------------------
  // The summary of one chunk (the body of the loop in `worker_entry`)

  /** The only keys of `by_level`, in their insertion order. */
  const LevelNames: seq<string> := ["INFO", "WARNING", "ERROR"]

  /** `{"INFO": 0, "WARNING": 0, "ERROR": 0}` */
  const ZeroLevels: Counter := Counter(LevelNames, map["INFO" := 0, "WARNING" := 0, "ERROR" := 0])

  /** What `worker_entry` reports for a chunk: `total_lines`, `by_level`, `ip_counts`, `errors_by_day`. */
  datatype WorkerPartial = WorkerPartial(totalLines: nat, byLevel: Counter, ipCounts: Counter, errorsByDay: Counter)

  /** `lvl = m.group(1).upper()`, then any spelling that starts with WARN becomes WARNING. */
  function NormaliseLevel(g: string): string {
    var u := Upper(g);
    if |u| >= 4 && u[..4] == "WARN" then "WARNING" else u
  }

  /** What one line adds: at most one level, at most one address, at most one day. */
  datatype WorkerLine = WorkerLine(level: Option<string>, ip: Option<string>, day: Option<string>)

  const Nothing: WorkerLine := WorkerLine(None, None, None)

  /**
    One pass of the loop body: an empty line is only counted; otherwise the level that
    `LEVEL_RE` finds, the address `IP_RE` finds, and the day `DATE_DAY_RE` finds when the line
    holds the word ERROR. A level outside the three keys would skip the rest of the line
    (the `continue`); `LevelAlwaysKnown` shows that under the model's ASCII case folding this
    never happens.
   */
  function ClassifyLine(line: string): WorkerLine {
    if line == [] then Nothing
    else
      var lvl := match LevelSearch(line) case None => None case Some(g) => Some(NormaliseLevel(g));
      if lvl.Some? && lvl.value !in LevelNames then Nothing
      else WorkerLine(lvl, IpSearch(line), if HasErrorWord(line) then DaySearch(line) else None)
  }

  function LevelKeys(chunk: seq<string>): seq<string> {
    if chunk == [] then [] else LevelKeys(chunk[..|chunk| - 1]) + Opt(ClassifyLine(chunk[|chunk| - 1]).level)
  }

  function IpKeys(chunk: seq<string>): seq<string> {
    if chunk == [] then [] else IpKeys(chunk[..|chunk| - 1]) + Opt(ClassifyLine(chunk[|chunk| - 1]).ip)
  }

  function DayKeys(chunk: seq<string>): seq<string> {
    if chunk == [] then [] else DayKeys(chunk[..|chunk| - 1]) + Opt(ClassifyLine(chunk[|chunk| - 1]).day)
  }

  lemma ZeroLevelsValid()
    ensures Valid(ZeroLevels)
  {
  }

  lemma ZeroLevelsSum()
    ensures Sum(ZeroLevels) == 0
  {
    var z := ZeroLevels;
    assert SumOver(z.keys[..1], z) == 0 by { assert z.keys[..1][..0] == []; }
    assert SumOver(z.keys[..2], z) == 0 by { assert z.keys[..2][..1] == z.keys[..1]; }
    assert z.keys[..3][..2] == z.keys[..2];
    assert z.keys[..3] == z.keys;
  }

  /** The partial result of a chunk: its length and the tallies of what its lines yield. */
  function WorkerSummary(chunk: seq<string>): WorkerPartial {
    ZeroLevelsValid();
    WorkerPartial(|chunk|, TallyInto(ZeroLevels, LevelKeys(chunk)), Tally(IpKeys(chunk)), Tally(DayKeys(chunk)))
  }

  ghost predicate ValidWorkerPartial(p: WorkerPartial) {
    Valid(p.byLevel) && Valid(p.ipCounts) && Valid(p.errorsByDay)
  }

  lemma TallyIntoSnoc(c: Counter, ks: seq<string>, o: Option<string>)
    requires Valid(c)
    ensures TallyInto(c, ks + Opt(o)) == Bump(TallyInto(c, ks), o)
  {
    if o.Some? {
      assert (ks + [o.value])[..|ks|] == ks;
    } else {
      assert ks + [] == ks;
    }
  }

  lemma WorkerSummarySnoc(chunk: seq<string>, i: nat)
    requires i < |chunk|
    ensures var s := WorkerSummary(chunk[..i]); var c := ClassifyLine(chunk[i]);
      WorkerSummary(chunk[..i + 1])
        == WorkerPartial(i + 1, Bump(s.byLevel, c.level), Bump(s.ipCounts, c.ip), Bump(s.errorsByDay, c.day))
  {
    ZeroLevelsValid();
    var pre := chunk[..i];
    assert chunk[..i + 1][..i] == pre;
    var c := ClassifyLine(chunk[i]);
    TallyIntoSnoc(ZeroLevels, LevelKeys(pre), c.level);
    TallyIntoSnoc(Empty, IpKeys(pre), c.ip);
    TallyIntoSnoc(Empty, DayKeys(pre), c.day);
  }

  /**
    The body of the loop for one line: an empty line adds nothing; a level found by `LEVEL_RE`
    is normalised and counted, or, were it not one of the three keys, ends the line (the
    `continue`); then the address and, for a line with the word ERROR, the day.
   */
  method CountLine(line: string, byLevel: Counter, ips: Counter, errorsByDay: Counter)
    returns (byLevel': Counter, ips': Counter, errorsByDay': Counter)
    requires Valid(byLevel) && Valid(ips) && Valid(errorsByDay)
    ensures var c := ClassifyLine(line);
      byLevel' == Bump(byLevel, c.level) && ips' == Bump(ips, c.ip) && errorsByDay' == Bump(errorsByDay, c.day)
  {
    byLevel', ips', errorsByDay' := byLevel, ips, errorsByDay;
    if line == [] {
      return;
    }
    var m := LevelSearch(line);
    if m.Some? {
      var lvl := NormaliseLevel(m.value);
      if lvl !in LevelNames {
        return;
      }
      byLevel' := Add(byLevel', lvl, 1);
    }
    var im := IpSearch(line);
    if im.Some? {
      ips' := Add(ips', im.value, 1);
    }
    if HasErrorWord(line) {
      var dm := DaySearch(line);
      if dm.Some? {
        errorsByDay' := Add(errorsByDay', dm.value, 1);
      }
    }
  }

  /** The summarising loop of `worker_entry` for one chunk. */
  method SummariseChunk(chunk: seq<string>) returns (r: WorkerPartial)
    ensures r == WorkerSummary(chunk)
  {
    var total := 0;
    var byLevel := ZeroLevels;
    var ips := Empty;
    var errorsByDay := Empty;
    for i := 0 to |chunk|
      invariant WorkerSummary(chunk[..i]) == WorkerPartial(total, byLevel, ips, errorsByDay)
    {
      WorkerSummarySnoc(chunk, i);
      total := total + 1;
      byLevel, ips, errorsByDay := CountLine(chunk[i], byLevel, ips, errorsByDay);
    }
    assert chunk[..|chunk|] == chunk;
    r := WorkerPartial(total, byLevel, ips, errorsByDay);
  }

  /** Any spelling of WARN or WARNING, in any case, becomes WARNING; INFO and ERROR stay as they are. */
  lemma NormaliseLevelSpec(g: string)
    requires Upper(g) in ["INFO", "WARNING", "WARN", "ERROR"]
    ensures NormaliseLevel(g) in LevelNames
    ensures Upper(g) == "WARN" || Upper(g) == "WARNING" ==> NormaliseLevel(g) == "WARNING"
    ensures Upper(g) == "INFO" ==> NormaliseLevel(g) == "INFO"
    ensures Upper(g) == "ERROR" ==> NormaliseLevel(g) == "ERROR"
  {
    var u := Upper(g);
    if u == "WARN" || u == "WARNING" {
      assert u[..4] == "WARN";
    } else if u == "INFO" {
      assert u[..4] != "WARN" by { assert u[0] == 'I'; }
    } else {
      assert u[..4] != "WARN" by { assert u[0] == 'E'; }
    }
  }

  /**
    Under ASCII case folding every level `LEVEL_RE` finds is one of the three keys, so the
    `continue` is unreachable.
   */
  lemma LevelAlwaysKnown(line: string)
    requires line != [] && LevelSearch(line).Some?
    ensures NormaliseLevel(LevelSearch(line).value) in LevelNames
    ensures ClassifyLine(line).level == Some(NormaliseLevel(LevelSearch(line).value))
    ensures ClassifyLine(line).ip == IpSearch(line)
  {
    LevelSearchFromSpelling(line, 0);
    NormaliseLevelSpec(LevelSearch(line).value);
  }

  /** Each non-empty line is classified by the three searches independently. */
  lemma ClassifyLineSpec(line: string)
    requires line != []
    ensures ClassifyLine(line).ip == IpSearch(line)
    ensures ClassifyLine(line).day == if HasErrorWord(line) then DaySearch(line) else None
    ensures ClassifyLine(line).level.Some? <==> LevelSearch(line).Some?
    ensures ClassifyLine(line).level.Some? ==> ClassifyLine(line).level.value in LevelNames
  {
    if LevelSearch(line).Some? {
      LevelAlwaysKnown(line);
    }
  }

  /** Every level key a chunk yields is one of the three names. */
  lemma {:induction false} LevelKeysKnown(chunk: seq<string>)
    ensures forall i :: 0 <= i < |LevelKeys(chunk)| ==> LevelKeys(chunk)[i] in LevelNames
    ensures |LevelKeys(chunk)| <= |chunk| && |IpKeys(chunk)| <= |chunk| && |DayKeys(chunk)| <= |chunk|
  {
    if chunk != [] {
      var last := chunk[|chunk| - 1];
      LevelKeysKnown(chunk[..|chunk| - 1]);
      if last != [] {
        ClassifyLineSpec(last);
      }
    }
  }

  /** `by_level` always has exactly the keys INFO, WARNING and ERROR, in that order. */
  lemma WorkerLevelKeys(chunk: seq<string>)
    ensures WorkerSummary(chunk).byLevel.keys == LevelNames
  {
    ZeroLevelsValid();
    LevelKeysKnown(chunk);
    TallyIntoKeepsKeys(ZeroLevels, LevelKeys(chunk));
  }

  /**
    `total_lines` is the chunk's length, empty lines included, and the level counts add up to
    at most that, since a line raises at most one level.
   */
  lemma WorkerLevelSum(chunk: seq<string>)
    ensures WorkerSummary(chunk).totalLines == |chunk|
    ensures Sum(WorkerSummary(chunk).byLevel) <= |chunk|
  {
    ZeroLevelsValid();
    LevelKeysKnown(chunk);
    SumTallyInto(ZeroLevels, LevelKeys(chunk));
    ZeroLevelsSum();
  }

  /** The address counter stores only counts of at least one, adding up to at most the number of lines. */
  lemma WorkerIpSum(chunk: seq<string>)
    ensures Positive(WorkerSummary(chunk).ipCounts)
    ensures Sum(WorkerSummary(chunk).ipCounts) <= |chunk|
  {
    LevelKeysKnown(chunk);
    SumTallyInto(Empty, IpKeys(chunk));
    TallyPositive(IpKeys(chunk));
  }

  /** The day counter stores only counts of at least one, adding up to at most the number of lines. */
  lemma WorkerDaySum(chunk: seq<string>)
    ensures Positive(WorkerSummary(chunk).errorsByDay)
    ensures Sum(WorkerSummary(chunk).errorsByDay) <= |chunk|
  {
    LevelKeysKnown(chunk);
    SumTallyInto(Empty, DayKeys(chunk));
    TallyPositive(DayKeys(chunk));
  }

  lemma {:induction false} EmptyLinesKeys(chunk: seq<string>)
    requires forall i :: 0 <= i < |chunk| ==> chunk[i] == []
    ensures LevelKeys(chunk) == [] && IpKeys(chunk) == [] && DayKeys(chunk) == []
  {
    if chunk != [] {
      EmptyLinesKeys(chunk[..|chunk| - 1]);
      assert ClassifyLine(chunk[|chunk| - 1]) == Nothing;
    }
  }

  /** A chunk of empty lines is counted, and nothing else. */
  lemma EmptyLinesOnly(chunk: seq<string>)
    requires forall i :: 0 <= i < |chunk| ==> chunk[i] == []
    ensures WorkerSummary(chunk) == WorkerPartial(|chunk|, ZeroLevels, Empty, Empty)
  {
    EmptyLinesKeys(chunk);
  }

  // ---------------------------------------------------------------------------------------
  // The task queue and the worker loop

  /** An item of the task queue: a chunk of lines, or the stop sentinel `None`. */
  datatype Task = Work(chunk: seq<string>) | Stop

  /** The chunks put on the queue, in order. */
  function Works(chunks: seq<seq<string>>): (q: seq<Task>)
    ensures |q| == |chunks|
    ensures forall i :: 0 <= i < |chunks| ==> q[i] == Work(chunks[i])
  {
    seq(|chunks|, i requires 0 <= i < |chunks| => Work(chunks[i]))
  }

  /** One sentinel per worker. */
  function Stops(workers: nat): (q: seq<Task>)
    ensures |q| == workers
    ensures forall i :: 0 <= i < workers ==> q[i] == Stop
  {
    seq(workers, i => Stop)
  }

  /** The summaries of a run of chunk tasks, in order. */
  function Summaries(q: seq<Task>): (r: seq<WorkerPartial>)
    requires forall i :: 0 <= i < |q| ==> q[i].Work?
    ensures |r| == |q|
    ensures forall i :: 0 <= i < |q| ==> r[i] == WorkerSummary(q[i].chunk)
  {
    seq(|q|, i requires 0 <= i < |q| && q[i].Work? => WorkerSummary(q[i].chunk))
  }

  /** The summary of each chunk, in chunk order. */
  function SummaryOfEach(chunks: seq<seq<string>>): (r: seq<WorkerPartial>)
    ensures |r| == |chunks|
    ensures forall i :: 0 <= i < |chunks| ==> r[i] == WorkerSummary(chunks[i])
  {
    seq(|chunks|, i requires 0 <= i < |chunks| => WorkerSummary(chunks[i]))
  }

  /** The position of the first sentinel, or the length of the queue when it holds none. */
  function FirstStop(q: seq<Task>): (r: nat)
    ensures r <= |q|
    ensures forall i :: 0 <= i < r ==> q[i].Work?
    ensures r < |q| ==> q[r].Stop?
  {
    if q == [] || q[0].Stop? then 0 else 1 + FirstStop(q[1..])
  }

  /** The first sentinel is at `j` when every task before `j` is a chunk and `j` holds a sentinel or ends the queue. */
  lemma FirstStopAt(q: seq<Task>, j: nat)
    requires j <= |q|
    requires forall i :: 0 <= i < j ==> q[i].Work?
    requires j < |q| ==> q[j].Stop?
    ensures FirstStop(q) == j
  {
  }

  lemma SummariesSnoc(q: seq<Task>, i: nat)
    requires i < |q| && forall j :: 0 <= j <= i ==> q[j].Work?
    ensures Summaries(q[..i + 1]) == Summaries(q[..i]) + [WorkerSummary(q[i].chunk)]
  {
    var longer, shorter := q[..i + 1], q[..i];
    var a, b := Summaries(longer), Summaries(shorter) + [WorkerSummary(q[i].chunk)];
    forall j | 0 <= j < |a|
      ensures a[j] == b[j]
    {
      assert longer[j] == q[j];
      if j < i {
        assert shorter[j] == q[j];
      }
    }
  }

  /**
    `worker_entry`: take tasks from the queue until the sentinel, putting one summary per
    chunk on the result queue. Without a sentinel the worker would wait for ever; here it
    reports that it did not stop.
   */
  method WorkerEntry(q: seq<Task>) returns (results: seq<WorkerPartial>, taken: nat, stopped: bool)
    ensures stopped <==> FirstStop(q) < |q|
    ensures taken == if stopped then FirstStop(q) + 1 else |q|
    ensures results == Summaries(q[..FirstStop(q)])
  {
    results := [];
    taken := 0;
    while taken < |q|
      invariant taken <= FirstStop(q)
      invariant results == Summaries(q[..taken])
    {
      var task := q[taken];
      if task.Stop? {
        stopped := true;
        taken := taken + 1;
        return;
      }
      var r := SummariseChunk(task.chunk);
      SummariesSnoc(q, taken);
      results := results + [r];
      taken := taken + 1;
    }
    assert q[..|q|] == q;
    stopped := false;
  }

  /** The queue the producer fills: every chunk, then one sentinel per worker. */
  function Queue(chunks: seq<seq<string>>, workers: nat): seq<Task> {
    Works(chunks) + Stops(workers)
  }

  /**
    The first worker to run alone over the producer's queue summarises every chunk and takes
    the first sentinel; the sentinel it takes is the one right after the chunks.
   */
  lemma QueueFirstStop(chunks: seq<seq<string>>, workers: nat)
    ensures FirstStop(Queue(chunks, workers)) == |chunks|
    ensures Summaries(Queue(chunks, workers)[..|chunks|]) == SummaryOfEach(chunks)
  {
    var q := Queue(chunks, workers);
    FirstStopAt(q, |chunks|);
    assert q[..|chunks|] == Works(chunks);
  }

  /** Past the chunks, every worker meets a sentinel first and reports nothing. */
  lemma SentinelAt(q: seq<Task>, chunks: seq<seq<string>>, workers: nat, pos: nat)
    requires q == Queue(chunks, workers) && |chunks| <= pos < |q|
    ensures FirstStop(q[pos..]) == 0 && Summaries(q[pos..][..0]) == []
  {
    assert q[pos..][0] == Stop;
    FirstStopAt(q[pos..], 0);
  }

  /**
    The workers, run one after the other over the producer's queue: each takes tasks until it
    meets a sentinel. Every worker stops, the queue is drained, and the results are the
    summaries of the chunks in queue order.
   */
  method RunWorkers(q: seq<Task>, ghost chunks: seq<seq<string>>, workers: nat)
    returns (results: seq<WorkerPartial>, allStopped: bool)
    requires workers >= 1 && q == Queue(chunks, workers)
    ensures allStopped
    ensures results == SummaryOfEach(chunks)
  {
    var pos := 0;
    results := [];
    allStopped := true;
    for w := 0 to workers
      invariant w == 0 ==> pos == 0 && results == []
      invariant w > 0 ==> pos == |chunks| + w && results == SummaryOfEach(chunks)
      invariant allStopped
    {
      var r, taken, stopped := WorkerEntry(q[pos..]);
      if w == 0 {
        QueueFirstStop(chunks, workers);
        assert q[0..] == q;
      } else {
        SentinelAt(q, chunks, workers, pos);
      }
      results := results + r;
      pos := pos + taken;
      allStopped := allStopped && stopped;
    }
  }

  /**
    Any order of taking: `owner[i]` is the worker that takes queue item `i`, and no worker
    takes anything after its sentinel.
   */
  ghost predicate FairTaking(q: seq<Task>, owner: seq<nat>, workers: nat) {
    |owner| == |q|
    && (forall i :: 0 <= i < |q| ==> owner[i] < workers)
    && (forall i, j :: 0 <= j < i < |q| && owner[j] == owner[i] ==> q[j].Work?)
  }

  /** The workers that take the items `lo` to `hi - 1`. */
  function Image(owner: seq<nat>, lo: nat, hi: nat): (r: set<nat>)
    requires lo <= hi <= |owner|
    ensures forall v :: v in r <==> exists i :: lo <= i < hi && owner[i] == v
    decreases hi
  {
    if lo == hi then {} else Image(owner, lo, hi - 1) + {owner[hi - 1]}
  }

  lemma {:induction false} ImageSize(owner: seq<nat>, lo: nat, hi: nat)
    requires lo <= hi <= |owner|
    requires forall i, j :: lo <= j < i < hi ==> owner[j] != owner[i]
    ensures |Image(owner, lo, hi)| == hi - lo
    decreases hi
  {
    if lo < hi {
      ImageSize(owner, lo, hi - 1);
      assert owner[hi - 1] !in Image(owner, lo, hi - 1);
    }
  }

  /** The workers `0` to `n - 1`. */
  function Range(n: nat): (r: set<nat>)
    ensures forall v: nat :: v in r <==> v < n
    ensures |r| == n
  {
    if n == 0 then {} else Range(n - 1) + {n - 1}
  }

  lemma {:induction false} SubsetSize(a: set<nat>, b: set<nat>)
    requires a <= b
    ensures |a| <= |b|
    decreases |a|
  {
    if a != {} {
      var y :| y in a;
      SubsetSize(a - {y}, b - {y});
    }
  }

  lemma SubsetOfSameSize(a: set<nat>, b: set<nat>)
    requires a <= b && |a| == |b|
    ensures a == b
  {
    if a != b {
      var x :| x in b && x !in a;
      SubsetSize(a, b - {x});
    }
  }

  /**
    One sentinel per worker is enough, whatever the interleaving: when the workers take the
    producer's queue in any fair order, every worker takes exactly one sentinel, so every
    worker leaves its loop and the result collector's wait ends.
   */
  lemma EverySentinelStopsOneWorker(chunks: seq<seq<string>>, workers: nat, owner: seq<nat>, w: nat)
    requires FairTaking(Queue(chunks, workers), owner, workers) && w < workers
    ensures exists i :: |chunks| <= i < |chunks| + workers && owner[i] == w
    ensures forall i, j :: |chunks| <= j < i < |chunks| + workers ==> owner[j] != owner[i]
  {
    var q := Queue(chunks, workers);
    var lo, hi := |chunks|, |chunks| + workers;
    forall i, j | lo <= j < i < hi
      ensures owner[j] != owner[i]
    {
      assert q[j] == Stop;
    }
    ImageSize(owner, lo, hi);
    var image := Image(owner, lo, hi);
    SubsetOfSameSize(image, Range(workers));
    assert w in image;
  }

  // ---------------------------------------------------------------------------------------
  // The producer (the file loop of `analyze`)

  /**
    What reading one file delivers: the lines read, each still ending in its newline, and
    whether reading stopped with an error (a file that cannot be opened delivers no line and
    fails).
   */
  datatype FileRead = FileRead(lines: seq<string>, failed: bool)

  /** `any(fnmatch.fnmatch(fname, pat) for pat in self.patterns)` */
  predicate AnyMatch(name: string, patterns: seq<string>, fnmatch: (string, string) -> bool) {
    exists i :: 0 <= i < |patterns| && fnmatch(name, patterns[i])
  }

  /** A directory entry the producer reads: it matches a pattern and is a regular file. */
  predicate Wanted(name: string, patterns: seq<string>, fnmatch: (string, string) -> bool, isFile: string -> bool) {
    AnyMatch(name, patterns, fnmatch) && isFile(name)
  }

  /** The wanted names, in the order given. */
  function Select(names: seq<string>, patterns: seq<string>, fnmatch: (string, string) -> bool, isFile: string -> bool)
    : seq<string>
  {
    if names == [] then []
    else
      var last := names[|names| - 1];
      Select(names[..|names| - 1], patterns, fnmatch, isFile) + (if Wanted(last, patterns, fnmatch, isFile) then [last] else [])
  }

  /** The files the producer reads, in the order it reads them: the wanted entries of `sorted(os.listdir(...))`. */
  function Visited(listing: seq<string>, patterns: seq<string>, fnmatch: (string, string) -> bool, isFile: string -> bool)
    : seq<string>
  {
    Select(SortNames(listing), patterns, fnmatch, isFile)
  }

  /**
    The chunks the producer puts for one file: chunks of `n` lines and a shorter last one, or,
    when reading fails, the whole chunks read before the failure, the partial buffer being lost
    with the exception.
   */
  function FileChunks(r: FileRead, n: nat): seq<seq<string>>
    requires n >= 1
  {
    if r.failed then FullChunks(r.lines, n) else Chunks(r.lines, n)
  }

  /** The chunks the producer puts for the files, in order. */
  function Produced(files: seq<string>, read: string -> FileRead, n: nat): seq<seq<string>>
    requires n >= 1
  {
    if files == [] then [] else Produced(files[..|files| - 1], read, n) + FileChunks(read(files[|files| - 1]), n)
  }

  /** The `for line in fh` loop: put the buffer each time it reaches `n` lines. */
  method FillBuffers(lines: seq<string>, n: nat) returns (sent: seq<seq<string>>, buf: seq<string>)
    requires n >= 1
    ensures forall j :: 0 <= j < |sent| ==> |sent[j]| == n
    ensures |buf| < n
    ensures Flatten(sent) + buf == lines
  {
    sent := [];
    buf := [];
    for i := 0 to |lines|
      invariant forall j :: 0 <= j < |sent| ==> |sent[j]| == n
      invariant |buf| < n
      invariant Flatten(sent) + buf == lines[..i]
    {
      assert lines[..i + 1] == lines[..i] + [lines[i]];
      sent, buf := PutLine(sent, buf, lines[i], n);
    }
    assert lines[..|lines|] == lines;
  }

  /** `buffer.append(line)`, then `q.put(buffer)` and a new buffer once it holds `n` lines. */
  method PutLine(sent: seq<seq<string>>, buf: seq<string>, line: string, n: nat)
    returns (sent': seq<seq<string>>, buf': seq<string>)
    requires n >= 1 && |buf| < n
    requires forall j :: 0 <= j < |sent| ==> |sent[j]| == n
    ensures forall j :: 0 <= j < |sent'| ==> |sent'[j]| == n
    ensures |buf'| < n
    ensures Flatten(sent') + buf' == Flatten(sent) + buf + [line]
  {
    sent', buf' := sent, buf + [line];
    if |buf'| >= n {
      FlattenSnoc(sent, buf');
      sent' := sent + [buf'];
      buf' := [];
      assert Flatten(sent') + buf' == Flatten(sent');
    }
  }

  /**
    The `with open(...)` block for one file: the buffered chunks, then the rest of the buffer
    unless reading failed.
   */
  method SendFile(r: FileRead, n: nat) returns (sent: seq<seq<string>>)
    requires n >= 1
    ensures sent == FileChunks(r, n)
  {
    var buf;
    sent, buf := FillBuffers(r.lines, n);
    if r.failed {
      FullChunksUnique(sent, buf, r.lines, n);
      return;
    }
    RemainderChunks(sent, buf, r.lines, n);
    if buf != [] {
      sent := sent + [buf];
    }
  }

  lemma WorksConcat(a: seq<seq<string>>, b: seq<seq<string>>)
    ensures Works(a + b) == Works(a) + Works(b)
  {
  }

  lemma SelectSnoc(names: seq<string>, i: nat, patterns: seq<string>, fnmatch: (string, string) -> bool, isFile: string -> bool)
    requires i < |names|
    ensures Select(names[..i + 1], patterns, fnmatch, isFile)
      == Select(names[..i], patterns, fnmatch, isFile) + (if Wanted(names[i], patterns, fnmatch, isFile) then [names[i]] else [])
  {
    assert names[..i + 1][..i] == names[..i];
  }

  lemma ProducedSnoc(files: seq<string>, f: string, read: string -> FileRead, n: nat)
    requires n >= 1
    ensures Produced(files + [f], read, n) == Produced(files, read, n) + FileChunks(read(f), n)
  {
    assert (files + [f])[..|files|] == files;
  }

  /**
    The producer: for each wanted entry of the sorted listing, count the file and put its
    chunks; then put one sentinel per worker. It counts the files it reads and the chunks it
    puts.
   */
  method Produce(listing: seq<string>, patterns: seq<string>, fnmatch: (string, string) -> bool, isFile: string -> bool,
                 read: string -> FileRead, n: nat, workers: nat)
    returns (queue: seq<Task>, files: nat, chunksSent: nat)
    requires n >= 1
    ensures files == |Visited(listing, patterns, fnmatch, isFile)|
    ensures chunksSent == |Produced(Visited(listing, patterns, fnmatch, isFile), read, n)|
    ensures queue == Queue(Produced(Visited(listing, patterns, fnmatch, isFile), read, n), workers)
  {
    var names := SortNames(listing);
    ghost var visited: seq<string> := [];
    queue := [];
    files := 0;
    chunksSent := 0;
    for i := 0 to |names|
      invariant visited == Select(names[..i], patterns, fnmatch, isFile)
      invariant files == |visited|
      invariant queue == Works(Produced(visited, read, n))
      invariant chunksSent == |queue|
    {
      SelectSnoc(names, i, patterns, fnmatch, isFile);
      var fname := names[i];
      if !AnyMatch(fname, patterns, fnmatch) {
        continue;
      }
      if !isFile(fname) {
        continue;
      }
      files := files + 1;
      var sent := SendFile(read(fname), n);
      ProducedSnoc(visited, fname, read, n);
      WorksConcat(Produced(visited, read, n), sent);
      queue := queue + Works(sent);
      chunksSent := chunksSent + |sent|;
      visited := visited + [fname];
    }
    assert names[..|names|] == names;
    ghost var chunks := Produced(visited, read, n);
    for w := 0 to workers
      invariant queue == Works(chunks) + Stops(w)
    {
      assert Stops(w + 1) == Stops(w) + [Stop];
      queue := queue + [Stop];
    }
  }

  lemma {:induction false} SelectMembers(names: seq<string>, patterns: seq<string>, fnmatch: (string, string) -> bool, isFile: string -> bool)
    ensures forall x ::
      multiset(Select(names, patterns, fnmatch, isFile))[x] == if Wanted(x, patterns, fnmatch, isFile) then multiset(names)[x] else 0
  {
    if names != [] {
      var init := names[..|names| - 1];
      SelectMembers(init, patterns, fnmatch, isFile);
      assert names == init + [names[|names| - 1]];
    }
  }

  lemma {:induction false} SelectAscending(names: seq<string>, patterns: seq<string>, fnmatch: (string, string) -> bool, isFile: string -> bool)
    requires Ascending(names)
    ensures Ascending(Select(names, patterns, fnmatch, isFile))
  {
    if names != [] {
      var init := names[..|names| - 1];
      var last := names[|names| - 1];
      var sel := Select(init, patterns, fnmatch, isFile);
      SelectAscending(init, patterns, fnmatch, isFile);
      if Wanted(last, patterns, fnmatch, isFile) {
        SelectMembers(init, patterns, fnmatch, isFile);
        forall i, j | 0 <= i < j < |sel + [last]|
          ensures StrLe((sel + [last])[i], (sel + [last])[j])
        {
          if j == |sel| {
            assert sel[i] in multiset(sel);
            assert sel[i] in init;
            var k :| 0 <= k < |init| && init[k] == sel[i];
            assert names[k] == sel[i];
          }
        }
      }
    }
  }

  /**
    The producer reads the wanted entries of the listing in ascending name order, each entry
    as often as it is listed (so every file of a directory once), and nothing else.
   */
  lemma VisitedSpec(listing: seq<string>, patterns: seq<string>, fnmatch: (string, string) -> bool, isFile: string -> bool)
    ensures Ascending(Visited(listing, patterns, fnmatch, isFile))
    ensures forall x ::
      multiset(Visited(listing, patterns, fnmatch, isFile))[x] == if Wanted(x, patterns, fnmatch, isFile) then multiset(listing)[x] else 0
  {
    SortNamesSpec(listing);
    SelectMembers(SortNames(listing), patterns, fnmatch, isFile);
    SelectAscending(SortNames(listing), patterns, fnmatch, isFile);
  }

  /**
    One file's chunks hold its lines in order, from the start: all of them when reading
    succeeded, all but fewer than `n` at the end when it failed. Every chunk has 1 to `n`
    lines, and exactly `n` after a failure.
   */
  lemma FileChunksSpec(r: FileRead, n: nat)
    requires n >= 1
    ensures var f := Flatten(FileChunks(r, n)); |f| <= |r.lines| && f == r.lines[..|f|]
    ensures !r.failed ==> Flatten(FileChunks(r, n)) == r.lines
    ensures |r.lines| - |Flatten(FileChunks(r, n))| < n
    ensures forall i :: 0 <= i < |FileChunks(r, n)| ==> 1 <= |FileChunks(r, n)[i]| <= n
    ensures r.failed ==> forall i :: 0 <= i < |FileChunks(r, n)| ==> |FileChunks(r, n)[i]| == n
  {
    if r.failed {
      FullChunksSpec(r.lines, n);
    } else {
      ChunksSpec(r.lines, n);
      assert r.lines[..|r.lines|] == r.lines;
    }
  }

  /** All the lines the files deliver, file after file. */
  function ReadLines(files: seq<string>, read: string -> FileRead): seq<string> {
    if files == [] then [] else ReadLines(files[..|files| - 1], read) + read(files[|files| - 1]).lines
  }

  /** Nothing is lost or reordered between reading and the queue when every read succeeds. */
  lemma {:induction false} ProducedLines(files: seq<string>, read: string -> FileRead, n: nat)
    requires n >= 1
    requires forall i :: 0 <= i < |files| ==> !read(files[i]).failed
    ensures Flatten(Produced(files, read, n)) == ReadLines(files, read)
  {
    if files != [] {
      var init := files[..|files| - 1];
      var last := files[|files| - 1];
      ProducedLines(init, read, n);
      FlattenConcat(Produced(init, read, n), FileChunks(read(last), n));
      FileChunksSpec(read(last), n);
    }
  }

  /** Every chunk on the queue has between 1 and `n` lines. */
  lemma {:induction false} ProducedSizes(files: seq<string>, read: string -> FileRead, n: nat)
    requires n >= 1
    ensures forall i :: 0 <= i < |Produced(files, read, n)| ==> 1 <= |Produced(files, read, n)[i]| <= n
  {
    if files != [] {
      var init := files[..|files| - 1];
      ProducedSizes(init, read, n);
      FileChunksSpec(read(files[|files| - 1]), n);
    }
  }

  // ---------------------------------------------------------------------------------------
  // `_merge`

  /** What `_merge` returns: `lines_total`, `by_level`, `top_10_ips`, `ip_counts`, `errors_by_day`. */
  datatype Report = Report(linesTotal: nat, byLevel: Counter, top10: seq<Entry>, ipCounts: Counter, errorsByDay: Counter)

  /** The running values of `_merge`: `total`, `levels`, `ips`, `errors_by_day`. */
  datatype Totals = Totals(total: nat, levels: Counter, ips: Counter, days: Counter)

  ghost predicate ValidTotals(t: Totals) {
    Valid(t.levels) && Valid(t.ips) && Valid(t.days)
  }

  /**
    One pass of the loop over the partials: add the line total, add the partial's count of
    each key `levels` already has, and merge the address and day counters key by key.
   */
  function MergeOne(t: Totals, p: WorkerPartial): (r: Totals)
    requires ValidTotals(t)
    ensures ValidTotals(r)
  {
    Totals(t.total + p.totalLines, AddKeys(t.levels, t.levels.keys, p.byLevel),
           AddAll(t.ips, p.ipCounts), AddAll(t.days, p.errorsByDay))
  }

  /** The running values after the partials, starting from zero levels and empty counters. */
  function FoldParts(parts: seq<WorkerPartial>): (r: Totals)
    ensures ValidTotals(r)
  {
    ZeroLevelsValid();
    if parts == [] then Totals(0, ZeroLevels, Empty, Empty)
    else MergeOne(FoldParts(parts[..|parts| - 1]), parts[|parts| - 1])
  }

  /** `_merge(parts)` */
  function MergeReport(parts: seq<WorkerPartial>): Report {
    var t := FoldParts(parts);
    Report(t.total, t.levels, TopN(t.ips, 10), t.ips, t.days)
  }

  /** `for k in levels.keys(): levels[k] += p.get("by_level", {}).get(k, 0)` */
  method AddLevels(levels: Counter, b: Counter) returns (r: Counter)
    requires Valid(levels)
    ensures r == AddKeys(levels, levels.keys, b)
  {
    r := levels;
    for i := 0 to |levels.keys|
      invariant r == AddKeys(levels, levels.keys[..i], b)
    {
      AddKeysStep(levels, levels.keys, b, i);
      r := Add(r, levels.keys[i], Get(b, levels.keys[i]));
    }
    assert levels.keys[..|levels.keys|] == levels.keys;
  }

  lemma FoldPartsSnoc(parts: seq<WorkerPartial>, i: nat)
    requires i < |parts|
    ensures FoldParts(parts[..i + 1]) == MergeOne(FoldParts(parts[..i]), parts[i])
  {
    assert parts[..i + 1][..i] == parts[..i];
  }

  /** `_merge`: fold the partials in the order they arrived, then rank the addresses. */
  method MergeParts(parts: seq<WorkerPartial>) returns (report: Report)
    ensures report == MergeReport(parts)
  {
    ZeroLevelsValid();
    var total: nat := 0;
    var levels := ZeroLevels;
    var ips := Empty;
    var errorsByDay := Empty;
    for i := 0 to |parts|
      invariant FoldParts(parts[..i]) == Totals(total, levels, ips, errorsByDay)
    {
      FoldPartsSnoc(parts, i);
      var p := parts[i];
      total := total + p.totalLines;
      levels := AddLevels(levels, p.byLevel);
      ips := AddInto(ips, p.ipCounts);
      errorsByDay := AddInto(errorsByDay, p.errorsByDay);
    }
    assert parts[..|parts|] == parts;
    report := Report(total, levels, TopN(ips, 10), ips, errorsByDay);
  }

  /** The three count maps of a partial. */
  datatype Field = LevelCounts | IpCounts | DayCounts

  function FieldOf(p: WorkerPartial, f: Field): Counter {
    match f
    case LevelCounts => p.byLevel
    case IpCounts => p.ipCounts
    case DayCounts => p.errorsByDay
  }

  function TotalsOf(t: Totals, f: Field): Counter {
    match f
    case LevelCounts => t.levels
    case IpCounts => t.ips
    case DayCounts => t.days
  }

  ghost predicate AllValid(parts: seq<WorkerPartial>) {
    forall i :: 0 <= i < |parts| ==> ValidWorkerPartial(parts[i])
  }

  /** The sum of the line totals of the partials. */
  function LinesOf(parts: seq<WorkerPartial>): nat {
    if parts == [] then 0 else LinesOf(parts[..|parts| - 1]) + parts[|parts| - 1].totalLines
  }

  /** The sum of the counts of key `k` in one count map over the partials. */
  function KeyTotal(parts: seq<WorkerPartial>, f: Field, k: string): nat {
    if parts == [] then 0 else KeyTotal(parts[..|parts| - 1], f, k) + Get(FieldOf(parts[|parts| - 1], f), k)
  }

  /** Some partial holds key `k` in one count map. */
  predicate KeyIn(parts: seq<WorkerPartial>, f: Field, k: string) {
    exists i :: 0 <= i < |parts| && k in FieldOf(parts[i], f).counts
  }

  lemma KeyInSnoc(parts: seq<WorkerPartial>, f: Field, k: string)
    requires parts != []
    ensures KeyIn(parts, f, k) <==> KeyIn(parts[..|parts| - 1], f, k) || k in FieldOf(parts[|parts| - 1], f).counts
  {
    var init := parts[..|parts| - 1];
    if KeyIn(init, f, k) {
      var i :| 0 <= i < |init| && k in FieldOf(init[i], f).counts;
      assert parts[i] == init[i];
    }
    if KeyIn(parts, f, k) {
      var i :| 0 <= i < |parts| && k in FieldOf(parts[i], f).counts;
      if i < |init| { assert init[i] == parts[i]; }
    }
  }

  /** Adding counts for keys a counter already has leaves its key order alone. */
  lemma {:induction false} AddKeysOwnKeys(a: Counter, ks: seq<string>, b: Counter)
    requires Valid(a)
    requires forall i :: 0 <= i < |ks| ==> ks[i] in a.keys
    ensures AddKeys(a, ks, b).keys == a.keys
  {
    if ks != [] {
      AddKeysOwnKeys(a, ks[..|ks| - 1], b);
    }
  }

  /** `lines_total` is the sum of the partials' totals. */
  lemma {:induction false} FoldTotal(parts: seq<WorkerPartial>)
    ensures FoldParts(parts).total == LinesOf(parts)
  {
    if parts != [] {
      FoldTotal(parts[..|parts| - 1]);
    }
  }

  /**
    `by_level` keeps exactly its three keys; each counts the sum of that level over the
    partials, and any other key a partial may hold is ignored.
   */
  lemma {:induction false} FoldLevels(parts: seq<WorkerPartial>, k: string)
    ensures FoldParts(parts).levels.keys == LevelNames
    ensures Get(FoldParts(parts).levels, k) == if k in LevelNames then KeyTotal(parts, LevelCounts, k) else 0
  {
    if parts != [] {
      var init := parts[..|parts| - 1];
      var t := FoldParts(init);
      FoldLevels(init, k);
      AddKeysOwnKeys(t.levels, t.levels.keys, parts[|parts| - 1].byLevel);
      AddKeysGet(t.levels, t.levels.keys, parts[|parts| - 1].byLevel, k);
    }
  }

  /**
    The address and day counters count, key by key, the sum over the partials, and hold a key
    exactly when some partial does.
   */
  lemma {:induction false} FoldCounts(parts: seq<WorkerPartial>, f: Field, k: string)
    requires AllValid(parts) && f != LevelCounts
    ensures Get(TotalsOf(FoldParts(parts), f), k) == KeyTotal(parts, f, k)
    ensures k in TotalsOf(FoldParts(parts), f).counts <==> KeyIn(parts, f, k)
  {
    if parts != [] {
      var init := parts[..|parts| - 1];
      var p := parts[|parts| - 1];
      var t := FoldParts(init);
      FoldCounts(init, f, k);
      KeyInSnoc(parts, f, k);
      assert ValidWorkerPartial(p);
      if f == IpCounts {
        AddAllGet(t.ips, p.ipCounts, k);
      } else {
        AddAllGet(t.days, p.errorsByDay, k);
      }
    }
  }

  /**
    The report of `_merge`: the line total is the sum of the totals; `by_level` has exactly
    INFO, WARNING and ERROR, each summed over the partials; `ip_counts` and `errors_by_day` sum
    each key over the partials and hold exactly the keys some partial holds.
   */
  lemma MergeReportCounts(parts: seq<WorkerPartial>, k: string)
    requires AllValid(parts)
    ensures MergeReport(parts).linesTotal == LinesOf(parts)
    ensures MergeReport(parts).byLevel.keys == LevelNames
    ensures Get(MergeReport(parts).byLevel, k) == if k in LevelNames then KeyTotal(parts, LevelCounts, k) else 0
    ensures Get(MergeReport(parts).ipCounts, k) == KeyTotal(parts, IpCounts, k)
    ensures k in MergeReport(parts).ipCounts.counts <==> KeyIn(parts, IpCounts, k)
    ensures Get(MergeReport(parts).errorsByDay, k) == KeyTotal(parts, DayCounts, k)
    ensures k in MergeReport(parts).errorsByDay.counts <==> KeyIn(parts, DayCounts, k)
  {
    FoldTotal(parts);
    FoldLevels(parts, k);
    FoldCounts(parts, IpCounts, k);
    FoldCounts(parts, DayCounts, k);
  }

  /**
    `top_10_ips`: the ten addresses with the highest merged counts (all of them when there are
    fewer), by non-increasing count, each with its merged count; an address left out counts
    no more than any listed one.
   */
  lemma MergeReportTop(parts: seq<WorkerPartial>)
    ensures var r := MergeReport(parts);
      |r.top10| == Ranking.Min(10, |r.ipCounts.keys|) && NonIncreasing(r.top10)
      && (forall i :: 0 <= i < |r.top10| ==> r.top10[i].0 in r.ipCounts.keys && r.top10[i].1 == Get(r.ipCounts, r.top10[i].0))
      && (forall i, k :: 0 <= i < |r.top10| && k in r.ipCounts.keys && !HasKey(r.top10, k) ==> Get(r.ipCounts, k) <= r.top10[i].1)
  {
    TopNSpec(FoldParts(parts).ips, 10);
  }

  lemma {:induction false} LinesOfIsSumOf(parts: seq<WorkerPartial>)
    ensures LinesOf(parts) == SumOf(parts, (p: WorkerPartial) => p.totalLines)
  {
    if parts != [] {
      LinesOfIsSumOf(parts[..|parts| - 1]);
    }
  }

  lemma {:induction false} KeyTotalIsSumOf(parts: seq<WorkerPartial>, f: Field, k: string)
    ensures KeyTotal(parts, f, k) == SumOf(parts, (p: WorkerPartial) => Get(FieldOf(p, f), k))
  {
    if parts != [] {
      KeyTotalIsSumOf(parts[..|parts| - 1], f, k);
    }
  }

  lemma KeyInPermutation(ps: seq<WorkerPartial>, qs: seq<WorkerPartial>, f: Field, k: string)
    requires multiset(ps) == multiset(qs)
    ensures KeyIn(ps, f, k) ==> KeyIn(qs, f, k)
  {
    if KeyIn(ps, f, k) {
      var i :| 0 <= i < |ps| && k in FieldOf(ps[i], f).counts;
      assert ps[i] in multiset(qs);
      var j :| 0 <= j < |qs| && qs[j] == ps[i];
    }
  }

  lemma KeyTotalPermutation(ps: seq<WorkerPartial>, qs: seq<WorkerPartial>, f: Field, k: string)
    requires multiset(ps) == multiset(qs)
    ensures KeyTotal(ps, f, k) == KeyTotal(qs, f, k)
    ensures KeyIn(ps, f, k) <==> KeyIn(qs, f, k)
  {
    KeyTotalIsSumOf(ps, f, k);
    KeyTotalIsSumOf(qs, f, k);
    SumOfPermutation(ps, qs, (p: WorkerPartial) => Get(FieldOf(p, f), k));
    KeyInPermutation(ps, qs, f, k);
    KeyInPermutation(qs, ps, f, k);
  }

  /**
    The result collector receives the partials in whatever order the workers finish; the
    merged line total, `by_level` (key order included), `ip_counts` and `errors_by_day` (as
    dicts) do not depend on that order.
   */
  lemma MergeReportPermutation(ps: seq<WorkerPartial>, qs: seq<WorkerPartial>)
    requires AllValid(ps) && multiset(ps) == multiset(qs)
    ensures AllValid(qs)
    ensures MergeReport(ps).linesTotal == MergeReport(qs).linesTotal
    ensures MergeReport(ps).byLevel == MergeReport(qs).byLevel
    ensures DictEq(MergeReport(ps).ipCounts, MergeReport(qs).ipCounts)
    ensures DictEq(MergeReport(ps).errorsByDay, MergeReport(qs).errorsByDay)
  {
    forall j | 0 <= j < |qs|
      ensures ValidWorkerPartial(qs[j])
    {
      assert qs[j] in multiset(ps);
    }
    var x := MergeReport(ps);
    var y := MergeReport(qs);
    FoldTotal(ps);
    FoldTotal(qs);
    LinesOfIsSumOf(ps);
    LinesOfIsSumOf(qs);
    SumOfPermutation(ps, qs, (p: WorkerPartial) => p.totalLines);
    forall k
      ensures Get(x.byLevel, k) == Get(y.byLevel, k) && (k in x.byLevel.counts <==> k in y.byLevel.counts)
      ensures Get(x.ipCounts, k) == Get(y.ipCounts, k) && (k in x.ipCounts.counts <==> k in y.ipCounts.counts)
      ensures Get(x.errorsByDay, k) == Get(y.errorsByDay, k) && (k in x.errorsByDay.counts <==> k in y.errorsByDay.counts)
    {
      MergeReportCounts(ps, k);
      MergeReportCounts(qs, k);
      KeyTotalPermutation(ps, qs, LevelCounts, k);
      KeyTotalPermutation(ps, qs, IpCounts, k);
      KeyTotalPermutation(ps, qs, DayCounts, k);
    }
    SameCounts(x.byLevel, y.byLevel);
    SameCounts(x.ipCounts, y.ipCounts);
    SameCounts(x.errorsByDay, y.errorsByDay);
    MergeReportCounts(ps, "");
    MergeReportCounts(qs, "");
  }

  // ---------------------------------------------------------------------------------------
  // Chunk boundaries do not matter

  /** The keys one count map of a summary tallies. */
  function KeysOf(lines: seq<string>, f: Field): seq<string> {
    match f
    case LevelCounts => LevelKeys(lines)
    case IpCounts => IpKeys(lines)
    case DayCounts => DayKeys(lines)
  }

  lemma KeysConcat(a: seq<string>, b: seq<string>, f: Field)
    ensures KeysOf(a + b, f) == KeysOf(a, f) + KeysOf(b, f)
  {
    match f
    case LevelCounts => LevelKeysConcat(a, b);
    case IpCounts => IpKeysConcat(a, b);
    case DayCounts => DayKeysConcat(a, b);
  }

  lemma {:induction false} LevelKeysConcat(a: seq<string>, b: seq<string>)
    ensures LevelKeys(a + b) == LevelKeys(a) + LevelKeys(b)
  {
    if b != [] {
      var init, last := b[..|b| - 1], b[|b| - 1];
      assert (a + b)[..|a + b| - 1] == a + init && (a + b)[|a + b| - 1] == last;
      LevelKeysConcat(a, init);
      var k := Opt(ClassifyLine(last).level);
      assert LevelKeys(a + b) == LevelKeys(a + init) + k;
      assert LevelKeys(b) == LevelKeys(init) + k;
    } else {
      assert a + b == a;
    }
  }

  lemma {:induction false} IpKeysConcat(a: seq<string>, b: seq<string>)
    ensures IpKeys(a + b) == IpKeys(a) + IpKeys(b)
  {
    if b != [] {
      var init, last := b[..|b| - 1], b[|b| - 1];
      assert (a + b)[..|a + b| - 1] == a + init && (a + b)[|a + b| - 1] == last;
      IpKeysConcat(a, init);
      var k := Opt(ClassifyLine(last).ip);
      assert IpKeys(a + b) == IpKeys(a + init) + k;
      assert IpKeys(b) == IpKeys(init) + k;
    } else {
      assert a + b == a;
    }
  }

  lemma {:induction false} DayKeysConcat(a: seq<string>, b: seq<string>)
    ensures DayKeys(a + b) == DayKeys(a) + DayKeys(b)
  {
    if b != [] {
      var init, last := b[..|b| - 1], b[|b| - 1];
      assert (a + b)[..|a + b| - 1] == a + init && (a + b)[|a + b| - 1] == last;
      DayKeysConcat(a, init);
      var k := Opt(ClassifyLine(last).day);
      assert DayKeys(a + b) == DayKeys(a + init) + k;
      assert DayKeys(b) == DayKeys(init) + k;
    } else {
      assert a + b == a;
    }
  }

  lemma ZeroLevelsGet(k: string)
    ensures Get(ZeroLevels, k) == 0
  {
  }

  /** Each count map of a summary counts a key as often as the chunk's lines yield it. */
  lemma SummaryGet(lines: seq<string>, f: Field, k: string)
    ensures Get(FieldOf(WorkerSummary(lines), f), k) == multiset(KeysOf(lines, f))[k]
  {
    ZeroLevelsValid();
    ZeroLevelsGet(k);
    match f
    case LevelCounts => TallyIntoGet(ZeroLevels, LevelKeys(lines), k);
    case IpCounts => TallyIntoGet(Empty, IpKeys(lines), k);
    case DayCounts => TallyIntoGet(Empty, DayKeys(lines), k);
  }

  lemma {:induction false} LinesOfSummaries(chunks: seq<seq<string>>)
    ensures LinesOf(SummaryOfEach(chunks)) == |Flatten(chunks)|
  {
    if chunks != [] {
      var init := chunks[..|chunks| - 1];
      LinesOfSummaries(init);
      assert SummaryOfEach(chunks)[..|chunks| - 1] == SummaryOfEach(init);
    }
  }

  lemma {:induction false} KeyTotalSummaries(chunks: seq<seq<string>>, f: Field, k: string)
    ensures KeyTotal(SummaryOfEach(chunks), f, k) == multiset(KeysOf(Flatten(chunks), f))[k]
  {
    if chunks != [] {
      var init := chunks[..|chunks| - 1];
      var last := chunks[|chunks| - 1];
      KeyTotalSummaries(init, f, k);
      assert SummaryOfEach(chunks)[..|chunks| - 1] == SummaryOfEach(init);
      SummaryGet(last, f, k);
      KeysConcat(Flatten(init), last, f);
      assert multiset(KeysOf(Flatten(init), f) + KeysOf(last, f))
        == multiset(KeysOf(Flatten(init), f)) + multiset(KeysOf(last, f));
    }
  }

  lemma {:induction false} KeyInPositive(parts: seq<WorkerPartial>, f: Field, k: string)
    requires forall i :: 0 <= i < |parts| ==> Positive(FieldOf(parts[i], f))
    ensures KeyIn(parts, f, k) <==> KeyTotal(parts, f, k) > 0
  {
    if parts != [] {
      KeyInSnoc(parts, f, k);
      KeyInPositive(parts[..|parts| - 1], f, k);
    }
  }

  lemma SummariesPositive(chunks: seq<seq<string>>, f: Field)
    requires f != LevelCounts
    ensures AllValid(SummaryOfEach(chunks))
    ensures forall i :: 0 <= i < |chunks| ==> Positive(FieldOf(SummaryOfEach(chunks)[i], f))
  {
    forall i | 0 <= i < |chunks|
      ensures Positive(FieldOf(SummaryOfEach(chunks)[i], f))
    {
      WorkerIpSum(chunks[i]);
      WorkerDaySum(chunks[i]);
    }
  }

  lemma PositiveHas(c: Counter, k: string)
    requires Positive(c)
    ensures k in c.counts <==> Get(c, k) > 0
  {
  }

  /** One count map of the merged report against the same map of the summary of all the lines. */
  lemma MergeWholeField(chunks: seq<seq<string>>, f: Field, k: string)
    requires f != LevelCounts
    ensures Get(TotalsOf(FoldParts(SummaryOfEach(chunks)), f), k) == Get(FieldOf(WorkerSummary(Flatten(chunks)), f), k)
    ensures k in TotalsOf(FoldParts(SummaryOfEach(chunks)), f).counts <==> k in FieldOf(WorkerSummary(Flatten(chunks)), f).counts
  {
    var parts := SummaryOfEach(chunks);
    SummariesPositive(chunks, f);
    FoldCounts(parts, f, k);
    KeyTotalSummaries(chunks, f, k);
    SummaryGet(Flatten(chunks), f, k);
    KeyInPositive(parts, f, k);
    WorkerIpSum(Flatten(chunks));
    WorkerDaySum(Flatten(chunks));
    PositiveHas(FieldOf(WorkerSummary(Flatten(chunks)), f), k);
  }

  /** One level of the merged `by_level` against the same level of the summary of all the lines. */
  lemma MergeLevelKey(chunks: seq<seq<string>>, k: string)
    ensures Get(FoldParts(SummaryOfEach(chunks)).levels, k) == Get(WorkerSummary(Flatten(chunks)).byLevel, k)
    ensures k in FoldParts(SummaryOfEach(chunks)).levels.counts <==> k in WorkerSummary(Flatten(chunks)).byLevel.counts
  {
    var parts := SummaryOfEach(chunks);
    FoldLevels(parts, k);
    KeyTotalSummaries(chunks, LevelCounts, k);
    SummaryGet(Flatten(chunks), LevelCounts, k);
    LevelKeysKnown(Flatten(chunks));
    WorkerLevelKeys(Flatten(chunks));
    if k !in LevelNames {
      assert k !in LevelKeys(Flatten(chunks));
    }
  }

  /** The merged `by_level` is the summary's `by_level`, key order included. */
  lemma MergeLevels(chunks: seq<seq<string>>)
    ensures FoldParts(SummaryOfEach(chunks)).levels == WorkerSummary(Flatten(chunks)).byLevel
  {
    var l := FoldParts(SummaryOfEach(chunks)).levels;
    var w := WorkerSummary(Flatten(chunks)).byLevel;
    forall k
      ensures Get(l, k) == Get(w, k) && (k in l.counts <==> k in w.counts)
    {
      MergeLevelKey(chunks, k);
    }
    SameCounts(l, w);
    WorkerLevelKeys(Flatten(chunks));
    FoldLevels(SummaryOfEach(chunks), "");
  }

  /** A merged address or day counter holds the same mapping as the summary of all the lines. */
  lemma MergeField(chunks: seq<seq<string>>, f: Field)
    requires f != LevelCounts
    ensures DictEq(TotalsOf(FoldParts(SummaryOfEach(chunks)), f), FieldOf(WorkerSummary(Flatten(chunks)), f))
  {
    var t := TotalsOf(FoldParts(SummaryOfEach(chunks)), f);
    var w := FieldOf(WorkerSummary(Flatten(chunks)), f);
    forall k
      ensures Get(t, k) == Get(w, k) && (k in t.counts <==> k in w.counts)
    {
      MergeWholeField(chunks, f, k);
    }
    SameCounts(t, w);
  }

  /**
    Cutting the lines into chunks, summarising each chunk and merging the summaries gives what
    one summary of all the lines gives: the same line total, the same `by_level`, and the same
    address and day counts, whatever the chunk boundaries.
   */
  lemma MergeOfChunks(chunks: seq<seq<string>>)
    ensures MergeReport(SummaryOfEach(chunks)).linesTotal == |Flatten(chunks)|
    ensures MergeReport(SummaryOfEach(chunks)).byLevel == WorkerSummary(Flatten(chunks)).byLevel
    ensures DictEq(MergeReport(SummaryOfEach(chunks)).ipCounts, WorkerSummary(Flatten(chunks)).ipCounts)
    ensures DictEq(MergeReport(SummaryOfEach(chunks)).errorsByDay, WorkerSummary(Flatten(chunks)).errorsByDay)
  {
    var t := FoldParts(SummaryOfEach(chunks));
    MergeReportFields(SummaryOfEach(chunks));
    MergeLines(chunks);
    MergeLevels(chunks);
    MergeField(chunks, IpCounts);
    MergeField(chunks, DayCounts);
    assert t.ips == TotalsOf(t, IpCounts) && t.days == TotalsOf(t, DayCounts);
  }

  /** The report carries the merged totals unchanged, apart from adding the top ten. */
  lemma MergeReportFields(parts: seq<WorkerPartial>)
    ensures var t := FoldParts(parts);
      MergeReport(parts).linesTotal == t.total && MergeReport(parts).byLevel == t.levels
      && MergeReport(parts).ipCounts == t.ips && MergeReport(parts).errorsByDay == t.days
  {
  }

  /** The merged line total is the number of lines. */
  lemma MergeLines(chunks: seq<seq<string>>)
    ensures FoldParts(SummaryOfEach(chunks)).total == |Flatten(chunks)|
  {
    FoldTotal(SummaryOfEach(chunks));
    LinesOfSummaries(chunks);
  }

  // ---------------------------------------------------------------------------------------
  // The analyser object

  /** `max(1, int(x))` */
  function AtLeastOne(x: int): (r: nat)
    ensures r >= 1 && r >= x
    ensures x >= 1 ==> r == x
    ensures x < 1 ==> r == 1
  {
    if x >= 1 then x else 1
  }

  /** `LogAnalyzer`: the settings the constructor normalises, and `analyze`. */
  class LogAnalyzer {
    const linesPerChunk: nat
    const workers: nat
    const monitor: bool
    const patterns: seq<string>

    /**
      The chunk size and the number of workers are raised to at least one; an absent or empty
      pattern list becomes `["*.log"]`.
     */
    constructor (linesPerChunk: int, workers: int, monitor: bool, patterns: Option<seq<string>>)
      ensures this.linesPerChunk == AtLeastOne(linesPerChunk) && this.workers == AtLeastOne(workers)
      ensures this.monitor == monitor
      ensures this.patterns == if patterns.None? || patterns.value == [] then ["*.log"] else patterns.value
    {
      this.linesPerChunk := AtLeastOne(linesPerChunk);
      this.workers := AtLeastOne(workers);
      this.monitor := monitor;
      this.patterns := if patterns.None? || patterns.value == [] then ["*.log"] else patterns.value;
    }

    /** The chunks `analyze` puts on the queue for a directory listing. */
    function QueuedChunks(listing: seq<string>, fnmatch: (string, string) -> bool, isFile: string -> bool,
                          read: string -> FileRead): seq<seq<string>>
      requires linesPerChunk >= 1
    {
      Produced(Visited(listing, patterns, fnmatch, isFile), read, linesPerChunk)
    }

    /**
      `analyze`: the producer fills the queue, the workers summarise every chunk and stop on
      their sentinels, and `_merge` folds the summaries. The directory listing, `fnmatch`,
      `os.path.isfile` and the reading of a file are parameters.
     */
    method Analyze(listing: seq<string>, fnmatch: (string, string) -> bool, isFile: string -> bool,
                   read: string -> FileRead)
      returns (report: Report, files: nat, chunksSent: nat)
      requires linesPerChunk >= 1 && workers >= 1
      ensures files == |Visited(listing, patterns, fnmatch, isFile)|
      ensures chunksSent == |QueuedChunks(listing, fnmatch, isFile, read)|
      ensures report == MergeReport(SummaryOfEach(QueuedChunks(listing, fnmatch, isFile, read)))
    {
      var queue;
      queue, files, chunksSent := Produce(listing, patterns, fnmatch, isFile, read, linesPerChunk, workers);
      var partials, _ := RunWorkers(queue, QueuedChunks(listing, fnmatch, isFile, read), workers);
      report := MergeParts(partials);
    }
  }

  /**
    End to end, when every file reads without error: the report of `analyze` counts every line
    of every wanted file, and its level, address and day counts are those of one summary of all
    those lines, whatever the chunk size.
   */
  lemma AnalyzeCountsEveryLine(listing: seq<string>, patterns: seq<string>, fnmatch: (string, string) -> bool,
                               isFile: string -> bool, read: string -> FileRead, n: nat)
    requires n >= 1
    requires forall f :: !read(f).failed
    ensures var files := Visited(listing, patterns, fnmatch, isFile);
      var r := MergeReport(SummaryOfEach(Produced(files, read, n)));
      var whole := WorkerSummary(ReadLines(files, read));
      r.linesTotal == |ReadLines(files, read)| && r.byLevel == whole.byLevel
      && DictEq(r.ipCounts, whole.ipCounts) && DictEq(r.errorsByDay, whole.errorsByDay)
  {
    var files := Visited(listing, patterns, fnmatch, isFile);
    ProducedLines(files, read, n);
    MergeOfChunks(Produced(files, read, n));
  }
}
