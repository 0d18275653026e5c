/**
  processor.py: `Processor.process_chunk`, which wraps the chunk analysis in a record that
  always has the same shape, `worker_loop`, which serves a task queue until its sentinel, and
  `run_sequential_from_dir`, which folds the chunks of the log directory into one accumulator
  without any process.

  An exception the analysis might raise is a parameter (`fault`): for lines of text the
  analysis of analysis.py raises none, so with no fault every chunk succeeds.
 */
module Processor {
  import opened Wrappers
  import opened Text
  import opened Counters
  import opened Chunking
  import opened Analysis
  import LogUtils
  import Config

  /** `Processor(name)`: a stateless processor that only keeps its name. */
  datatype Processor = Processor(name: string)

  /** `Processor(name)`: `name or "Processor"`, so a processor always has a non-empty name. */
  function NewProcessor(name: Option<string>): (p: Processor)
    ensures p.name != []
    ensures name.Some? && name.value != [] ==> p.name == name.value
    ensures name.None? || name.value == [] ==> p.name == "Processor"
  {
    if name.Some? && name.value != [] then Processor(name.value) else Processor("Processor")
  }

  /**
    The record put on the result queue: `file`, `chunk_index`, `processor`, `status`, `result`,
    `error_message` and `fatal` (absent fields are `None` or false). `error_trace` is not
    modelled.
   */
  datatype Outcome = Outcome(file: Option<string>, chunkIndex: Option<int>, processor: string, status: string,
                             result: Option<Partial>, errorMessage: Option<string>, fatal: bool)

  /**
    `process_chunk(file, index, lines)`: the metadata, then either status "ok" with the chunk
    analysis, or, when the analysis raises `fault`, status "error" with no result and the
    exception's message. It never raises itself.
   */
  function ProcessChunk(p: Processor, file: string, index: int, lines: seq<string>, fault: Option<string>): (r: Outcome)
    ensures r.file == Some(file) && r.chunkIndex == Some(index) && r.processor == p.name && !r.fatal
    ensures r.status == "ok" <==> fault.None?
    ensures r.status == "ok" ==> r.result == Some(Summary(lines)) && r.errorMessage.None?
    ensures r.status != "ok" ==> r.status == "error" && r.result.None? && r.errorMessage == fault
  {
    match fault
    case None => Outcome(Some(file), Some(index), p.name, "ok", Some(Summary(lines)), None, false)
    case Some(message) => Outcome(Some(file), Some(index), p.name, "error", None, Some(message), false)
  }

  // ---------------------------------------------------------------------------------------
  // worker_loop

  /**
    An item of the task queue: the sentinel `None`, a well-formed `(file_path, chunk_index,
    lines)`, or an item whose unpacking or conversion raises, with the first two elements the
    error record can still report and the exception's message.
   */
  datatype WorkerTask =
    | Stop
    | Chunk(file: string, index: int, lines: seq<string>)
    | Malformed(knownFile: Option<string>, knownIndex: Option<int>, message: string)

  /** `f"worker-{worker_id}"`, or `"worker"` without an id. */
  function WorkerName(id: Option<int>): (r: string)
    ensures r != []
  {
    if id.Some? then "worker-" + IntToString(id.value) else "worker"
  }

  /** What the worker puts for a task that is not the sentinel. */
  function OutcomeOf(name: string, t: WorkerTask, fault: (string, int) -> Option<string>): Outcome
    requires !t.Stop?
  {
    match t
    case Chunk(f, i, ls) => ProcessChunk(Processor(name), f, i, ls, fault(f, i))
    case Malformed(f, i, m) => Outcome(f, i, name, "error", None, Some(m), true)
  }

  /**
    The results `worker_loop` puts and the number of tasks it takes: one result per task up
    to the sentinel; a malformed task gives a fatal error record and, with
    `stop_on_exception`, ends the loop. A queue that runs out leaves the worker waiting.
   */
  function LoopRun(tasks: seq<WorkerTask>, name: string, stopOnException: bool, fault: (string, int) -> Option<string>)
    : (r: (seq<Outcome>, nat))
    ensures r.1 <= |tasks|
  {
    if tasks == [] then ([], 0)
    else if tasks[0].Stop? then ([], 1)
    else if tasks[0].Malformed? && stopOnException then ([OutcomeOf(name, tasks[0], fault)], 1)
    else
      var rest := LoopRun(tasks[1..], name, stopOnException, fault);
      ([OutcomeOf(name, tasks[0], fault)] + rest.0, rest.1 + 1)
  }

  /** `worker_loop(task_q, result_q, worker_id, stop_on_exception)` over a sequence of tasks. */
  method WorkerLoop(tasks: seq<WorkerTask>, workerId: Option<int>, stopOnException: bool,
                    fault: (string, int) -> Option<string>)
    returns (results: seq<Outcome>, taken: nat)
    ensures results == LoopRun(tasks, WorkerName(workerId), stopOnException, fault).0
    ensures taken == LoopRun(tasks, WorkerName(workerId), stopOnException, fault).1
  {
    var name := WorkerName(workerId);
    var p := NewProcessor(Some(name));
    assert p == Processor(name);
    results := [];
    taken := 0;
    assert tasks[0..] == tasks;
    ghost var whole := LoopRun(tasks, name, stopOnException, fault);
    while taken < |tasks|
      invariant taken <= |tasks|
      invariant whole.0 == results + LoopRun(tasks[taken..], name, stopOnException, fault).0
      invariant whole.1 == taken + LoopRun(tasks[taken..], name, stopOnException, fault).1
    {
      ghost var next := LoopRun(tasks[taken + 1..], name, stopOnException, fault);
      var res, more := TakeTask(p, tasks, taken, stopOnException, fault);
      AppendAll(results, res, next.0);
      results := results + res;
      taken := taken + 1;
      if !more {
        return;
      }
    }
    assert tasks[taken..] == [];
  }

  lemma AppendAll<T>(a: seq<T>, b: seq<T>, c: seq<T>)
    ensures a + b + c == a + (b + c)
  {
  }

  /**
    One turn of the loop: take the task at `k`, report its outcome unless it is the sentinel,
    and say whether the loop goes on.
   */
  method TakeTask(p: Processor, tasks: seq<WorkerTask>, k: nat, stopOnException: bool,
                  fault: (string, int) -> Option<string>) returns (res: seq<Outcome>, more: bool)
    requires k < |tasks|
    ensures var now := LoopRun(tasks[k..], p.name, stopOnException, fault);
      var next := LoopRun(tasks[k + 1..], p.name, stopOnException, fault);
      if more then now == (res + next.0, next.1 + 1) else now == (res, 1)
  {
    var task := tasks[k];
    LoopRunAt(tasks, k, p.name, stopOnException, fault);
    if task.Stop? {
      return [], false;
    }
    var r := HandleTask(p, task, fault);
    res := [r];
    more := !(task.Malformed? && stopOnException);
  }

  /** The body of the loop for a task that is not the sentinel. */
  method HandleTask(p: Processor, task: WorkerTask, fault: (string, int) -> Option<string>) returns (res: Outcome)
    requires !task.Stop?
    ensures res == OutcomeOf(p.name, task, fault)
  {
    if task.Chunk? {
      res := ProcessChunk(p, task.file, task.index, task.lines, fault(task.file, task.index));
    } else {
      res := Outcome(task.knownFile, task.knownIndex, p.name, "error", None, Some(task.message), true);
    }
  }

  /** One step of `LoopRun` at position `k`. */
  lemma LoopRunAt(tasks: seq<WorkerTask>, k: nat, name: string, stopOnException: bool,
                  fault: (string, int) -> Option<string>)
    requires k < |tasks|
    ensures var now := LoopRun(tasks[k..], name, stopOnException, fault);
      var next := LoopRun(tasks[k + 1..], name, stopOnException, fault);
      if tasks[k].Stop? then now == ([], 1)
      else if tasks[k].Malformed? && stopOnException then now == ([OutcomeOf(name, tasks[k], fault)], 1)
      else now == ([OutcomeOf(name, tasks[k], fault)] + next.0, next.1 + 1)
  {
    assert tasks[k..][0] == tasks[k] && tasks[k..][1..] == tasks[k + 1..];
  }

  /** One step of `LoopRun` from the front, for a task that neither stops nor ends the loop. */
  lemma LoopRunFront(tasks: seq<WorkerTask>, name: string, stopOnException: bool,
                     fault: (string, int) -> Option<string>)
    requires tasks != [] && !tasks[0].Stop? && !(tasks[0].Malformed? && stopOnException)
    ensures var rest := LoopRun(tasks[1..], name, stopOnException, fault);
      LoopRun(tasks, name, stopOnException, fault) == ([OutcomeOf(name, tasks[0], fault)] + rest.0, rest.1 + 1)
  {
  }

  /** How many tasks the worker takes, against how many results it reports. */
  lemma {:induction false} LoopRunTaken(tasks: seq<WorkerTask>, name: string, stopOnException: bool,
                                        fault: (string, int) -> Option<string>)
    ensures var (rs, t) := LoopRun(tasks, name, stopOnException, fault);
      |rs| <= t <= |rs| + 1
      && (t == |rs| + 1 ==> tasks[|rs|].Stop?)
      && (t == |rs| && t < |tasks| ==> stopOnException && tasks[t - 1].Malformed?)
  {
    if tasks != [] && !tasks[0].Stop? && !(tasks[0].Malformed? && stopOnException) {
      LoopRunTaken(tasks[1..], name, stopOnException, fault);
      LoopRunFront(tasks, name, stopOnException, fault);
    }
  }

  /** The result at position `i` is the outcome of the task at position `i`. */
  lemma {:induction false} LoopRunOutcomeAt(tasks: seq<WorkerTask>, name: string, stopOnException: bool,
                                            fault: (string, int) -> Option<string>, i: nat)
    requires i < |LoopRun(tasks, name, stopOnException, fault).0|
    ensures i < |tasks| && !tasks[i].Stop?
    ensures LoopRun(tasks, name, stopOnException, fault).0[i] == OutcomeOf(name, tasks[i], fault)
    decreases i
  {
    if i > 0 {
      assert tasks != [] && !tasks[0].Stop? && !(tasks[0].Malformed? && stopOnException);
      LoopRunFront(tasks, name, stopOnException, fault);
      LoopRunOutcomeAt(tasks[1..], name, stopOnException, fault, i - 1);
      assert tasks[1..][i - 1] == tasks[i];
    }
  }

  /** The results, position by position, are the outcomes of the tasks, none of them a sentinel. */
  ghost predicate OutcomesMatch(rs: seq<Outcome>, tasks: seq<WorkerTask>, name: string,
                                fault: (string, int) -> Option<string>)
  {
    |rs| <= |tasks| && forall i :: 0 <= i < |rs| ==> !tasks[i].Stop? && rs[i] == OutcomeOf(name, tasks[i], fault)
  }

  /** Each result is the outcome of the task at the same position, which is not a sentinel. */
  lemma {:induction false} LoopRunOutcomes(tasks: seq<WorkerTask>, name: string, stopOnException: bool,
                                           fault: (string, int) -> Option<string>)
    ensures OutcomesMatch(LoopRun(tasks, name, stopOnException, fault).0, tasks, name, fault)
  {
    var rs := LoopRun(tasks, name, stopOnException, fault).0;
    if rs != [] {
      LoopRunOutcomeAt(tasks, name, stopOnException, fault, |rs| - 1);
    }
    forall i | 0 <= i < |rs|
      ensures !tasks[i].Stop? && rs[i] == OutcomeOf(name, tasks[i], fault)
    {
      LoopRunOutcomeAt(tasks, name, stopOnException, fault, i);
    }
  }

  /** With `stop_on_exception`, only the last result can come from a malformed task. */
  lemma {:induction false} LoopRunStopsAtMalformed(tasks: seq<WorkerTask>, name: string,
                                                   fault: (string, int) -> Option<string>)
    ensures var rs := LoopRun(tasks, name, true, fault).0;
      forall i :: 0 <= i < |rs| - 1 ==> i < |tasks| && !tasks[i].Malformed?
  {
    if tasks != [] && !tasks[0].Stop? && !tasks[0].Malformed? {
      var rest := tasks[1..];
      LoopRunStopsAtMalformed(rest, name, fault);
      LoopRunTaken(rest, name, true, fault);
      LoopRunFront(tasks, name, true, fault);
      TailIndex(tasks);
    }
  }

  /**
    The worker's results match the tasks it took one for one, in order: each non-sentinel task
    gives its outcome, only malformed tasks give fatal records, and the only task taken without
    a result is a final sentinel. Without `stop_on_exception` the worker stops only at a
    sentinel (or waits at the end of the queue); with it, also right after the first malformed
    task.
   */
  lemma {:induction false} LoopRunSpec(tasks: seq<WorkerTask>, name: string, stopOnException: bool,
                                       fault: (string, int) -> Option<string>)
    ensures var (rs, t) := LoopRun(tasks, name, stopOnException, fault);
      |rs| <= t <= |rs| + 1
      && (forall i :: 0 <= i < |rs| ==> !tasks[i].Stop? && rs[i] == OutcomeOf(name, tasks[i], fault))
      && (forall i :: 0 <= i < |rs| ==> (rs[i].fatal <==> tasks[i].Malformed?))
      && (t == |rs| + 1 ==> tasks[|rs|].Stop?)
      && (t == |rs| && t < |tasks| ==> stopOnException && tasks[t - 1].Malformed?)
      && (stopOnException ==> forall i :: 0 <= i < |rs| - 1 ==> !tasks[i].Malformed?)
  {
    LoopRunTaken(tasks, name, stopOnException, fault);
    LoopRunOutcomes(tasks, name, stopOnException, fault);
    if stopOnException {
      LoopRunStopsAtMalformed(tasks, name, fault);
    }
  }

  /**
    A worker whose queue holds only well-formed chunks before its sentinel reports every one of
    them, "ok" exactly when the analysis does not raise, and stops on the sentinel.
   */
  lemma {:induction false} CleanRun(chunks: seq<WorkerTask>, after: seq<WorkerTask>, name: string,
                                    stopOnException: bool, fault: (string, int) -> Option<string>)
    requires forall i :: 0 <= i < |chunks| ==> chunks[i].Chunk?
    ensures var (rs, t) := LoopRun(chunks + [Stop] + after, name, stopOnException, fault);
      t == |chunks| + 1 && |rs| == |chunks|
      && forall i :: 0 <= i < |chunks| ==>
           rs[i] == ProcessChunk(Processor(name), chunks[i].file, chunks[i].index, chunks[i].lines,
                                 fault(chunks[i].file, chunks[i].index))
           && (rs[i].status == "ok" <==> fault(chunks[i].file, chunks[i].index).None?)
  {
    var q := chunks + [Stop] + after;
    if chunks == [] {
      assert q[0] == Stop;
    } else {
      assert q[0] == chunks[0] && q[1..] == chunks[1..] + [Stop] + after;
      CleanRun(chunks[1..], after, name, stopOnException, fault);
      LoopRunFront(q, name, stopOnException, fault);
      TailIndex(chunks);
    }
  }

  lemma TailIndex<T>(xs: seq<T>)
    requires xs != []
    ensures forall i :: 1 <= i < |xs| ==> xs[i] == xs[1..][i - 1]
  {
  }

  // ---------------------------------------------------------------------------------------
  // run_sequential_from_dir

  /** The partial results of the tasks whose analysis succeeds, in order. */
  function OkParts(tasks: seq<LogUtils.ChunkTask>, fault: LogUtils.ChunkTask -> Option<string>): seq<Partial> {
    if tasks == [] then []
    else
      var last := tasks[|tasks| - 1];
      OkParts(tasks[..|tasks| - 1], fault) + (if fault(last).None? then [Summary(last.lines)] else [])
  }

  lemma OkPartsSnoc(tasks: seq<LogUtils.ChunkTask>, i: nat, fault: LogUtils.ChunkTask -> Option<string>)
    requires i < |tasks|
    ensures OkParts(tasks[..i + 1], fault)
      == OkParts(tasks[..i], fault) + (if fault(tasks[i]).None? then [Summary(tasks[i].lines)] else [])
    ensures FoldMerge(Init, OkParts(tasks[..i + 1], fault))
      == if fault(tasks[i]).None? then Merge(FoldMerge(Init, OkParts(tasks[..i], fault)), Summary(tasks[i].lines))
         else FoldMerge(Init, OkParts(tasks[..i], fault))
  {
    assert tasks[..i + 1][..i] == tasks[..i];
    var before := OkParts(tasks[..i], fault);
    if fault(tasks[i]).None? {
      var after := before + [Summary(tasks[i].lines)];
      assert after[..|after| - 1] == before;
    } else {
      assert before + [] == before;
    }
  }

  lemma {:induction false} OkPartsValid(tasks: seq<LogUtils.ChunkTask>, fault: LogUtils.ChunkTask -> Option<string>)
    ensures AllValid(OkParts(tasks, fault))
  {
    if tasks != [] {
      OkPartsValid(tasks[..|tasks| - 1], fault);
      SummaryValid(tasks[|tasks| - 1].lines);
    }
  }

  /**
    `run_sequential_from_dir(lines_per_chunk, patterns)`: start from `{}`, and for each chunk of
    the log directory count it, process it, and merge its result when its status is "ok"; a
    chunk in error leaves the accumulator as it is. An invalid chunk size raises before the
    first chunk, which happens only when there is a file to read.
   */
  method RunSequentialFromDir(linesPerChunk: Option<Config.PyValue>, patterns: Option<seq<string>>,
                              glob: string -> seq<string>, isFile: string -> bool, read: string -> seq<string>,
                              fault: LogUtils.ChunkTask -> Option<string>)
    returns (r: Result<Acc, Config.ValueError>, totalChunks: nat)
    ensures var files := LogUtils.LogFiles(patterns, glob, isFile);
      var size := LogUtils.EffectiveChunkSize(linesPerChunk);
      (files == [] ==> r == Ok(Init) && totalChunks == 0)
      && (files != [] && size.Err? ==> r == Err(size.error))
      && (files != [] && size.Ok? ==>
            totalChunks == |LogUtils.DirTasks(files, read, size.value)|
            && r == Ok(FoldMerge(Init, OkParts(LogUtils.DirTasks(files, read, size.value), fault))))
  {
    var files := LogUtils.ListLogFiles(patterns, glob, isFile);
    var it := LogUtils.IterChunksFromDir(files, read, linesPerChunk);
    if it.Err? {
      return Err(it.error), 0;
    }
    var tasks := it.value;
    var acc;
    acc, totalChunks := ProcessTasks(tasks, fault);
    r := Ok(acc);
  }

  /** The loop of `run_sequential_from_dir`: count, process and merge each chunk in turn. */
  method ProcessTasks(tasks: seq<LogUtils.ChunkTask>, fault: LogUtils.ChunkTask -> Option<string>)
    returns (result: Acc, totalChunks: nat)
    ensures result == FoldMerge(Init, OkParts(tasks, fault)) && totalChunks == |tasks|
  {
    var acc := new Accumulator();
    totalChunks := 0;
    for i := 0 to |tasks|
      invariant acc.Valid() && acc.State() == FoldMerge(Init, OkParts(tasks[..i], fault))
      invariant totalChunks == i
    {
      OkPartsSnoc(tasks, i, fault);
      totalChunks := totalChunks + 1;
      var t := tasks[i];
      var p := NewProcessor(Some("sequential"));
      var res := ProcessChunk(p, t.file, t.index, t.lines, fault(t));
      if res.status == "ok" {
        var _ := acc.MergePartialResults(res.result.value);
      }
    }
    assert tasks[..|tasks|] == tasks;
    result := acc.State();
  }

  /** With no failing chunk, the last task adds its summary as the last partial. */
  lemma CleanPartsSnoc(tasks: seq<LogUtils.ChunkTask>, fault: LogUtils.ChunkTask -> Option<string>)
    requires tasks != [] && forall t :: fault(t).None?
    ensures var ps := OkParts(tasks, fault);
      ps != [] && ps[..|ps| - 1] == OkParts(tasks[..|tasks| - 1], fault)
      && ps[|ps| - 1] == Summary(tasks[|tasks| - 1].lines)
  {
    assert fault(tasks[|tasks| - 1]).None?;
  }

  /** With no failing chunk, one partial per task, whose line totals add up to all the task lines. */
  lemma {:induction false} CleanPartsLines(tasks: seq<LogUtils.ChunkTask>, fault: LogUtils.ChunkTask -> Option<string>)
    requires forall t :: fault(t).None?
    ensures |OkParts(tasks, fault)| == |tasks|
    ensures LinesSum(OkParts(tasks, fault)) == |LogUtils.TaskLines(tasks)|
  {
    if tasks != [] {
      CleanPartsLines(tasks[..|tasks| - 1], fault);
      CleanPartsSnoc(tasks, fault);
    }
  }

  /** With no failing chunk, the last task's summary adds its counts for a key. */
  lemma CleanPartsKeysStep(tasks: seq<LogUtils.ChunkTask>, fault: LogUtils.ChunkTask -> Option<string>,
                           s: Section, k: string)
    requires tasks != [] && forall t :: fault(t).None?
    ensures var init := OkParts(tasks[..|tasks| - 1], fault);
      var last := Of(Summary(tasks[|tasks| - 1].lines), s);
      KeySum(OkParts(tasks, fault), s, k) == KeySum(init, s, k) + Get(last, k)
      && (KeyIn(OkParts(tasks, fault), s, k) <==> KeyIn(init, s, k) || k in last.counts)
  {
    CleanPartsSnoc(tasks, fault);
    KeyInSnoc(OkParts(tasks, fault), s, k);
  }

  /** The summary of the lines of the tasks, split off at the last task. */
  lemma SummaryOfTaskLines(tasks: seq<LogUtils.ChunkTask>, s: Section, k: string)
    requires tasks != []
    ensures var all := Of(Summary(LogUtils.TaskLines(tasks)), s);
      var init := Of(Summary(LogUtils.TaskLines(tasks[..|tasks| - 1])), s);
      var last := Of(Summary(tasks[|tasks| - 1].lines), s);
      Get(all, k) == Get(init, k) + Get(last, k) && (k in all.counts <==> k in init.counts || k in last.counts)
  {
    SummaryConcat(LogUtils.TaskLines(tasks[..|tasks| - 1]), tasks[|tasks| - 1].lines, s, k);
  }

  /** With no failing chunk, each key's counts over the partials are one summary's counts. */
  lemma {:induction false} CleanPartsKeys(tasks: seq<LogUtils.ChunkTask>, fault: LogUtils.ChunkTask -> Option<string>,
                                          s: Section, k: string)
    requires forall t :: fault(t).None?
    ensures KeySum(OkParts(tasks, fault), s, k) == Get(Of(Summary(LogUtils.TaskLines(tasks)), s), k)
    ensures KeyIn(OkParts(tasks, fault), s, k) <==> k in Of(Summary(LogUtils.TaskLines(tasks)), s).counts
  {
    if tasks == [] {
      assert Of(Summary([]), s) == Empty;
    } else {
      CleanPartsKeys(tasks[..|tasks| - 1], fault, s, k);
      CleanPartsKeysStep(tasks, fault, s, k);
      SummaryOfTaskLines(tasks, s, k);
    }
  }

  /**
    With no failing chunk, the partials folded in are one per task, and their sums are what one
    summary of all the task lines counts.
   */
  lemma CleanPartsSums(tasks: seq<LogUtils.ChunkTask>, fault: LogUtils.ChunkTask -> Option<string>,
                       s: Section, k: string)
    requires forall t :: fault(t).None?
    ensures |OkParts(tasks, fault)| == |tasks|
    ensures LinesSum(OkParts(tasks, fault)) == |LogUtils.TaskLines(tasks)|
    ensures KeySum(OkParts(tasks, fault), s, k) == Get(Of(Summary(LogUtils.TaskLines(tasks)), s), k)
    ensures KeyIn(OkParts(tasks, fault), s, k) <==> k in Of(Summary(LogUtils.TaskLines(tasks)), s).counts
  {
    CleanPartsLines(tasks, fault);
    CleanPartsKeys(tasks, fault, s, k);
  }

  /** With no failing chunk, one section of the folded accumulator, key by key. */
  lemma CleanFoldSection(tasks: seq<LogUtils.ChunkTask>, fault: LogUtils.ChunkTask -> Option<string>,
                         s: Section, k: string)
    requires tasks != [] && forall t :: fault(t).None?
    ensures var x := FoldMerge(Init, OkParts(tasks, fault));
      var y := Merge(Init, Summary(LogUtils.TaskLines(tasks)));
      AccOf(x, s).Some? && AccOf(y, s).Some?
      && Get(OrEmpty(AccOf(x, s)), k) == Get(OrEmpty(AccOf(y, s)), k)
      && (k in OrEmpty(AccOf(x, s)).counts <==> k in OrEmpty(AccOf(y, s)).counts)
  {
    var ps := OkParts(tasks, fault);
    OkPartsValid(tasks, fault);
    SummaryValid(LogUtils.TaskLines(tasks));
    CleanPartsSums(tasks, fault, s, k);
    FoldMergeSums(ps, s, k);
    MergeSection(Init, Summary(LogUtils.TaskLines(tasks)), s, k);
  }

  /** With no failing chunk, one section of the folded accumulator holds the mapping of one summary. */
  lemma CleanFoldCounts(tasks: seq<LogUtils.ChunkTask>, fault: LogUtils.ChunkTask -> Option<string>, s: Section)
    requires tasks != [] && forall t :: fault(t).None?
    ensures SameSection(FoldMerge(Init, OkParts(tasks, fault)), Merge(Init, Summary(LogUtils.TaskLines(tasks))), s)
  {
    var x := OrEmpty(AccOf(FoldMerge(Init, OkParts(tasks, fault)), s));
    var y := OrEmpty(AccOf(Merge(Init, Summary(LogUtils.TaskLines(tasks))), s));
    CleanFoldSection(tasks, fault, s, "");
    forall k
      ensures Get(x, k) == Get(y, k) && (k in x.counts <==> k in y.counts)
    {
      CleanFoldSection(tasks, fault, s, k);
    }
    SameCounts(x, y);
  }

  /** With no failing chunk, folding the partials of the tasks is merging one summary of their lines. */
  lemma CleanTasksCountEveryLine(tasks: seq<LogUtils.ChunkTask>, fault: LogUtils.ChunkTask -> Option<string>)
    requires tasks != [] && forall t :: fault(t).None?
    ensures SameAcc(FoldMerge(Init, OkParts(tasks, fault)), Merge(Init, Summary(LogUtils.TaskLines(tasks))))
  {
    OkPartsValid(tasks, fault);
    CleanPartsLines(tasks, fault);
    FoldMergeTotal(OkParts(tasks, fault));
    CleanFoldCounts(tasks, fault, Levels);
    CleanFoldCounts(tasks, fault, Ips);
    CleanFoldCounts(tasks, fault, Hours);
  }

  /**
    When no chunk raises, the sequential run ends with the accumulator one merge of the summary
    of all the lines of all the files would give, whatever the chunk size.
   */
  lemma SequentialCountsEveryLine(files: seq<string>, read: string -> seq<string>, n: nat,
                                  fault: LogUtils.ChunkTask -> Option<string>)
    requires n >= 1 && forall t :: fault(t).None?
    requires LogUtils.AllLines(files, read) != []
    ensures SameAcc(FoldMerge(Init, OkParts(LogUtils.DirTasks(files, read, n), fault)),
                    Merge(Init, Summary(LogUtils.AllLines(files, read))))
  {
    LogUtils.DirTasksConserveLines(files, read, n);
    CleanTasksCountEveryLine(LogUtils.DirTasks(files, read, n), fault);
  }


}
