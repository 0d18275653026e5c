# Parallel log analyser — a Dafny model

This project models the sequential core of *Analizador paralelo de logs*, a Python tool that
reads the log files of a directory, cuts them into chunks of lines, summarises each chunk in a
worker process and merges the partial summaries into one report. Two summarisers exist side by
side, and the model keeps them apart:

- **analysis.py / processor.py / log_utils.py** (the sequential path). `parse_log_line` splits a
  line into date-time, level, address and message. `analyze_chunk` counts levels, addresses and
  ERRORs per hour (`YYYY-MM-DD HH`, or `unknown`). `merge_partial_results` adds a partial into
  an accumulator dict in place. `Processor.process_chunk` wraps the analysis in a fixed-shape
  record, `worker_loop` serves a task queue up to its `None` sentinel, and
  `run_sequential_from_dir` folds every chunk of the log directory into one accumulator.
- **log_Analyzer.py** (the production path). `worker_entry` summarises chunks with three
  regular expressions: a level among INFO/WARNING/ERROR (WARN counts as WARNING), an IPv4
  address, and the day of lines holding the word ERROR. The producer of `LogAnalyzer.analyze`
  lists the directory in sorted order, keeps the names matching a pattern, cuts each file into
  chunks and appends one sentinel per worker. `_merge` folds the partials into the report with
  its top ten addresses.
- **config.py**: the defaults and `validate_positive_int`.

Queues are sequences, files are sequences of lines, and the file system (`glob`, `isfile`,
`listdir`, reading a file) enters as function parameters. Python dicts are insertion-ordered
and that order decides ties in the rankings, so a count map is a `Counter(keys, counts)`: the
key order plus a `map<string, nat>`. Equality of dicts, which ignores order, is equality of the
`counts` maps.

Modules, one per file: `Wrappers` (Option, Result), `Config`, `Text` (split, strip, upper),
`Names` (sorting file names), `Counters`, `Ranking` (stable sort by count and slicing),
`Chunking`, `Timestamps` (`_safe_parse_datetime`), `Regexes` (the three patterns as scanners),
`LogUtils`, `Analysis`, `LogAnalyzer` and `Processor`.

The imperative parts are methods proved against specification functions: `AnalyzeChunk`,
`SummariseChunk`, `WorkerEntry`, `Produce`, `MergeParts`, `WorkerLoop`, `RunSequentialFromDir`,
the chunkers and `ListLogFiles`. The in-place accumulator of `merge_partial_results` is the
class `Analysis.Accumulator`, and `LogAnalyzer` is a class whose constructor applies the clamps.

## Model

| member | source | states |
|---|---|---|
| Config.ValidatePositiveInt | src/config.py:23-29 | an int (or bool) value of at least 1 comes back unchanged; any other int raises the "must be >= 1" error; a non-int raises the "must be an integer" error |
| Names.SortNamesSpec | src/log_utils.py:56-57 | `sort()` on the paths gives a permutation of them in ascending order |
| Counters.Add | src/analysis.py:123 | `d[k] = d.get(k, 0) + n`: the key gains `n`, every other key keeps its count, a new key goes last and an existing key keeps its place |
| Counters.TallyIntoGet | src/analysis.py:72-91 | counting a sequence of keys adds each key's number of occurrences and creates exactly the keys that occur |
| Counters.SumTallyInto | src/analysis.py:64-91 | counting `m` keys adds `m` to the sum of the values |
| Counters.AddAllGet | src/analysis.py:122-131 | adding one count map into another adds key by key; a key is present afterwards iff it was in either |
| Counters.AddKeysGet | src/log_Analyzer.py:230-231 | adding only the listed keys of a map: those keys gain the other map's count, every other key is untouched |
| Counters.AddInto | src/analysis.py:122-123 | the loop over a part's items computes the key-by-key sum |
| Counters.SumOfPermutation | src/analysis.py:119-131 | a sum over a sequence does not depend on the order of the sequence |
| Ranking.SliceTo | src/analysis.py:144 | `items[:n]` is the prefix of length `min(n, len)`, or of `len + n` (at least 0) for a negative `n` |
| Ranking.SortPermutes | src/analysis.py:143 | the sort by count loses and duplicates no entry |
| Ranking.SortSorted | src/analysis.py:143 | the sort by count with `reverse=True` gives non-increasing counts |
| Ranking.SortStable | src/analysis.py:143 | the sort is stable: entries with equal counts keep their dict order |
| Ranking.TopNSpec | src/analysis.py:141-144 | the top `n` has `min(n, len(keys))` entries (for `n >= 0`), in non-increasing count, each a key of the map with its exact count, no omitted key counting more than a kept one, ties in dict order |
| Chunking.ChunksSpec | src/log_utils.py:87-100 | the chunks concatenate back to the lines, each holds 1 to `n` lines and all but the last exactly `n`; no lines give no chunk |
| Chunking.ChunksUnique | src/log_utils.py:87-100 | those properties fix the chunking: any well-sized split of the lines is this one |
| Chunking.FullChunksSpec | src/log_Analyzer.py:178-186 | the chunks sent before the end of a file all hold `n` lines, are a prefix of the file, and leave fewer than `n` lines in the buffer |
| Chunking.FullChunksUnique | src/log_Analyzer.py:178-186 | any split into full chunks plus a short remainder is the one sent |
| Text.Split | src/log_utils.py:146 | `str.split(sep, maxsplit)` returns at least one piece |
| Text.SplitLength | src/log_utils.py:146-148 | the number of pieces is `min(count of separators, maxsplit) + 1` |
| Text.SplitJoin | src/log_utils.py:146 | joining the pieces with the separator gives the string back |
| Text.SplitPieces | src/log_utils.py:146 | no piece but possibly the last holds the separator |
| Text.SplitJoinWith | src/log_utils.py:146 | splitting a join of separator-free pieces gives the pieces back |
| Text.TrimLeft | src/log_utils.py:151 | `lstrip`: a suffix whose first character is kept, everything cut being strippable |
| Text.TrimRight | src/log_utils.py:151 | `rstrip`: a prefix whose last character is kept, everything cut being strippable |
| Text.Upper | src/analysis.py:72 | `upper()` keeps the length and upper-cases each ASCII letter |
| Timestamps.SafeParseDatetimeSpec | src/analysis.py:32-46 | a recognised timestamp is a valid date and time framed in the first 19 characters, and its hour key is the first 13 characters |
| Timestamps.SafeParseDatetimeComplete | src/analysis.py:40-45 | every valid date and time written `YYYY-MM-DD HH:MM:SS` is recognised with its own fields |
| Timestamps.SafeParseDatetimeCompleteFraction | src/analysis.py:35-45 | every valid date and time written `YYYY-MM-DD HH:MM:SS,` plus one to six digits (the documented `2025-10-08 08:32:15,124`) is recognised with its own fields and the microseconds the digits spell |
| Timestamps.PaddedDigitsValue | src/analysis.py:87 | zero-padded rendering of a fixed-width digit field gives the field back |
| Timestamps.DigitsValuePadded | src/analysis.py:87 | reading a zero-padded rendering gives the number back |
| Regexes.LevelMatchAt | src/log_Analyzer.py:11 | a level match is a substring of the line at the tried position |
| Regexes.DottedEndSound | src/log_Analyzer.py:10 | what the dotted-group scanner matches splits at its dots into the given number of groups of one to three digits |
| Regexes.DottedEndComplete | src/log_Analyzer.py:10 | conversely, such groups followed by a word boundary are matched, and end exactly there |
| Regexes.IpMatchAtSpec | src/log_Analyzer.py:10 | `IP_RE` matches a stretch of the line exactly when it splits at its dots into four groups of one to three digits and has a word boundary at each end |
| Regexes.LevelSearchFromSpelling | src/log_Analyzer.py:11 | the captured level, upper-cased, is INFO, WARNING, WARN or ERROR |
| Regexes.LevelSearchFromLeftmost | src/log_Analyzer.py:28 | the search returns the match at the leftmost position that has one |
| Regexes.LevelSearchFromNone | src/log_Analyzer.py:28 | the level search finds nothing exactly when no position matches |
| Regexes.IpSearchFromShape | src/log_Analyzer.py:10 | a found address splits at its dots into four groups of one to three digits: exactly three dots and otherwise only digits |
| Regexes.IpSearchFromLeftmost | src/log_Analyzer.py:36-38 | the address search returns the match at the leftmost position that has one |
| Regexes.IpSearchFromNone | src/log_Analyzer.py:36-38 | the address search finds nothing exactly when no position matches |
| Regexes.DaySearchFromShape | src/log_Analyzer.py:12 | a found day is the `dddd-dd-dd` at the leftmost position of the line that holds one |
| Regexes.DaySearchFromLeftmost | src/log_Analyzer.py:43-44 | the day search returns the day at the leftmost position that has one |
| Regexes.DaySearchFromNone | src/log_Analyzer.py:43-44 | the day search finds nothing exactly when no position holds `dddd-dd-dd` |
| LogUtils.ParseLogLineFails | src/log_utils.py:143-148 | a line is rejected exactly when it holds fewer than three spaces |
| LogUtils.ParseDatetime | src/log_utils.py:146-149 | the date-time field is the line up to its second space: two tokens joined by one space |
| LogUtils.ParseFieldShapes | src/log_utils.py:151-163 | the level holds no space and neither starts nor ends with a bracket; the address holds no space and does not start with whitespace |
| LogUtils.ParseFormatted | src/log_utils.py:143-164 | a line written `date time [LEVEL] ip message` parses back to exactly those fields |
| LogUtils.EffectiveChunkSize | src/log_utils.py:82 | `None` gives 1000; any other value is used iff it passes the validator, otherwise its error |
| LogUtils.StripNewlines | src/log_utils.py:93 | each line loses its trailing newlines and nothing else changes |
| LogUtils.ChunkFileLines | src/log_utils.py:69-100 | an invalid size raises before any chunk; otherwise the chunks of the stripped lines, numbered 0, 1, 2, … |
| LogUtils.ChunkLines | src/log_utils.py:87-100 | the buffer loop yields the numbered chunks of the stripped lines |
| LogUtils.Feed | src/log_utils.py:93-97 | taking one more line appends it to the buffer, and yields the buffer under the next index once it holds `n` lines; every yielded chunk keeps `n` lines with consecutive indices and the buffer stays shorter than `n` |
| LogUtils.Numbered | src/log_utils.py:95-100 | chunk indices are consecutive from 0 |
| LogUtils.DefaultPatterns | src/log_utils.py:45-58 | with no patterns or an empty list the listing is that of `["*.log"]`, each regular file once per `*.log` match |
| LogUtils.ListLogFiles | src/log_utils.py:39-58 | the regular files the patterns match, ascending, a permutation of the matches |
| LogUtils.GlobbedMultiplicity | src/log_utils.py:48-55 | a regular file is listed once per pattern that matches it (no deduplication) |
| LogUtils.FileTasks | src/log_utils.py:116-117 | each chunk of a file is tagged with the file and its index |
| LogUtils.TagChunks | src/log_utils.py:116-117 | the tagging loop gives those tasks |
| LogUtils.DirTasksConserveLines | src/log_utils.py:112-117 | the lines of all tasks, in order, are the lines of all files, file after file |
| LogUtils.IterChunksFromDir | src/log_utils.py:103-117 | no files give no tasks; otherwise an invalid size raises, else the tasks of every file in listing order |
| Analysis.SummarySnoc | src/analysis.py:64-91 | one more line adds one to the total and bumps at most one level, one address and one bucket |
| Analysis.AnalyzeChunk | src/analysis.py:49-99 | the loop computes the summary of the chunk |
| Analysis.CountLine | src/analysis.py:66-91 | one line adds one to its level, its address and, for an error, its hour bucket, each only when the line yields that key |
| Analysis.SummarySpec | src/analysis.py:59-99 | `lines_total` is the number of lines; every stored count is at least 1; each map sums to at most `lines_total`; the hour buckets sum to the ERROR count |
| Analysis.MalformedOnly | src/analysis.py:66-69 | a chunk of unparsable lines gives only `lines_total` and three empty maps |
| Analysis.ClassifyFormatted | src/analysis.py:66-91 | a line `date time [LEVEL] ip message` counts its level upper-cased (`warn` stays `WARN`) when non-empty, its address, and an hour bucket of its date and time exactly when the level is ERROR in any case |
| Analysis.ErrorBucketSpec | src/analysis.py:82-91 | an ERROR goes to the first 13 characters of its date-time when it parses, otherwise to `unknown` |
| Analysis.BucketsAreErrors | src/analysis.py:82-91 | the number of bucketed lines equals the number of ERROR levels counted |
| Analysis.KeysBounded | src/analysis.py:64-91 | each line yields at most one key of each kind |
| Analysis.SummaryConcat | src/analysis.py:49-99 | the summary of two runs of lines adds, key by key, the summaries of each, and holds a key iff either does |
| Analysis.MergeSpec | src/analysis.py:108-131 | after a merge every section exists, the total grows by the part's, every key grows by the part's count, keys absent from the part are unchanged |
| Analysis.MergeCommutes | src/analysis.py:119-131 | merging two partials in either order gives equal dicts |
| Analysis.MergeCommutesSection | src/analysis.py:119-131 | one dict of the merge (levels, addresses or hours) holds the same counts and presence whichever partial is merged first |
| Analysis.FoldMergeTotal | src/analysis.py:109-119 | folding no partial leaves `{}`; otherwise the total is the sum of the totals |
| Analysis.FoldMergeSums | src/analysis.py:119-131 | folding from `{}`: each key counts the sum of its counts, present iff some partial has it |
| Analysis.FoldMergePermutation | src/analysis.py:119-131 | folding the partials in any order gives equal dicts |
| Analysis.FoldMergeSectionPermutation | src/analysis.py:119-131 | one dict of the fold holds the same counts when the partials are folded in any order |
| Analysis.GetTopNIpsFromAcc | src/analysis.py:136-144 | the ranking of the address map: `min(n, len(keys))` entries (Python's slice for a negative `n`), non-increasing, exact counts, no omitted address counting more, ties in dict order; no map gives `[]` |
| Analysis.Accumulator.constructor | src/processor.py:140 | `acc = {}` |
| Analysis.Accumulator.MergePartialResults | src/analysis.py:102-133 | the dict becomes the merge of its old contents with the part, and the same object is returned |
| LogAnalyzer.ZeroLevelsSum | src/log_Analyzer.py:20 | the fresh level map sums to 0 |
| LogAnalyzer.WorkerSummarySnoc | src/log_Analyzer.py:24-46 | one more line adds one to the total and bumps at most one level, one address and one day |
| LogAnalyzer.CountLine | src/log_Analyzer.py:26-46 | the loop body bumps the three maps by the line's classification |
| LogAnalyzer.SummariseChunk | src/log_Analyzer.py:19-46 | the loop computes the worker summary of the chunk |
| LogAnalyzer.NormaliseLevelSpec | src/log_Analyzer.py:30-32 | WARN and WARNING in any case become WARNING; INFO and ERROR stay; the result is one of the three keys |
| LogAnalyzer.LevelAlwaysKnown | src/log_Analyzer.py:33-34 | under ASCII case folding the normalised level is always a key, so the `continue` is unreachable |
| LogAnalyzer.ClassifyLineSpec | src/log_Analyzer.py:26-46 | a non-empty line counts a level iff one matches, its first address, and its day only when it holds the word ERROR |
| LogAnalyzer.LevelKeysKnown | src/log_Analyzer.py:28-35 | every counted level is one of the three keys, and each line yields at most one key of each kind |
| LogAnalyzer.WorkerLevelKeys | src/log_Analyzer.py:20 | `by_level` always has exactly INFO, WARNING and ERROR |
| LogAnalyzer.WorkerLevelSum | src/log_Analyzer.py:24-35 | `total_lines` is the chunk length and the level counts sum to at most it |
| LogAnalyzer.WorkerIpSum | src/log_Analyzer.py:37-40 | address counts are at least 1 and sum to at most the chunk length |
| LogAnalyzer.WorkerDaySum | src/log_Analyzer.py:42-46 | day counts are at least 1 and sum to at most the chunk length |
| LogAnalyzer.EmptyLinesOnly | src/log_Analyzer.py:26-27 | empty lines are counted and nothing else |
| LogAnalyzer.FirstStop | src/log_Analyzer.py:15-18 | the position of the first sentinel: only chunks before it |
| LogAnalyzer.WorkerEntry | src/log_Analyzer.py:14-53 | a worker takes the items up to and including the first sentinel and puts one summary per chunk taken, in order |
| LogAnalyzer.QueueFirstStop | src/log_Analyzer.py:194-195 | the first sentinel of the produced queue comes right after the chunks |
| LogAnalyzer.RunWorkers | src/log_Analyzer.py:194-195 | run one after the other, every worker stops, and the results are one summary per chunk, in order |
| LogAnalyzer.EverySentinelStopsOneWorker | src/log_Analyzer.py:194-195 | under any schedule where a worker takes nothing after a sentinel, each worker takes exactly one of the sentinels |
| LogAnalyzer.FillBuffers | src/log_Analyzer.py:178-186 | the buffer loop sends full chunks that, with the leftover buffer (shorter than `n`), are the lines read |
| LogAnalyzer.PutLine | src/log_Analyzer.py:180-186 | appending a line and sending the buffer once it reaches `n` lines keeps every sent chunk at `n` lines and the buffer shorter than `n`, and adds exactly that line to what was read |
| Chunking.RemainderChunks | src/log_Analyzer.py:187-189 | full chunks followed by the leftover buffer when it is not empty are exactly the chunks of the lines |
| LogAnalyzer.SendFile | src/log_Analyzer.py:176-191 | a file sends its chunks; a read that fails drops the unsent buffer |
| LogAnalyzer.Produce | src/log_Analyzer.py:167-195 | `files` counts the wanted names, `chunks_sent` the chunks, and the queue is the chunks followed by one sentinel per worker |
| LogAnalyzer.SelectMembers | src/log_Analyzer.py:170-175 | a name is kept as often as it is listed when it matches a pattern and is a file, else never |
| LogAnalyzer.SelectAscending | src/log_Analyzer.py:169-175 | filtering keeps the sorted order |
| LogAnalyzer.VisitedSpec | src/log_Analyzer.py:169-175 | files are visited in ascending name order, each wanted listing entry once |
| LogAnalyzer.FileChunksSpec | src/log_Analyzer.py:176-191 | a file's chunks are a prefix of its lines, all of them when the read succeeds; each chunk holds 1 to `n` lines |
| LogAnalyzer.ProducedLines | src/log_Analyzer.py:176-189 | when every read succeeds, the queued chunks concatenate to the lines of the visited files |
| LogAnalyzer.ProducedSizes | src/log_Analyzer.py:178-189 | every queued chunk holds 1 to `n` lines |
| LogAnalyzer.AddLevels | src/log_Analyzer.py:230-231 | only the three level keys take the part's counts |
| LogAnalyzer.FoldPartsSnoc | src/log_Analyzer.py:228-235 | one more partial is one more pass of the loop |
| LogAnalyzer.MergeParts | src/log_Analyzer.py:222-245 | the loop computes the merged report |
| LogAnalyzer.FoldLevels | src/log_Analyzer.py:224-231 | the level map keeps exactly the three keys, each the sum over the partials |
| LogAnalyzer.MergeReportCounts | src/log_Analyzer.py:228-235 | `lines_total` is the sum of the totals; levels, addresses and days are per-key sums, other level keys ignored |
| LogAnalyzer.MergeReportTop | src/log_Analyzer.py:237 | `top_10_ips`: at most ten entries, non-increasing, exact counts, no omitted address counting more |
| LogAnalyzer.MergeReportPermutation | src/log_Analyzer.py:228-235 | the report's counts do not depend on the order the partials arrive in |
| LogAnalyzer.MergeOfChunks | src/log_Analyzer.py:222-245 | merging the summaries of the chunks gives the summary of all their lines: chunk boundaries do not matter |
| LogAnalyzer.MergeLevels | src/log_Analyzer.py:224-231 | the merged `by_level` equals the `by_level` of one summary of all the lines, key order included |
| LogAnalyzer.MergeField | src/log_Analyzer.py:232-235 | the merged address and day counters hold the same mapping as one summary of all the lines |
| LogAnalyzer.AtLeastOne | src/log_Analyzer.py:68-69 | `max(1, x)` |
| LogAnalyzer.LogAnalyzer.constructor | src/log_Analyzer.py:67-72 | chunk size and worker count clamped to at least 1, `patterns or ["*.log"]` |
| LogAnalyzer.LogAnalyzer.Analyze | src/log_Analyzer.py:126-220 | the report is the merge of one summary per queued chunk; `files` and `chunks_sent` as the producer counts them |
| LogAnalyzer.AnalyzeCountsEveryLine | src/log_Analyzer.py:167-245 | when every read succeeds, the report counts exactly what one summary of all lines of the visited files counts |
| Processor.NewProcessor | src/processor.py:33-37 | a processor's name is never empty: the name given when it is non-empty, else `Processor` |
| Processor.ProcessChunk | src/processor.py:39-72 | the record always carries file, index, processor and status; "ok" iff the analysis does not raise, with its result; otherwise "error", no result and the exception's message; never fatal |
| Processor.WorkerName | src/processor.py:87 | the worker's name is never empty |
| Processor.HandleTask | src/processor.py:98-117 | a chunk task gives its processing record, a malformed one the fatal error record |
| Processor.TakeTask | src/processor.py:91-124 | one turn of the loop: the sentinel ends it with no result; any other task gives its outcome, and the loop goes on unless the task is malformed under `stop_on_exception` |
| Processor.WorkerLoop | src/processor.py:75-126 | the loop computes the worker's run: its results and the number of tasks taken |
| Processor.LoopRunSpec | src/processor.py:91-124 | results match taken tasks one for one; only malformed tasks give fatal records; the worker stops only at a sentinel, or with `stop_on_exception` right after the first malformed task |
| Processor.LoopRunTaken | src/processor.py:91-124 | the worker takes at most one task more than it reports; that task is a sentinel, and an early stop without one follows a malformed task under `stop_on_exception` |
| Processor.LoopRunOutcomes | src/processor.py:98-117 | each result is the outcome of the task at the same position, and no such task is a sentinel |
| Processor.LoopRunStopsAtMalformed | src/processor.py:121-123 | with `stop_on_exception`, no result but the last comes from a malformed task |
| Processor.CleanRun | src/processor.py:91-102 | with only chunks before a sentinel, the worker reports every chunk, stops on the sentinel and takes nothing after it |
| Processor.ProcessTasks | src/processor.py:140-154 | every chunk is counted and only "ok" results are merged, in order |
| Processor.RunSequentialFromDir | src/processor.py:130-157 | no files give `{}`; an invalid size raises; otherwise the fold of the "ok" results over all tasks, and the count of all tasks |
| Processor.CleanPartsSums | src/processor.py:140-154 | with no failing chunk, one partial per task, summing to one summary of all task lines |
| Processor.SequentialCountsEveryLine | src/processor.py:140-157 | with no failing chunk, the result equals merging one summary of all lines of all files, whatever the chunk size |

## Left out

- Processes, queues, `start`/`join`, the collector loop with its timeout and `is_alive` checks
  (src/log_Analyzer.py:128-137, 197-214): the queue is a sequence and the workers run one after
  the other; `EverySentinelStopsOneWorker` covers other schedules for the sentinels only.
- The monitor thread, psutil sampling and the memory and CPU log lines: floating point and time.
- The file system: `listdir`, `glob`, `isfile`, opening and decoding files (`errors="replace"`),
  `_ensure_log_dir`, the `isdir` check and `makedirs` of the constructor, `count_lines_in_file`,
  `is_file_empty`, `ensure_log_dir_exists`. They are parameters (`glob`, `isFile`, `fnmatch`,
  `read`) or left out. A read that fails part-way is a `FileRead` flag: the chunks sent before
  the failure stay queued and the buffer is lost.
- Path resolution (`Path(p).resolve()`, `os.path.join`): paths are plain strings and `sort()`
  compares them as strings.
- Processor.HandleTask: two parts of the worker's records are not modelled.
  - The fatal record's `chunk_index` is kept only when it is an integer. The source puts the raw
    `task[1]` there (src/processor.py:110), so a non-integer index such as `"x"`, which makes
    `int(chunk_index)` raise, has no counterpart.
  - The `file` of a chunk record is the task's path unchanged. The source writes
    `str(Path(file_path))` (src/processor.py:50, 101), which normalises the path, turning
    `logs//a.log/` into `logs/a.log`.
- `save_json_report`, `main_app.py`, `logs_creator.py` and `parallel_manager.py` are not part of
  this model; logging calls and traceback text (`error_trace`) are not modelled.
- LogAnalyzer.LevelAlwaysKnown: holds under the model's ASCII case folding, not for the program.
  `LEVEL_RE` is compiled with `re.I` in Unicode mode (src/log_Analyzer.py:10), where `İ` (U+0130)
  matches the `I` of `INFO`, but `"İNFO".upper()` stays `"İNFO"`, which is not a key. On the line
  `İNFO 10.0.0.1 2025-10-08 ERROR` the program takes the `continue` (src/log_Analyzer.py:33-34)
  and counts the line only in `total`; the model counts level `ERROR`, address `10.0.0.1` and day
  `2025-10-08`.
- `re` semantics in general: the three patterns are hand-written scanners over ASCII word
  characters, digits and case-folding; `str.upper()` upper-cases ASCII letters only.
- `datetime.strptime`: a fixed-width recogniser of `YYYY-MM-DD HH:MM:SS` with an optional comma
  and one to six fraction digits, with the calendar checks. Not recognised: the looser widths
  `strptime` accepts (one-digit months, for example); the runs of any whitespace it accepts for
  the format's space (a time token that starts with a tab, as in `2025-10-08 \t09:00:00`, which
  Python buckets under `2025-10-08 09` and the model under `unknown`); and non-ASCII decimal
  digits, which its `\d` accepts.
- `strftime("%Y")` for years 1 to 999: the model always pads to four digits (`0999`), while
  some platforms write the year unpadded.
- `int(...)` conversions that raise (of `lines_per_chunk` and `workers` in the constructor): the
  constructor takes integers.
- Partials missing a section (`p.get(..., 0)`, `part.get(...) or {}`): partials always come from
  the summarisers, which produce every section.
- Exceptions from `analyze_chunk` are a parameter (`fault`); on well-formed lines the model of the
  analysis raises none. A failing `result_q.put` in `worker_loop` is not modelled.
- Processor.RunSequentialFromDir: also returns the chunk count, which the source only logs.
- LogAnalyzer.MergeReportPermutation: `top_10_ips` breaks ties by arrival order of the
  addresses, so only the count maps (not the ranking or the key order) are order independent.
