/**
  Locating, chunking and parsing log files (log_utils.py). The file system is not modelled:
  glob results, the `is_file` test and file contents (the lines a text-mode read yields,
  each still ending in its newline) are given as functions.
 */
module LogUtils {
  import opened Wrappers
  import opened Text
  import opened Config
  import opened Chunking
  import opened Names
  import Counters

  /** The fields `parse_log_line` extracts from `'YYYY-MM-DD HH:MM:SS,ms [LEVEL] IP message'`. */
  datatype Fields = Fields(datetime: string, level: string, ip: string, message: string)

  /** `parse_log_line(line)`: pure splitting on `' '` and stripping; never raises. */
  function ParseLogLine(line: string): Option<Fields> {
    var parts := Split(line, ' ', 3);
    if |parts| < 4 then None
    else
      var rest := Strip(parts[3]);
      var restParts := Split(rest, ' ', 1);
      Some(Fields(parts[0] + " " + parts[1], StripChars(Strip(parts[2]), {'[', ']'}),
                  restParts[0], if |restParts| > 1 then restParts[1] else ""))
  }

  /** A line is rejected exactly when it holds fewer than three spaces; otherwise it parses. */
  lemma ParseLogLineFails(line: string)
    ensures ParseLogLine(line).None? <==> Count(line, ' ') < 3
  {
    SplitLength(line, ' ', 3);
  }

  lemma CountOneSpace(a: string, b: string)
    requires ' ' !in a && ' ' !in b
    ensures Count(a + " " + b, ' ') == 1
  {
    assert multiset(a + " " + b) == multiset(a) + multiset(" ") + multiset(b);
  }

  /** The first four pieces of a line with at least three spaces: three without a space, rejoined to the line. */
  lemma SplitThree(line: string)
    requires Count(line, ' ') >= 3
    ensures |Split(line, ' ', 3)| == 4
    ensures forall i :: 0 <= i < 3 ==> ' ' !in Split(line, ' ', 3)[i]
    ensures JoinWith(Split(line, ' ', 3), ' ') == line
  {
    SplitLength(line, ' ', 3);
    SplitJoin(line, ' ', 3);
    SplitPieces(line, ' ', 3);
  }

  /**
    On success the datetime is the text before the line's second space: the first two
    space-separated tokens joined by one space.
   */
  lemma ParseDatetime(line: string)
    requires ParseLogLine(line).Some?
    ensures |ParseLogLine(line).value.datetime| < |line|
    ensures line[..|ParseLogLine(line).value.datetime|] == ParseLogLine(line).value.datetime
    ensures line[|ParseLogLine(line).value.datetime|] == ' '
    ensures Count(ParseLogLine(line).value.datetime, ' ') == 1
  {
    ParseLogLineFails(line);
    SplitThree(line);
    var parts := Split(line, ' ', 3);
    assert ParseLogLine(line).value.datetime == parts[0] + [' '] + parts[1];
    CountOneSpace(parts[0], parts[1]);
    JoinWithPrefix(parts, ' ');
  }

  /** A level as the parser leaves it: no space, and no bracket at either end. */
  predicate LevelShaped(l: string) {
    ' ' !in l && (l == [] || (l[0] !in "[]" && l[|l| - 1] !in "[]"))
  }

  /** An address as the parser leaves it: no space, and no leading whitespace. */
  predicate AddressShaped(ip: string) {
    ' ' !in ip && (ip == [] || !IsSpace(ip[0]))
  }

  /**
    On success the level is the third token, whitespace-stripped and then stripped of `[`/`]`
    at both ends: it holds no space and neither starts nor ends with a bracket; the address
    holds no space and does not start with whitespace.
   */
  lemma ParseFieldShapes(line: string)
    requires ParseLogLine(line).Some?
    ensures LevelShaped(ParseLogLine(line).value.level)
    ensures AddressShaped(ParseLogLine(line).value.ip)
  {
    ParseLogLineFails(line);
    SplitThree(line);
    var parts := Split(line, ' ', 3);
    var f := ParseLogLine(line).value;
    assert f.level == StripChars(Strip(parts[2]), {'[', ']'});
    assert f.ip == Split(Strip(parts[3]), ' ', 1)[0];
    LevelShape(parts[2]);
    AddressShape(parts[3]);
  }

  lemma LevelShape(token: string)
    requires ' ' !in token
    ensures LevelShaped(StripChars(Strip(token), {'[', ']'}))
  {
    StripKeepsOut(token, ' ');
    StripCharsKeepsOut(Strip(token), {'[', ']'}, ' ');
    StripCharsEnds(Strip(token), {'[', ']'});
  }

  /** `strip()` only removes characters. */
  lemma StripKeepsOut(s: string, c: char)
    requires c !in s
    ensures c !in Strip(s)
  {
    TrimKeepsOut(s, IsSpace, c);
    TrimKeepsOut(TrimLeft(s, IsSpace), IsSpace, c);
  }

  /** `strip(chars)` only removes characters. */
  lemma StripCharsKeepsOut(s: string, chars: set<char>, c: char)
    requires c !in s
    ensures c !in StripChars(s, chars)
  {
    var drop := InSet(chars);
    TrimKeepsOut(s, drop, c);
    TrimKeepsOut(TrimLeft(s, drop), drop, c);
    assert StripChars(s, chars) == TrimRight(TrimLeft(s, drop), drop);
  }

  /** After `strip("[]")` neither end is a bracket. */
  lemma StripCharsEnds(s: string, chars: set<char>)
    requires chars == {'[', ']'}
    ensures var r := StripChars(s, chars); r == [] || (r[0] !in "[]" && r[|r| - 1] !in "[]")
  {
    var l := TrimLeft(s, InSet(chars));
    var r := TrimRight(l, InSet(chars));
    assert StripChars(s, chars) == r;
    if r != [] {
      assert r[0] == l[0];
    }
  }

  lemma AddressShape(tail: string)
    ensures AddressShaped(Split(Strip(tail), ' ', 1)[0])
  {
    var rest := Strip(tail);
    var restParts := Split(rest, ' ', 1);
    SplitJoin(rest, ' ', 1);
    SplitPieces(rest, ' ', 1);
    assert rest == [] || !IsSpace(rest[0]);
    if |restParts| > 1 {
      assert rest == restParts[0] + [' '] + JoinWith(restParts[1..], ' ');
    } else {
      assert rest == restParts[0];
    }
  }

  /** A line in the expected shape `date time [LEVEL] ip message`. */
  function FormatLine(date: string, time: string, level: string, ip: string, message: string): string {
    JoinWith([date, time, "[" + level + "]", ip, message], ' ')
  }

  /** A bracketed level without whitespace or brackets survives `strip()` and loses exactly its brackets. */
  lemma StripBrackets(level: string)
    requires forall i :: 0 <= i < |level| ==> !IsSpace(level[i]) && level[i] != '[' && level[i] != ']'
    ensures ' ' !in "[" + level + "]"
    ensures StripChars(Strip("[" + level + "]"), {'[', ']'}) == level
  {
    StripCharsBrackets(level);
    BracketedHasNoSpace(level);
    StripKeeps("[" + level + "]");
  }

  /** `strip("[]")` removes exactly the two brackets around a level that holds none. */
  lemma StripCharsBrackets(level: string)
    requires forall i :: 0 <= i < |level| ==> level[i] != '[' && level[i] != ']'
    ensures StripChars("[" + level + "]", {'[', ']'}) == level
  {
    if level == [] {
      assert "[" + level + "]" == "[]";
      BracketsOnly();
    } else {
      TrimOpening(level);
      TrimClosing(level);
    }
  }

  lemma BracketedHasNoSpace(level: string)
    requires forall i :: 0 <= i < |level| ==> !IsSpace(level[i])
    ensures forall i :: 0 <= i < |"[" + level + "]"| ==> !IsSpace(("[" + level + "]")[i])
    ensures ' ' !in "[" + level + "]"
  {
    var bracketed := "[" + level + "]";
    forall i | 0 <= i < |bracketed|
      ensures bracketed[i] != ' ' && !IsSpace(bracketed[i])
    {
      if 0 < i < |bracketed| - 1 { assert bracketed[i] == level[i - 1]; }
    }
  }

  lemma BracketsOnly()
    ensures StripChars("[]", {'[', ']'}) == []
  {
    var s := "[]";
    assert s[0] == '[' && s[1] == ']';
  }

  lemma TrimOpening(level: string)
    requires level != [] && level[0] != '[' && level[0] != ']'
    ensures TrimLeft("[" + level + "]", InSet({'[', ']'})) == level + "]"
  {
    var s := "[" + level + "]";
    assert s[0] == '[' && s[1] == level[0];
    assert s[1..] == level + "]";
  }

  lemma TrimClosing(level: string)
    requires level != [] && level[|level| - 1] != '[' && level[|level| - 1] != ']'
    ensures TrimRight(level + "]", InSet({'[', ']'})) == level
  {
    var s := level + "]";
    assert s[|s| - 1] == ']' && s[|level| - 1] == level[|level| - 1];
    assert s[..|level|] == level;
  }

  lemma StripDropsOneTrailingSpace(ip: string)
    requires ip != [] && forall i :: 0 <= i < |ip| ==> !IsSpace(ip[i])
    ensures Strip(ip + " ") == ip
  {
    var s := ip + " ";
    assert TrimLeft(s, IsSpace) == s;
    var r := TrimRight(s, IsSpace);
    assert IsSpace(s[|s| - 1]) && !IsSpace(s[|ip| - 1]);
    assert |r| == |ip|;
    assert r == s[..|ip|] == ip;
  }

  /** The address and message come back from the last piece `ip message`. */
  lemma TailFields(ip: string, message: string)
    requires ip != [] && forall i :: 0 <= i < |ip| ==> !IsSpace(ip[i])
    requires message == [] || !IsSpace(message[|message| - 1])
    ensures var rp := Split(Strip(ip + " " + message), ' ', 1);
      rp[0] == ip && (if |rp| > 1 then rp[1] else "") == message
  {
    var tail := ip + " " + message;
    assert ' ' !in ip by {
      forall i | 0 <= i < |ip| ensures ip[i] != ' ' { assert !IsSpace(ip[i]); }
    }
    if message == [] {
      assert tail == ip + " ";
      StripDropsOneTrailingSpace(ip);
      SplitNone(ip, ' ', 1);
    } else {
      StripKeeps(tail);
      SplitFirst(ip, message, ' ', 1);
      assert Split(message, ' ', 0) == [message];
    }
  }

  lemma SplitFormatted(date: string, time: string, level: string, ip: string, message: string)
    requires ' ' !in date && ' ' !in time && ' ' !in "[" + level + "]"
    ensures Split(FormatLine(date, time, level, ip, message), ' ', 3) == [date, time, "[" + level + "]", ip + " " + message]
  {
    var parts := [date, time, "[" + level + "]", ip, message];
    SplitJoinWith(parts, ' ', 3);
    assert parts[..3] == [date, time, "[" + level + "]"];
    assert parts[3..] == [ip, message];
    assert JoinWith([ip, message], ' ') == ip + " " + message by {
      assert [ip, message][1..] == [message];
    }
  }

  /**
    Parsing inverts formatting: a line built from a space-free date and time, a bracketed level
    without whitespace or brackets, a non-empty whitespace-free address and a message that does
    not end in whitespace parses back to exactly those fields.
   */
  lemma ParseFormatted(date: string, time: string, level: string, ip: string, message: string)
    requires ' ' !in date && ' ' !in time
    requires forall i :: 0 <= i < |level| ==> !IsSpace(level[i]) && level[i] != '[' && level[i] != ']'
    requires ip != [] && forall i :: 0 <= i < |ip| ==> !IsSpace(ip[i])
    requires message == [] || !IsSpace(message[|message| - 1])
    ensures ParseLogLine(FormatLine(date, time, level, ip, message))
      == Some(Fields(date + " " + time, level, ip, message))
  {
    StripBrackets(level);
    SplitFormatted(date, time, level, ip, message);
    ParseFromPieces(FormatLine(date, time, level, ip, message), date, time, "[" + level + "]", ip + " " + message);
    TailFields(ip, message);
  }

  /** What the parser makes of a line once its first four pieces are known. */
  lemma ParseFromPieces(line: string, a: string, b: string, c: string, d: string)
    requires Split(line, ' ', 3) == [a, b, c, d]
    ensures var rp := Split(Strip(d), ' ', 1);
      ParseLogLine(line) == Some(Fields(a + " " + b, StripChars(Strip(c), {'[', ']'}), rp[0],
                                        if |rp| > 1 then rp[1] else ""))
  {
    var parts := Split(line, ' ', 3);
    assert |parts| == 4 && parts[0] == a && parts[1] == b && parts[2] == c && parts[3] == d;
  }

  /**
    The chunk size `chunk_file_lines` works with: the default for `None`, otherwise the
    value after `validate_positive_int`, raising its `ValueError` before anything is read.
   */
  function EffectiveChunkSize(linesPerChunk: Option<PyValue>): (r: Result<nat, ValueError>)
    ensures r.Ok? ==> r.value >= 1
    ensures linesPerChunk.None? ==> r == Ok(DefaultLinesPerChunk)
    ensures linesPerChunk.Some? ==>
      (r.Ok? <==> ValidatePositiveInt("lines_per_chunk", linesPerChunk.value).Ok?)
    ensures linesPerChunk.Some? && r.Ok? ==> r.value == IntValue(linesPerChunk.value)
  {
    match linesPerChunk
    case None => Ok(DefaultLinesPerChunk)
    case Some(v) =>
      match ValidatePositiveInt("lines_per_chunk", v)
      case Err(e) => Err(e)
      case Ok(w) => Ok(IntValue(w) as nat)
  }

  /** Every line with its trailing newlines removed (`line.rstrip("\n")`). */
  function StripNewlines(lines: seq<string>): (r: seq<string>)
    ensures |r| == |lines|
    ensures forall i :: 0 <= i < |lines| ==> r[i] == RStripNewlines(lines[i])
  {
    if lines == [] then [] else StripNewlines(lines[..|lines| - 1]) + [RStripNewlines(lines[|lines| - 1])]
  }

  /**
    `chunk_file_lines(path, lines_per_chunk)` over the lines of the file: the yielded
    `(chunk_index, lines)` pairs are the chunks of the newline-stripped lines, numbered 0, 1, 2, …
    An invalid chunk size raises before any chunk is produced.
   */
  method ChunkFileLines(lines: seq<string>, linesPerChunk: Option<PyValue>)
    returns (r: Result<seq<(nat, seq<string>)>, ValueError>)
    ensures r.Err? <==> EffectiveChunkSize(linesPerChunk).Err?
    ensures r.Err? ==> r.error == EffectiveChunkSize(linesPerChunk).error
    ensures r.Ok? ==> r.value == Numbered(Chunks(StripNewlines(lines), EffectiveChunkSize(linesPerChunk).value))
  {
    var size := EffectiveChunkSize(linesPerChunk);
    if size.Err? {
      return Err(size.error);
    }
    var out := ChunkLines(lines, size.value);
    return Ok(out);
  }

  /** Chunks paired with their zero-based index. */
  function Numbered(cs: seq<seq<string>>): (r: seq<(nat, seq<string>)>)
    ensures |r| == |cs|
    ensures forall i :: 0 <= i < |cs| ==> r[i] == (i, cs[i])
  {
    seq(|cs|, i requires 0 <= i < |cs| => (i, cs[i]))
  }

  lemma NumberedSnoc(cs: seq<seq<string>>, c: seq<string>)
    ensures Numbered(cs + [c]) == Numbered(cs) + [(|cs|, c)]
  {
  }

  /** Emitting a full buffer adds it as the next numbered chunk. */
  lemma EmitFull(done: seq<seq<string>>, chunk: seq<string>, n: nat)
    requires forall j :: 0 <= j < |done| ==> |done[j]| == n
    requires |chunk| == n
    ensures forall j :: 0 <= j < |done + [chunk]| ==> |(done + [chunk])[j]| == n
    ensures Flatten(done + [chunk]) == Flatten(done) + chunk
    ensures Numbered(done + [chunk]) == Numbered(done) + [(|done|, chunk)]
  {
    FlattenSnoc(done, chunk);
    NumberedSnoc(done, chunk);
  }

  /** What the generator has produced so far: the numbered full buffers, and a buffer not yet full. */
  ghost predicate Emitted(out: seq<(nat, seq<string>)>, done: seq<seq<string>>, chunk: seq<string>, idx: nat, n: nat) {
    idx == |done| && out == Numbered(done) && (forall j :: 0 <= j < |done| ==> |done[j]| == n) && |chunk| < n
  }

  /** One line of the loop: append it to the buffer, and emit the buffer when it is full. */
  method Feed(out: seq<(nat, seq<string>)>, ghost done: seq<seq<string>>, chunk: seq<string>, idx: nat,
              line: string, n: nat)
    returns (out': seq<(nat, seq<string>)>, ghost done': seq<seq<string>>, chunk': seq<string>, idx': nat)
    requires Emitted(out, done, chunk, idx, n)
    ensures Emitted(out', done', chunk', idx', n)
    ensures Flatten(done') + chunk' == Flatten(done) + chunk + [line]
    ensures |chunk| + 1 < n ==> out' == out && chunk' == chunk + [line] && idx' == idx
    ensures |chunk| + 1 >= n ==> out' == out + [(idx, chunk + [line])] && chunk' == [] && idx' == idx + 1
  {
    out', done', chunk', idx' := out, done, chunk + [line], idx;
    if |chunk'| >= n {
      EmitFull(done, chunk', n);
      out' := out + [(idx, chunk')];
      done' := done + [chunk'];
      idx' := idx + 1;
      chunk' := [];
    }
  }

  /** The generator body of `chunk_file_lines` once the chunk size `n` is known. */
  method ChunkLines(lines: seq<string>, n: nat) returns (out: seq<(nat, seq<string>)>)
    requires n >= 1
    ensures out == Numbered(Chunks(StripNewlines(lines), n))
  {
    out := [];
    var chunk: seq<string> := [];
    var idx: nat := 0;
    ghost var done: seq<seq<string>> := [];
    for i := 0 to |lines|
      invariant Emitted(out, done, chunk, idx, n)
      invariant Flatten(done) + chunk == StripNewlines(lines[..i])
    {
      StripNewlinesSnoc(lines, i);
      out, done, chunk, idx := Feed(out, done, chunk, idx, RStripNewlines(lines[i]), n);
    }
    ChunkLinesTail(lines, done, chunk, n);
    if chunk != [] {
      NumberedSnoc(done, chunk);
      out := out + [(idx, chunk)];
    }
  }

  /** The buffers emitted, with the remainder if any, are the chunks of the stripped lines. */
  lemma ChunkLinesTail(lines: seq<string>, done: seq<seq<string>>, chunk: seq<string>, n: nat)
    requires n >= 1 && forall j :: 0 <= j < |done| ==> |done[j]| == n
    requires |chunk| < n && Flatten(done) + chunk == StripNewlines(lines[..|lines|])
    ensures chunk != [] ==> done + [chunk] == Chunks(StripNewlines(lines), n)
    ensures chunk == [] ==> done == Chunks(StripNewlines(lines), n)
  {
    assert lines[..|lines|] == lines;
    RemainderChunks(done, chunk, StripNewlines(lines), n);
  }

  lemma StripNewlinesSnoc(lines: seq<string>, i: nat)
    requires i < |lines|
    ensures StripNewlines(lines[..i + 1]) == StripNewlines(lines[..i]) + [RStripNewlines(lines[i])]
  {
    assert lines[..i + 1][..i] == lines[..i];
  }

  /** `patterns or config.LOG_PATTERNS` */
  function EffectivePatterns(patterns: Option<seq<string>>): (r: seq<string>)
    ensures patterns.Some? && patterns.value != [] ==> r == patterns.value
    ensures patterns.None? || patterns.value == [] ==> r == LogPatterns
  {
    if patterns.None? || patterns.value == [] then LogPatterns else patterns.value
  }

  /** The glob matches of every pattern, pattern after pattern (`files.extend(matches)`). */
  function Globbed(patterns: seq<string>, glob: string -> seq<string>): seq<string> {
    if patterns == [] then [] else Globbed(patterns[..|patterns| - 1], glob) + glob(patterns[|patterns| - 1])
  }

  /** `[p for p in files if is_file(p)]` */
  function KeepFiles(files: seq<string>, isFile: string -> bool): seq<string> {
    if files == [] then []
    else KeepFiles(files[..|files| - 1], isFile) + (if isFile(files[|files| - 1]) then [files[|files| - 1]] else [])
  }

  /**
    `list_log_files(patterns)`: every regular file matched by a pattern, ascending; a file
    matched by several patterns is listed once per match (the list is not deduplicated).
   */
  function LogFiles(patterns: Option<seq<string>>, glob: string -> seq<string>, isFile: string -> bool): seq<string> {
    SortNames(KeepFiles(Globbed(EffectivePatterns(patterns), glob), isFile))
  }

  method ListLogFiles(patterns: Option<seq<string>>, glob: string -> seq<string>, isFile: string -> bool)
    returns (paths: seq<string>)
    ensures paths == LogFiles(patterns, glob, isFile)
    ensures multiset(paths) == multiset(KeepFiles(Globbed(EffectivePatterns(patterns), glob), isFile))
    ensures Ascending(paths)
  {
    var pats := EffectivePatterns(patterns);
    var files: seq<string> := [];
    for i := 0 to |pats|
      invariant files == Globbed(pats[..i], glob)
    {
      assert pats[..i + 1][..i] == pats[..i];
      files := files + glob(pats[i]);
    }
    assert pats[..|pats|] == pats;
    paths := SortNames(KeepFiles(files, isFile));
    SortNamesSpec(KeepFiles(files, isFile));
  }

  /**
    Without patterns, or with an empty list, the listing is that of the default `*.log`: the
    same list as for `["*.log"]`, holding each regular file once per `*.log` match.
   */
  lemma DefaultPatterns(glob: string -> seq<string>, isFile: string -> bool, q: string)
    ensures LogFiles(None, glob, isFile) == LogFiles(Some([]), glob, isFile) == LogFiles(Some(["*.log"]), glob, isFile)
    ensures multiset(LogFiles(None, glob, isFile))[q] == if isFile(q) then multiset(glob("*.log"))[q] else 0
  {
    GlobbedMultiplicity(LogPatterns, glob, isFile, q);
    SortNamesSpec(KeepFiles(Globbed(LogPatterns, glob), isFile));
    assert LogPatterns[..0] == [];
  }

  /** The number of matches of `q` over all patterns. */
  function MatchCount(patterns: seq<string>, glob: string -> seq<string>, q: string): nat {
    if patterns == [] then 0
    else MatchCount(patterns[..|patterns| - 1], glob, q) + multiset(glob(patterns[|patterns| - 1]))[q]
  }

  /** How often a path is listed: once per pattern match, if it is a regular file. */
  lemma {:induction false} GlobbedMultiplicity(patterns: seq<string>, glob: string -> seq<string>, isFile: string -> bool, q: string)
    ensures multiset(KeepFiles(Globbed(patterns, glob), isFile))[q]
      == if isFile(q) then MatchCount(patterns, glob, q) else 0
  {
    if patterns != [] {
      var init := patterns[..|patterns| - 1];
      var last := glob(patterns[|patterns| - 1]);
      GlobbedMultiplicity(init, glob, isFile, q);
      KeepFilesConcat(Globbed(init, glob), last, isFile, q);
      KeepFilesCount(last, isFile, q);
    }
  }

  /** Filtering keeps every occurrence of a regular file and drops every other path. */
  lemma {:induction false} KeepFilesCount(files: seq<string>, isFile: string -> bool, q: string)
    ensures multiset(KeepFiles(files, isFile))[q] == if isFile(q) then multiset(files)[q] else 0
  {
    if files != [] {
      var init := files[..|files| - 1];
      KeepFilesCount(init, isFile, q);
      assert files == init + [files[|files| - 1]];
    }
  }

  lemma {:induction false} KeepFilesConcat(a: seq<string>, b: seq<string>, isFile: string -> bool, q: string)
    ensures multiset(KeepFiles(a + b, isFile))[q] == multiset(KeepFiles(a, isFile))[q] + multiset(KeepFiles(b, isFile))[q]
  {
    if b != [] {
      assert (a + b)[..|a + b| - 1] == a + b[..|b| - 1];
      KeepFilesConcat(a, b[..|b| - 1], isFile, q);
    } else {
      assert a + b == a;
    }
  }

  /** A chunk as `iter_chunks_from_dir` yields it: `(file_path, chunk_index, lines)`. */
  datatype ChunkTask = ChunkTask(file: string, index: nat, lines: seq<string>)

  /** The tasks of one file: its chunks tagged with the path and their index. */
  function FileTasks(file: string, chunks: seq<seq<string>>): (r: seq<ChunkTask>)
    ensures |r| == |chunks|
    ensures forall i :: 0 <= i < |r| ==> r[i] == ChunkTask(file, i, chunks[i])
  {
    seq(|chunks|, i requires 0 <= i < |chunks| => ChunkTask(file, i, chunks[i]))
  }

  /** All chunks of all files, file by file in the given order. */
  function DirTasks(files: seq<string>, read: string -> seq<string>, n: nat): seq<ChunkTask>
    requires n >= 1
  {
    if files == [] then []
    else DirTasks(files[..|files| - 1], read, n)
         + FileTasks(files[|files| - 1], Chunks(StripNewlines(read(files[|files| - 1])), n))
  }

  /** The lines of a sequence of tasks, concatenated. */
  function TaskLines(tasks: seq<ChunkTask>): seq<string> {
    if tasks == [] then [] else TaskLines(tasks[..|tasks| - 1]) + tasks[|tasks| - 1].lines
  }

  /** The newline-stripped lines of all files, file after file. */
  function AllLines(files: seq<string>, read: string -> seq<string>): seq<string> {
    if files == [] then [] else AllLines(files[..|files| - 1], read) + StripNewlines(read(files[|files| - 1]))
  }

  lemma {:induction false} TaskLinesConcat(a: seq<ChunkTask>, b: seq<ChunkTask>)
    ensures TaskLines(a + b) == TaskLines(a) + TaskLines(b)
  {
    if b != [] {
      assert (a + b)[..|a + b| - 1] == a + b[..|b| - 1];
      TaskLinesConcat(a, b[..|b| - 1]);
    } else {
      assert a + b == a;
    }
  }

  lemma {:induction false} FileTaskLines(file: string, chunks: seq<seq<string>>)
    ensures TaskLines(FileTasks(file, chunks)) == Flatten(chunks)
  {
    if chunks != [] {
      var init := chunks[..|chunks| - 1];
      FileTaskLines(file, init);
      assert FileTasks(file, chunks)[..|chunks| - 1] == FileTasks(file, init);
    }
  }

  /** Every line of every file lands in exactly one chunk, in file order then line order. */
  lemma {:induction false} DirTasksConserveLines(files: seq<string>, read: string -> seq<string>, n: nat)
    requires n >= 1
    ensures TaskLines(DirTasks(files, read, n)) == AllLines(files, read)
  {
    if files != [] {
      var init := files[..|files| - 1];
      var last := files[|files| - 1];
      DirTasksConserveLines(init, read, n);
      var cs := Chunks(StripNewlines(read(last)), n);
      TaskLinesConcat(DirTasks(init, read, n), FileTasks(last, cs));
      FileTaskLines(last, cs);
      ChunksSpec(StripNewlines(read(last)), n);
    }
  }

  /**
    `iter_chunks_from_dir` over the listed files: the chunks of every file, file by file.
    The chunk size is validated lazily, when the first file is opened, so an invalid size
    raises only if some file was found.
   */
  method IterChunksFromDir(files: seq<string>, read: string -> seq<string>, linesPerChunk: Option<PyValue>)
    returns (r: Result<seq<ChunkTask>, ValueError>)
    ensures files == [] ==> r == Ok([])
    ensures files != [] && EffectiveChunkSize(linesPerChunk).Err? ==> r == Err(EffectiveChunkSize(linesPerChunk).error)
    ensures files != [] && EffectiveChunkSize(linesPerChunk).Ok? ==>
      r == Ok(DirTasks(files, read, EffectiveChunkSize(linesPerChunk).value))
  {
    var out: seq<ChunkTask> := [];
    ghost var n := if EffectiveChunkSize(linesPerChunk).Ok? then EffectiveChunkSize(linesPerChunk).value else 1;
    for f := 0 to |files|
      invariant f > 0 ==> EffectiveChunkSize(linesPerChunk).Ok?
      invariant f == 0 ==> out == []
      invariant n >= 1
      invariant EffectiveChunkSize(linesPerChunk).Ok? ==> out == DirTasks(files[..f], read, n)
    {
      var file := files[f];
      var chunked := ChunkFileLines(read(file), linesPerChunk);
      if chunked.Err? {
        assert EffectiveChunkSize(linesPerChunk).Err?;
        return Err(chunked.error);
      }
      var tasks := TagChunks(file, chunked.value);
      DirTasksSnoc(files, f, read, n);
      out := out + tasks;
    }
    assert files[..|files|] == files;
    return Ok(out);
  }

  /** The chunks of one file, each paired with its index, tagged with the file's path. */
  method TagChunks(file: string, pairs: seq<(nat, seq<string>)>) returns (tasks: seq<ChunkTask>)
    ensures |tasks| == |pairs|
    ensures forall i :: 0 <= i < |pairs| ==> tasks[i] == ChunkTask(file, pairs[i].0, pairs[i].1)
  {
    tasks := [];
    for k := 0 to |pairs|
      invariant |tasks| == k
      invariant forall i :: 0 <= i < k ==> tasks[i] == ChunkTask(file, pairs[i].0, pairs[i].1)
    {
      tasks := tasks + [ChunkTask(file, pairs[k].0, pairs[k].1)];
    }
  }

  lemma DirTasksSnoc(files: seq<string>, f: nat, read: string -> seq<string>, n: nat)
    requires f < |files| && n >= 1
    ensures DirTasks(files[..f + 1], read, n)
      == DirTasks(files[..f], read, n) + FileTasks(files[f], Chunks(StripNewlines(read(files[f])), n))
  {
    assert files[..f + 1][..f] == files[..f];
  }
}
