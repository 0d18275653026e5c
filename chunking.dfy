/**
  Cutting a file's lines into chunks: a buffer is appended to line by line and emitted, then
  reset, whenever it reaches the chunk size; a non-empty remainder is emitted last.
 */
module Chunking {

  /** The chunks of `lines` for chunk size `n`. */
  function Chunks<T>(lines: seq<T>, n: nat): seq<seq<T>>
    requires n >= 1
    decreases |lines|
  {
    if lines == [] then []
    else if |lines| <= n then [lines]
    else [lines[..n]] + Chunks(lines[n..], n)
  }

  /** The concatenation of a sequence of chunks. */
  function Flatten<T>(chunks: seq<seq<T>>): seq<T> {
    if chunks == [] then [] else Flatten(chunks[..|chunks| - 1]) + chunks[|chunks| - 1]
  }

  lemma {:induction false} FlattenConcat<T>(a: seq<seq<T>>, b: seq<seq<T>>)
    ensures Flatten(a + b) == Flatten(a) + Flatten(b)
  {
    if b != [] {
      assert (a + b)[..|a + b| - 1] == a + b[..|b| - 1];
      FlattenConcat(a, b[..|b| - 1]);
    } else {
      assert a + b == a;
    }
  }

  lemma FlattenSnoc<T>(done: seq<seq<T>>, chunk: seq<T>)
    ensures Flatten(done + [chunk]) == Flatten(done) + chunk
  {
    assert (done + [chunk])[..|done|] == done;
  }

  lemma FlattenOne<T>(c: seq<T>)
    ensures Flatten([c]) == c
  {
    assert [c][..0] == [];
  }

  /** Well-formed chunking: every chunk has between 1 and `n` lines, all but the last exactly `n`. */
  predicate WellSized<T>(chunks: seq<seq<T>>, n: nat) {
    (forall i :: 0 <= i < |chunks| ==> 1 <= |chunks[i]| <= n)
    && (forall i :: 0 <= i < |chunks| - 1 ==> |chunks[i]| == n)
  }

  /**
    Chunking loses, duplicates and reorders nothing: the chunks concatenate back to the lines,
    and they are well sized (so an empty input gives no chunk at all).
   */
  lemma {:induction false} ChunksSpec<T>(lines: seq<T>, n: nat)
    requires n >= 1
    ensures Flatten(Chunks(lines, n)) == lines
    ensures WellSized(Chunks(lines, n), n)
    decreases |lines|
  {
    if lines == [] {
    } else if |lines| <= n {
      FlattenOne(lines);
    } else {
      ChunksSpec(lines[n..], n);
      FlattenConcat([lines[..n]], Chunks(lines[n..], n));
      FlattenOne(lines[..n]);
      assert lines == lines[..n] + lines[n..];
    }
  }

  /** `Chunks` is the only well-sized chunking of the lines. */
  lemma {:induction false} ChunksUnique<T>(cs: seq<seq<T>>, lines: seq<T>, n: nat)
    requires n >= 1
    requires WellSized(cs, n) && Flatten(cs) == lines
    ensures cs == Chunks(lines, n)
    decreases |cs|
  {
    if cs == [] {
    } else {
      var rest := cs[1..];
      assert cs == [cs[0]] + rest;
      FlattenConcat([cs[0]], rest);
      FlattenOne(cs[0]);
      if rest == [] {
        assert lines == cs[0];
      } else {
        assert |cs[0]| == n;
        assert WellSized(rest, n) by {
          forall i | 0 <= i < |rest| ensures 1 <= |rest[i]| <= n { assert rest[i] == cs[i + 1]; }
          forall i | 0 <= i < |rest| - 1 ensures |rest[i]| == n { assert rest[i] == cs[i + 1]; }
        }
        assert rest[0] == cs[1];
        FlattenConcat([rest[0]], rest[1..]);
        assert rest == [rest[0]] + rest[1..];
        assert |Flatten(rest)| >= 1;
        assert lines[..n] == cs[0] && lines[n..] == Flatten(rest);
        ChunksUnique(rest, lines[n..], n);
      }
    }
  }

  /** The whole chunks of `lines`, dropping a shorter remainder. */
  function FullChunks<T>(lines: seq<T>, n: nat): seq<seq<T>>
    requires n >= 1
    decreases |lines|
  {
    if |lines| < n then [] else [lines[..n]] + FullChunks(lines[n..], n)
  }

  /** Whole chunks of `n` items followed by a shorter remainder, if any, are the chunks of the items. */
  lemma RemainderChunks<T>(done: seq<seq<T>>, rest: seq<T>, items: seq<T>, n: nat)
    requires n >= 1 && |rest| < n
    requires forall j :: 0 <= j < |done| ==> |done[j]| == n
    requires Flatten(done) + rest == items
    ensures rest != [] ==> done + [rest] == Chunks(items, n)
    ensures rest == [] ==> done == Chunks(items, n)
  {
    if rest != [] {
      FlattenSnoc(done, rest);
      assert WellSized(done + [rest], n);
      ChunksUnique(done + [rest], items, n);
    } else {
      assert Flatten(done) == items;
      ChunksUnique(done, items, n);
    }
  }

  /** Chunks of exactly `n` lines that, with a remainder shorter than `n`, make up the lines are its whole chunks. */
  lemma {:induction false} FullChunksUnique<T>(cs: seq<seq<T>>, tail: seq<T>, lines: seq<T>, n: nat)
    requires n >= 1 && |tail| < n
    requires forall i :: 0 <= i < |cs| ==> |cs[i]| == n
    requires Flatten(cs) + tail == lines
    ensures cs == FullChunks(lines, n)
    decreases |cs|
  {
    if cs == [] {
      assert lines == tail;
    } else {
      var rest := cs[1..];
      assert cs == [cs[0]] + rest;
      FlattenConcat([cs[0]], rest);
      FlattenOne(cs[0]);
      assert lines == cs[0] + (Flatten(rest) + tail);
      assert lines[..n] == cs[0] && lines[n..] == Flatten(rest) + tail;
      forall i | 0 <= i < |rest| ensures |rest[i]| == n { assert rest[i] == cs[i + 1]; }
      FullChunksUnique(rest, tail, lines[n..], n);
    }
  }

  /** Every whole chunk has exactly `n` lines. */
  lemma {:induction false} FullChunksSized<T>(lines: seq<T>, n: nat)
    requires n >= 1
    ensures forall i :: 0 <= i < |FullChunks(lines, n)| ==> |FullChunks(lines, n)[i]| == n
    decreases |lines|
  {
    if |lines| >= n {
      var cs := FullChunks(lines, n);
      var rest := FullChunks(lines[n..], n);
      FullChunksSized(lines[n..], n);
      forall i | 0 <= i < |cs|
        ensures |cs[i]| == n
      {
        if i > 0 { assert cs[i] == rest[i - 1]; }
      }
    }
  }

  /** Chunks of `n` lines each concatenate to `n` lines per chunk. */
  lemma {:induction false} FlattenUniform<T>(cs: seq<seq<T>>, n: nat)
    requires forall i :: 0 <= i < |cs| ==> |cs[i]| == n
    ensures |Flatten(cs)| == n * |cs|
    decreases |cs|
  {
    if cs != [] {
      var init := cs[..|cs| - 1];
      forall i | 0 <= i < |init| ensures |init[i]| == n { assert init[i] == cs[i]; }
      FlattenUniform(init, n);
      assert n * |cs| == n * |init| + n;
    }
  }

  /** The whole chunks are a prefix of the lines, and what they leave is shorter than `n`. */
  lemma {:induction false} FullChunksPrefix<T>(lines: seq<T>, n: nat)
    requires n >= 1
    ensures |Flatten(FullChunks(lines, n))| <= |lines|
    ensures Flatten(FullChunks(lines, n)) == lines[..|Flatten(FullChunks(lines, n))|]
    ensures |lines| - |Flatten(FullChunks(lines, n))| < n
    decreases |lines|
  {
    if |lines| >= n {
      var rest := FullChunks(lines[n..], n);
      FullChunksPrefix(lines[n..], n);
      var fr := Flatten(rest);
      FlattenConcat([lines[..n]], rest);
      FlattenOne(lines[..n]);
      assert Flatten(FullChunks(lines, n)) == lines[..n] + fr;
      assert lines[..n] + lines[n..][..|fr|] == lines[..n + |fr|];
    }
  }

  /**
    The whole chunks have exactly `n` lines each and hold the lines in order; what they leave
    out is a remainder at the end shorter than `n`.
   */
  lemma FullChunksSpec<T>(lines: seq<T>, n: nat)
    requires n >= 1
    ensures forall i :: 0 <= i < |FullChunks(lines, n)| ==> |FullChunks(lines, n)[i]| == n
    ensures |Flatten(FullChunks(lines, n))| == n * |FullChunks(lines, n)| <= |lines|
    ensures Flatten(FullChunks(lines, n)) == lines[..|Flatten(FullChunks(lines, n))|]
    ensures |lines| - |Flatten(FullChunks(lines, n))| < n
  {
    FullChunksSized(lines, n);
    FlattenUniform(FullChunks(lines, n), n);
    FullChunksPrefix(lines, n);
  }
}
