/** The agent's bounded replay buffer, as a window on the log of everything added. */
module ReplayBuffer {
  import opened Chunks
  import Utf8

  const DEFAULT_MAX_CHUNKS: nat := 1000
  const DEFAULT_MAX_BYTES: nat := 4 * 1024 * 1024

  predicate Fits(chunks: seq<Chunk>, maxChunks: nat, maxBytes: nat) {
    |chunks| <= maxChunks && Bytes(chunks) <= maxBytes
  }

  /** The longest suffix of `log` that fits both limits; see LongestSuffix. */
  function Retained(log: seq<Chunk>, maxChunks: nat, maxBytes: nat): (r: seq<Chunk>)
  {
    if Fits(log, maxChunks, maxBytes) || log == [] then log
    else Retained(log[1..], maxChunks, maxBytes)
  }

  /** Retained is the suffix from some `start`, and exactly the suffixes from `start` on fit. */
  lemma {:induction false} LongestSuffix(log: seq<Chunk>, maxChunks: nat, maxBytes: nat) returns (start: nat)
    ensures start <= |log| && Retained(log, maxChunks, maxBytes) == log[start..]
    ensures forall k :: 0 <= k <= |log| ==> (Fits(log[k..], maxChunks, maxBytes) <==> start <= k)
  {
    if Fits(log, maxChunks, maxBytes) || log == [] {
      start := 0;
      forall k | 0 <= k <= |log| ensures Fits(log[k..], maxChunks, maxBytes) {
        BytesSuffix(log, 0, k);
        assert log[0..] == log;
      }
    } else {
      var s := LongestSuffix(log[1..], maxChunks, maxBytes);
      start := s + 1;
      assert log[1..][s..] == log[start..];
      forall k | 0 <= k <= |log|
        ensures Fits(log[k..], maxChunks, maxBytes) <==> start <= k
      {
        if k == 0 {
          assert log[0..] == log;
        } else {
          assert log[1..][k - 1..] == log[k..];
        }
      }
    }
  }

  /** Evicting as chunks arrive keeps the same window as trimming the whole log at the end. */
  lemma {:induction false} RetainedStep(log: seq<Chunk>, c: Chunk, maxChunks: nat, maxBytes: nat)
    ensures Retained(log + [c], maxChunks, maxBytes)
         == Retained(Retained(log, maxChunks, maxBytes) + [c], maxChunks, maxBytes)
    decreases |log|
  {
    if !Fits(log, maxChunks, maxBytes) && log != [] {
      BytesSnoc(log, c);
      assert !Fits(log + [c], maxChunks, maxBytes);
      assert (log + [c])[1..] == log[1..] + [c];
      RetainedStep(log[1..], c, maxChunks, maxBytes);
    }
  }

  lemma OldestDropped(chunks: seq<Chunk>, maxChunks: nat, maxBytes: nat)
    requires chunks != [] && (|chunks| > maxChunks || Bytes(chunks) > maxBytes)
    ensures Retained(chunks[1..], maxChunks, maxBytes) == Retained(chunks, maxChunks, maxBytes)
    ensures Bytes(chunks[1..]) == Bytes(chunks) - |chunks[0].data|
  {
  }

  lemma NoneDropped(chunks: seq<Chunk>, maxChunks: nat, maxBytes: nat)
    requires |chunks| <= maxChunks && 1 <= |chunks| && |chunks[|chunks| - 1].data| <= maxBytes
    requires Bytes(chunks) <= maxBytes || |chunks| == 1
    ensures Fits(chunks, maxChunks, maxBytes) && Retained(chunks, maxChunks, maxBytes) == chunks
  {
    if |chunks| == 1 {
      OfOne(chunks[0]);
    }
  }

  /** The longest well-formed prefix of `data` within `limit` bytes. */
  ghost predicate IsLongestCut(data: seq<byte>, limit: nat, cut: seq<byte>) {
    && cut <= data && |cut| <= limit && Utf8.WellFormed(cut)
    && forall n :: |cut| < n <= limit && n <= |data| ==> !Utf8.WellFormed(data[..n])
  }

  /** What Add stores: data within the limit as it is, longer data cut back to whole runes. */
  ghost predicate IsStoredData(data: seq<byte>, limit: nat, stored: seq<byte>) {
    if |data| <= limit then stored == data else IsLongestCut(data, limit, stored)
  }

  class Buffer {
    var chunks: seq<Chunk>
    var bytes: int
    var next: nat
    const maxChunks: nat
    const maxBytes: nat
    /** Everything ever added, in order. */
    ghost var log: seq<Chunk>

    ghost predicate Valid()
      reads this
    {
      && 1 <= maxChunks && 1 <= maxBytes
      && Numbered(log) && next == |log|
      && (forall c :: c in log ==> |c.data| <= maxBytes)
      && bytes == Bytes(chunks)
      && chunks == Retained(log, maxChunks, maxBytes)
    }

    constructor (maxChunks: int, maxBytes: int)
      ensures Valid() && log == []
      ensures this.maxChunks == if maxChunks <= 0 then DEFAULT_MAX_CHUNKS else maxChunks
      ensures this.maxBytes == if maxBytes <= 0 then DEFAULT_MAX_BYTES else maxBytes
    {
      this.maxChunks := if maxChunks <= 0 then DEFAULT_MAX_CHUNKS else maxChunks;
      this.maxBytes := if maxBytes <= 0 then DEFAULT_MAX_BYTES else maxBytes;
      chunks, bytes, next, log := [], 0, 0, [];
    }

    method Add(stream: Stream, data: seq<byte>) returns (chunk: Chunk)
      requires Valid()
      modifies this
      ensures Valid()
      ensures log == old(log) + [chunk]
      ensures chunk.sequence == old(next) && chunk.stream == stream
      ensures IsStoredData(data, maxBytes, chunk.data)
      ensures Fits(chunks, maxChunks, maxBytes) && chunks != []
    {
      hide Bytes, Retained, Fits;
      var stored := data;
      if |data| > maxBytes {
        var limit: nat := maxBytes;
        while limit > 0 && !Utf8.WellFormed(data[..limit])
          invariant limit <= maxBytes < |data|
          invariant forall n :: limit < n <= maxBytes ==> !Utf8.WellFormed(data[..n])
        {
          limit := limit - 1;
        }
        stored := data[..limit];
      }
      assert IsStoredData(data, maxBytes, stored) && |stored| <= maxBytes;
      hide IsStoredData, IsLongestCut, Utf8.WellFormed;
      chunk := Chunk(next, stream, stored);
      next := next + 1;
      BytesSnoc(chunks, chunk);
      RetainedStep(log, chunk, maxChunks, maxBytes);
      chunks := chunks + [chunk];
      bytes := bytes + |stored|;
      log := log + [chunk];
      while |chunks| > maxChunks || (bytes > maxBytes && |chunks| > 1)
        invariant chunks != [] && chunks[|chunks| - 1] == chunk
        invariant bytes == Bytes(chunks)
        invariant Retained(chunks, maxChunks, maxBytes) == Retained(log, maxChunks, maxBytes)
        invariant next == |log| && log == old(log) + [chunk]
        decreases |chunks|
      {
        OldestDropped(chunks, maxChunks, maxBytes);
        bytes := bytes - |chunks[0].data|;
        chunks := chunks[1..];
      }
      NoneDropped(chunks, maxChunks, maxBytes);
    }

    method After(sequence: int) returns (result: seq<Chunk>)
      requires Valid()
      ensures result == Above(chunks, sequence)
    {
      WindowIncreasing(log, maxChunks, maxBytes);
      var start := |chunks|;
      for index := 0 to |chunks|
        invariant start == |chunks|
        invariant forall i :: 0 <= i < index ==> chunks[i].sequence <= sequence
      {
        if chunks[index].sequence > sequence {
          start := index;
          break;
        }
      }
      AboveIsSuffix(chunks, sequence, start);
      result := chunks[start..];
    }
  }

  /** The window is contiguous: it holds exactly the newest sequence numbers. */
  lemma WindowIncreasing(log: seq<Chunk>, maxChunks: nat, maxBytes: nat)
    requires Numbered(log)
    ensures Increasing(Retained(log, maxChunks, maxBytes))
    ensures var r := Retained(log, maxChunks, maxBytes);
            forall i :: 0 <= i < |r| ==> r[i].sequence == |log| - |r| + i
  {
    var start := LongestSuffix(log, maxChunks, maxBytes);
  }

  /**
   * A replay after `sequence` answers with precisely the logged chunks above it that the
   * window still holds: a chunk is missing only if the suffix starting at it does not fit.
   */
  lemma ReplayAnswersFromTheWindow(log: seq<Chunk>, maxChunks: nat, maxBytes: nat, sequence: int, i: nat)
    requires Numbered(log) && i < |log|
    ensures log[i] in Above(Retained(log, maxChunks, maxBytes), sequence)
       <==> sequence < i && Fits(log[i..], maxChunks, maxBytes)
  {
    var start := LongestSuffix(log, maxChunks, maxBytes);
    AboveMembers(log[start..], sequence, log[i]);
    if start <= i {
      assert log[start..][i - start] == log[i];
    } else {
      assert forall c :: c in log[start..] ==> c.sequence >= start;
    }
  }
}
