/** The agent's output path from a reader to the replay buffer: repair, coalesce, cut, frame. */
module Coalescer {
  import opened Chunks
  import opened Utf8
  import opened Wrappers

  const OUTPUT_READ_BYTES: nat := 32 * 1024
  const OUTPUT_COALESCE_BYTES: nat := 32 * 1024
  const MAX_MESSAGE_BYTES: nat := 256 * 1024

  lemma Regroup(a: seq<byte>, b: seq<byte>, c: seq<byte>, d: seq<byte>)
    ensures a + (b + c) + d == (a + b) + c + d
  {
  }

  /** What may leave the agent as the data of one chunk. */
  predicate FrameSafe(data: seq<byte>) {
    1 <= |data| <= OUTPUT_COALESCE_BYTES
  }

  /**
   * Where emitChunks cuts: within the limit, at a rune boundary of well-formed data, and then
   * less than four bytes short of the limit. Ill-formed data is cut somewhere all the same.
   */
  method CutLimit(data: seq<byte>) returns (limit: nat)
    requires data != []
    ensures limit <= |data| && FrameSafe(data[..limit])
    ensures WellFormed(data) ==> WellFormed(data[..limit]) && WellFormed(data[limit..])
    ensures WellFormed(data) ==> limit == |data| || limit >= OUTPUT_COALESCE_BYTES - 3
  {
    limit := |data|;
    if limit > OUTPUT_COALESCE_BYTES {
      limit := OUTPUT_COALESCE_BYTES;
      ghost var near := OUTPUT_COALESCE_BYTES;
      if WellFormed(data) { near := NearbyRuneStart(data, OUTPUT_COALESCE_BYTES); }
      while limit > 0 && !RuneStart(data[limit])
        invariant limit <= OUTPUT_COALESCE_BYTES
        invariant WellFormed(data) ==> near <= limit
        decreases limit
      {
        limit := limit - 1;
      }
      if limit == 0 { limit := OUTPUT_COALESCE_BYTES; }
    }
    if WellFormed(data) { WellFormedCut(data, limit); }
    assert data[limit..] == [] || limit < |data|;
  }

  /** One output reader of a session: the read loop and the periodic flusher share `pending`. */
  class OutputReader {
    var pending: seq<byte>
    /** What the holder of the emit lock has taken and not yet emitted. */
    var flushing: bool
    var inflight: seq<byte>
    /** The read loop has filled the buffer and flushes before it reads again. */
    var mustFlush: bool
    var emitted: seq<seq<byte>>
    /** Everything read so far, each read repaired on its own. */
    ghost var log: seq<byte>

    /** Nothing read is lost, repeated or reordered, and whatever has been emitted fits a frame. */
    ghost predicate Valid()
      reads this
    {
      && Flatten(emitted) + inflight + pending == log
      && (forall i :: 0 <= i < |emitted| ==> FrameSafe(emitted[i]) && WellFormed(emitted[i]))
      && WellFormed(inflight) && WellFormed(pending)
      && (!flushing ==> inflight == [])
      && (!mustFlush ==> |pending| < OUTPUT_COALESCE_BYTES)
      && |pending| < OUTPUT_COALESCE_BYTES + 3 * OUTPUT_READ_BYTES
    }

    constructor ()
      ensures Valid() && !flushing && !mustFlush && emitted == [] && log == []
    {
      pending, flushing, inflight, mustFlush, emitted, log := [], false, [], false, [], [];
      new;
      assert Flatten<byte>([]) + [] + [] == [];
    }

    /** One read, and its repair, appended under the buffer lock. */
    method Read(raw: seq<byte>)
      requires Valid() && !mustFlush && 0 < |raw| <= OUTPUT_READ_BYTES
      modifies this`pending, this`mustFlush, this`log
      ensures Valid() && log == old(log) + Sanitize(raw) && pending == old(pending) + Sanitize(raw)
      ensures mustFlush <==> |pending| >= OUTPUT_COALESCE_BYTES
    {
      hide Flatten, WellFormed, FrameSafe, Sanitize;
      var valid := Sanitize(raw);
      SanitizeWellFormed(raw, false);
      SanitizeSize(raw, false);
      WellFormedConcat(pending, valid);
      Associative(Flatten(emitted) + inflight, pending, valid);
      pending := pending + valid;
      mustFlush := |pending| >= OUTPUT_COALESCE_BYTES;
      log := log + valid;
    }

    /** flush(), from the tick or from the read loop: take the emit lock, then the buffer. */
    method BeginFlush(byReader: bool)
      requires Valid() && !flushing
      modifies this`pending, this`mustFlush, this`inflight, this`flushing
      ensures Valid() && flushing && inflight == old(pending) && pending == []
      ensures mustFlush == (old(mustFlush) && !byReader)
    {
      assert Flatten(emitted) + [] + pending == Flatten(emitted) + pending + [];
      inflight, pending, flushing := pending, [], true;
      if byReader { mustFlush := false; }
    }

    /** One iteration of emitChunks, while the emit lock is held. */
    method EmitNext()
      requires Valid() && flushing && inflight != []
      modifies this`inflight, this`emitted
      ensures Valid() && |emitted| == |old(emitted)| + 1 && emitted[..|old(emitted)|] == old(emitted)
      ensures emitted[|old(emitted)|] + inflight == old(inflight)
    {
      hide Flatten, WellFormed, FrameSafe;
      var limit := CutLimit(inflight);
      var chunk, rest := inflight[..limit], inflight[limit..];
      assert inflight == chunk + rest;
      FlattenSnoc(emitted, chunk);
      Regroup(Flatten(emitted), chunk, rest, pending);
      emitted, inflight := emitted + [chunk], rest;
    }

    method EndFlush()
      requires Valid() && flushing && inflight == []
      modifies this`flushing
      ensures Valid() && !flushing
    {
      flushing := false;
    }

    /** After the read error: the flusher has stopped, and one last flush empties the buffer. */
    method Drain()
      requires Valid() && !flushing
      modifies this
      ensures Valid() && !flushing && pending == [] && inflight == [] && log == old(log)
      ensures Flatten(emitted) == log && old(emitted) <= emitted
    {
      BeginFlush(true);
      while inflight != []
        invariant Valid() && flushing && !mustFlush && pending == [] && log == old(log) && old(emitted) <= emitted
        decreases |inflight|
      {
        EmitNext();
      }
      EndFlush();
      assert Flatten(emitted) + [] + [] == Flatten(emitted);
    }
  }

  /** A repair at most triples the bytes. */
  lemma {:induction false} SanitizeSize(s: seq<byte>, inRun: bool)
    ensures |Sanitize(s, inRun)| <= 3 * |s|
    decreases |s|
  {
    if s != [] {
      var n := RuneSize(s);
      if n == 0 {
        SanitizeSize(s[1..], true);
      } else {
        SanitizeSize(s[n..], false);
      }
    }
  }

  /** `chunks` are frame-safe pieces of `data`, of which `rest` is still to be cut. */
  ghost predicate CutInto(data: seq<byte>, chunks: seq<seq<byte>>, rest: seq<byte>) {
    && Flatten(chunks) + rest == data
    && (forall i :: 0 <= i < |chunks| ==> FrameSafe(chunks[i]))
    && (WellFormed(data) ==> WellFormed(rest) && AllWellFormed(chunks))
    && (WellFormed(data) ==>
          forall i :: 0 <= i < |chunks| && (i < |chunks| - 1 || rest != []) ==> |chunks[i]| >= OUTPUT_COALESCE_BYTES - 3)
  }

  lemma CutOneMore(data: seq<byte>, chunks: seq<seq<byte>>, rest: seq<byte>, limit: nat)
    requires CutInto(data, chunks, rest) && rest != [] && limit <= |rest| && FrameSafe(rest[..limit])
    requires WellFormed(rest) ==> WellFormed(rest[..limit]) && WellFormed(rest[limit..])
    requires WellFormed(rest) ==> limit == |rest| || limit >= OUTPUT_COALESCE_BYTES - 3
    ensures CutInto(data, chunks + [rest[..limit]], rest[limit..])
  {
    hide Flatten, WellFormed, FrameSafe;
    var piece, tail := rest[..limit], rest[limit..];
    assert rest == piece + tail;
    FlattenSnoc(chunks, piece);
    Associative(Flatten(chunks), piece, tail);
  }

  /** emitChunks on its own: for any data, well-formed or not, the pieces are the data. */
  method EmitChunks(data: seq<byte>) returns (chunks: seq<seq<byte>>)
    ensures Flatten(chunks) == data
    ensures forall i :: 0 <= i < |chunks| ==> FrameSafe(chunks[i])
    ensures WellFormed(data) ==> AllWellFormed(chunks)
    ensures WellFormed(data) ==> forall i :: 0 <= i < |chunks| - 1 ==> |chunks[i]| >= OUTPUT_COALESCE_BYTES - 3
  {
    chunks := [];
    var rest := data;
    assert [] + rest == data;
    hide WellFormed;
    while |rest| > 0
      invariant CutInto(data, chunks, rest)
      decreases |rest|
    {
      var limit := CutLimit(rest);
      CutOneMore(data, chunks, rest, limit);
      assert FrameSafe(rest[..limit]);
      chunks, rest := chunks + [rest[..limit]], rest[limit..];
    }
    assert Flatten(chunks) + [] == Flatten(chunks);
  }

  // ----- frame sizes ----------------------------------------------------------------

  /** The bytes of a string's JSON escape (section 7 of RFC 8259), as Go's encoder writes it. */
  function EscapedSize(s: seq<byte>): nat {
    if s == [] then 0
    else
      var n := RuneSize(s);
      if n == 0 then 6 + EscapedSize(s[1..])
      else (if n == 1 then AsciiSize(s[0]) else if s[..n] in LINE_SEPARATORS then 6 else n) + EscapedSize(s[n..])
  }

  const LINE_SEPARATORS: set<seq<byte>> := {[0xE2, 0x80, 0xA8], [0xE2, 0x80, 0xA9]}

  function AsciiSize(b: byte): nat {
    if b in {0x22, 0x5C, 0x08, 0x09, 0x0A, 0x0C, 0x0D} then 2
    else if b < 0x20 || b in {0x26, 0x3C, 0x3E} then 6
    else 1
  }

  lemma {:induction false} EscapedAtMostSixfold(s: seq<byte>)
    ensures |s| <= EscapedSize(s) || !WellFormed(s)
    ensures EscapedSize(s) <= 6 * |s|
  {
    if s != [] {
      var n := RuneSize(s);
      if n == 0 {
        EscapedAtMostSixfold(s[1..]);
      } else {
        EscapedAtMostSixfold(s[n..]);
      }
    }
  }

  function Digits(n: nat): nat {
    if n < 10 then 1 else 1 + Digits(n / 10)
  }

  lemma {:induction false} DigitsBound(n: nat, k: nat)
    requires 1 <= k && n < Pow10(k)
    ensures Digits(n) <= k
    decreases k
  {
    if n >= 10 {
      DigitsBound(n / 10, k - 1);
    }
  }

  function Pow10(k: nat): nat {
    if k == 0 then 1 else 10 * Pow10(k - 1)
  }

  const UUID_BYTES: nat := 36

  /** {"version":1,"type":"…","requestId":"…","timestamp":"…","payload":…} */
  function EnvelopeSize(typeName: nat, timestamp: nat, payload: nat): nat {
    21 + typeName + 15 + UUID_BYTES + 15 + timestamp + 12 + payload + 1
  }

  /** {"sequence":…,"stream":"stdout","data":"…"} */
  function ChunkSize(sequence: nat, data: seq<byte>): nat {
    12 + Digits(sequence) + 19 + 8 + EscapedSize(data) + 2
  }

  /** {"jobId":"…", and then the members of the chunk object */
  function OutputFrameSize(jobId: seq<byte>, timestamp: nat, sequence: nat, data: seq<byte>): nat {
    EnvelopeSize(10, timestamp, 10 + EscapedSize(jobId) + 1 + ChunkSize(sequence, data))
  }

  /** {"jobId":"…","chunks":[…]} */
  function SyncFrameSize(jobId: seq<byte>, timestamp: nat, chunks: seq<(nat, seq<byte>)>): nat {
    EnvelopeSize(15, timestamp, 10 + EscapedSize(jobId) + 12 + ChunkListSize(chunks) + 2)
  }

  function ChunkListSize(chunks: seq<(nat, seq<byte>)>): nat {
    if chunks == [] then 0
    else ChunkListSize(chunks[..|chunks| - 1]) + ChunkSize(chunks[|chunks| - 1].0, chunks[|chunks| - 1].1) + (if |chunks| > 1 then 1 else 0)
  }

  const MAX_INT64: nat := 9223372036854775807

  lemma SequenceDigits(sequence: nat)
    requires sequence <= MAX_INT64
    ensures Digits(sequence) <= 19
  {
    assert Pow10(4) == 10000;
    assert Pow10(8) == 100000000;
    assert Pow10(12) == 1000000000000;
    assert Pow10(16) == 10000000000000000;
    assert Pow10(19) == 10000000000000000000;
    DigitsBound(sequence, 19);
  }

  /** A chunk cut by emitChunks always fits a frame, live or in a buffer sync, whatever it contains. */
  lemma EveryChunkFitsItsFrame(jobId: seq<byte>, timestamp: nat, sequence: nat, data: seq<byte>)
    requires FrameSafe(data) && sequence <= MAX_INT64 && |jobId| <= 10000 && timestamp <= 64
    ensures OutputFrameSize(jobId, timestamp, sequence, data) <= MAX_MESSAGE_BYTES
    ensures SyncFrameSize(jobId, timestamp, [(sequence, data)]) <= MAX_MESSAGE_BYTES
  {
    SequenceDigits(sequence);
    EscapedAtMostSixfold(data);
    EscapedAtMostSixfold(jobId);
    var chunks := [(sequence, data)];
    assert ChunkListSize(chunks[..0]) == 0;
    assert ChunkListSize(chunks) == ChunkSize(sequence, data);
  }

  /** `n` escape characters, as a terminal program may well write them. */
  function Controls(n: nat): (s: seq<byte>)
    ensures |s| == n
  {
    seq(n, i => 0x1B)
  }

  lemma {:induction false} ControlsEscape(n: nat)
    ensures EscapedSize(Controls(n)) == 6 * n && WellFormed(Controls(n))
  {
    if n > 0 {
      assert Controls(n)[1..] == Controls(n - 1);
      ControlsEscape(n - 1);
    }
  }

  /** Two full chunks may not fit, which is why a sync frame carries one chunk. */
  lemma TwoChunksMayNotFit(jobId: seq<byte>, timestamp: nat, s: nat, t: nat)
    ensures var data := Controls(OUTPUT_COALESCE_BYTES);
            FrameSafe(data) && WellFormed(data) && SyncFrameSize(jobId, timestamp, [(s, data), (t, data)]) > MAX_MESSAGE_BYTES
  {
    var data := Controls(OUTPUT_COALESCE_BYTES);
    ControlsEscape(OUTPUT_COALESCE_BYTES);
    var chunks := [(s, data), (t, data)];
    assert chunks[..1] == [(s, data)];
    assert ChunkListSize(chunks[..1]) == ChunkSize(s, data);
  }
}
