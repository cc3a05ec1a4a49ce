/**
 * The agent's buffer and the server's retention window, joined by a connection that may lose
 * whatever it carries: does output the server removed ever come back?
 */
module Resurrection {
  import opened Chunks
  import ReplayBuffer
  import Retention

  datatype Limits = Limits(maxChunks: nat, agentBytes: nat, serverBytes: nat)

  /**
   * `live` holds the chunks added and not sent yet by their readers, `syncing` what a running
   * syncBuffer is still to send of the snapshot it took when the log was `syncedAt` long. `wire`
   * holds the chunks sent but not yet persisted: first those the server has received and buffers,
   * then those in transit. `high` is the greatest sequence ever persisted (-1 for none), `evicted`
   * every sequence retention has ever removed.
   */
  datatype State = State(
    log: seq<Chunk>, live: seq<Chunk>, syncing: seq<Chunk>, syncedAt: nat,
    wire: seq<Chunk>, store: Retention.Store, high: int, evicted: set<nat>)

  const Start := State([], [], [], 0, [], Retention.Store([], 0, false), -1, {})

  datatype Step =
    | Add(stream: Stream, data: seq<byte>)   // a reader adds a chunk to the buffer
    | SendLive(k: nat, sent: bool)           // a reader sends its chunk, or finds no connection
    | BeginSync(after: int)                  // the read loop takes a snapshot of the buffer
    | SendSync                               // and sends its next chunk
    | AbandonSync
    | Deliver(skip: nat, n: nat)             // n chunks persist as one batch, past `skip` still buffered
    | Lose(kept: nat)                        // the connection drops; what the server has received stays

  ghost predicate Enabled(s: State, step: Step, l: Limits) {
    match step
    case Add(_, data) => 1 <= |data| <= l.agentBytes
    case SendLive(k, _) => k < |s.live|
    case BeginSync(_) => s.syncing == []
    case SendSync => s.syncing != []
    case AbandonSync => true
    case Deliver(skip, n) => 1 <= n && skip + n <= |s.wire| && Retention.DistinctSequences(s.wire[skip..skip + n])
    case Lose(kept) => kept <= |s.wire|
  }

  function Highest(chunks: seq<Chunk>, floor: int): (h: int)
    ensures h >= floor
    ensures forall c :: c in chunks ==> c.sequence <= h
    ensures h == floor || exists c :: c in chunks && c.sequence == h
  {
    if chunks == [] then floor
    else
      var c, h := chunks[|chunks| - 1], Highest(chunks[..|chunks| - 1], floor);
      if c.sequence > h then c.sequence else h
  }

  ghost function Next(s: State, step: Step, l: Limits): State
    requires Enabled(s, step, l)
  {
    match step
    case Add(stream, data) =>
      var c := Chunk(|s.log|, stream, data);
      s.(log := s.log + [c], live := s.live + [c])
    case SendLive(k, sent) =>
      s.(live := s.live[..k] + s.live[k + 1..], wire := if sent then s.wire + [s.live[k]] else s.wire)
    case BeginSync(after) =>
      s.(syncing := Above(ReplayBuffer.Retained(s.log, l.maxChunks, l.agentBytes), after), syncedAt := |s.log|)
    case SendSync => s.(syncing := s.syncing[1..], wire := s.wire + [s.syncing[0]])
    case AbandonSync => s.(syncing := [])
    case Deliver(skip, n) =>
      var batch := s.wire[skip..skip + n];
      var store' := Retention.Persist(s.store, batch, l.serverBytes);
      s.(wire := s.wire[..skip] + s.wire[skip + n..], store := store', high := Highest(batch, s.high),
         evicted := s.evicted + (Sequences(s.store.rows) + Sequences(batch) - Sequences(store'.rows)))
    case Lose(kept) => s.(wire := s.wire[..kept])
  }

  /** A run: `states` starts at Start and follows `steps`. */
  ghost predicate Run(states: seq<State>, steps: seq<Step>, l: Limits) {
    && |states| == |steps| + 1 && states[0] == Start
    && forall i :: 0 <= i < |steps| ==> Enabled(states[i], steps[i], l) && states[i + 1] == Next(states[i], steps[i], l)
  }

  /** The bytes of the logged chunks from `a` up to but excluding `b`. */
  function Span(log: seq<Chunk>, a: nat, b: int): (r: nat)
    requires b <= |log|
    decreases b - a
  {
    if a < b then |log[a].data| + Span(log, a + 1, b) else 0
  }

  /** Nothing persists ahead of what was received before it. */
  predicate InOrder(step: Step) {
    step.Deliver? ==> step.skip == 0
  }

  /** From this chunk on, the agent has added at most one byte more than the server keeps. */
  predicate Recent(s: State, c: Chunk, l: Limits) {
    Span(s.log, c.sequence, |s.log|) <= l.serverBytes + 1
  }

  /** No frame goes out for a chunk that is not recent any more. */
  predicate Fresh(s: State, step: Step, l: Limits) {
    match step
    case SendLive(k, sent) => sent && k < |s.live| ==> Recent(s, s.live[k], l)
    case SendSync => s.syncing != [] ==> Recent(s, s.syncing[0], l)
    case _ => true
  }

  ghost predicate Logged(log: seq<Chunk>, c: Chunk) {
    c.sequence < |log| && log[c.sequence] == c
  }

  ghost predicate AllLogged(log: seq<Chunk>, chunks: seq<Chunk>) {
    forall i :: 0 <= i < |chunks| ==> Logged(log, chunks[i])
  }

  ghost predicate WellLogged(log: seq<Chunk>) {
    Numbered(log) && forall i :: 0 <= i < |log| ==> 1 <= |log[i].data|
  }

  /** What a frame on the wire brings is at most `bytes` behind what is persisted, or sent before it. */
  ghost predicate WireWithinWindow(log: seq<Chunk>, wire: seq<Chunk>, high: int, bytes: nat)
    requires high < |log| && AllLogged(log, wire)
  {
    && (forall j :: 0 <= j < |wire| ==> Span(log, wire[j].sequence, high + 1) <= bytes)
    && (forall i, j :: 0 <= i < j < |wire| ==> Span(log, wire[j].sequence, wire[i].sequence + 1) <= bytes)
  }

  ghost predicate EvictedBehind(log: seq<Chunk>, rows: seq<Chunk>, high: int, evicted: set<nat>, serverBytes: nat)
    requires high < |log|
  {
    && (forall e :: e in evicted ==> e <= high && Span(log, e, high + 1) > serverBytes)
    && (forall e, r :: e in evicted && r in Sequences(rows) ==> e < r)
    && (forall e, m :: e in evicted && Span(log, e, high + 1) == serverBytes + 1 && e < m <= high ==> m in Sequences(rows))
  }

  ghost predicate Inv(s: State, l: Limits) {
    && WellLogged(s.log) && -1 <= s.high < |s.log|
    && AllLogged(s.log, s.live) && AllLogged(s.log, s.syncing)
    && AllLogged(s.log, s.wire) && WireWithinWindow(s.log, s.wire, s.high, l.serverBytes + 1)
    && Retention.Exact(s.store) && Bytes(s.store.rows) <= l.serverBytes
    && AllLogged(s.log, s.store.rows) && (forall i :: 0 <= i < |s.store.rows| ==> s.store.rows[i].sequence <= s.high)
    && EvictedBehind(s.log, s.store.rows, s.high, s.evicted, l.serverBytes)
    && (s.store.truncated <==> s.evicted != {})
  }

  // ----- spans ----------------------------------------------------------------------

  lemma {:induction false} SpanSplit(log: seq<Chunk>, a: nat, b: nat, c: int)
    requires a <= b && b <= c <= |log|
    ensures Span(log, a, c) == Span(log, a, b) + Span(log, b, c)
    decreases b - a
  {
    if a < b {
      SpanSplit(log, a + 1, b, c);
    }
  }

  lemma {:induction false} SpanIsBytes(log: seq<Chunk>, a: nat)
    requires a <= |log|
    ensures Span(log, a, |log|) == Bytes(log[a..])
    decreases |log| - a
  {
    if a < |log| {
      assert log[a..][1..] == log[a + 1..];
      SpanIsBytes(log, a + 1);
    }
  }

  lemma {:induction false} SpanOfExtendedLog(log: seq<Chunk>, c: Chunk, a: nat, b: int)
    requires b <= |log|
    ensures Span(log + [c], a, b) == Span(log, a, b)
    decreases b - a
  {
    if a < b {
      SpanOfExtendedLog(log, c, a + 1, b);
    }
  }

  /** Spans shrink from the left by at least a byte per chunk, and grow to the right. */
  lemma SpanStrict(log: seq<Chunk>, a: nat, b: nat, c: int)
    requires WellLogged(log) && a < b && a < c <= |log|
    ensures Span(log, b, c) < Span(log, a, c)
  {
    if b <= c {
      SpanSplit(log, a + 1, b, c);
    }
  }

  lemma SpanGrows(log: seq<Chunk>, a: nat, b: int, c: int)
    requires WellLogged(log) && b <= c <= |log|
    ensures Span(log, a, b) <= Span(log, a, c)
    ensures a < c && b < c ==> Span(log, a, b) < Span(log, a, c)
  {
    if a < c && b < c {
      if a < b {
        SpanSplit(log, a, b, c);
        SpanStrict(log, b, c, c);
      } else {
        SpanStrict(log, a, c, c);
      }
    }
  }

  /** Distinct logged rows from sequence `a` on weigh no more than the log they come from. */
  lemma {:induction false} RowsWithinSpan(log: seq<Chunk>, rows: seq<Chunk>, a: nat, b: int)
    requires WellLogged(log) && Increasing(rows) && AllLogged(log, rows) && b <= |log|
    requires forall i :: 0 <= i < |rows| ==> a <= rows[i].sequence < b
    ensures Bytes(rows) <= Span(log, a, b)
  {
    if rows != [] {
      var h := rows[0].sequence;
      RowsWithinSpan(log, rows[1..], h + 1, b);
      SpanSplit(log, a, h, b);
    }
  }

  /** ... and weigh strictly less when some logged chunk of that span is missing. */
  lemma {:induction false} MissingRowWeighs(log: seq<Chunk>, rows: seq<Chunk>, a: nat, b: int, m: nat)
    requires WellLogged(log) && Increasing(rows) && AllLogged(log, rows) && b <= |log|
    requires forall i :: 0 <= i < |rows| ==> a <= rows[i].sequence < b
    requires a <= m < b && m !in Sequences(rows)
    ensures Bytes(rows) < Span(log, a, b)
  {
    if rows == [] {
      SpanStrict(log, a, b, b);
    } else {
      var h := rows[0].sequence;
      SpanSplit(log, a, h, b);
      if m < h {
        SpanStrict(log, a, h, h);
        RowsWithinSpan(log, rows[1..], h + 1, b);
      } else {
        MissingRowWeighs(log, rows[1..], h + 1, b, m);
      }
    }
  }

  // ----- each step keeps the invariant ----------------------------------------------

  lemma ExtendedLogKeeps(log: seq<Chunk>, c: Chunk, chunks: seq<Chunk>)
    requires AllLogged(log, chunks)
    ensures AllLogged(log + [c], chunks)
  {
  }

  lemma ExtendedLogKeepsWindow(log: seq<Chunk>, c: Chunk, wire: seq<Chunk>, high: int, bytes: nat)
    requires high < |log| && AllLogged(log, wire) && WireWithinWindow(log, wire, high, bytes)
    ensures AllLogged(log + [c], wire) && WireWithinWindow(log + [c], wire, high, bytes)
  {
    hide Span, Bytes;
    var log' := log + [c];
    forall j | 0 <= j < |wire| ensures Span(log', wire[j].sequence, high + 1) <= bytes {
      SpanOfExtendedLog(log, c, wire[j].sequence, high + 1);
    }
    forall i, j | 0 <= i < j < |wire| ensures Span(log', wire[j].sequence, wire[i].sequence + 1) <= bytes {
      SpanOfExtendedLog(log, c, wire[j].sequence, wire[i].sequence + 1);
    }
  }

  lemma ExtendedLogKeepsEvicted(log: seq<Chunk>, c: Chunk, rows: seq<Chunk>, high: int, evicted: set<nat>, bytes: nat)
    requires high < |log| && EvictedBehind(log, rows, high, evicted, bytes)
    ensures EvictedBehind(log + [c], rows, high, evicted, bytes)
  {
    forall e | e in evicted ensures Span(log + [c], e, high + 1) == Span(log, e, high + 1) {
      SpanOfExtendedLog(log, c, e, high + 1);
    }
  }

  lemma AddKeeps(s: State, stream: Stream, data: seq<byte>, l: Limits)
    requires Inv(s, l) && 1 <= |data| <= l.agentBytes
    ensures Inv(Next(s, Add(stream, data), l), l)
  {
    hide Bytes, Sequences, Span, Increasing, EvictedBehind, WireWithinWindow;
    var c := Chunk(|s.log|, stream, data);
    ExtendedLogKeeps(s.log, c, s.store.rows);
    ExtendedLogKeeps(s.log, c, s.live);
    ExtendedLogKeeps(s.log, c, s.syncing);
    ExtendedLogKeepsWindow(s.log, c, s.wire, s.high, l.serverBytes + 1);
    ExtendedLogKeepsEvicted(s.log, c, s.store.rows, s.high, s.evicted, l.serverBytes);
  }

  lemma WireSnoc(log: seq<Chunk>, wire: seq<Chunk>, high: int, bytes: nat, c: Chunk)
    requires high < |log| && AllLogged(log, wire) && WireWithinWindow(log, wire, high, bytes)
    requires Logged(log, c) && Span(log, c.sequence, high + 1) <= bytes
    requires forall i :: 0 <= i < |wire| ==> Span(log, c.sequence, wire[i].sequence + 1) <= bytes
    ensures AllLogged(log, wire + [c]) && WireWithinWindow(log, wire + [c], high, bytes)
  {
    hide Span;
  }

  /** A recent chunk may join the wire. */
  lemma RecentJoins(log: seq<Chunk>, wire: seq<Chunk>, high: int, bytes: nat, c: Chunk)
    requires WellLogged(log) && high < |log| && AllLogged(log, wire) && WireWithinWindow(log, wire, high, bytes)
    requires Logged(log, c) && Span(log, c.sequence, |log|) <= bytes
    ensures AllLogged(log, wire + [c]) && WireWithinWindow(log, wire + [c], high, bytes)
  {
    hide Span, WellLogged, WireWithinWindow;
    SpanGrows(log, c.sequence, high + 1, |log|);
    forall i | 0 <= i < |wire| ensures Span(log, c.sequence, wire[i].sequence + 1) <= bytes {
      SpanGrows(log, c.sequence, wire[i].sequence + 1, |log|);
    }
    WireSnoc(log, wire, high, bytes, c);
  }

  /** A frame that goes out, whichever chunk of the log it carries. */
  lemma SendKeeps(s: State, s': State, c: Chunk, l: Limits)
    requires Inv(s, l) && Logged(s.log, c) && Recent(s, c, l)
    requires s' == s.(live := s'.live, syncing := s'.syncing, wire := s.wire + [c])
    requires AllLogged(s.log, s'.live) && AllLogged(s.log, s'.syncing)
    ensures Inv(s', l)
  {
    RecentJoins(s.log, s.wire, s.high, l.serverBytes + 1, c);
    hide Bytes, Sequences, Span, Increasing, EvictedBehind, WireWithinWindow;
  }

  lemma WithoutOneLogged(log: seq<Chunk>, chunks: seq<Chunk>, k: nat)
    requires AllLogged(log, chunks) && k < |chunks|
    ensures AllLogged(log, chunks[..k] + chunks[k + 1..]) && Logged(log, chunks[k])
  {
  }

  /** What a snapshot of the buffer holds is logged, and within the agent's limit. */
  lemma SnapshotWithin(log: seq<Chunk>, l: Limits, after: int, c: Chunk)
    requires WellLogged(log) && c in Above(ReplayBuffer.Retained(log, l.maxChunks, l.agentBytes), after)
    ensures Logged(log, c) && Span(log, c.sequence, |log|) <= l.agentBytes
  {
    var start := ReplayBuffer.LongestSuffix(log, l.maxChunks, l.agentBytes);
    AboveMembers(log[start..], after, c);
    var i :| 0 <= i < |log| - start && log[start..][i] == c;
    assert log[start + i] == c;
    assert ReplayBuffer.Fits(log[start + i..], l.maxChunks, l.agentBytes);
    SpanIsBytes(log, start + i);
  }

  lemma SnapshotLogged(log: seq<Chunk>, l: Limits, after: int)
    requires WellLogged(log)
    ensures AllLogged(log, Above(ReplayBuffer.Retained(log, l.maxChunks, l.agentBytes), after))
  {
    var chunks := Above(ReplayBuffer.Retained(log, l.maxChunks, l.agentBytes), after);
    forall i | 0 <= i < |chunks| ensures Logged(log, chunks[i]) {
      SnapshotWithin(log, l, after, chunks[i]);
    }
  }

  /** What persisting one batch does to a store, as far as sequences and sizes go. */
  ghost predicate Persisted(rows: seq<Chunk>, batch: seq<Chunk>, union: seq<Chunk>, k: nat, store': Retention.Store, cap: nat) {
    && Increasing(union) && Sequences(union) == Sequences(rows) + Sequences(batch) && k <= |union|
    && (forall i :: 0 <= i < |union| ==> union[i] in rows || union[i] in batch)
    && store'.rows == union[k..] && Retention.Exact(store') && Bytes(union[k..]) <= cap
    && (forall i :: 0 <= i < k ==> Bytes(union[i..]) > cap)
  }

  lemma UnionOfBatch(rows: seq<Chunk>, batch: seq<Chunk>)
    requires Increasing(rows)
    ensures var union := Retention.InsertAll(rows, Retention.NewChunks(rows, batch));
            && Increasing(union) && Sequences(union) == Sequences(rows) + Sequences(batch)
            && forall i :: 0 <= i < |union| ==> union[i] in rows || union[i] in batch
  {
    hide Sequences, Retention.InsertAll, Retention.Without, Increasing;
    var added := Retention.NewChunks(rows, batch);
    var union := Retention.InsertAll(rows, added);
    Retention.InsertAllTable(rows, added);
    Retention.WithoutSequences(batch, Sequences(rows));
    forall i | 0 <= i < |union| ensures union[i] in rows || union[i] in batch {
      Retention.InsertAllMembers(rows, added, union[i]);
      Retention.WithoutMembers(batch, Sequences(rows), union[i]);
    }
  }

  lemma EvictedTailsOverCap(union: seq<Chunk>, cap: nat)
    ensures forall i :: 0 <= i < Retention.EvictCount(union, Bytes(union) - cap) ==> Bytes(union[i..]) > cap
  {
    hide Bytes, Retention.EvictCount;
    Retention.EvictCountMinimal(union, Bytes(union) - cap);
    forall i | 0 <= i < Retention.EvictCount(union, Bytes(union) - cap) ensures Bytes(union[i..]) > cap {
      BytesSplit(union, i);
    }
  }

  lemma PersistFacts(store: Retention.Store, batch: seq<Chunk>, cap: nat) returns (union: seq<Chunk>, k: nat)
    requires Retention.Exact(store) && Bytes(store.rows) <= cap && Retention.DistinctSequences(batch)
    ensures Persisted(store.rows, batch, union, k, Retention.Persist(store, batch, cap), cap)
    ensures Retention.Persist(store, batch, cap).truncated == (store.truncated || k > 0)
  {
    hide Bytes, Sequences, Increasing, Retention.DistinctSequences, ReplayBuffer.Retained;
    hide Retention.NewChunks, Retention.Persist, Retention.EvictCount, Retention.InsertAll, Retention.LeftByChunkIdsToRemove;
    union := Retention.InsertAll(store.rows, Retention.NewChunks(store.rows, batch));
    k := Retention.EvictCount(union, Bytes(union) - cap);
    Retention.IncrementalRetentionRefinesSimple(store, batch, cap);
    Retention.PersistDistinct(store, batch, cap);
    UnionOfBatch(store.rows, batch);
    Retention.EvictionFitsTheCap(union, cap);
    EvictedTailsOverCap(union, cap);
  }

  lemma FrameWithinWindow(log: seq<Chunk>, wire: seq<Chunk>, high: int, bytes: nat, j: nat)
    requires high < |log| && AllLogged(log, wire) && WireWithinWindow(log, wire, high, bytes) && j < |wire|
    ensures Span(log, wire[j].sequence, high + 1) <= bytes
  {
  }

  /** A row that survives eviction is not, and does not lie behind, an evicted one. */
  lemma SurvivorsAheadOfOldEvicted(s: State, n: nat, union: seq<Chunk>, k: nat, store': Retention.Store, l: Limits, e: nat, i: nat)
    requires Inv(s, l) && n <= |s.wire|
    requires Persisted(s.store.rows, s.wire[..n], union, k, store', l.serverBytes)
    requires AllLogged(s.log, union) && e in s.evicted && k <= i < |union|
    ensures e < union[i].sequence
  {
    hide Bytes, Span, Sequences, WireWithinWindow;
    var c := union[i];
    if c in s.store.rows {
      SequencesMembers(s.store.rows, c.sequence);
    } else if c.sequence <= e {
      var j :| 0 <= j < n && s.wire[..n][j] == c;
      FrameWithinWindow(s.log, s.wire, s.high, l.serverBytes + 1, j);
      if c.sequence < e {
        SpanStrict(s.log, c.sequence, e, s.high + 1);
      }
      EvictedChunkGoesAgain(s.log, s.store.rows, union, k, i, s.high, l.serverBytes);
    }
  }

  /** An evicted chunk followed by nothing but stored rows does not survive its second arrival. */
  lemma EvictedChunkGoesAgain(log: seq<Chunk>, rows: seq<Chunk>, union: seq<Chunk>, k: nat, i: nat, high: int, cap: nat)
    requires WellLogged(log) && Increasing(union) && AllLogged(log, union) && high < |log|
    requires i < |union| && k <= |union| && Bytes(union[k..]) <= cap && Sequences(rows) <= Sequences(union)
    requires Span(log, union[i].sequence, high + 1) == cap + 1
    requires forall m :: union[i].sequence < m <= high ==> m in Sequences(rows)
    ensures i < k
  {
    hide Bytes, Span, Sequences;
    var e, tail := union[i].sequence, union[i..];
    SequencesMembers(union, e);
    assert union[i] in union;
    IncreasingSuffix(union, i);
    assert forall j :: 0 <= j < |tail| ==> tail[j] == union[i + j];
    forall m | e <= m <= high ensures m in Sequences(tail) {
      assert m > e ==> m in Sequences(rows);
      InSuffix(union, i, m);
    }
    CoversSpan(log, tail, e, high + 1);
    if k <= i {
      BytesSuffix(union, k, i);
    }
  }

  /** In an increasing list, sequences from position i's on are found from position i on. */
  lemma InSuffix(union: seq<Chunk>, i: nat, m: nat)
    requires Increasing(union) && i < |union| && m in Sequences(union) && m >= union[i].sequence
    ensures m in Sequences(union[i..])
  {
    SequencesMembers(union, m);
    var c :| c in union && c.sequence == m;
    var j :| 0 <= j < |union| && union[j] == c;
    assert j >= i;
    assert union[i..][j - i] == c;
    SequencesMembers(union[i..], m);
  }

  /** Rows that include every sequence of a span weigh at least as much as the span. */
  lemma {:induction false} CoversSpan(log: seq<Chunk>, rows: seq<Chunk>, a: nat, b: int)
    requires WellLogged(log) && Increasing(rows) && AllLogged(log, rows) && b <= |log|
    requires forall m :: a <= m < b ==> m in Sequences(rows)
    ensures Bytes(rows) >= Span(log, a, b)
    decreases |rows|
  {
    if a < b {
      assert a in Sequences(rows);
      forall m | a <= m < b && m != rows[0].sequence ensures m in Sequences(rows[1..]) {
        assert m in Sequences(rows);
      }
      if rows[0].sequence < a {
        CoversSpan(log, rows[1..], a, b);
      } else {
        HeadIsLeast(rows, rows[0].sequence - 1);
        assert rows[0].sequence == a;
        CoversSpan(log, rows[1..], a + 1, b);
      }
    }
  }

  /** What is newly evicted has more than the server's cap of logged output from it on. */
  lemma NewlyEvictedFarBehind(log: seq<Chunk>, union: seq<Chunk>, high: int, i: nat, cap: nat)
    requires WellLogged(log) && Increasing(union) && AllLogged(log, union) && high < |log|
    requires forall j :: 0 <= j < |union| ==> union[j].sequence <= high
    requires i < |union| && Bytes(union[i..]) > cap
    ensures Span(log, union[i].sequence, high + 1) > cap
    ensures Span(log, union[i].sequence, high + 1) == cap + 1 ==>
              forall m :: union[i].sequence <= m <= high ==> m in Sequences(union[i..])
  {
    var tail, a := union[i..], union[i].sequence;
    assert forall j :: 0 <= j < |tail| ==> tail[j] == union[i + j];
    RowsWithinSpan(log, tail, a, high + 1);
    forall m | a <= m <= high && m !in Sequences(tail)
      ensures Span(log, a, high + 1) > cap + 1
    {
      MissingRowWeighs(log, tail, a, high + 1, m);
    }
  }

  lemma HighestOfWire(log: seq<Chunk>, wire: seq<Chunk>, n: nat, high: int, bytes: nat)
    requires WellLogged(log) && high < |log| && AllLogged(log, wire) && WireWithinWindow(log, wire, high, bytes)
    requires n <= |wire|
    ensures Highest(wire[..n], high) < |log|
    ensures AllLogged(log, wire[n..]) && WireWithinWindow(log, wire[n..], Highest(wire[..n], high), bytes)
  {
    hide Span, Highest, Bytes;
    var high' := Highest(wire[..n], high);
    TailLogged(log, wire, n);
    if high' != high {
      var c :| c in wire[..n] && c.sequence == high';
      var i :| 0 <= i < n && wire[i] == c;
      TailWithin(log, wire, n, i, bytes);
    } else {
      TailStillWithin(log, wire, n, high, bytes);
    }
  }

  lemma TailLogged(log: seq<Chunk>, wire: seq<Chunk>, n: nat)
    requires AllLogged(log, wire) && n <= |wire|
    ensures AllLogged(log, wire[n..])
  {
  }

  lemma TailStillWithin(log: seq<Chunk>, wire: seq<Chunk>, n: nat, high: int, bytes: nat)
    requires high < |log| && AllLogged(log, wire) && WireWithinWindow(log, wire, high, bytes) && n <= |wire|
    ensures AllLogged(log, wire[n..]) && WireWithinWindow(log, wire[n..], high, bytes)
  {
    hide Span;
    var tail := wire[n..];
    assert forall j :: 0 <= j < |tail| ==> tail[j] == wire[n + j];
  }

  /** What follows wire[i] on the wire is within a window of wire[i]. */
  lemma TailWithin(log: seq<Chunk>, wire: seq<Chunk>, n: nat, i: nat, bytes: nat)
    requires 0 <= i < n <= |wire| && AllLogged(log, wire)
    requires forall i, j :: 0 <= i < j < |wire| ==> Span(log, wire[j].sequence, wire[i].sequence + 1) <= bytes
    ensures AllLogged(log, wire[n..]) && WireWithinWindow(log, wire[n..], wire[i].sequence, bytes)
  {
    hide Span;
    var tail := wire[n..];
    assert forall j :: 0 <= j < |tail| ==> tail[j] == wire[n + j];
  }

  /** Where the limit is met exactly, nothing has arrived since and all that follows is kept. */
  lemma ExactlyBehind(s: State, high': int, l: Limits, e: nat, m: nat)
    requires Inv(s, l) && s.high <= high' < |s.log| && e in s.evicted
    requires Span(s.log, e, high' + 1) == l.serverBytes + 1 && e < m <= high'
    ensures m in Sequences(s.store.rows)
  {
    SpanGrows(s.log, e, s.high + 1, high' + 1);
  }

  /** The premises shared by the three facts about what a delivery evicts. */
  ghost predicate Delivering(s: State, n: nat, union: seq<Chunk>, k: nat, store': Retention.Store, high': int, l: Limits) {
    && Inv(s, l) && n <= |s.wire|
    && Persisted(s.store.rows, s.wire[..n], union, k, store', l.serverBytes)
    && AllLogged(s.log, union) && s.high <= high' < |s.log|
    && (forall i :: 0 <= i < |union| ==> union[i].sequence <= high')
  }

  lemma AllEvictedFarBehind(s: State, n: nat, union: seq<Chunk>, k: nat, store': Retention.Store, high': int, l: Limits, e: nat)
    requires Delivering(s, n, union, k, store', high', l) && e in s.evicted + Sequences(union[..k])
    ensures e <= high' && Span(s.log, e, high' + 1) > l.serverBytes
  {
    hide WireWithinWindow, Bytes, Sequences, Span, Increasing;
    if e in s.evicted {
      SpanGrows(s.log, e, s.high + 1, high' + 1);
    } else {
      GoneFarBehind(s.log, union, k, high', l.serverBytes, e);
    }
  }

  lemma AllEvictedBehindRows(s: State, n: nat, union: seq<Chunk>, k: nat, store': Retention.Store, high': int, l: Limits, e: nat, r: nat)
    requires Delivering(s, n, union, k, store', high', l)
    requires e in s.evicted + Sequences(union[..k]) && r in Sequences(union[k..])
    ensures e < r
  {
    hide WireWithinWindow, Bytes, Sequences, Span, Increasing;
    Retention.PrefixBelowSuffix(union, k);
    if e in s.evicted {
      var rows' := union[k..];
      SequencesMembers(rows', r);
      var c :| c in rows' && c.sequence == r;
      var i :| 0 <= i < |rows'| && rows'[i] == c;
      SurvivorsAheadOfOldEvicted(s, n, union, k, store', l, e, k + i);
    }
  }

  lemma FollowersKept(s: State, n: nat, union: seq<Chunk>, k: nat, store': Retention.Store, high': int, l: Limits, e: nat, m: nat)
    requires Delivering(s, n, union, k, store', high', l)
    requires e in s.evicted + Sequences(union[..k])
    requires Span(s.log, e, high' + 1) == l.serverBytes + 1 && e < m <= high'
    ensures m in Sequences(union[k..])
  {
    hide WireWithinWindow, Bytes, Sequences, Span, Increasing;
    Retention.PrefixBelowSuffix(union, k);
    if e in s.evicted {
      ExactlyBehind(s, high', l, e, m);
    } else {
      GoneFarBehind(s.log, union, k, high', l.serverBytes, e);
    }
    assert m in Sequences(union);
    if m in Sequences(union[..k]) {
      GoneFarBehind(s.log, union, k, high', l.serverBytes, m);
      SpanStrict(s.log, e, m, high' + 1);
    }
  }

  lemma DeliverKeepsEvicted(s: State, n: nat, union: seq<Chunk>, k: nat, store': Retention.Store, high': int, l: Limits)
    requires Delivering(s, n, union, k, store', high', l)
    ensures EvictedBehind(s.log, union[k..], high', s.evicted + Sequences(union[..k]), l.serverBytes)
  {
    var evicted' := s.evicted + Sequences(union[..k]);
    hide Span, Bytes, Sequences, Inv, Persisted;
    forall e | e in evicted' ensures e <= high' && Span(s.log, e, high' + 1) > l.serverBytes {
      AllEvictedFarBehind(s, n, union, k, store', high', l, e);
    }
    forall e, r | e in evicted' && r in Sequences(union[k..]) ensures e < r {
      AllEvictedBehindRows(s, n, union, k, store', high', l, e, r);
    }
    forall e, m | e in evicted' && Span(s.log, e, high' + 1) == l.serverBytes + 1 && e < m <= high'
      ensures m in Sequences(union[k..])
    {
      FollowersKept(s, n, union, k, store', high', l, e, m);
    }
  }

  lemma GoneFarBehind(log: seq<Chunk>, union: seq<Chunk>, k: nat, high: int, cap: nat, e: nat)
    requires WellLogged(log) && Increasing(union) && AllLogged(log, union) && high < |log| && k <= |union|
    requires forall j :: 0 <= j < |union| ==> union[j].sequence <= high
    requires forall i :: 0 <= i < k ==> Bytes(union[i..]) > cap
    requires e in Sequences(union[..k])
    ensures e <= high && Span(log, e, high + 1) > cap
    ensures Span(log, e, high + 1) == cap + 1 ==> forall m :: e <= m <= high ==> m in Sequences(union)
  {
    hide Bytes, Span, Sequences;
    SequencesMembers(union[..k], e);
    var c :| c in union[..k] && c.sequence == e;
    var i :| 0 <= i < k && union[i] == c;
    NewlyEvictedFarBehind(log, union, high, i, cap);
    SequencesConcat(union[..i], union[i..]);
    assert union == union[..i] + union[i..];
  }

  lemma DeliverKeeps(s: State, n: nat, l: Limits)
    requires Inv(s, l) && Enabled(s, Deliver(0, n), l)
    ensures Inv(Next(s, Deliver(0, n), l), l)
  {
    hide Bytes, Sequences, Span, Increasing, EvictedBehind, WireWithinWindow, Highest, Retention.Persist;
    var batch := s.wire[..n];
    assert s.wire[0..0 + n] == batch && s.wire[..0] + s.wire[0 + n..] == s.wire[n..];
    var union, k := PersistFacts(s.store, batch, l.serverBytes);
    var store' := Retention.Persist(s.store, batch, l.serverBytes);
    var high' := Highest(batch, s.high);
    HighestOfWire(s.log, s.wire, n, s.high, l.serverBytes + 1);
    forall i | 0 <= i < |union| ensures Logged(s.log, union[i]) && union[i].sequence <= high' {
      assert union[i] in s.store.rows || union[i] in batch;
    }
    DeliverKeepsEvicted(s, n, union, k, store', high', l);
    Retention.PrefixBelowSuffix(union, k);
    EvictedSoFar(union, k);
    assert Sequences(s.store.rows) + Sequences(batch) - Sequences(store'.rows) == Sequences(union[..k]);
  }

  lemma EvictedSoFar(union: seq<Chunk>, k: nat)
    requires k <= |union|
    ensures k > 0 <==> Sequences(union[..k]) != {}
  {
    if k > 0 {
      assert union[..k][0].sequence in Sequences(union[..k]);
    }
  }

  lemma PrefixWithinWindow(log: seq<Chunk>, wire: seq<Chunk>, high: int, bytes: nat, kept: nat)
    requires high < |log| && AllLogged(log, wire) && WireWithinWindow(log, wire, high, bytes) && kept <= |wire|
    ensures AllLogged(log, wire[..kept]) && WireWithinWindow(log, wire[..kept], high, bytes)
  {
    assert forall j :: 0 <= j < kept ==> wire[..kept][j] == wire[j];
  }

  lemma StepKeeps(s: State, step: Step, l: Limits)
    requires Inv(s, l) && Enabled(s, step, l) && InOrder(step) && Fresh(s, step, l)
    ensures Inv(Next(s, step, l), l)
  {
    match step
    case Add(stream, data) => AddKeeps(s, stream, data, l);
    case SendLive(k, sent) =>
      WithoutOneLogged(s.log, s.live, k);
      if sent { SendKeeps(s, Next(s, step, l), s.live[k], l); }
    case BeginSync(after) => SnapshotLogged(s.log, l, after);
    case SendSync =>
      WithoutOneLogged(s.log, s.syncing, 0);
      assert s.syncing[..0] + s.syncing[0 + 1..] == s.syncing[1..];
      SendKeeps(s, Next(s, step, l), s.syncing[0], l);
    case AbandonSync =>
    case Deliver(_, n) => DeliverKeeps(s, n, l);
    case Lose(kept) => PrefixWithinWindow(s.log, s.wire, s.high, l.serverBytes + 1, kept);
  }

  lemma EvictedGrows(s: State, step: Step, l: Limits)
    requires Enabled(s, step, l)
    ensures s.evicted <= Next(s, step, l).evicted
  {
  }

  /** Persisting in order, and nothing sent that is not recent, in the first `j` steps. */
  ghost predicate Careful(states: seq<State>, steps: seq<Step>, l: Limits, j: nat)
    requires j <= |steps| <= |states|
  {
    forall k :: 0 <= k < j ==> InOrder(steps[k]) && Fresh(states[k], steps[k], l)
  }

  lemma {:induction false} RunKeeps(states: seq<State>, steps: seq<Step>, l: Limits, i: nat, j: nat)
    requires Run(states, steps, l) && i <= j < |states| && Careful(states, steps, l, j)
    ensures Inv(states[j], l) && states[i].evicted <= states[j].evicted
    decreases j
  {
    hide Inv, Next, Enabled, InOrder, Fresh;
    if j == 0 {
      StartInv(l);
    } else {
      RunKeeps(states, steps, l, if i < j then i else j - 1, j - 1);
      StepKeeps(states[j - 1], steps[j - 1], l);
      EvictedGrows(states[j - 1], steps[j - 1], l);
    }
  }

  lemma StartInv(l: Limits)
    ensures Inv(Start, l)
  {
  }

  /** What the server evicted is gone, everything stored is newer, and the totals are right. */
  ghost predicate NothingReturned(before: State, s: State, l: Limits) {
    && before.evicted !! Sequences(s.store.rows)
    && (forall e, r :: e in s.evicted && r in Sequences(s.store.rows) ==> e < r)
    && (s.store.truncated ==> forall r :: r in Sequences(s.store.rows) ==> r >= 1)
    && s.store.retainedBytes == Bytes(s.store.rows) <= l.serverBytes
  }

  /**
   * No resurrection. Whatever is added, sent, lost, replayed, interleaved and delivered, as long
   * as the server persists in the order it receives and no frame goes out for a chunk that lies
   * more than one byte over the server's cap behind: what the server has evicted is never stored
   * again, every stored row is newer than everything evicted, and once the output is marked
   * truncated no row carries sequence 0. ResurrectionRuns shows that both conditions are needed.
   */
  lemma NoResurrection(states: seq<State>, steps: seq<Step>, l: Limits, i: nat, j: nat)
    requires Run(states, steps, l) && i <= j < |states| && Careful(states, steps, l, j)
    ensures NothingReturned(states[i], states[j], l)
  {
    RunKeeps(states, steps, l, i, j);
    RunKeeps(states, steps, l, j, j);
  }

  // ----- when frames are recent -----------------------------------------------------

  /** A snapshot's chunks were within the agent's limit when it was taken. */
  ghost predicate SnapshotInv(s: State, l: Limits) {
    && WellLogged(s.log) && s.syncedAt <= |s.log| && AllLogged(s.log, s.syncing)
    && forall i :: 0 <= i < |s.syncing| ==>
         s.syncing[i].sequence <= s.syncedAt && Span(s.log, s.syncing[i].sequence, s.syncedAt) <= l.agentBytes
  }

  lemma SnapshotStep(s: State, step: Step, l: Limits)
    requires SnapshotInv(s, l) && Enabled(s, step, l)
    ensures SnapshotInv(Next(s, step, l), l)
  {
    hide Span, Bytes, Sequences, Highest, Retention.Persist, ReplayBuffer.Retained, Above, Retention.DistinctSequences;
    match step
    case Add(stream, data) =>
      var c := Chunk(|s.log|, stream, data);
      ExtendedLogKeeps(s.log, c, s.syncing);
      forall i | 0 <= i < |s.syncing|
        ensures Span(s.log + [c], s.syncing[i].sequence, s.syncedAt) == Span(s.log, s.syncing[i].sequence, s.syncedAt)
      {
        SpanOfExtendedLog(s.log, c, s.syncing[i].sequence, s.syncedAt);
      }
    case BeginSync(after) =>
      SnapshotLogged(s.log, l, after);
      var chunks := Above(ReplayBuffer.Retained(s.log, l.maxChunks, l.agentBytes), after);
      forall i | 0 <= i < |chunks| ensures Span(s.log, chunks[i].sequence, |s.log|) <= l.agentBytes {
        SnapshotWithin(s.log, l, after, chunks[i]);
      }
    case SendSync =>
    case _ =>
  }

  lemma {:induction false} SnapshotRun(states: seq<State>, steps: seq<Step>, l: Limits, n: nat)
    requires Run(states, steps, l) && n < |states|
    ensures SnapshotInv(states[n], l)
    decreases n
  {
    hide Next, Enabled;
    if n > 0 {
      SnapshotRun(states, steps, l, n - 1);
      SnapshotStep(states[n - 1], steps[n - 1], l);
    }
  }

  /**
   * A sync's frames are recent as long as, since its snapshot, no more has been added than the
   * server keeps beyond the agent: one byte more than serverBytes - agentBytes, which by default
   * is 6 MiB. A live frame goes out right after its chunk was added, so little comes in between.
   */
  predicate Steady(s: State, step: Step, l: Limits) {
    match step
    case SendSync => s.syncedAt <= |s.log| && Span(s.log, s.syncedAt, |s.log|) + l.agentBytes <= l.serverBytes + 1
    case SendLive(_, _) => Fresh(s, step, l)
    case _ => true
  }

  lemma SteadyIsFresh(s: State, step: Step, l: Limits)
    requires Inv(s, l) && SnapshotInv(s, l) && Enabled(s, step, l) && Steady(s, step, l)
    ensures Fresh(s, step, l)
  {
    if step == SendSync {
      SpanSplit(s.log, s.syncing[0].sequence, s.syncedAt, |s.log|);
    }
  }

  /** The same in terms of what is added while a sync runs. */
  lemma NoResurrectionWhileSteady(states: seq<State>, steps: seq<Step>, l: Limits, i: nat, j: nat)
    requires Run(states, steps, l) && i <= j < |states|
    requires forall k :: 0 <= k < j ==> InOrder(steps[k]) && Steady(states[k], steps[k], l)
    ensures NothingReturned(states[i], states[j], l)
  {
    hide Inv, Next, Enabled, InOrder, Fresh, Steady, SnapshotInv, NothingReturned;
    SteadyRun(states, steps, l, j);
    NoResurrection(states, steps, l, i, j);
  }

  lemma {:induction false} SteadyRun(states: seq<State>, steps: seq<Step>, l: Limits, j: nat)
    requires Run(states, steps, l) && j < |states|
    requires forall k :: 0 <= k < j ==> InOrder(steps[k]) && Steady(states[k], steps[k], l)
    ensures Careful(states, steps, l, j)
  {
    hide Inv, Next, Enabled, InOrder, Fresh, Steady, SnapshotInv;
    if j > 0 {
      SteadyRun(states, steps, l, j - 1);
      RunKeeps(states, steps, l, j - 1, j - 1);
      SnapshotRun(states, steps, l, j - 1);
      SteadyIsFresh(states[j - 1], steps[j - 1], l);
    }
  }
}
