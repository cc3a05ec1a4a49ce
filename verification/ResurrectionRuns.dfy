/**
 * When a late frame brings back what the server evicted, and three runs in which one does. Each
 * of them breaks one of the conditions under which Resurrection.NoResurrection holds.
 */
module ResurrectionRuns {
  import opened Chunks
  import opened Resurrection
  import Persistence
  import ReplayBuffer
  import Retention

  /**
   * A late frame returns exactly when there is room. Once everything logged has persisted, a chunk
   * that is no longer stored, evicted earlier, is stored again by its second arrival exactly when
   * its bytes fit beside the rows kept.
   */
  lemma LateFrameReturnsIff(store: Retention.Store, log: seq<Chunk>, cap: nat, i: nat)
    requires WellLogged(log) && Persistence.IsWindow(store, log, cap)
    requires i < |log| && i !in Sequences(store.rows)
    ensures i in Sequences(Retention.Persist(store, [log[i]], cap).rows) <==>
              |log[i].data| + Bytes(store.rows) <= cap
  {
    hide Bytes, Sequences, ReplayBuffer.Retained, Retention.DistinctSequences;
    hide Retention.Persist, Retention.NewChunks, Retention.InsertAll, Retention.EvictCount;
    var c, rows := log[i], store.rows;
    BehindTheWindow(log, rows, cap, i);
    LateInsert(rows, c);
    OfOne(c);
    BytesConcat([c], rows);
    Retention.PersistDistinct(store, [c], cap);
    FirstKeptIff(c, rows, cap);
  }

  lemma FirstKeptIff(c: Chunk, rows: seq<Chunk>, cap: nat)
    requires c.sequence !in Sequences(rows)
    ensures var union := [c] + rows;
            c.sequence in Sequences(union[Retention.EvictCount(union, Bytes(union) - cap)..]) <==> Bytes(union) <= cap
  {
    hide Bytes, Sequences;
    var union := [c] + rows;
    var k := Retention.EvictCount(union, Bytes(union) - cap);
    NothingWeighsNothing(union);
    if k == 0 {
      assert union[0..] == union;
    } else {
      assert union[k..] == rows[k - 1..];
      SuffixSequences(rows, k - 1);
    }
  }

  lemma NothingWeighsNothing(chunks: seq<Chunk>)
    ensures Bytes(chunks[..0]) == 0
    ensures chunks != [] ==> chunks[0].sequence in Sequences(chunks)
  {
  }

  lemma SuffixSequences(rows: seq<Chunk>, k: nat)
    requires k <= |rows|
    ensures Sequences(rows[k..]) <= Sequences(rows)
  {
    SequencesConcat(rows[..k], rows[k..]);
    assert rows == rows[..k] + rows[k..];
  }

  /** What the window has dropped lies before everything it holds. */
  lemma BehindTheWindow(log: seq<Chunk>, rows: seq<Chunk>, cap: nat, i: nat)
    requires WellLogged(log) && rows == ReplayBuffer.Retained(log, |log|, cap)
    requires i < |log| && i !in Sequences(rows)
    ensures log[i].sequence == i && forall j :: 0 <= j < |rows| ==> i < rows[j].sequence
  {
    var start := ReplayBuffer.LongestSuffix(log, |log|, cap);
    if start <= i {
      assert rows[i - start] == log[i];
      SequencesMembers(rows, i);
    }
  }

  lemma LateInsert(rows: seq<Chunk>, c: Chunk)
    requires c.sequence !in Sequences(rows) && forall j :: 0 <= j < |rows| ==> c.sequence < rows[j].sequence
    ensures Retention.DistinctSequences([c])
    ensures Retention.InsertAll(rows, Retention.NewChunks(rows, [c])) == [c] + rows
  {
    Retention.WithoutNothing([c], Sequences(rows));
    assert Retention.InsertAll(rows, [c]) == Retention.InsertAll([c] + rows, []);
  }

  // ----- building runs --------------------------------------------------------------

  ghost predicate AllInOrder(steps: seq<Step>) {
    forall k :: 0 <= k < |steps| ==> InOrder(steps[k])
  }

  ghost predicate AllFresh(states: seq<State>, steps: seq<Step>, l: Limits)
    requires |steps| <= |states|
  {
    forall k :: 0 <= k < |steps| ==> Fresh(states[k], steps[k], l)
  }

  /** Nothing is added while a sync runs, nor between adding a chunk and sending it. */
  predicate Quiet(s: State, step: Step) {
    match step
    case SendLive(k, _) => k < |s.live| ==> s.live[k].sequence + 1 == |s.log|
    case SendSync => s.syncedAt == |s.log|
    case _ => true
  }

  ghost predicate AllQuiet(states: seq<State>, steps: seq<Step>)
    requires |steps| <= |states|
  {
    forall k :: 0 <= k < |steps| ==> Quiet(states[k], steps[k])
  }

  lemma OneStep(states: seq<State>, steps: seq<Step>, step: Step, l: Limits)
    returns (states': seq<State>, steps': seq<Step>)
    requires Run(states, steps, l) && Enabled(states[|steps|], step, l)
    ensures Run(states', steps', l) && states'[|steps'|] == Next(states[|steps|], step, l)
    ensures |states'| == |steps'| + 1 && (AllInOrder(steps) && InOrder(step) ==> AllInOrder(steps'))
    ensures AllFresh(states, steps, l) && Fresh(states[|steps|], step, l) ==> AllFresh(states', steps', l)
    ensures AllQuiet(states, steps) && Quiet(states[|steps|], step) ==> AllQuiet(states', steps')
  {
    hide Next, Enabled, InOrder, Fresh, Quiet;
    states', steps' := states + [Next(states[|steps|], step, l)], steps + [step];
  }

  lemma NoStep(l: Limits) returns (states: seq<State>, steps: seq<Step>)
    ensures states == [Start] && steps == [] && Run(states, steps, l)
    ensures AllInOrder(steps) && AllFresh(states, steps, l) && AllQuiet(states, steps)
    ensures CaughtUp(Start, [], [], l)
  {
    states, steps := [Start], [];
  }

  /**
   * Everything added has been persisted, while `held` still waits in the server's buffer and a
   * sync has yet to send `syncing`.
   */
  ghost predicate CaughtUp(s: State, held: seq<Chunk>, syncing: seq<Chunk>, l: Limits) {
    && WellLogged(s.log) && s.live == [] && s.wire == held && s.syncing == syncing
    && Persistence.IsWindow(s.store, s.log, l.serverBytes)
    && forall m :: 0 <= m < |s.log| ==> m in s.evicted || m in Sequences(s.store.rows)
  }

  lemma IncreasingLog(log: seq<Chunk>, c: Chunk)
    requires Numbered(log) && c.sequence == |log|
    ensures Increasing(log + [c])
  {
  }

  lemma OneIsDistinct(c: Chunk)
    ensures Retention.DistinctSequences([c])
  {
  }

  function Zeros(n: nat): (r: seq<byte>)
    ensures |r| == n
  {
    seq(n, _ => 0)
  }

  /** Persisting the newest chunk, past what is held, catches up again. */
  lemma PersistNewest(s: State, held: seq<Chunk>, syncing: seq<Chunk>, c: Chunk, l: Limits)
    requires s.log != [] && CaughtUp(s.(log := s.log[..|s.log| - 1], wire := held), held, syncing, l)
    requires c == s.log[|s.log| - 1] && c.sequence + 1 == |s.log| && 1 <= |c.data|
    requires s.wire == held + [c]
    ensures Enabled(s, Deliver(|held|, 1), l) && CaughtUp(Next(s, Deliver(|held|, 1), l), held, syncing, l)
    ensures Next(s, Deliver(|held|, 1), l).log == s.log
  {
    var before, store' := s.log[..|s.log| - 1], Retention.Persist(s.store, [c], l.serverBytes);
    assert s.log == before + [c];
    DeliverNewest(s, held, c, l);
    OfOne(c);
    IncreasingLog(before, c);
    Persistence.BatchMovesWindow(s.store, before, [c], l.serverBytes);
    Accounted(|before|, s.evicted, Sequences(s.store.rows), Sequences([c]), Sequences(store'.rows));
    LoggedNewest(before, c);
    hide Bytes, Sequences, Retention.Persist, Persistence.IsWindow, Highest, Next, Enabled, WellLogged, Increasing;
    var s' := Next(s, Deliver(|held|, 1), l);
    assert forall m :: 0 <= m < |s'.log| ==> m in s'.evicted || m in Sequences(s'.store.rows);
  }

  lemma LoggedNewest(log: seq<Chunk>, c: Chunk)
    requires WellLogged(log) && c.sequence == |log| && 1 <= |c.data|
    ensures WellLogged(log + [c])
  {
  }

  lemma Accounted(n: nat, evicted: set<nat>, rows: set<nat>, batch: set<nat>, rows': set<nat>)
    requires n in batch && forall m: nat :: m < n ==> m in evicted || m in rows
    ensures forall m: nat :: m <= n ==> m in evicted + (rows + batch - rows') || m in rows'
  {
  }

  lemma DeliverNewest(s: State, held: seq<Chunk>, c: Chunk, l: Limits)
    requires s.wire == held + [c]
    ensures Enabled(s, Deliver(|held|, 1), l)
    ensures var store' := Retention.Persist(s.store, [c], l.serverBytes);
            Next(s, Deliver(|held|, 1), l) ==
              s.(wire := held, store := store', high := Highest([c], s.high),
                 evicted := s.evicted + (Sequences(s.store.rows) + Sequences([c]) - Sequences(store'.rows)))
  {
    hide Sequences, Retention.Persist, Highest;
    assert s.wire[|held|..|held| + 1] == [c] && s.wire[..|held|] + s.wire[|held| + 1..] == held;
    OneIsDistinct(c);
  }

  lemma NewestIsRecent(log: seq<Chunk>, c: Chunk)
    requires WellLogged(log) && Logged(log, c) && c.sequence + 1 == |log|
    ensures Span(log, c.sequence, |log|) == |c.data|
  {
    assert Span(log, c.sequence + 1, |log|) == 0;
  }

  lemma AddThenSendEffect(s: State, c: Chunk, l: Limits)
    requires s.live == [] && c.sequence == |s.log| && 1 <= |c.data| <= l.agentBytes && WellLogged(s.log)
    ensures var added := s.(log := s.log + [c], live := [c]);
            && Enabled(s, Add(c.stream, c.data), l) && Next(s, Add(c.stream, c.data), l) == added
            && Enabled(added, SendLive(0, true), l)
            && Next(added, SendLive(0, true), l) == s.(log := s.log + [c], wire := s.wire + [c])
            && Quiet(added, SendLive(0, true))
            && (|c.data| <= l.serverBytes + 1 ==> Fresh(added, SendLive(0, true), l))
  {
    hide Span;
    assert [] + [c] == [c] && [c][..0] + [c][0 + 1..] == [];
    NewestIsRecent(s.log + [c], c);
  }

  /** One more chunk is added and sent at once. */
  lemma AddThenSend(states: seq<State>, steps: seq<Step>, c: Chunk, l: Limits)
    returns (states': seq<State>, steps': seq<Step>)
    requires |states| == |steps| + 1 && Run(states, steps, l)
    requires var s := states[|steps|]; s.live == [] && c.sequence == |s.log| && WellLogged(s.log)
    requires 1 <= |c.data| <= l.agentBytes && |c.data| <= l.serverBytes + 1
    ensures |states'| == |steps'| + 1 && Run(states', steps', l)
    ensures var s := states[|steps|]; states'[|steps'|] == s.(log := s.log + [c], wire := s.wire + [c])
    ensures AllInOrder(steps) ==> AllInOrder(steps')
    ensures AllFresh(states, steps, l) ==> AllFresh(states', steps', l)
    ensures AllQuiet(states, steps) ==> AllQuiet(states', steps')
  {
    AddThenSendEffect(states[|steps|], c, l);
    hide Run, AllInOrder, AllFresh, AllQuiet, Next, Enabled, WellLogged;
    states', steps' := OneStep(states, steps, Add(c.stream, c.data), l);
    states', steps' := OneStep(states', steps', SendLive(0, true), l);
  }

  /** One more chunk is added, sent live and persisted, past what is held. */
  lemma AddAndPersist(states: seq<State>, steps: seq<Step>, held: seq<Chunk>, syncing: seq<Chunk>, n: nat, l: Limits)
    returns (states': seq<State>, steps': seq<Step>)
    requires |states| == |steps| + 1 && Run(states, steps, l) && CaughtUp(states[|steps|], held, syncing, l)
    requires 1 <= n <= l.agentBytes && n <= l.serverBytes + 1
    ensures |states'| == |steps'| + 1 && Run(states', steps', l) && CaughtUp(states'[|steps'|], held, syncing, l)
    ensures var log := states[|steps|].log; states'[|steps'|].log == log + [Chunk(|log|, Stdout, Zeros(n))]
    ensures AllInOrder(steps) && held == [] ==> AllInOrder(steps')
    ensures AllFresh(states, steps, l) ==> AllFresh(states', steps', l)
    ensures AllQuiet(states, steps) ==> AllQuiet(states', steps')
  {
    hide Run, AllInOrder, AllFresh, AllQuiet, Next, Enabled, WellLogged, Sequences, Persistence.IsWindow, Zeros;
    var log := states[|steps|].log;
    var c := Chunk(|log|, Stdout, Zeros(n));
    states', steps' := AddThenSend(states, steps, c, l);
    assert (log + [c])[..|log + [c]| - 1] == log;
    PersistNewest(states'[|steps'|], held, syncing, c, l);
    states', steps' := OneStep(states', steps', Deliver(|held|, 1), l);
  }

  /** Single bytes, `m` of them. */
  lemma {:induction false} AddOnes(states: seq<State>, steps: seq<Step>, held: seq<Chunk>, syncing: seq<Chunk>, m: nat, l: Limits)
    returns (states': seq<State>, steps': seq<Step>)
    requires |states| == |steps| + 1 && Run(states, steps, l) && CaughtUp(states[|steps|], held, syncing, l)
    requires 1 <= l.agentBytes
    ensures |states'| == |steps'| + 1 && Run(states', steps', l) && CaughtUp(states'[|steps'|], held, syncing, l)
    ensures states[|steps|].log <= states'[|steps'|].log
    ensures Bytes(states'[|steps'|].log) == Bytes(states[|steps|].log) + m
    ensures AllInOrder(steps) && held == [] ==> AllInOrder(steps')
    ensures AllFresh(states, steps, l) ==> AllFresh(states', steps', l)
    decreases m
  {
    hide Run, AllInOrder, AllFresh, CaughtUp, Zeros, Bytes;
    states', steps' := states, steps;
    if m > 0 {
      states', steps' := AddAndPersist(states, steps, held, syncing, 1, l);
      var log := states[|steps|].log;
      BytesSnoc(log, Chunk(|log|, Stdout, Zeros(1)));
      states', steps' := AddOnes(states', steps', held, syncing, m - 1, l);
    }
  }

  /** Two bytes over the cap, after a first chunk of one byte and a second of two: both go, and one byte is to spare. */
  lemma FirstTwoGone(s: State, held: seq<Chunk>, syncing: seq<Chunk>, l: Limits)
    requires CaughtUp(s, held, syncing, l) && |s.log| >= 3 && |s.log[0].data| == 1 && |s.log[1].data| == 2
    requires Bytes(s.log) == l.serverBytes + 2
    ensures Bytes(s.store.rows) == l.serverBytes - 1 && 0 !in Sequences(s.store.rows) && 0 in s.evicted
  {
    var start := ReplayBuffer.LongestSuffix(s.log, |s.log|, l.serverBytes);
    assert s.log[1..][1..] == s.log[2..];
    assert Bytes(s.log[1..]) == l.serverBytes + 1 && Bytes(s.log[2..]) == l.serverBytes - 1;
    assert s.store.rows == s.log[2..];
    SequencesMembers(s.log[2..], 0);
  }

  /** A caught-up server with a byte to spare stores the first chunk, evicted before, when it comes again. */
  lemma FirstReturns(states: seq<State>, steps: seq<Step>, s: State, l: Limits) returns (states': seq<State>, steps': seq<Step>)
    requires |states| == |steps| + 1 && Run(states, steps, l) && s == states[|steps|]
    requires s.log != [] && CaughtUp(s, [s.log[0]], s.syncing, l) && |s.log[0].data| == 1
    requires Bytes(s.store.rows) == l.serverBytes - 1 && 0 !in Sequences(s.store.rows) && 0 in s.evicted
    ensures Run(states', steps', l) && Returned(states'[|steps'|])
    ensures |states'| == |steps'| + 1 && (AllInOrder(steps) ==> AllInOrder(steps'))
    ensures AllFresh(states, steps, l) ==> AllFresh(states', steps', l)
    ensures AllQuiet(states, steps) ==> AllQuiet(states', steps')
  {
    hide Run, AllInOrder, AllFresh, AllQuiet, Bytes, Sequences, Retention.Persist, Persistence.IsWindow, Highest;
    OneIsDistinct(s.log[0]);
    assert s.wire[0..0 + 1] == [s.log[0]];
    LateFrameReturnsIff(s.store, s.log, l.serverBytes, 0);
    states', steps' := OneStep(states, steps, Deliver(0, 1), l);
  }

  /** Some sequence is stored although the server has evicted it: the first. */
  ghost predicate Returned(s: State) {
    0 in s.evicted && 0 in Sequences(s.store.rows)
  }

  /** From a single byte on, the log grows to two bytes over the cap. */
  lemma OverTheCap(states: seq<State>, steps: seq<Step>, held: seq<Chunk>, syncing: seq<Chunk>, l: Limits)
    returns (states': seq<State>, steps': seq<Step>)
    requires l.agentBytes >= 2 && l.serverBytes >= 3
    requires |states| == |steps| + 1 && Run(states, steps, l) && CaughtUp(states[|steps|], held, syncing, l)
    requires states[|steps|].log == [First()]
    ensures |states'| == |steps'| + 1 && Run(states', steps', l) && CaughtUp(states'[|steps'|], held, syncing, l)
    ensures var s := states'[|steps'|];
            && s.log != [] && s.log[0] == First() && Bytes(s.store.rows) == l.serverBytes - 1
            && 0 !in Sequences(s.store.rows) && 0 in s.evicted
    ensures AllInOrder(steps) && held == [] ==> AllInOrder(steps')
    ensures AllFresh(states, steps, l) ==> AllFresh(states', steps', l)
  {
    hide Run, AllInOrder, AllFresh, AllQuiet, CaughtUp, Sequences, Bytes, Zeros;
    states', steps' := AddAndPersist(states, steps, held, syncing, 2, l);
    var second := Chunk(1, Stdout, Zeros(2));
    assert states'[|steps'|].log == [First(), second];
    OfTwo(First(), second);
    states', steps' := AddOnes(states', steps', held, syncing, l.serverBytes - 3, l);
    var log := states'[|steps'|].log;
    assert log[0] == First() && log[1] == second;
    states', steps' := AddAndPersist(states', steps', held, syncing, 2, l);
    BytesSnoc(log, Chunk(|log|, Stdout, Zeros(2)));
    FirstTwoGone(states'[|steps'|], held, syncing, l);
  }

  function First(): (c: Chunk)
    ensures c.sequence == 0 && |c.data| == 1
  {
    Chunk(0, Stdout, Zeros(1))
  }

  lemma FirstReplayed(c: Chunk, l: Limits)
    requires l.agentBytes >= 1 && l.maxChunks >= 1 && |c.data| == 1
    ensures Above(ReplayBuffer.Retained([c], l.maxChunks, l.agentBytes), -1) == [c]
  {
    OfOne(c);
    assert Above([c], -1) == [c];
  }

  // ----- the runs -------------------------------------------------------------------

  /**
   * The server's cap bounds the agent's: whenever the agent keeps two bytes more than the server,
   * a run that persists in order, and adds nothing while a sync runs, stores an evicted sequence
   * again.
   */
  lemma LargerWindowRun(l: Limits) returns (states: seq<State>, steps: seq<Step>)
    requires l.agentBytes >= l.serverBytes + 2 && l.serverBytes >= 2 && l.maxChunks >= 3
    ensures |states| == |steps| + 1 && Run(states, steps, l) && AllInOrder(steps) && AllQuiet(states, steps)
    ensures Returned(states[|steps|])
  {
    hide Run, AllInOrder, AllFresh, AllQuiet, Sequences, Bytes, Zeros, Retention.Persist, ReplayBuffer.Retained, Above, Highest;
    var cap := l.serverBytes;
    states, steps := NoStep(l);
    states, steps := AddAndPersist(states, steps, [], [], 1, l);
    states, steps := AddAndPersist(states, steps, [], [], 2, l);
    states, steps := AddAndPersist(states, steps, [], [], cap - 1, l);
    var c1, c2 := Chunk(1, Stdout, Zeros(2)), Chunk(2, Stdout, Zeros(cap - 1));
    assert states[|steps|].log == [First(), c1, c2];
    OfThree(First(), c1, c2);
    FirstTwoGone(states[|steps|], [], [], l);
    WholeLogReplayed(First(), c1, c2, l);
    states, steps := OneStep(states, steps, BeginSync(-1), l);
    states, steps := OneStep(states, steps, SendSync, l);
    assert [] + [First()] == [First()];
    states, steps := FirstReturns(states, steps, states[|steps|], l);
  }

  lemma WholeLogReplayed(c0: Chunk, c1: Chunk, c2: Chunk, l: Limits)
    requires |c0.data| + |c1.data| + |c2.data| <= l.agentBytes && l.maxChunks >= 3
    ensures Above(ReplayBuffer.Retained([c0, c1, c2], l.maxChunks, l.agentBytes), -1) == [c0, c1, c2]
  {
    OfThree(c0, c1, c2);
    OfTwo(c1, c2);
    OfOne(c2);
    assert Above([c2], -1) == [c2];
    assert Above([c1, c2], -1) == [c1, c2];
  }

  /**
   * Frames must be recent, whatever the caps: a sync that has taken its snapshot while live output
   * goes on sends its frame when the chunk has long been evicted, and everything persists in the
   * order it was received.
   */
  lemma InterleavedSyncRun(l: Limits) returns (states: seq<State>, steps: seq<Step>)
    requires l.agentBytes >= 2 && l.serverBytes >= 3 && l.maxChunks >= 1
    ensures |states| == |steps| + 1 && Run(states, steps, l) && AllInOrder(steps)
    ensures Returned(states[|steps|])
  {
    hide Run, AllInOrder, AllFresh, AllQuiet, Sequences, Bytes, Zeros, Retention.Persist, ReplayBuffer.Retained, Above, Highest;
    states, steps := NoStep(l);
    states, steps := AddAndPersist(states, steps, [], [], 1, l);
    assert states[|steps|].log == [First()];
    FirstReplayed(First(), l);
    states, steps := OneStep(states, steps, BeginSync(-1), l);
    states, steps := OverTheCap(states, steps, [], [First()], l);
    states, steps := OneStep(states, steps, SendSync, l);
    assert [] + [First()] == [First()];
    states, steps := FirstReturns(states, steps, states[|steps|], l);
  }

  /** The first chunk arrives live and waits; a sync brings it again, and that persists at once. */
  lemma FirstOvertaken(l: Limits) returns (states: seq<State>, steps: seq<Step>)
    requires l.agentBytes >= 1 && l.serverBytes >= 1 && l.maxChunks >= 1
    ensures |states| == |steps| + 1 && Run(states, steps, l) && AllFresh(states, steps, l)
    ensures CaughtUp(states[|steps|], [First()], [], l) && states[|steps|].log == [First()]
  {
    hide Run, AllInOrder, AllFresh, AllQuiet, Sequences, Bytes, Span, Zeros, Above, Highest;
    hide Retention.Persist, ReplayBuffer.Retained, Persistence.IsWindow;
    var c0 := First();
    states, steps := FirstSentTwice(l);
    assert [c0][..0] == [];
    PersistNewest(states[|steps|], [c0], [], c0, l);
    states, steps := OneStep(states, steps, Deliver(1, 1), l);
  }

  lemma FirstSentTwice(l: Limits) returns (states: seq<State>, steps: seq<Step>)
    requires l.agentBytes >= 1 && l.serverBytes >= 1 && l.maxChunks >= 1
    ensures |states| == |steps| + 1 && Run(states, steps, l) && AllFresh(states, steps, l)
    ensures states[|steps|] == Start.(log := [First()], syncedAt := 1, wire := [First(), First()])
    ensures Persistence.IsWindow(Start.store, [], l.serverBytes)
  {
    hide Run, AllInOrder, AllFresh, AllQuiet, Next, Enabled, Zeros;
    var c0 := First();
    states, steps := NoStep(l);
    states, steps := AddThenSend(states, steps, c0, l);
    var s := states[|steps|];
    assert [] + [c0] == [c0];
    SyncFirst(s, l);
    states, steps := OneStep(states, steps, BeginSync(-1), l);
    states, steps := OneStep(states, steps, SendSync, l);
  }

  /** While the log holds one chunk, a sync brings it. */
  lemma SyncFirst(s: State, l: Limits)
    requires s.log == [First()] && s.syncing == [] && l.agentBytes >= 1 && l.maxChunks >= 1
    ensures var began := s.(syncing := [First()], syncedAt := 1);
            && Enabled(s, BeginSync(-1), l) && Next(s, BeginSync(-1), l) == began
            && Enabled(began, SendSync, l) && Fresh(began, SendSync, l)
            && Next(began, SendSync, l) == s.(syncedAt := 1, wire := s.wire + [First()])
  {
    hide ReplayBuffer.Retained, Above, Zeros, First;
    FirstReplayed(First(), l);
    NewestIsRecent([First()], First());
  }

  /**
   * The order is needed, whatever the caps: if synced chunks persist while a live one still waits
   * in the server's buffer, that one can be stored, evicted, and stored again when it persists,
   * although every frame was recent when it went out.
   */
  lemma OvertakingRun(l: Limits) returns (states: seq<State>, steps: seq<Step>)
    requires l.agentBytes >= 2 && l.serverBytes >= 3 && l.maxChunks >= 1
    ensures |states| == |steps| + 1 && Run(states, steps, l) && AllFresh(states, steps, l)
    ensures Returned(states[|steps|])
  {
    hide Run, AllInOrder, AllFresh, AllQuiet, Sequences, Bytes, Zeros;
    states, steps := FirstOvertaken(l);
    states, steps := OverTheCap(states, steps, [First()], [], l);
    states, steps := FirstReturns(states, steps, states[|steps|], l);
  }
}
