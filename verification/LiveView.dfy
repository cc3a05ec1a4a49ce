/**
 * One job's live stream end to end on one server instance: the agent's live frames and buffer
 * syncs, background persistence, the subscribe handler, the socket, and the viewer, interleaved
 * freely. Nothing is truncated here; see Retention for that.
 */
module LiveView {
  import opened Chunks
  import Paging
  import Persistence
  import Retention
  import opened Subscriptions
  import opened Viewer
  import opened Wrappers

  const USER: UserId := 0
  const JOB: JobId := 0

  /** Where the handler of a subscribe message stands; `begunAt` is `heard` when it began. */
  datatype Phase =
    | Idle
    | Begun(after: int, begunAt: nat)
    | Flushed(after: int, begunAt: nat)
    | Queried(after: int, begunAt: nat, page: seq<Chunk>)

  /**
   * `log` is what the agent has emitted, whether its frame got out or not; `heard` is one above
   * the greatest sequence broadcast so far. `rows` are stored, `pending` live chunks await
   * persistence, `announce` is stored by a sync and about to be broadcast. `client` is the
   * server's record of the viewer's socket, of which the viewer has read `consumed` frames;
   * `requests` are the afterSequence values of subscribe messages on their way to the server.
   */
  datatype State = State(
    log: seq<Chunk>, heard: nat, rows: seq<Chunk>, pending: seq<Chunk>, announce: seq<Chunk>,
    client: Client, phase: Phase, consumed: nat, requests: seq<int>, view: View)

  datatype Step =
    | Emit(stream: Stream, data: seq<byte>)
    | Relay(i: nat, bufferedAmount: nat)      // the live frame of log[i] arrives: broadcast it, buffer it
    | SyncStore(i: nat)                       // a sync frame of log[i] arrives and persists
    | SyncBroadcast(bufferedAmount: nat)
    | BackgroundFlush
    | Connect
    | Disconnect
    | BeginSubscribe
    | SubscribeFlush
    | SubscribeQuery
    | SubscribeSend
    | Receive

  predicate Enabled(s: State, step: Step) {
    match step
    case Emit(_, _) => true
    case Relay(i, _) => i < |s.log| && s.announce == []
    case SyncStore(i) => i < |s.log| && s.announce == []
    case SyncBroadcast(_) => s.announce != []
    case BackgroundFlush => true
    case Connect => !s.client.socket.open
    case Disconnect => true
    case BeginSubscribe => s.phase.Idle? && s.requests != []
    case SubscribeFlush => s.phase.Begun?
    case SubscribeQuery => s.phase.Flushed?
    case SubscribeSend => s.phase.Queried? && JOB in s.client.subscriptions
    case Receive => s.consumed < |s.client.socket.sent|
  }

  function Outputs(chunks: seq<Chunk>): (r: seq<Frame>)
    ensures |r| == |chunks| && forall i :: 0 <= i < |r| ==> r[i] == Output(chunks[i])
  {
    seq(|chunks|, i requires 0 <= i < |chunks| => Output(chunks[i]))
  }

  /** The frame of `c` goes to every subscriber. */
  function Broadcast(s: State, c: Chunk, bufferedAmount: nat): State {
    s.(heard := if c.sequence < s.heard then s.heard else c.sequence + 1,
       client := Handle(s.client, USER, JOB, Output(c), bufferedAmount))
  }

  /** Persisting without truncation; see FlushIsPersist. */
  function Stored(rows: seq<Chunk>, chunks: seq<Chunk>): seq<Chunk> {
    Retention.InsertAll(rows, Retention.NewChunks(rows, chunks))
  }

  function Flush(s: State): State {
    s.(rows := Stored(s.rows, s.pending), pending := [])
  }

  function Next(s: State, step: Step): State
    requires Enabled(s, step)
  {
    match step
    case Emit(stream, data) => s.(log := s.log + [Chunk(|s.log|, stream, data)])
    case Relay(i, bufferedAmount) => Broadcast(s.(pending := s.pending + [s.log[i]]), s.log[i], bufferedAmount)
    case SyncStore(i) =>
      var added := Retention.NewChunks(s.rows, [s.log[i]]);
      s.(rows := Stored(s.rows, [s.log[i]]), announce := added)
    case SyncBroadcast(bufferedAmount) => Broadcast(s.(announce := s.announce[1..]), s.announce[0], bufferedAmount)
    case BackgroundFlush => Flush(s)
    case Connect =>
      s.(client := Client(USER, Socket(true, []), map[]), phase := Idle, consumed := 0,
         requests := [s.view.lastSequence], view := OnOpen(s.view))
    case Disconnect => s.(client := s.client.(socket := s.client.socket.Close()))
    case BeginSubscribe =>
      s.(client := s.client.(subscriptions := s.client.subscriptions[JOB := Subscription(true, [])]),
         phase := Begun(s.requests[0], s.heard), requests := s.requests[1..])
    case SubscribeFlush => Flush(s).(phase := Flushed(s.phase.after, s.phase.begunAt))
    case SubscribeQuery =>
      s.(phase := Queried(s.phase.after, s.phase.begunAt, Retention.FindMany(s.rows, s.phase.after, Paging.PAGE_LIMIT)))
    case SubscribeSend =>
      var frames := Outputs(s.phase.page) + [Status] + s.client.subscriptions[JOB].queued;
      s.(phase := Idle,
         client := Client(USER, SendAll(s.client.socket, frames), s.client.subscriptions[JOB := Subscription(false, [])]))
    case Receive =>
      match s.client.socket.sent[s.consumed]
      case Output(c) => s.(consumed := s.consumed + 1, view := OnOutput(s.view, c))
      case Status =>
        s.(consumed := s.consumed + 1, view := OnStatus(s.view),
           requests := s.requests + if ReplayHasMore(s.view) then [s.view.lastSequence] else [])
  }

  /** Everything broadcast and not stored is pending, and nothing else is. */
  ghost predicate PendingCovers(log: seq<Chunk>, heard: nat, stored: nat, pending: seq<Chunk>) {
    && (forall c :: c in pending ==> c.sequence < heard && c.sequence < |log| && log[c.sequence] == c)
    && (forall k: nat :: stored <= k < heard && k < |log| ==> log[k] in pending)
  }

  /** A view opened after the stored output up to `last` was loaded, before its socket connects. */
  ghost predicate Start(s: State, last: int) {
    && Numbered(s.log) && |s.rows| <= s.heard <= |s.log| && s.rows == s.log[..|s.rows|] && s.announce == []
    && PendingCovers(s.log, s.heard, |s.rows|, s.pending)
    && -1 <= last < s.heard
    && s.client == Client(USER, Socket(false, []), map[]) && s.phase == Idle && s.consumed == 0 && s.requests == []
    && s.view == View(last, false, 0, [])
  }

  /** The condition on the backlog: when a subscription begins, at most one page is missing. */
  predicate BacklogFitsPage(s: State, step: Step) {
    step == BeginSubscribe && s.requests != [] ==> s.heard - (s.requests[0] + 1) <= Paging.PAGE_LIMIT
  }

  /** The condition on the agent's frames: a live one leaves no gap to what was broadcast, a sync none to what is stored. */
  predicate LeavesNoGap(s: State, step: Step) {
    match step
    case Relay(i, _) => i <= s.heard
    case SyncStore(i) => i <= |s.rows|
    case _ => true
  }

  ghost predicate Path(states: seq<State>, steps: seq<Step>) {
    && |states| == |steps| + 1
    && forall i :: 0 <= i < |steps| ==> Enabled(states[i], steps[i]) && states[i + 1] == Next(states[i], steps[i])
  }

  ghost predicate Run(states: seq<State>, steps: seq<Step>, last: int) {
    && Path(states, steps) && Start(states[0], last)
    && forall i :: 0 <= i < |steps| ==> BacklogFitsPage(states[i], steps[i]) && LeavesNoGap(states[i], steps[i])
  }

  // ----- reading a series of frames from a high-water mark --------------------------

  /** The mark after reading `frames`. */
  function Reach(mark: int, frames: seq<Frame>): int
    decreases |frames|
  {
    if frames == [] then mark
    else Reach(if frames[0].Output? then Max(mark, frames[0].chunk.sequence) else mark, frames[1..])
  }

  /** No output frame is read that skips a sequence. */
  predicate NoHole(mark: int, frames: seq<Frame>)
    decreases |frames|
  {
    if frames == [] then true
    else if frames[0].Output? then
      frames[0].chunk.sequence <= mark + 1 && NoHole(Max(mark, frames[0].chunk.sequence), frames[1..])
    else NoHole(mark, frames[1..])
  }

  lemma {:induction false} ReadAppended(mark: int, a: seq<Frame>, b: seq<Frame>)
    ensures Reach(mark, a + b) == Reach(Reach(mark, a), b)
    ensures NoHole(mark, a + b) <==> NoHole(mark, a) && NoHole(Reach(mark, a), b)
    ensures Reach(mark, a) >= mark
    decreases |a|
  {
    if a == [] {
      assert a + b == b;
    } else {
      assert (a + b)[1..] == a[1..] + b;
      ReadAppended(if a[0].Output? then Max(mark, a[0].chunk.sequence) else mark, a[1..], b);
    }
  }

  /** A stretch of the log that starts no later than one above the mark reads without a hole. */
  lemma {:induction false} ReadStretch(log: seq<Chunk>, i: nat, j: nat, mark: int)
    requires Numbered(log) && i <= j <= |log| && i <= mark + 1
    ensures NoHole(mark, Outputs(log[i..j])) && Reach(mark, Outputs(log[i..j])) == Max(mark, j - 1)
    decreases j - i
  {
    if i < j {
      assert Outputs(log[i..j])[1..] == Outputs(log[i + 1..j]);
      ReadStretch(log, i + 1, j, Max(mark, i));
    }
  }

  ghost predicate FramesLogged(log: seq<Chunk>, frames: seq<Frame>) {
    forall i :: 0 <= i < |frames| && frames[i].Output? ==>
      frames[i].chunk.sequence < |log| && log[frames[i].chunk.sequence] == frames[i].chunk
  }

  function Unread(s: State): seq<Frame>
    requires s.consumed <= |s.client.socket.sent|
  {
    s.client.socket.sent[s.consumed..]
  }

  /** Reading from a higher mark skips more, but makes no hole. */
  lemma {:induction false} ReadFromHigher(mark: int, higher: int, frames: seq<Frame>)
    requires mark <= higher && NoHole(mark, frames)
    ensures NoHole(higher, frames) && Reach(higher, frames) == Max(higher, Reach(mark, frames))
    decreases |frames|
  {
    if frames != [] {
      var f := frames[0];
      ReadFromHigher(if f.Output? then Max(mark, f.chunk.sequence) else mark,
                     if f.Output? then Max(higher, f.chunk.sequence) else higher, frames[1..]);
    }
  }

  lemma ReadOne(mark: int, frames: seq<Frame>, f: Frame)
    ensures Reach(mark, frames + [f]) == if f.Output? then Max(Reach(mark, frames), f.chunk.sequence) else Reach(mark, frames)
    ensures NoHole(mark, frames + [f]) <==> NoHole(mark, frames) && (f.Output? ==> f.chunk.sequence <= Reach(mark, frames) + 1)
  {
    ReadAppended(mark, frames, [f]);
    assert [f][1..] == [];
  }

  lemma StretchLogged(log: seq<Chunk>, i: nat, j: nat)
    requires Numbered(log) && i <= j <= |log|
    ensures FramesLogged(log, Outputs(log[i..j]))
  {
  }

  lemma StatusLogged(log: seq<Chunk>, frames: seq<Frame>)
    requires FramesLogged(log, frames)
    ensures FramesLogged(log, frames + [Status])
  {
  }

  lemma LoggedConcat(log: seq<Chunk>, a: seq<Frame>, b: seq<Frame>)
    requires FramesLogged(log, a) && FramesLogged(log, b)
    ensures FramesLogged(log, a + b)
  {
  }

  lemma ReadFirst(mark: int, frames: seq<Frame>)
    requires frames != []
    ensures var next := if frames[0].Output? then Max(mark, frames[0].chunk.sequence) else mark;
            && Reach(mark, frames) == Reach(next, frames[1..]) >= next
            && (NoHole(mark, frames) <==> (frames[0].Output? ==> frames[0].chunk.sequence <= mark + 1) && NoHole(next, frames[1..]))
  {
    ReadAppended(if frames[0].Output? then Max(mark, frames[0].chunk.sequence) else mark, frames[1..], []);
  }

  lemma SliceOfPrefix(log: seq<Chunk>, n: nat, i: nat, j: nat)
    requires i <= j <= n <= |log|
    ensures log[..n][i..j] == log[i..j]
  {
  }

  /** A page of the stored log is the stretch right above the cursor, at most 1000 long. */
  lemma PageOfLog(log: seq<Chunk>, stored: nat, after: int)
    requires Numbered(log) && -1 <= after < stored <= |log|
    ensures var page := Retention.FindMany(log[..stored], after, Paging.PAGE_LIMIT);
            |page| == (if stored - (after + 1) <= Paging.PAGE_LIMIT then stored - (after + 1) else Paging.PAGE_LIMIT)
            && page == log[after + 1..after + 1 + |page|]
  {
    var rows := log[..stored];
    AboveIsSuffix(rows, after, after + 1);
    hide Above, Numbered;
    var page := Retention.FindMany(rows, after, Paging.PAGE_LIMIT);
    assert page == rows[after + 1..after + 1 + |page|];
    SliceOfPrefix(log, stored, after + 1, after + 1 + |page|);
  }

  lemma EmptyPage(log: seq<Chunk>, stored: nat, after: int)
    requires Numbered(log) && stored <= after + 1 && stored <= |log|
    ensures Retention.FindMany(log[..stored], after, Paging.PAGE_LIMIT) == []
  {
    AboveIsSuffix(log[..stored], after, stored);
  }

  /** The page read after the flush covers the backlog of the subscription's beginning. */
  lemma PageCovers(log: seq<Chunk>, stored: nat, after: int, begunAt: nat)
    requires Numbered(log) && -1 <= after < |log| && begunAt <= stored <= |log|
    requires begunAt - (after + 1) <= Paging.PAGE_LIMIT
    ensures CoversBacklog(log, Retention.FindMany(log[..stored], after, Paging.PAGE_LIMIT), after, begunAt)
  {
    if after < stored {
      PageOfLog(log, stored, after);
    } else {
      EmptyPage(log, stored, after);
    }
    hide Numbered, Retention.FindMany;
  }

  // ----- persisting -----------------------------------------------------------------

  lemma {:induction false} SequencesOutgrowIndices(table: seq<Chunk>, i: nat)
    requires Increasing(table) && i < |table|
    ensures i <= table[i].sequence
  {
    if i > 0 {
      SequencesOutgrowIndices(table, i - 1);
    }
  }

  /** A table that holds every sequence below `n`, and only logged rows below `n`, is the log up to there. */
  lemma {:induction false} CompleteTable(log: seq<Chunk>, table: seq<Chunk>, n: nat, k: nat)
    requires Increasing(table) && k <= n
    requires forall m: nat :: m < n ==> m in Sequences(table)
    ensures k <= |table| && forall i :: 0 <= i < k ==> table[i].sequence == i
    decreases k
  {
    if k > 0 {
      CompleteTable(log, table, n, k - 1);
      SequencesMembers(table, k - 1);
      var c :| c in table && c.sequence == k - 1;
      var j :| 0 <= j < |table| && table[j] == c;
      SequencesOutgrowIndices(table, j);
    }
  }

  lemma TableIsLog(log: seq<Chunk>, table: seq<Chunk>, n: nat)
    requires Numbered(log) && n <= |log| && Increasing(table)
    requires forall c :: c in table ==> c.sequence < n && log[c.sequence] == c
    requires forall m: nat :: m < n ==> m in Sequences(table)
    ensures table == log[..n]
  {
    CompleteTable(log, table, n, n);
    if table != [] {
      SequencesOutgrowIndices(table, |table| - 1);
      assert table[|table| - 1] in table;
    }
    forall i | 0 <= i < n ensures table[i] == log[i] {
      assert table[i] in table;
    }
  }

  function Top(s: State): nat {
    if |s.rows| < s.heard then s.heard else |s.rows|
  }

  /** The chunks to persist are logged below `n` and, with the first `stored`, are all of the log below it. */
  lemma StoredIsPrefix(log: seq<Chunk>, stored: nat, chunks: seq<Chunk>, n: nat)
    requires Numbered(log) && stored <= n <= |log|
    requires forall c :: c in chunks ==> c.sequence < n && log[c.sequence] == c
    requires forall k: nat :: stored <= k < n ==> log[k] in chunks
    ensures Stored(log[..stored], chunks) == log[..n]
  {
    var rows := log[..stored];
    assert forall k: nat :: k < stored ==> rows[k] == log[k];
    hide Stored;
    StoredIsLog(log, rows, chunks, n);
  }

  /** Rows and chunks of a log which together are its first `n`. */
  lemma StoredIsLog(log: seq<Chunk>, rows: seq<Chunk>, chunks: seq<Chunk>, n: nat)
    requires Numbered(log) && n <= |log| && Increasing(rows)
    requires forall c :: c in rows || c in chunks ==> c.sequence < n && log[c.sequence] == c
    requires forall k: nat :: k < n ==> log[k] in rows || log[k] in chunks
    ensures Stored(rows, chunks) == log[..n]
  {
    var added := Retention.NewChunks(rows, chunks);
    var table := Retention.InsertAll(rows, added);
    Retention.InsertAllTable(rows, added);
    Retention.WithoutSequences(chunks, Sequences(rows));
    hide Bytes, Increasing, Retention.InsertAll, Retention.Without;
    forall c | c in table ensures c.sequence < n && log[c.sequence] == c {
      Retention.InsertAllMembers(rows, added, c);
      Retention.WithoutMembers(chunks, Sequences(rows), c);
    }
    forall m: nat | m < n ensures m in Sequences(table) {
      SequencesMembers(rows, m);
      SequencesMembers(chunks, m);
      assert log[m] in rows || log[m] in chunks;
    }
    TableIsLog(log, table, n);
  }

  /** While nothing has to be evicted, this is what persisting a batch does. */
  lemma FlushIsPersist(s: Retention.Store, chunks: seq<Chunk>, cap: nat)
    requires Retention.Exact(s) && s.retainedBytes + Bytes(Retention.NewChunks(s.rows, chunks)) <= cap
    ensures Retention.Persist(s, chunks, cap).rows == Stored(s.rows, chunks)
  {
    var added := Retention.NewChunks(s.rows, chunks);
    assert Retention.InsertAll(s.rows, added)[0..] == Retention.InsertAll(s.rows, added);
  }

  // ----- the invariant --------------------------------------------------------------

  ghost predicate StoreInv(s: State) {
    && Numbered(s.log) && s.heard <= |s.log| && |s.rows| <= |s.log| && s.rows == s.log[..|s.rows|]
    && PendingCovers(s.log, s.heard, |s.rows|, s.pending)
    && (if s.announce == [] then |s.rows| <= s.heard
        else |s.announce| == 1 && s.announce[0].sequence <= s.heard && s.announce[0].sequence < |s.log|
             && s.log[s.announce[0].sequence] == s.announce[0] && s.announce[0].sequence < |s.rows|
             && |s.rows| <= Max(s.heard, s.announce[0].sequence + 1))
  }

  ghost predicate ViewInv(s: State, start: int) {
    && -1 <= start <= s.view.lastSequence < Top(s) <= |s.log|
    && s.view.emitted == s.log[start + 1..s.view.lastSequence + 1]
    && s.consumed <= |s.client.socket.sent|
    && FramesLogged(s.log, Unread(s))
    && NoHole(s.view.lastSequence, Unread(s))
    && Reach(s.view.lastSequence, Unread(s)) < Top(s)
    && (forall i :: 0 <= i < |s.requests| ==> -1 <= s.requests[i] <= s.view.lastSequence)
  }

  /** What the subscribe handler has established by each of its phases. */
  ghost predicate PhaseInv(s: State) {
    && s.client.userId == USER
    && (s.phase.Idle? <==> (JOB !in s.client.subscriptions || !s.client.subscriptions[JOB].replaying))
    && (!s.phase.Idle? ==> -1 <= s.phase.after <= s.view.lastSequence && s.phase.begunAt <= s.heard
                           && s.phase.begunAt - (s.phase.after + 1) <= Paging.PAGE_LIMIT)
    && (s.phase.Flushed? ==> s.phase.begunAt <= |s.rows|)
    && (s.phase.Queried? ==> CoversBacklog(s.log, s.phase.page, s.phase.after, s.phase.begunAt)
                             && s.phase.after + 1 + |s.phase.page| <= Top(s))
  }

  /** The page is the stretch of the log right above `after`, at least up to `begunAt`. */
  ghost predicate CoversBacklog(log: seq<Chunk>, page: seq<Chunk>, after: int, begunAt: nat) {
    && -1 <= after && after + 1 + |page| <= |log| && page == log[after + 1..after + 1 + |page|]
    && begunAt <= after + 1 + |page|
  }

  /** The queue continues what had been broadcast when the subscription began, up to now unless it overflowed. */
  ghost predicate QueueInv(s: State) {
    JOB in s.client.subscriptions ==>
      var sub := s.client.subscriptions[JOB];
      if sub.replaying then
        !s.phase.Idle? ==>
        && |sub.queued| <= MAX_QUEUED && FramesLogged(s.log, sub.queued)
        && NoHole(s.phase.begunAt - 1, sub.queued) && Reach(s.phase.begunAt - 1, sub.queued) < s.heard
        && (s.client.socket.open || |sub.queued| < MAX_QUEUED ==> Reach(s.phase.begunAt - 1, sub.queued) == s.heard - 1)
      else
        && sub.queued == []
        && (s.client.socket.open ==> s.consumed <= |s.client.socket.sent| && s.heard - 1 <= Reach(s.view.lastSequence, Unread(s)))
  }

  ghost predicate Inv(s: State, start: int) {
    StoreInv(s) && ViewInv(s, start) && PhaseInv(s) && QueueInv(s)
  }

  // ----- each step keeps it ---------------------------------------------------------

  lemma EmitKeeps(s: State, start: int, stream: Stream, data: seq<byte>)
    requires Inv(s, start)
    ensures Inv(Next(s, Emit(stream, data)), start)
  {
    hide NoHole, Reach;
    var c := Chunk(|s.log|, stream, data);
    var s' := Next(s, Emit(stream, data));
    FramesStillLogged(s.log, c, Unread(s));
    assert s'.view.emitted == s'.log[start + 1..s.view.lastSequence + 1];
    assert s'.rows == s'.log[..|s'.rows|];
    if JOB in s.client.subscriptions { FramesStillLogged(s.log, c, s.client.subscriptions[JOB].queued); }
    if s.phase.Queried? { PageStillInLog(s.log, c, s.phase.after + 1, |s.phase.page|); }
  }

  lemma FramesStillLogged(log: seq<Chunk>, c: Chunk, frames: seq<Frame>)
    requires FramesLogged(log, frames)
    ensures FramesLogged(log + [c], frames)
  {
  }

  lemma PageStillInLog(log: seq<Chunk>, c: Chunk, b: nat, n: nat)
    requires b + n <= |log|
    ensures (log + [c])[b..b + n] == log[b..b + n]
  {
  }

  ghost predicate Logged(log: seq<Chunk>, c: Chunk) {
    c.sequence < |log| && log[c.sequence] == c
  }

  /** What the view is to read stays, while more has been broadcast. */
  lemma ViewFrame(s: State, s': State, start: int)
    requires ViewInv(s, start) && s.heard <= s'.heard <= |s.log|
    requires s' == s.(heard := s'.heard, client := s'.client) && s'.client.socket.sent == s.client.socket.sent
    ensures ViewInv(s', start)
  {
    hide NoHole, Reach, FramesLogged;
    assert Unread(s') == Unread(s);
  }

  /** One more frame is on its way to a view that has, or will have, read all before it. */
  lemma ViewSend(s: State, s': State, start: int, c: Chunk)
    requires ViewInv(s, start) && s.heard <= s'.heard <= |s.log| && c.sequence < s'.heard && Logged(s.log, c)
    requires s' == s.(heard := s'.heard, client := s'.client)
    requires s'.client.socket.sent == s.client.socket.sent + [Output(c)]
    requires c.sequence <= Reach(s.view.lastSequence, Unread(s)) + 1
    ensures ViewInv(s', start)
    ensures Unread(s') == Unread(s) + [Output(c)]
    ensures Reach(s.view.lastSequence, Unread(s')) == Max(Reach(s.view.lastSequence, Unread(s)), c.sequence)
  {
    hide NoHole, Reach, FramesLogged;
    assert Unread(s') == Unread(s) + [Output(c)];
    LoggedSnoc(s.log, Unread(s), c);
    ReadOne(s.view.lastSequence, Unread(s), Output(c));
  }

  /** A broadcast that leaves no gap, after the chunk has been stored or made pending. */
  lemma BroadcastKeeps(s: State, start: int, c: Chunk, bufferedAmount: nat)
    requires ViewInv(s, start) && PhaseInv(s) && QueueInv(s)
    requires c.sequence <= s.heard <= |s.log| && c.sequence < |s.log| && s.log[c.sequence] == c
    ensures var s' := Broadcast(s, c, bufferedAmount); ViewInv(s', start) && PhaseInv(s') && QueueInv(s')
  {
    hide NoHole, Reach, FramesLogged, ViewInv, CoversBacklog;
    var s' := Broadcast(s, c, bufferedAmount);
    if JOB !in s.client.subscriptions {
      ViewFrame(s, s', start);
    } else if s.client.subscriptions[JOB].replaying {
      ViewFrame(s, s', start);
      BroadcastQueues(s, c, bufferedAmount);
    } else if s.client.socket.open && bufferedAmount <= MAX_CLIENT_SEND_BACKLOG_BYTES {
      ViewSend(s, s', start, c);
    } else {
      ViewFrame(s, s', start);
    }
  }

  lemma BroadcastQueues(s: State, c: Chunk, bufferedAmount: nat)
    requires PhaseInv(s) && QueueInv(s) && JOB in s.client.subscriptions && s.client.subscriptions[JOB].replaying
    requires c.sequence <= s.heard <= |s.log| && c.sequence < |s.log| && s.log[c.sequence] == c
    ensures QueueInv(Broadcast(s, c, bufferedAmount))
  {
    hide NoHole, Reach, FramesLogged, CoversBacklog;
    var queued := s.client.subscriptions[JOB].queued;
    if !s.phase.Idle? {
      LoggedSnoc(s.log, queued, c);
      ReadOne(s.phase.begunAt - 1, queued, Output(c));
    }
  }

  lemma LoggedSnoc(log: seq<Chunk>, frames: seq<Frame>, c: Chunk)
    requires FramesLogged(log, frames) && c.sequence < |log| && log[c.sequence] == c
    ensures FramesLogged(log, frames + [Output(c)])
  {
  }

  lemma RelayKeeps(s: State, start: int, i: nat, bufferedAmount: nat)
    requires Inv(s, start) && Enabled(s, Relay(i, bufferedAmount)) && i <= s.heard
    ensures Inv(Next(s, Relay(i, bufferedAmount)), start)
  {
    var c := s.log[i];
    BroadcastKeeps(s.(pending := s.pending + [c]), start, c, bufferedAmount);
    hide ViewInv, PhaseInv, QueueInv, Handle;
  }

  /** Storing more, without a broadcast, touches nothing else. */
  lemma RowsGrow(s: State, s': State, start: int)
    requires ViewInv(s, start) && PhaseInv(s) && QueueInv(s)
    requires s' == s.(rows := s'.rows, pending := s'.pending, announce := s'.announce)
    requires |s.rows| <= |s'.rows| <= |s.log|
    ensures ViewInv(s', start) && PhaseInv(s') && QueueInv(s')
  {
    hide NoHole, Reach, FramesLogged, CoversBacklog;
  }

  lemma SyncStoreKeepsStore(s: State, i: nat)
    requires StoreInv(s) && Enabled(s, SyncStore(i)) && i <= |s.rows|
    ensures StoreInv(Next(s, SyncStore(i))) && |s.rows| <= |Next(s, SyncStore(i)).rows|
  {
    var c, n := s.log[i], if i < |s.rows| then |s.rows| else i + 1;
    StoredIsPrefix(s.log, |s.rows|, [c], n);
    SyncAnnounces(s.rows, c, i);
    hide Stored, Retention.NewChunks;
  }

  lemma SyncStoreKeeps(s: State, start: int, i: nat)
    requires Inv(s, start) && Enabled(s, SyncStore(i)) && i <= |s.rows|
    ensures Inv(Next(s, SyncStore(i)), start)
  {
    SyncStoreKeepsStore(s, i);
    assert |Next(s, SyncStore(i)).rows| <= |s.log|;
    RowsGrow(s, Next(s, SyncStore(i)), start);
    hide StoreInv, ViewInv, PhaseInv, QueueInv, Stored, Retention.NewChunks;
  }

  lemma SyncAnnounces(rows: seq<Chunk>, c: Chunk, i: nat)
    requires Numbered(rows) && c.sequence == i <= |rows|
    ensures Retention.NewChunks(rows, [c]) == if i < |rows| then [] else [c]
  {
    SequencesMembers(rows, i);
    if i < |rows| { assert rows[i] in rows; }
    var ids := Sequences(rows);
    assert [c][1..] == [] && Retention.Without([], ids) == [];
    assert Retention.Without([c], ids) == if c.sequence in ids then [] else [c];
  }

  lemma SyncBroadcastKeeps(s: State, start: int, bufferedAmount: nat)
    requires Inv(s, start) && Enabled(s, SyncBroadcast(bufferedAmount))
    ensures Inv(Next(s, SyncBroadcast(bufferedAmount)), start)
  {
    var c := s.announce[0];
    var s0 := s.(announce := []);
    assert s.announce[1..] == [];
    BroadcastKeeps(s0, start, c, bufferedAmount);
    hide ViewInv, PhaseInv, QueueInv, Handle;
  }

  lemma FlushKeeps(s: State, start: int)
    requires Inv(s, start)
    ensures Inv(Flush(s), start) && |Flush(s).rows| == Top(s) && Top(Flush(s)) == Top(s)
  {
    StoredIsPrefix(s.log, |s.rows|, s.pending, Top(s));
    hide Stored;
    RowsGrow(s, Flush(s), start);
    hide ViewInv, PhaseInv, QueueInv;
  }

  lemma ConnectKeeps(s: State, start: int)
    requires Inv(s, start) && Enabled(s, Connect)
    ensures Inv(Next(s, Connect), start)
  {
  }

  lemma BeginKeeps(s: State, start: int)
    requires Inv(s, start) && Enabled(s, BeginSubscribe) && BacklogFitsPage(s, BeginSubscribe)
    ensures Inv(Next(s, BeginSubscribe), start)
  {
  }

  lemma SubscribeFlushKeeps(s: State, start: int)
    requires Inv(s, start) && Enabled(s, SubscribeFlush)
    ensures Inv(Next(s, SubscribeFlush), start)
  {
    FlushKeeps(s, start);
    hide NoHole, Reach, Stored, FramesLogged;
  }

  lemma QueryKeeps(s: State, start: int)
    requires Inv(s, start) && s.phase.Flushed?
    ensures Inv(Next(s, SubscribeQuery), start)
  {
    hide NoHole, Reach, FramesLogged, Outputs, Retention.FindMany, CoversBacklog, Numbered, PendingCovers;
    PageCovers(s.log, |s.rows|, s.phase.after, s.phase.begunAt);
    PageWithin(s.log, |s.rows|, s.phase.after);
  }

  lemma PageWithin(log: seq<Chunk>, stored: nat, after: int)
    requires Numbered(log) && -1 <= after && stored <= |log|
    ensures |Retention.FindMany(log[..stored], after, Paging.PAGE_LIMIT)| <= if after < stored then stored - (after + 1) else 0
  {
    if after < stored { PageOfLog(log, stored, after); } else { EmptyPage(log, stored, after); }
  }

  lemma SendKeeps(s: State, start: int)
    requires Inv(s, start) && Enabled(s, SubscribeSend)
    ensures Inv(Next(s, SubscribeSend), start)
  {
    hide NoHole, Reach, SendAll, PendingCovers;
    var s' := Next(s, SubscribeSend);
    var sub, page, after, b := s.client.subscriptions[JOB], s.phase.page, s.phase.after, s.phase.begunAt;
    var frames := Outputs(page) + [Status] + sub.queued;
    SendAllAppends(s.client.socket, frames);
    if s.client.socket.open {
      var mark := Reach(s.view.lastSequence, Unread(s));
      assert Unread(s') == Unread(s) + frames;
      ReadAppended(s.view.lastSequence, Unread(s), frames);
      PageThenQueue(s.log, page, sub.queued, after, b, mark, s.heard);
      LoggedConcat(s.log, Unread(s), frames);
    }
  }

  lemma PageThenQueue(log: seq<Chunk>, page: seq<Chunk>, queued: seq<Frame>, after: int, b: nat, mark: int, heard: nat)
    requires Numbered(log) && CoversBacklog(log, page, after, b) && after <= mark
    requires NoHole(b - 1, queued) && Reach(b - 1, queued) == heard - 1 && FramesLogged(log, queued)
    ensures var frames := Outputs(page) + [Status] + queued;
            NoHole(mark, frames) && FramesLogged(log, frames)
            && Reach(mark, frames) == Max(Max(mark, after + |page|), heard - 1)
  {
    hide NoHole, Reach, FramesLogged;
    var upTo := after + 1 + |page|;
    ReadStretch(log, after + 1, upTo, mark);
    ReadOne(mark, Outputs(page), Status);
    ReadAppended(mark, Outputs(page) + [Status], queued);
    ReadFromHigher(b - 1, Max(mark, upTo - 1), queued);
    StretchLogged(log, after + 1, upTo);
    StatusLogged(log, Outputs(page));
    LoggedConcat(log, Outputs(page) + [Status], queued);
  }

  lemma ReceiveKeepsView(s: State, start: int)
    requires ViewInv(s, start) && Enabled(s, Receive) && Numbered(s.log)
    ensures var s' := Next(s, Receive);
            ViewInv(s', start) && s.view.lastSequence <= s'.view.lastSequence
            && Reach(s'.view.lastSequence, Unread(s')) == Reach(s.view.lastSequence, Unread(s))
  {
    hide NoHole, Reach;
    var s' := Next(s, Receive);
    var f := s.client.socket.sent[s.consumed];
    assert Unread(s)[0] == f && Unread(s)[1..] == Unread(s');
    ReadFirst(s.view.lastSequence, Unread(s));
    if f.Output? && f.chunk.sequence > s.view.lastSequence {
      assert s'.view.emitted == s.log[start + 1..s'.view.lastSequence + 1];
    }
    assert FramesLogged(s.log, Unread(s'));
  }

  lemma ReceiveKeeps(s: State, start: int)
    requires Inv(s, start) && Enabled(s, Receive)
    ensures Inv(Next(s, Receive), start)
  {
    ReceiveKeepsView(s, start);
    hide NoHole, Reach, Outputs, CoversBacklog, FramesLogged, Unread, OnOutput, OnStatus, PendingCovers, Numbered;
  }

  lemma StepKeeps(s: State, step: Step, start: int)
    requires Inv(s, start) && Enabled(s, step) && BacklogFitsPage(s, step) && LeavesNoGap(s, step)
    ensures Inv(Next(s, step), start)
  {
    match step
    case Emit(stream, data) => EmitKeeps(s, start, stream, data);
    case Relay(i, bufferedAmount) => RelayKeeps(s, start, i, bufferedAmount);
    case SyncStore(i) => SyncStoreKeeps(s, start, i);
    case SyncBroadcast(bufferedAmount) => SyncBroadcastKeeps(s, start, bufferedAmount);
    case BackgroundFlush => FlushKeeps(s, start);
    case Connect => ConnectKeeps(s, start);
    case Disconnect => DisconnectKeeps(s, start);
    case BeginSubscribe => BeginKeeps(s, start);
    case SubscribeFlush => SubscribeFlushKeeps(s, start);
    case SubscribeQuery => QueryKeeps(s, start);
    case SubscribeSend => SendKeeps(s, start);
    case Receive => ReceiveKeeps(s, start);
  }

  lemma DisconnectKeeps(s: State, start: int)
    requires Inv(s, start)
    ensures Inv(Next(s, Disconnect), start)
  {
    hide NoHole, Reach;
  }

  lemma StartInv(s: State, last: int)
    requires Start(s, last)
    ensures Inv(s, last)
  {
  }

  lemma {:induction false} RunKeeps(states: seq<State>, steps: seq<Step>, start: int, i: nat)
    requires Run(states, steps, start) && i < |states|
    ensures Inv(states[i], start)
    decreases i
  {
    hide Inv, Next, Enabled, Start, BacklogFitsPage, LeavesNoGap;
    if i == 0 {
      StartInv(states[0], start);
    } else {
      RunKeeps(states, steps, start, i - 1);
      StepKeeps(states[i - 1], steps[i - 1], start);
    }
  }

  predicate IsLive(s: State) {
    s.client.socket.open && JOB in s.client.subscriptions && !s.client.subscriptions[JOB].replaying
  }

  /**
   * Gap-free viewer. Through any interleaving of emitted, lost and relayed frames, buffer syncs,
   * flushes, subscribe phases, lost connections and reconnects of agent and viewer, what the view
   * has emitted is exactly the agent's output from start + 1 up to its mark: nothing twice,
   * nothing missing. Once a subscription is live and all its frames are read, that includes
   * everything broadcast so far.
   */
  lemma GapFreeViewer(states: seq<State>, steps: seq<Step>, start: int, i: nat)
    requires Run(states, steps, start) && i < |states|
    ensures var s := states[i];
            && start <= s.view.lastSequence < |s.log|
            && s.view.emitted == s.log[start + 1..s.view.lastSequence + 1]
            && (IsLive(s) && s.consumed == |s.client.socket.sent| ==> s.heard <= s.view.lastSequence + 1)
  {
    RunKeeps(states, steps, start, i);
    var s := states[i];
    if s.consumed == |s.client.socket.sent| {
      assert Unread(s) == [];
    }
  }

  // ----- the conditions are exact ---------------------------------------------------

  /** Some chunk the view has emitted is not the one that follows those before it. */
  ghost predicate Hole(s: State, start: int) {
    exists k: nat :: k < |s.view.emitted| && 0 <= start + 1 + k < |s.log| && s.view.emitted[k] != s.log[start + 1 + k]
  }

  /** A hole is never filled. */
  lemma HoleStays(s: State, step: Step, start: int)
    requires Enabled(s, step) && Hole(s, start)
    ensures Hole(Next(s, step), start)
  {
    var k: nat :| k < |s.view.emitted| && 0 <= start + 1 + k < |s.log| && s.view.emitted[k] != s.log[start + 1 + k];
    var s' := Next(s, step);
    assert s.view.emitted <= s'.view.emitted && s.log <= s'.log by { OnlyGrowing(s, step); }
    assert s'.view.emitted[k] == s.view.emitted[k] && s'.log[start + 1 + k] == s.log[start + 1 + k];
  }

  lemma OnlyGrowing(s: State, step: Step)
    requires Enabled(s, step)
    ensures s.view.emitted <= Next(s, step).view.emitted && s.log <= Next(s, step).log
  {
    hide Handle, SendAll, Stored, Outputs, Retention.FindMany;
  }

  /** A live frame makes a live, caught-up view skip output if and only if output below it has not been broadcast. */
  lemma OvertakingFrameHoleIff(s: State, start: int, i: nat)
    requires Inv(s, start) && IsLive(s) && s.consumed == |s.client.socket.sent| && Enabled(s, Relay(i, 0))
    ensures var relayed := Next(s, Relay(i, 0));
            Enabled(relayed, Receive) && (Hole(Next(relayed, Receive), start) <==> !LeavesNoGap(s, Relay(i, 0)))
  {
    assert Unread(s) == [];
    var relayed := Next(s, Relay(i, 0));
    var s' := Next(relayed, Receive);
    var m := s.view.lastSequence;
    assert relayed.client.socket.sent[s.consumed] == Output(s.log[i]);
    assert m == s.heard - 1;
    if i > s.heard {
      assert s'.view.emitted[m - start] == s.log[i] && s.log[i] != s.log[m + 1];
    } else if i > m {
      assert s'.view.emitted == s.log[start + 1..m + 2];
    }
  }

  /** A sync frame leaves the stored rows without a gap if and only if it is no further than the next one. */
  lemma SyncLeavesPrefixIff(s: State, i: nat)
    requires StoreInv(s) && Enabled(s, SyncStore(i))
    ensures var rows := Next(s, SyncStore(i)).rows; |rows| <= |s.log| && rows == s.log[..|rows|] <==> LeavesNoGap(s, SyncStore(i))
  {
    var n := |s.rows|;
    if i <= n {
      StoredIsPrefix(s.log, n, [s.log[i]], if i < n then n else i + 1);
    } else {
      StoredAbove(s.rows, s.log[i]);
      assert (s.rows + [s.log[i]])[n] == s.log[i];
    }
  }

  /**
   * What such a gap does to a viewer: after a sync frame, the page of a subscription that has
   * flushed skips output if and only if the frame left a gap and its chunk made it onto the page.
   */
  lemma SyncAheadPageIff(s: State, i: nat)
    requires StoreInv(s) && s.phase.Flushed? && -1 <= s.phase.after < |s.rows| && Enabled(s, SyncStore(i))
    ensures var queried := Next(Next(s, SyncStore(i)), SubscribeQuery);
            NoHole(s.phase.after, Outputs(queried.phase.page)) <==>
              LeavesNoGap(s, SyncStore(i)) || |s.rows| - (s.phase.after + 1) >= Paging.PAGE_LIMIT
  {
    var n, after := |s.rows|, s.phase.after;
    if i <= n {
      var n' := if i < n then n else i + 1;
      StoredIsPrefix(s.log, n, [s.log[i]], n');
      hide Stored, Retention.FindMany, NoHole, Outputs;
      PageWithoutGap(s.log, n', after);
    } else {
      StoredAbove(s.rows, s.log[i]);
      hide Stored, Retention.FindMany, NoHole, Outputs;
      PageWithGap(s.log, n, i, after);
    }
  }

  lemma PageWithoutGap(log: seq<Chunk>, n: nat, after: int)
    requires Numbered(log) && -1 <= after < n <= |log|
    ensures NoHole(after, Outputs(Retention.FindMany(log[..n], after, Paging.PAGE_LIMIT)))
  {
    PageOfLog(log, n, after);
    hide Retention.FindMany, NoHole, Reach, Outputs;
    var page := Retention.FindMany(log[..n], after, Paging.PAGE_LIMIT);
    ReadStretch(log, after + 1, after + 1 + |page|, after);
  }

  lemma PageWithGap(log: seq<Chunk>, n: nat, i: nat, after: int)
    requires Numbered(log) && -1 <= after < n < i < |log|
    ensures NoHole(after, Outputs(Retention.FindMany(log[..n] + [log[i]], after, Paging.PAGE_LIMIT))) <==>
              n - (after + 1) >= Paging.PAGE_LIMIT
  {
    var a := after + 1;
    PageOfGap(log, n, i, after);
    hide Retention.FindMany, NoHole, Reach, Outputs;
    if n - a >= Paging.PAGE_LIMIT {
      ReadStretch(log, a, a + Paging.PAGE_LIMIT, after);
    } else {
      assert Outputs(log[a..n] + [log[i]]) == Outputs(log[a..n]) + [Output(log[i])];
      ReadStretch(log, a, n, after);
      ReadAppended(after, Outputs(log[a..n]), [Output(log[i])]);
      ReadGap(n - 1, Output(log[i]));
    }
  }

  lemma PageOfGap(log: seq<Chunk>, n: nat, i: nat, after: int)
    requires Numbered(log) && -1 <= after < n < i < |log|
    ensures var a := after + 1;
            Retention.FindMany(log[..n] + [log[i]], after, Paging.PAGE_LIMIT) ==
              if n - a >= Paging.PAGE_LIMIT then log[a..a + Paging.PAGE_LIMIT] else log[a..n] + [log[i]]
  {
    var a := after + 1;
    AboveOfGap(log, n, i, after);
    hide Above, Numbered;
    if n - a >= Paging.PAGE_LIMIT {
      assert (log[a..n] + [log[i]])[..Paging.PAGE_LIMIT] == log[a..a + Paging.PAGE_LIMIT];
    }
  }

  lemma AboveOfGap(log: seq<Chunk>, n: nat, i: nat, after: int)
    requires Numbered(log) && -1 <= after < n < i < |log|
    ensures Above(log[..n] + [log[i]], after) == log[after + 1..n] + [log[i]]
  {
    var rows, a := log[..n] + [log[i]], after + 1;
    assert forall k :: 0 <= k < n ==> rows[k] == log[k];
    AboveIsSuffix(rows, after, a);
    hide Above, Numbered;
    assert rows[a..] == log[a..n] + [log[i]];
  }

  lemma ReadGap(mark: int, f: Frame)
    requires f.Output? && f.chunk.sequence > mark + 1
    ensures !NoHole(mark, [f])
  {
  }

  /** The next flush closes the gap if and only if everything before the synced chunk has been broadcast. */
  lemma FlushClosesGapIff(s: State, i: nat)
    requires StoreInv(s) && Enabled(s, SyncStore(i))
    ensures var rows := Next(Next(s, SyncStore(i)), BackgroundFlush).rows;
            |rows| <= |s.log| && rows == s.log[..|rows|] <==> i <= Top(s)
  {
    var n, top := |s.rows|, Top(s);
    assert s.rows == s.log[..n] && PendingCovers(s.log, s.heard, n, s.pending);
    hide StoreInv, Stored;
    if i <= n {
      var n' := if i < n then n else i + 1;
      StoredIsPrefix(s.log, n, [s.log[i]], n');
      StoredIsPrefix(s.log, n', s.pending, if n' < top then top else n');
    } else {
      StoredAbove(s.rows, s.log[i]);
      if i <= top {
        GapClosed(s.log, n, i, s.pending, top);
      } else {
        GapStays(s.log, n, i, s.pending, top);
      }
    }
  }

  lemma GapClosed(log: seq<Chunk>, n: nat, i: nat, pending: seq<Chunk>, top: nat)
    requires Numbered(log) && n < i <= top <= |log| && i < |log| && PendingCovers(log, top, n, pending)
    ensures var n' := if i < top then top else i + 1; Stored(log[..n] + [log[i]], pending) == log[..n']
  {
    var rows := log[..n] + [log[i]];
    assert forall k: nat :: k < n ==> rows[k] == log[k];
    assert rows[n] == log[i];
    hide Stored;
    StoredIsLog(log, rows, pending, if i < top then top else i + 1);
  }

  lemma GapStays(log: seq<Chunk>, n: nat, i: nat, pending: seq<Chunk>, top: nat)
    requires Numbered(log) && n <= top < i < |log| && PendingCovers(log, top, n, pending)
    ensures var rows := Stored(log[..n] + [log[i]], pending); |rows| > |log| || rows != log[..|rows|]
  {
    var rows := log[..n] + [log[i]];
    assert Increasing(rows) && rows[n] == log[i];
    StoredMembers(rows, pending, log[i]);
    StoredMembers(rows, pending, log[top]);
    hide Stored;
    assert log[top] !in pending && log[top] !in rows;
    var rows' := Stored(rows, pending);
    var k :| 0 <= k < |rows'| && rows'[k] == log[i];
  }

  lemma StoredMembers(rows: seq<Chunk>, chunks: seq<Chunk>, c: Chunk)
    requires Increasing(rows)
    ensures c in rows ==> c in Stored(rows, chunks)
    ensures c in Stored(rows, chunks) ==> c in rows || c in chunks
  {
    Retention.InsertAllMembers(rows, Retention.NewChunks(rows, chunks), c);
    Retention.WithoutMembers(chunks, Sequences(rows), c);
  }

  lemma StoredAbove(rows: seq<Chunk>, c: Chunk)
    requires Numbered(rows) && c.sequence >= |rows|
    ensures Stored(rows, [c]) == rows + [c]
  {
    assert Increasing(rows + [c]);
    Persistence.AllNewInOrder(rows, [c]);
    Persistence.InsertInOrder(rows, [c]);
  }

  lemma PathSnoc(states: seq<State>, steps: seq<Step>, step: Step) returns (states': seq<State>, steps': seq<Step>)
    requires |states| == |steps| + 1 && Path(states, steps) && Enabled(states[|steps|], step)
    ensures |states'| == |steps'| + 1 && Path(states', steps') && states'[0] == states[0]
    ensures states'[|steps'|] == Next(states[|steps|], step)
  {
    states', steps' := states + [Next(states[|steps|], step)], steps + [step];
    hide Next, Enabled;
  }

  /** Everything emitted is stored, and the view has seen it. */
  ghost predicate CaughtUp(s: State, last: int) {
    Start(s, last) && |s.rows| == s.heard == |s.log| == last + 1 && s.pending == []
  }

  function Subscribed(s: State): State {
    s.(client := Client(USER, Socket(true, []), map[JOB := Subscription(true, [])]), phase := Flushed(s.view.lastSequence, s.heard),
       view := OnOpen(s.view))
  }

  lemma SubscribeRun(s: State, last: int) returns (states: seq<State>, steps: seq<Step>)
    requires Start(s, last) && |s.rows| == s.heard && s.pending == []
    ensures |states| == |steps| + 1 && Path(states, steps) && states[0] == s && states[|steps|] == Subscribed(s)
  {
    states, steps := [s], [];
    assert Path(states, steps);
    assert Stored(s.rows, []) == s.rows;
    hide Path, Stored;
    states, steps := PathSnoc(states, steps, Connect);
    states, steps := PathSnoc(states, steps, BeginSubscribe);
    states, steps := PathSnoc(states, steps, SubscribeFlush);
  }

  /**
   * A lost live frame: the next one is relayed before a sync brings the lost one. The view, live
   * and caught up until then, emits the later chunk and drops the earlier one for ever.
   */
  lemma LostFrameRun(s: State, last: int, d0: seq<byte>, d1: seq<byte>) returns (states: seq<State>, steps: seq<Step>)
    requires CaughtUp(s, last)
    ensures |states| == |steps| + 1 && Path(states, steps) && states[0] == s && Hole(states[|steps|], last)
  {
    states, steps := SubscribeRun(s, last);
    hide Path, Hole;
    EmptyPage(s.log, |s.rows|, last);
    assert s.log[..|s.rows|] == s.rows;
    states, steps := PathSnoc(states, steps, SubscribeQuery);
    var query := states[|steps|];
    assert query.phase.page == [];
    SendAllAppends(Socket(true, []), [] + [Status] + []);
    states, steps := PathSnoc(states, steps, SubscribeSend);
    states, steps := PathSnoc(states, steps, Receive);
    states, steps := PathSnoc(states, steps, Emit(Stdout, d0));
    states, steps := PathSnoc(states, steps, Emit(Stdout, d1));
    states, steps := PathSnoc(states, steps, Relay(|s.log| + 1, 0));
    states, steps := PathSnoc(states, steps, Receive);
    var e := states[|steps|];
    assert e.view.emitted == [Chunk(|s.log| + 1, Stdout, d1)];
    HoleAt(e, last, 0);
  }

  lemma HoleAt(s: State, start: int, k: nat)
    requires k < |s.view.emitted| && 0 <= start + 1 + k < |s.log| && s.view.emitted[k] != s.log[start + 1 + k]
    ensures Hole(s, start)
  {
  }

  /**
   * A sync that persists ahead of a pending chunk, while a view is subscribing: the page brings
   * the later chunk, and the earlier one, queued, is dropped for ever.
   */
  lemma SyncAheadRun(s: State, last: int, d0: seq<byte>, d1: seq<byte>) returns (states: seq<State>, steps: seq<Step>)
    requires CaughtUp(s, last)
    ensures |states| == |steps| + 1 && Path(states, steps) && states[0] == s && Hole(states[|steps|], last)
  {
    var c1 := Chunk(|s.log| + 1, Stdout, d1);
    states, steps := SyncedBeforePage(s, last, d0, d1);
    hide Path, Hole;
    states, steps := PathSnoc(states, steps, SubscribeQuery);
    states, steps := PathSnoc(states, steps, SubscribeSend);
    var e := states[|steps|];
    assert Outputs([c1])[0] == Output(c1);
    SendAllAppends(Socket(true, []), Outputs([c1]) + [Status] + [Output(Chunk(|s.log|, Stdout, d0))]);
    assert e.client.socket.sent[0] == Output(c1);
    states, steps := PathSnoc(states, steps, Receive);
    assert states[|steps|].view.emitted == [c1];
    HoleAt(states[|steps|], last, 0);
  }

  /** The earlier chunk is queued and pending, the later one stored, and the page not read yet. */
  lemma SyncedBeforePage(s: State, last: int, d0: seq<byte>, d1: seq<byte>) returns (states: seq<State>, steps: seq<Step>)
    requires CaughtUp(s, last)
    ensures |states| == |steps| + 1 && Path(states, steps) && states[0] == s
    ensures var n, e := |s.log|, states[|steps|];
            var c0, c1 := Chunk(n, Stdout, d0), Chunk(n + 1, Stdout, d1);
            && e.log == s.log + [c0] + [c1] && e.phase == Flushed(last, n) && e.consumed == 0 && e.view == OnOpen(s.view)
            && e.client == Client(USER, Socket(true, []), map[JOB := Subscription(true, [Output(c0)])])
            && Retention.FindMany(e.rows, last, Paging.PAGE_LIMIT) == [c1]
  {
    var n := |s.log|;
    states, steps := SubscribeRun(s, last);
    hide Path;
    states, steps := PathSnoc(states, steps, Emit(Stdout, d0));
    states, steps := PathSnoc(states, steps, Emit(Stdout, d1));
    var c0 := Chunk(n, Stdout, d0);
    assert states[|steps|].log[n] == c0;
    states, steps := PathSnoc(states, steps, Relay(n, 0));
    assert states[|steps|].client.subscriptions[JOB] == Subscription(true, [Output(c0)]);
    assert states[|steps|].client.subscriptions == map[JOB := Subscription(true, [Output(Chunk(n, Stdout, d0))])];
    assert states[|steps|].log[n + 1] == Chunk(n + 1, Stdout, d1) && |s.rows| - 1 == last;
    assert s.rows == s.log by { assert s.log[..|s.rows|] == s.log; }
    StoredAbove(s.rows, Chunk(n + 1, Stdout, d1));
    SyncedAhead(s.rows, Chunk(n + 1, Stdout, d1));
    hide Stored, Retention.FindMany;
    states, steps := PathSnoc(states, steps, SyncStore(n + 1));
  }

  lemma SyncedAhead(rows: seq<Chunk>, c: Chunk)
    requires Numbered(rows) && c.sequence >= |rows|
    ensures Retention.NewChunks(rows, [c]) == [c]
    ensures Retention.FindMany(rows + [c], |rows| - 1, Paging.PAGE_LIMIT) == [c]
  {
    assert Increasing(rows + [c]);
    Persistence.AllNewInOrder(rows, [c]);
    AboveIsSuffix(rows + [c], |rows| - 1, |rows|);
    assert (rows + [c])[|rows|..] == [c];
  }

  /**
   * The condition is exact. Take a view that has read everything up to `after` and subscribes
   * when `begunAt` chunks have been relayed; `stored` of them and their successors are
   * persisted when the page is read, and the chunks from `begunAt` on were queued. It reads
   * page and queue without a hole if and only if nothing was queued or the backlog at the
   * beginning fitted the page.
   */
  lemma HoleIffBacklogExceedsPage(log: seq<Chunk>, after: int, begunAt: nat, stored: nat)
    requires Numbered(log) && -1 <= after < begunAt <= stored <= |log|
    ensures var page := Retention.FindMany(log[..stored], after, Paging.PAGE_LIMIT);
            NoHole(after, Outputs(page) + [Status] + Outputs(log[begunAt..])) <==>
              begunAt == |log| || begunAt - (after + 1) <= Paging.PAGE_LIMIT
  {
    PageOfLog(log, stored, after);
    var page := Retention.FindMany(log[..stored], after, Paging.PAGE_LIMIT);
    var upTo := after + 1 + |page|;
    assert begunAt <= upTo <==> begunAt - (after + 1) <= Paging.PAGE_LIMIT;
    hide Retention.FindMany, Above;
    ReadStretch(log, after + 1, upTo, after);
    ReadOne(after, Outputs(page), Status);
    var queue := Outputs(log[begunAt..]);
    ReadAppended(after, Outputs(page) + [Status], queue);
    assert log[begunAt..|log|] == log[begunAt..];
    if begunAt <= upTo {
      ReadStretch(log, begunAt, |log|, upTo - 1);
    } else if begunAt < |log| {
      assert queue[0] == Output(log[begunAt]);
    }
  }

  /** A fresh view with more than a page to catch up on: everything from its mark on is stored. */
  ghost predicate Behind(s: State, last: int) {
    Start(s, last) && |s.rows| == s.heard == |s.log| && s.pending == [] && s.heard - (last + 1) > Paging.PAGE_LIMIT
  }

  function FirstPage(s: State, last: int): seq<Chunk>
    requires Numbered(s.log) && -1 <= last && last + 1 + Paging.PAGE_LIMIT <= |s.log|
  {
    s.log[last + 1..last + 1 + Paging.PAGE_LIMIT]
  }

  /** It subscribes, and its first page is read. */
  lemma PageRead(s: State, last: int) returns (states: seq<State>, steps: seq<Step>)
    requires Behind(s, last)
    ensures |states| == |steps| + 1 && Path(states, steps) && states[0] == s
    ensures states[|steps|] == Subscribed(s).(phase := Queried(last, s.heard, FirstPage(s, last)))
  {
    states, steps := SubscribeRun(s, last);
    FirstPageRead(s, last);
    hide Path, Retention.FindMany, FirstPage;
    states, steps := PathSnoc(states, steps, SubscribeQuery);
  }

  lemma FirstPageRead(s: State, last: int)
    requires Behind(s, last)
    ensures Retention.FindMany(s.rows, last, Paging.PAGE_LIMIT) == FirstPage(s, last)
  {
    assert s.log[..|s.log|] == s.log;
    PageOfLog(s.log, |s.log|, last);
  }

  /** A live frame is queued before the page is sent. */
  lemma QueuedBehindPage(s: State, last: int, d: seq<byte>) returns (states: seq<State>, steps: seq<Step>)
    requires Behind(s, last)
    ensures |states| == |steps| + 1 && Path(states, steps) && states[0] == s
    ensures var c, e := Chunk(|s.log|, Stdout, d), states[|steps|];
            && e.log == s.log + [c] && e.consumed == 0 && e.view == OnOpen(s.view)
            && e.client.socket.sent == Outputs(FirstPage(s, last)) + [Status] + [Output(c)]
  {
    var n := |s.log|;
    var c := Chunk(n, Stdout, d);
    states, steps := PageRead(s, last);
    hide Path, FirstPage;
    states, steps := PathSnoc(states, steps, Emit(Stdout, d));
    states, steps := PathSnoc(states, steps, Relay(n, 0));
    var q := states[|steps|];
    assert q.client.subscriptions[JOB] == Subscription(true, [Output(c)]);
    SendAllAppends(Socket(true, []), Outputs(FirstPage(s, last)) + [Status] + [Output(c)]);
    hide Handle, Outputs;
    states, steps := PathSnoc(states, steps, SubscribeSend);
  }

  /** The view reads the rest of a page, frame by frame. */
  lemma {:induction false} ReadPage(states: seq<State>, steps: seq<Step>, page: seq<Chunk>, k: nat)
    returns (states': seq<State>, steps': seq<Step>)
    requires |states| == |steps| + 1 && Path(states, steps) && k <= |page|
    requires var s := states[|steps|];
             && s.consumed == k && |page| <= |s.client.socket.sent| && s.client.socket.sent[..|page|] == Outputs(page)
             && s.view.emitted == page[..k] && (k < |page| ==> s.view.lastSequence < page[k].sequence)
             && (k > 0 ==> s.view.lastSequence == page[k - 1].sequence)
    requires Increasing(page)
    ensures |states'| == |steps'| + 1 && Path(states', steps') && states'[0] == states[0]
    ensures var s, s' := states[|steps|], states'[|steps'|];
            s'.consumed == |page| && s'.client == s.client && s'.log == s.log && s'.view.emitted == page
            && (page != [] ==> s'.view.lastSequence == page[|page| - 1].sequence)
    decreases |page| - k
  {
    hide Path;
    if k == |page| {
      states', steps' := states, steps;
      assert page[..k] == page;
    } else {
      var s := states[|steps|];
      assert s.client.socket.sent[k] == Outputs(page)[k];
      assert page[..k + 1] == page[..k] + [page[k]];
      states', steps' := PathSnoc(states, steps, Receive);
      states', steps' := ReadPage(states', steps', page, k + 1);
    }
  }

  /**
   * More than one page behind, with a live frame queued meanwhile: after the page the view emits
   * that frame, and what lies between them is dropped for ever.
   */
  lemma PageHoleRun(s: State, last: int, d: seq<byte>) returns (states: seq<State>, steps: seq<Step>)
    requires Behind(s, last)
    ensures |states| == |steps| + 1 && Path(states, steps) && states[0] == s && Hole(states[|steps|], last)
  {
    states, steps := QueuedBehindPage(s, last, d);
    hide Path, Hole;
    var c := Chunk(|s.log|, Stdout, d);
    var page := FirstPage(s, last);
    assert page[0] == s.log[last + 1] && page[|page| - 1] == s.log[last + Paging.PAGE_LIMIT];
    states, steps := ReadPage(states, steps, page, 0);
    states, steps := PathSnoc(states, steps, Receive);
    states, steps := PathSnoc(states, steps, Receive);
    var e := states[|steps|];
    assert e.view.emitted == page + [c] && e.view.emitted[Paging.PAGE_LIMIT] == c;
    HoleAt(e, last, Paging.PAGE_LIMIT);
  }
}
