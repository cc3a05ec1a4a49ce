/**
 * Catching up page by page. LiveView lets output be broadcast at any moment, and then needs the
 * backlog of a subscription to fit one page; here nothing is broadcast to a view that is still
 * catching up, and the backlog is whatever it is. Agents, syncs, flushes, lost sockets and
 * reconnects go on as there.
 */
module PagedReplay {
  import opened Chunks
  import opened LiveView
  import Paging
  import Retention
  import opened Subscriptions
  import opened Viewer
  import opened Wrappers

  /** The view expects nothing more of a replay. */
  predicate Done(s: State) {
    s.phase.Idle? && s.requests == [] && !s.view.awaitingReplay
  }

  /** Nothing is broadcast to an open subscription that is still catching up. */
  predicate Calm(s: State, step: Step) {
    (step.Relay? || step.SyncBroadcast?) && s.client.socket.open && JOB in s.client.subscriptions ==> Done(s)
  }

  ghost predicate CalmRun(states: seq<State>, steps: seq<Step>, last: int) {
    && Path(states, steps) && Start(states[0], last)
    && forall i :: 0 <= i < |steps| ==> LeavesNoGap(states[i], steps[i]) && Calm(states[i], steps[i])
  }

  // ----- the invariant --------------------------------------------------------------

  ghost predicate IsLiveSubscription(s: State) {
    JOB in s.client.subscriptions && s.client.subscriptions[JOB] == Subscription(false, [])
  }

  /** A page has been asked for, and everything before it has been read. */
  ghost predicate Asking(s: State)
    requires s.consumed <= |s.client.socket.sent|
  {
    && s.requests == [s.view.lastSequence] && s.phase.Idle? && Unread(s) == []
    && s.view.awaitingReplay && s.view.replayBatchCount == 0
    && (JOB in s.client.subscriptions ==> IsLiveSubscription(s))
  }

  /** A page right above the mark; one that is not full goes up to everything broadcast. */
  ghost predicate PageAbove(log: seq<Chunk>, page: seq<Chunk>, mark: int, heard: nat) {
    && -1 <= mark && mark + 1 + |page| <= |log| && page == log[mark + 1..mark + 1 + |page|] && |page| <= Paging.PAGE_LIMIT
    && (|page| < Paging.PAGE_LIMIT ==> heard <= mark + 1 + |page|)
  }

  /** The subscribe handler is at work. */
  ghost predicate Handling(s: State)
    requires s.consumed <= |s.client.socket.sent|
  {
    && s.requests == [] && !s.phase.Idle? && s.phase.after == s.view.lastSequence && Unread(s) == []
    && s.view.awaitingReplay && s.view.replayBatchCount == 0
    && JOB in s.client.subscriptions && s.client.subscriptions[JOB] == Subscription(true, [])
    && (s.phase.Flushed? ==> s.heard <= |s.rows|)
    && (s.phase.Queried? ==> PageAbove(s.log, s.phase.page, s.view.lastSequence, s.heard)
                             && s.view.lastSequence + |s.phase.page| < Top(s))
  }

  /** The view is reading a page; `n` chunks and the status are still to be read. */
  ghost predicate Reading(s: State)
    requires s.consumed <= |s.client.socket.sent|
  {
    var n, mark := |Unread(s)| - 1, s.view.lastSequence;
    && s.requests == [] && s.phase.Idle? && s.view.awaitingReplay && IsLiveSubscription(s)
    && 0 <= n && -1 <= mark && mark + 1 + n <= |s.log| && Unread(s) == Outputs(s.log[mark + 1..mark + 1 + n]) + [Status]
    && s.view.replayBatchCount + n <= Paging.PAGE_LIMIT
    && (s.view.replayBatchCount + n < Paging.PAGE_LIMIT ==> s.heard <= mark + 1 + n)
  }

  /** The replay is over, and what is on its way reaches everything broadcast. */
  ghost predicate Live(s: State)
    requires s.consumed <= |s.client.socket.sent|
  {
    Done(s) && IsLiveSubscription(s) && s.heard - 1 <= Reach(s.view.lastSequence, Unread(s))
  }

  ghost predicate CalmInv(s: State, start: int) {
    && StoreInv(s) && ViewInv(s, start) && s.client.userId == USER
    && (s.client.socket.open ==> Asking(s) || Handling(s) || Reading(s) || Live(s))
  }

  // ----- each step keeps it ---------------------------------------------------------

  lemma EmitCalm(s: State, start: int, stream: Stream, data: seq<byte>)
    requires CalmInv(s, start)
    ensures CalmInv(Next(s, Emit(stream, data)), start)
  {
    hide NoHole, Reach;
    var c := Chunk(|s.log|, stream, data);
    var s' := Next(s, Emit(stream, data));
    FramesStillLogged(s.log, c, Unread(s));
    assert Unread(s') == Unread(s);
    assert s'.view.emitted == s'.log[start + 1..s.view.lastSequence + 1];
    assert s'.rows == s'.log[..|s'.rows|];
    EmitStage(s, s', c);
    hide Asking, Handling, Reading, Live;
  }

  lemma EmitStage(s: State, s': State, c: Chunk)
    requires s.consumed <= |s.client.socket.sent| && s' == s.(log := s.log + [c])
    requires s.client.socket.open ==> Asking(s) || Handling(s) || Reading(s) || Live(s)
    ensures s.client.socket.open ==> Asking(s') || Handling(s') || Reading(s') || Live(s')
  {
    hide NoHole, Reach;
    assert Unread(s') == Unread(s);
    if s.client.socket.open {
      if Handling(s) && s.phase.Queried? {
        PageStillInLog(s.log, c, s.view.lastSequence + 1, |s.phase.page|);
      } else if Reading(s) {
        PageStillInLog(s.log, c, s.view.lastSequence + 1, |Unread(s)| - 1);
      }
    }
  }

  lemma BroadcastCalm(s: State, start: int, c: Chunk, bufferedAmount: nat)
    requires ViewInv(s, start) && s.client.userId == USER
    requires s.client.socket.open ==> Asking(s) || Handling(s) || Reading(s) || Live(s)
    requires c.sequence <= s.heard <= |s.log| && c.sequence < |s.log| && s.log[c.sequence] == c
    requires s.client.socket.open && JOB in s.client.subscriptions ==> Done(s)
    ensures var s' := Broadcast(s, c, bufferedAmount);
            && ViewInv(s', start) && s'.client.userId == USER
            && (s'.client.socket.open ==> Asking(s') || Handling(s') || Reading(s') || Live(s'))
  {
    hide NoHole, Reach;
    var s' := Broadcast(s, c, bufferedAmount);
    if s.client.socket.open && JOB in s.client.subscriptions {
      assert Live(s);
      LoggedSnoc(s.log, Unread(s), c);
      ReadOne(s.view.lastSequence, Unread(s), Output(c));
      if bufferedAmount <= MAX_CLIENT_SEND_BACKLOG_BYTES {
        assert s'.client.socket.sent == s.client.socket.sent + [Output(c)];
        assert Unread(s') == Unread(s) + [Output(c)];
      }
    } else {
      assert s'.client.socket == s.client.socket;
      assert Unread(s') == Unread(s);
    }
  }

  lemma RelayCalm(s: State, start: int, i: nat, bufferedAmount: nat)
    requires CalmInv(s, start) && Enabled(s, Relay(i, bufferedAmount)) && i <= s.heard && Calm(s, Relay(i, bufferedAmount))
    ensures CalmInv(Next(s, Relay(i, bufferedAmount)), start)
  {
    var c := s.log[i];
    BroadcastCalm(s.(pending := s.pending + [c]), start, c, bufferedAmount);
    hide ViewInv, Asking, Handling, Reading, Live, Handle;
  }

  lemma SyncBroadcastCalm(s: State, start: int, bufferedAmount: nat)
    requires CalmInv(s, start) && Enabled(s, SyncBroadcast(bufferedAmount)) && Calm(s, SyncBroadcast(bufferedAmount))
    ensures CalmInv(Next(s, SyncBroadcast(bufferedAmount)), start)
  {
    var c := s.announce[0];
    var s0 := s.(announce := []);
    assert s.announce[1..] == [];
    BroadcastCalm(s0, start, c, bufferedAmount);
    hide ViewInv, Asking, Handling, Reading, Live, Handle;
  }

  /** Storing more, without a broadcast, touches nothing else. */
  lemma RowsGrowCalm(s: State, s': State, start: int)
    requires CalmInv(s, start) && StoreInv(s')
    requires s' == s.(rows := s'.rows, pending := s'.pending, announce := s'.announce)
    requires |s.rows| <= |s'.rows| <= |s.log|
    ensures CalmInv(s', start)
  {
    hide StoreInv, NoHole, Reach, FramesLogged;
    assert Unread(s') == Unread(s);
  }

  lemma FlushStore(s: State)
    requires StoreInv(s)
    ensures StoreInv(Flush(s)) && |Flush(s).rows| == Top(s) && Top(Flush(s)) == Top(s)
  {
    StoredIsPrefix(s.log, |s.rows|, s.pending, Top(s));
    hide Stored;
  }

  lemma FlushCalm(s: State, start: int)
    requires CalmInv(s, start)
    ensures CalmInv(Flush(s), start) && |Flush(s).rows| == Top(s)
  {
    FlushStore(s);
    assert Top(s) <= |s.log|;
    hide Stored, StoreInv;
    RowsGrowCalm(s, Flush(s), start);
  }

  lemma SubscribeFlushCalm(s: State, start: int)
    requires CalmInv(s, start) && Enabled(s, SubscribeFlush)
    ensures CalmInv(Next(s, SubscribeFlush), start)
  {
    FlushCalm(s, start);
    hide NoHole, Reach, Stored, StoreInv, FramesLogged;
    assert Unread(Next(s, SubscribeFlush)) == Unread(s);
  }

  lemma PageIsAbove(log: seq<Chunk>, stored: nat, mark: int, heard: nat)
    requires Numbered(log) && -1 <= mark < |log| && heard <= stored <= |log|
    ensures var page := Retention.FindMany(log[..stored], mark, Paging.PAGE_LIMIT);
            PageAbove(log, page, mark, heard) && (page != [] ==> mark + |page| < stored)
  {
    if mark < stored { PageOfLog(log, stored, mark); } else { EmptyPage(log, stored, mark); }
    hide Numbered, Retention.FindMany;
  }

  lemma QueryCalm(s: State, start: int)
    requires CalmInv(s, start) && s.phase.Flushed?
    ensures CalmInv(Next(s, SubscribeQuery), start)
  {
    hide NoHole, Reach, FramesLogged, Outputs, Retention.FindMany, PageAbove;
    if s.client.socket.open {
      assert Handling(s);
      PageIsAbove(s.log, |s.rows|, s.view.lastSequence, s.heard);
    }
    hide StoreInv;
    assert Unread(Next(s, SubscribeQuery)) == Unread(s);
  }

  lemma SendCalm(s: State, start: int)
    requires CalmInv(s, start) && Enabled(s, SubscribeSend)
    ensures CalmInv(Next(s, SubscribeSend), start)
  {
    hide NoHole, Reach, SendAll, PendingCovers, FramesLogged, Outputs;
    var s' := Next(s, SubscribeSend);
    var frames := Outputs(s.phase.page) + [Status] + s.client.subscriptions[JOB].queued;
    SendAllAppends(s.client.socket, frames);
    if s.client.socket.open {
      assert Handling(s) && frames == Outputs(s.phase.page) + [Status];
      assert Unread(s') == frames;
      PageReads(s.log, s.phase.page, s.view.lastSequence, s.heard);
    } else {
      assert Unread(s') == Unread(s);
    }
  }

  lemma PageReads(log: seq<Chunk>, page: seq<Chunk>, mark: int, heard: nat)
    requires Numbered(log) && PageAbove(log, page, mark, heard)
    ensures var frames := Outputs(page) + [Status];
            NoHole(mark, frames) && FramesLogged(log, frames) && Reach(mark, frames) == mark + |page|
  {
    hide NoHole, Reach, FramesLogged;
    ReadStretch(log, mark + 1, mark + 1 + |page|, mark);
    ReadOne(mark, Outputs(page), Status);
    StretchLogged(log, mark + 1, mark + 1 + |page|);
    StatusLogged(log, Outputs(page));
  }

  lemma BeginCalm(s: State, start: int)
    requires CalmInv(s, start) && Enabled(s, BeginSubscribe)
    ensures CalmInv(Next(s, BeginSubscribe), start)
  {
    hide NoHole, Reach, PendingCovers, FramesLogged;
    assert Unread(Next(s, BeginSubscribe)) == Unread(s);
  }

  lemma ConnectCalm(s: State, start: int)
    requires CalmInv(s, start) && Enabled(s, Connect)
    ensures CalmInv(Next(s, Connect), start)
  {
    hide PendingCovers;
    assert Unread(Next(s, Connect)) == [];
  }

  lemma DisconnectCalm(s: State, start: int)
    requires CalmInv(s, start)
    ensures CalmInv(Next(s, Disconnect), start)
  {
    hide NoHole, Reach, PendingCovers, FramesLogged;
    assert Unread(Next(s, Disconnect)) == Unread(s);
  }

  /** Reading one frame of a page: a chunk, or the status after the last one. */
  lemma ReadPageFrame(s: State)
    requires Enabled(s, Receive) && s.consumed <= |s.client.socket.sent| && Numbered(s.log) && Reading(s)
    ensures var s' := Next(s, Receive);
            if |Unread(s)| > 1 then Reading(s') && s'.view.lastSequence == s.view.lastSequence + 1
            else if s.view.replayBatchCount == Paging.PAGE_LIMIT then Asking(s')
            else Done(s') && IsLiveSubscription(s') && Unread(s') == [] && s.heard <= s'.view.lastSequence + 1
    ensures var s' := Next(s, Receive);
            && s'.view.lastSequence - s'.view.replayBatchCount
               == s.view.lastSequence - (if |Unread(s)| > 1 then s.view.replayBatchCount else 0)
            && (|Unread(s)| == 1 && s'.view.awaitingReplay ==> s.view.replayBatchCount > 0)
  {
    var s' := Next(s, Receive);
    var n, mark := |Unread(s)| - 1, s.view.lastSequence;
    var stretch := s.log[mark + 1..mark + 1 + n];
    var f := s.client.socket.sent[s.consumed];
    assert Unread(s)[0] == f && Unread(s)[1..] == Unread(s');
    if n > 0 {
      assert f == Outputs(stretch)[0] == Output(s.log[mark + 1]);
      assert Outputs(stretch)[1..] == Outputs(s.log[mark + 2..mark + 1 + n]);
      assert Unread(s') == Outputs(s.log[mark + 2..mark + 1 + n]) + [Status];
    } else {
      assert f == Status;
    }
  }

  lemma ReceiveCalm(s: State, start: int)
    requires CalmInv(s, start) && Enabled(s, Receive)
    ensures CalmInv(Next(s, Receive), start)
  {
    var s' := Next(s, Receive);
    ReceiveKeepsView(s, start);
    if s.client.socket.open {
      if Reading(s) {
        ReadPageFrame(s);
        if Unread(s') == [] { assert Reach(s'.view.lastSequence, Unread(s')) == s'.view.lastSequence; }
      } else {
        assert Live(s);
      }
    }
    hide NoHole, Reach, Outputs, FramesLogged, Unread, OnOutput, StoreInv;
  }

  lemma StepCalm(s: State, step: Step, start: int)
    requires CalmInv(s, start) && Enabled(s, step) && LeavesNoGap(s, step) && Calm(s, step)
    ensures CalmInv(Next(s, step), start)
  {
    match step
    case Emit(stream, data) => EmitCalm(s, start, stream, data);
    case Relay(i, bufferedAmount) => RelayCalm(s, start, i, bufferedAmount);
    case SyncStore(i) => SyncStoreCalm(s, start, i);
    case SyncBroadcast(bufferedAmount) => SyncBroadcastCalm(s, start, bufferedAmount);
    case BackgroundFlush => FlushCalm(s, start);
    case Connect => ConnectCalm(s, start);
    case Disconnect => DisconnectCalm(s, start);
    case BeginSubscribe => BeginCalm(s, start);
    case SubscribeFlush => SubscribeFlushCalm(s, start);
    case SubscribeQuery => QueryCalm(s, start);
    case SubscribeSend => SendCalm(s, start);
    case Receive => ReceiveCalm(s, start);
  }

  lemma SyncStoreCalm(s: State, start: int, i: nat)
    requires CalmInv(s, start) && Enabled(s, SyncStore(i)) && i <= |s.rows|
    ensures CalmInv(Next(s, SyncStore(i)), start)
  {
    SyncStoreKeepsStore(s, i);
    assert |Next(s, SyncStore(i)).rows| <= |s.log|;
    RowsGrowCalm(s, Next(s, SyncStore(i)), start);
    hide StoreInv, ViewInv, Asking, Handling, Reading, Live, Stored, Retention.NewChunks;
  }

  lemma StartCalm(s: State, last: int)
    requires Start(s, last)
    ensures CalmInv(s, last)
  {
    assert Unread(s) == [];
    assert s.log[last + 1..last + 1] == [];
  }

  lemma {:induction false} RunCalm(states: seq<State>, steps: seq<Step>, start: int, i: nat)
    requires CalmRun(states, steps, start) && i < |states|
    ensures CalmInv(states[i], start)
    decreases i
  {
    hide CalmInv, Next, Enabled, Start, Calm, LeavesNoGap;
    if i == 0 {
      StartCalm(states[0], start);
    } else {
      RunCalm(states, steps, start, i - 1);
      StepCalm(states[i - 1], steps[i - 1], start);
    }
  }

  // ----- theorems -------------------------------------------------------------------

  /** An open socket on which everything sent has been read, and no request is under way. */
  predicate Settled(s: State) {
    s.client.socket.open && s.requests == [] && s.phase.Idle? && s.consumed == |s.client.socket.sent|
  }

  /** Everything above `start` that is stored, and everything broadcast, has been emitted. */
  ghost predicate CaughtUpFrom(s: State, start: int) {
    && s.heard <= s.view.lastSequence + 1
    && (s.announce == [] ==> forall c :: c in s.rows ==> c.sequence <= s.view.lastSequence)
    && (s.announce == [] ==> forall c :: c in s.rows && c.sequence > start ==> c in s.view.emitted)
  }

  lemma SettledIsCaughtUp(s: State, start: int)
    requires CalmInv(s, start) && Settled(s)
    ensures CaughtUpFrom(s, start)
  {
    hide NoHole, FramesLogged;
    assert Unread(s) == [];
    assert Live(s) && Reach(s.view.lastSequence, Unread(s)) == s.view.lastSequence;
    if s.announce == [] {
      forall c | c in s.rows
        ensures c.sequence <= s.view.lastSequence && (c.sequence > start ==> c in s.view.emitted)
      {
        var i :| 0 <= i < |s.rows| && s.rows[i] == c;
        assert c == s.log[i] && c.sequence == i;
        if i > start { assert s.view.emitted[i - (start + 1)] == c; }
      }
    }
  }

  /**
   * Paging to the end. However long the backlog, and through any interleaving as long as nothing is
   * broadcast to a view that is catching up: what the view has emitted is the agent's output from
   * start + 1 up to its mark, and once everything is read and nothing asked for, that is all that
   * is stored and all that has been broadcast.
   */
  lemma PagesToTheEnd(states: seq<State>, steps: seq<Step>, start: int, i: nat)
    requires CalmRun(states, steps, start) && i < |states|
    ensures var s := states[i];
            && start <= s.view.lastSequence < |s.log|
            && s.view.emitted == s.log[start + 1..s.view.lastSequence + 1]
            && (Settled(s) ==> CaughtUpFrom(s, start))
  {
    RunCalm(states, steps, start, i);
    if Settled(states[i]) { SettledIsCaughtUp(states[i], start); }
  }

  /** What the view and the subscribe handler do; the store stays as it is, apart from the flush. */
  predicate ReplayStep(step: Step) {
    step.BeginSubscribe? || step.SubscribeFlush? || step.SubscribeQuery? || step.SubscribeSend? || step.Receive?
  }

  /** What lies above the page being read, and how far the current round still is from its end. */
  function Rank(s: State): (int, int)
    requires s.consumed <= |s.client.socket.sent|
  {
    (|s.log| - (s.view.lastSequence - s.view.replayBatchCount),
     if s.requests != [] then Paging.PAGE_LIMIT + 6
     else match s.phase
          case Begun(_, _) => Paging.PAGE_LIMIT + 5
          case Flushed(_, _) => Paging.PAGE_LIMIT + 4
          case Queried(_, _, _) => Paging.PAGE_LIMIT + 3
          case Idle => |Unread(s)|)
  }

  predicate Below(a: (int, int), b: (int, int)) {
    0 <= a.0 && 0 <= a.1 && (a.0 < b.0 || (a.0 == b.0 && a.1 < b.1))
  }

  /** Every step of a replay brings it closer to its end ... */
  lemma ReplayStepsEnd(s: State, step: Step, start: int)
    requires CalmInv(s, start) && s.client.socket.open && Enabled(s, step) && ReplayStep(step)
    ensures var s' := Next(s, step);
            CalmInv(s', start) && s'.client.socket.open && s'.log == s.log && s'.heard == s.heard && s'.announce == s.announce
            && Below(Rank(s'), Rank(s))
  {
    StepCalm(s, step, start);
    hide StoreInv, NoHole, Reach, FramesLogged, Outputs;
    var s' := Next(s, step);
    match step
    case BeginSubscribe => assert Unread(s') == Unread(s);
    case SubscribeFlush => assert Unread(s') == Unread(s);
    case SubscribeQuery => assert Unread(s') == Unread(s);
    case SubscribeSend => SendRank(s, start);
    case Receive => ReceiveRank(s, start);
  }

  lemma SendRank(s: State, start: int)
    requires CalmInv(s, start) && s.client.socket.open && Enabled(s, SubscribeSend)
    ensures var s' := Next(s, SubscribeSend);
            s'.client.socket.open && s'.consumed <= |s'.client.socket.sent| && |Unread(s')| <= Paging.PAGE_LIMIT + 1
  {
    hide NoHole, Reach, SendAll, StoreInv, FramesLogged;
    assert Handling(s);
    SendAllAppends(s.client.socket, Outputs(s.phase.page) + [Status] + s.client.subscriptions[JOB].queued);
  }

  lemma ReceiveRank(s: State, start: int)
    requires CalmInv(s, start) && s.client.socket.open && Enabled(s, Receive)
    ensures var s' := Next(s, Receive); s'.consumed <= |s'.client.socket.sent| && Below(Rank(s'), Rank(s))
  {
    ReceiveCalm(s, start);
    hide NoHole, Reach, PendingCovers, FramesLogged, Outputs;
    if Reading(s) {
      ReadPageFrame(s);
    } else {
      assert Live(s);
    }
  }

  /** ... and before the end there is always one to take. */
  lemma ReplayGoesOn(s: State, start: int) returns (step: Step)
    requires CalmInv(s, start) && s.client.socket.open && !Settled(s)
    ensures ReplayStep(step) && Enabled(s, step)
  {
    hide NoHole, Reach, StoreInv, FramesLogged, Outputs;
    if s.requests != [] {
      step := BeginSubscribe;
    } else {
      match s.phase
      case Begun(_, _) => step := SubscribeFlush;
      case Flushed(_, _) => step := SubscribeQuery;
      case Queried(_, _, _) => step := SubscribeSend;
      case Idle => step := Receive;
    }
  }

  lemma PathCons(s: State, step: Step, rest: seq<State>, more: seq<Step>) returns (states: seq<State>, steps: seq<Step>)
    requires Path(rest, more) && Enabled(s, step) && rest[0] == Next(s, step)
    ensures states == [s] + rest && steps == [step] + more && Path(states, steps)
  {
    hide Next, Enabled;
    states, steps := [s] + rest, [step] + more;
  }

  /** Left alone, the rounds of subscribe, page and status therefore end with everything stored emitted. */
  lemma {:induction false} RoundsEnd(s: State, start: int) returns (states: seq<State>, steps: seq<Step>)
    requires CalmInv(s, start) && s.client.socket.open
    ensures Path(states, steps) && states[0] == s && forall i :: 0 <= i < |steps| ==> ReplayStep(steps[i])
    ensures var last := states[|steps|];
            Settled(last) && CaughtUpFrom(last, start) && last.heard == s.heard
            && -1 <= start <= last.view.lastSequence < |last.log|
            && last.view.emitted == last.log[start + 1..last.view.lastSequence + 1]
    decreases Rank(s).0, Rank(s).1
  {
    if Settled(s) {
      states, steps := [s], [];
      SettledIsCaughtUp(s, start);
    } else {
      var step := ReplayGoesOn(s, start);
      ReplayStepsEnd(s, step, start);
      hide CalmInv, Next, Enabled, Settled, CaughtUpFrom, Rank, Path, ReplayStep;
      var rest, more := RoundsEnd(Next(s, step), start);
      states, steps := PathCons(s, step, rest, more);
    }
  }

  /** A view opened over any backlog, once it connects. */
  lemma AnyBacklogIsReplayed(s: State, last: int) returns (states: seq<State>, steps: seq<Step>)
    requires Start(s, last)
    ensures Path(states, steps) && states[0] == s && |steps| >= 1 && steps[0] == Connect
    ensures forall i :: 1 <= i < |steps| ==> ReplayStep(steps[i])
    ensures var end := states[|steps|]; Settled(end) && CaughtUpFrom(end, last)
  {
    StartCalm(s, last);
    ConnectCalm(s, last);
    var rest, more := RoundsEnd(Next(s, Connect), last);
    assert Enabled(s, Connect);
    hide Next, Enabled, CalmInv, Path;
    states, steps := PathCons(s, Connect, rest, more);
  }
}
