/** The browser's side of a job stream: high-water de-duplication, paging, and the hand-off to the terminal. */
module Viewer {
  import opened Chunks

  const REPLAY_PAGE: nat := 1000

  /** `emitted` is everything handed on since the view opened. */
  datatype View = View(lastSequence: int, awaitingReplay: bool, replayBatchCount: nat, emitted: seq<Chunk>)

  function OnOpen(v: View): View {
    v.(awaitingReplay := true, replayBatchCount := 0)
  }

  function OnOutput(v: View, c: Chunk): View {
    if c.sequence <= v.lastSequence then v
    else View(c.sequence, v.awaitingReplay, if v.awaitingReplay then v.replayBatchCount + 1 else v.replayBatchCount,
              v.emitted + [c])
  }

  /** A status frame ends a replay page; a full page asks for the next one. */
  predicate ReplayHasMore(v: View) {
    v.awaitingReplay && v.replayBatchCount >= REPLAY_PAGE
  }

  function OnStatus(v: View): View {
    v.(awaitingReplay := ReplayHasMore(v), replayBatchCount := 0)
  }

  /** The hook's mutable refs, with the terminal sink that may attach late or be replaced. */
  class JobViewer {
    var lastSequence: int
    var awaitingReplay: bool
    var replayBatchCount: nat
    var sinkAttached: bool
    var pendingChunks: seq<Chunk>
    /** What the sinks have been given, in order. */
    var delivered: seq<Chunk>

    /** Chunks wait only while there is no sink. */
    ghost predicate Valid()
      reads this
    {
      sinkAttached ==> pendingChunks == []
    }

    ghost function State(): View
      reads this
    {
      View(lastSequence, awaitingReplay, replayBatchCount, delivered + pendingChunks)
    }

    constructor (initialLastSequence: int)
      ensures Valid() && State() == View(initialLastSequence, false, 0, []) && !sinkAttached
    {
      lastSequence, awaitingReplay, replayBatchCount := initialLastSequence, false, 0;
      sinkAttached, pendingChunks, delivered := false, [], [];
    }

    method EmitOutput(c: Chunk)
      requires Valid()
      modifies this`pendingChunks, this`delivered
      ensures Valid() && delivered + pendingChunks == old(delivered + pendingChunks) + [c]
      ensures sinkAttached ==> delivered == old(delivered) + [c]
    {
      if sinkAttached {
        delivered := delivered + [c];
      } else {
        pendingChunks := pendingChunks + [c];
        assert delivered + pendingChunks == (old(delivered) + old(pendingChunks)) + [c];
      }
    }

    /** Whatever was emitted before the terminal attached reaches it first, in order. */
    method SubscribeOutput()
      requires Valid()
      modifies this
      ensures Valid() && State() == old(State())
      ensures sinkAttached && delivered == old(delivered + pendingChunks)
    {
      sinkAttached := true;
      var pending := pendingChunks;
      pendingChunks := [];
      var i := 0;
      while i < |pending|
        invariant 0 <= i <= |pending| && delivered == old(delivered) + pending[..i] && pendingChunks == [] && sinkAttached
        invariant lastSequence == old(lastSequence) && awaitingReplay == old(awaitingReplay) && replayBatchCount == old(replayBatchCount)
      {
        delivered := delivered + [pending[i]];
        assert pending[..i + 1] == pending[..i] + [pending[i]];
        i := i + 1;
      }
      assert pending[..i] == pending;
      assert delivered + [] == delivered;
    }

    method DetachSink()
      requires Valid()
      modifies this`sinkAttached
      ensures Valid() && !sinkAttached && State() == old(State())
    {
      sinkAttached := false;
    }

    /** Opening a socket; returns the afterSequence of the subscribe message. */
    method SocketOpen() returns (afterSequence: int)
      requires Valid()
      modifies this`awaitingReplay, this`replayBatchCount
      ensures Valid() && State() == OnOpen(old(State())) && afterSequence == lastSequence
    {
      awaitingReplay, replayBatchCount := true, 0;
      afterSequence := lastSequence;
    }

    method OutputMessage(c: Chunk)
      requires Valid()
      modifies this`lastSequence, this`replayBatchCount, this`pendingChunks, this`delivered
      ensures Valid() && State() == OnOutput(old(State()), c)
    {
      if c.sequence <= lastSequence { return; }
      lastSequence := c.sequence;
      if awaitingReplay { replayBatchCount := replayBatchCount + 1; }
      EmitOutput(c);
    }

    method StatusMessage() returns (resubscribe: bool, afterSequence: int)
      requires Valid()
      modifies this`awaitingReplay, this`replayBatchCount
      ensures Valid() && State() == OnStatus(old(State()))
      ensures resubscribe == ReplayHasMore(old(State())) && afterSequence == lastSequence
    {
      var replayHasMore := awaitingReplay && replayBatchCount >= REPLAY_PAGE;
      awaitingReplay, replayBatchCount := replayHasMore, 0;
      resubscribe, afterSequence := replayHasMore, lastSequence;
    }
  }

  /** Whatever arrives, repeated or out of order, a view emits strictly increasing sequences. */
  lemma {:induction false} EmitsIncreasing(v: View, incoming: seq<Chunk>)
    requires Increasing(v.emitted) && (v.emitted != [] ==> v.emitted[|v.emitted| - 1].sequence <= v.lastSequence)
    ensures Increasing(Receive(v, incoming).emitted) && v.emitted <= Receive(v, incoming).emitted
    ensures Receive(v, incoming).lastSequence >= v.lastSequence
    decreases |incoming|
  {
    if incoming != [] {
      EmitsIncreasing(OnOutput(v, incoming[0]), incoming[1..]);
    }
  }

  function Receive(v: View, incoming: seq<Chunk>): View
    decreases |incoming|
  {
    if incoming == [] then v else Receive(OnOutput(v, incoming[0]), incoming[1..])
  }
}
