/** The status machine of a job row, and what every writer of that row keeps. */
module Lifecycle {
  import opened Wrappers

  type Time = int

  datatype Status = Queued | Dispatched | Running | WaitingForInput | Disconnected | Completed | Failed | Cancelled

  function Transitions(s: Status): set<Status> {
    match s
    case Queued => {Dispatched, Failed, Cancelled}
    case Dispatched => {Running, Failed, Cancelled, Disconnected}
    case Running => {WaitingForInput, Completed, Failed, Cancelled, Disconnected}
    case WaitingForInput => {Running, Completed, Failed, Cancelled, Disconnected}
    case Disconnected => {Running, WaitingForInput, Completed, Failed, Cancelled}
    case Completed => {}
    case Failed => {}
    case Cancelled => {}
  }

  predicate CanTransition(from: Status, to: Status) {
    from == to || to in Transitions(from)
  }

  predicate IsTerminal(s: Status) {
    s == Completed || s == Failed || s == Cancelled
  }

  /** The columns of a job that its lifecycle writes. */
  datatype Row = Row(status: Status, startedAt: Option<Time>, finishedAt: Option<Time>, exitCode: Option<int>)

  const NewRow := Row(Queued, None, None, None)

  /** The agent's messages about one job, as far as they drive its status. */
  datatype Message =
    | JobAccepted
    | JobStarted
    | JobStatus(status: Status)
    | JobCompleted(code: int)
    | JobFailed(maybeCode: Option<int>)
    | JobCancelled

  function Target(m: Message): Status {
    match m
    case JobAccepted => Dispatched
    case JobStarted => Running
    case JobStatus(s) => s
    case JobCompleted(_) => Completed
    case JobFailed(_) => Failed
    case JobCancelled => Cancelled
  }

  function Code(m: Message): Option<int> {
    match m
    case JobCompleted(c) => Some(c)
    case JobFailed(c) => c
    case _ => None
  }

  /** An agent message is invalid when the row is not final and the table forbids the move. */
  predicate Invalid(r: Row, target: Status) {
    !IsTerminal(r.status) && !CanTransition(r.status, target)
  }

  function Transitioned(r: Row, target: Status, code: Option<int>, now: Time): Row {
    if IsTerminal(r.status) || !CanTransition(r.status, target) then r
    else Row(target,
             if target == Running && r.startedAt == None then Some(now) else r.startedAt,
             if IsTerminal(target) then Some(now) else r.finishedAt,
             if code == None then r.exitCode else code)
  }

  function CancelledBeforeStart(r: Row, now: Time): Row {
    if r.status == Queued then r.(status := Cancelled, finishedAt := Some(now)) else r
  }

  /** Both the cleanup after a lost connection and the revocation of a device do this. */
  function DisconnectedRow(r: Row): Row {
    if r.status in {Queued, Dispatched, Running, WaitingForInput} then r.(status := Disconnected) else r
  }

  /** Creating a job ends with this when its start is reported undelivered; no status is checked. */
  function FailedDispatch(r: Row, now: Time): Row {
    r.(status := Failed, finishedAt := Some(now))
  }

  datatype TransitionResult = NotFound | AlreadyFinal | TransitionInvalid | Updated

  datatype CancelResult = NotRequired | CancelledNow | Offline | Requested

  class JobRow {
    const deviceId: nat
    var status: Status
    var startedAt: Option<Time>
    var finishedAt: Option<Time>
    var exitCode: Option<int>

    function Value(): Row
      reads this
    {
      Row(status, startedAt, finishedAt, exitCode)
    }

    constructor (deviceId: nat)
      ensures Value() == NewRow && this.deviceId == deviceId
    {
      this.deviceId := deviceId;
      status, startedAt, finishedAt, exitCode := Queued, None, None, None;
    }

    /** transitionFromAgent, read and write taken together. */
    method TransitionFromAgent(deviceId: nat, target: Status, code: Option<int>, now: Time) returns (r: TransitionResult)
      modifies this
      ensures Value() == if this.deviceId == deviceId then Transitioned(old(Value()), target, code, now) else old(Value())
      ensures r == NotFound <==> this.deviceId != deviceId
      ensures r == TransitionInvalid <==> this.deviceId == deviceId && Invalid(old(Value()), target)
      ensures r == AlreadyFinal <==> this.deviceId == deviceId && IsTerminal(old(status))
    {
      if this.deviceId != deviceId { return NotFound; }
      if IsTerminal(status) { return AlreadyFinal; }
      if !CanTransition(status, target) { return TransitionInvalid; }
      if target == Running && startedAt == None { startedAt := Some(now); }
      if IsTerminal(target) { finishedAt := Some(now); }
      if code != None { exitCode := code; }
      status := target;
      r := Updated;
    }

    /** `delivered` is what routing the cancel message to the agent reported. */
    method RequestCancellation(delivered: bool, now: Time) returns (r: CancelResult)
      modifies this
      ensures Value() == CancelledBeforeStart(old(Value()), now)
      ensures r == CancelledNow <==> old(status) == Queued
      ensures r == NotRequired <==> IsTerminal(old(status))
      ensures r == Offline <==> old(status) != Queued && !IsTerminal(old(status)) && !delivered
    {
      if IsTerminal(status) { return NotRequired; }
      if status == Queued {
        status, finishedAt := Cancelled, Some(now);
        return CancelledNow;
      }
      if !delivered { return Offline; }
      r := Requested;
    }

    /** The bulk update after a disconnect; rows written since the disconnect are left alone. */
    method CleanUpAfterDisconnect(writtenSince: bool)
      modifies this
      ensures Value() == if writtenSince then old(Value()) else DisconnectedRow(old(Value()))
      ensures status == if writtenSince || IsTerminal(old(status)) then old(status) else Disconnected
      ensures startedAt == old(startedAt) && finishedAt == old(finishedAt) && exitCode == old(exitCode)
    {
      if !writtenSince {
        if status == Queued { status := Disconnected; }
        if status in {Dispatched, Running, WaitingForInput} { status := Disconnected; }
      }
    }

    /** What the route that created the job does once routing its start has answered. */
    method ConcludeDispatch(delivered: bool, now: Time)
      modifies this
      ensures Value() == if delivered then old(Value()) else FailedDispatch(old(Value()), now)
    {
      if !delivered {
        status, finishedAt := Failed, Some(now);
      }
    }

    /** The bulk update inside the revocation transaction. */
    method Revoke()
      modifies this
      ensures Value() == DisconnectedRow(old(Value()))
      ensures status == if IsTerminal(old(status)) then old(status) else Disconnected
      ensures startedAt == old(startedAt) && finishedAt == old(finishedAt) && exitCode == old(exitCode)
    {
      if status in {Queued, Dispatched, Running, WaitingForInput} { status := Disconnected; }
    }
  }

  // ----- every writer, in any order -------------------------------------------------

  datatype Event =
    | FromAgent(message: Message, at: Time)
    | HelloReconcile(running: bool, at: Time)
    | CancelRequest(at: Time)
    | DisconnectCleanup(writtenSince: bool)
    | Revocation
    | DispatchFailure(at: Time)

  /** agent.hello lists the job as running: a queued row is dispatched first, then resumed. */
  function Reconciled(r: Row, running: bool, now: Time): Row {
    if !running || IsTerminal(r.status) then r
    else
      var r1 := if r.status == Queued then Transitioned(r, Dispatched, None, now) else r;
      Transitioned(r1, if r.status == WaitingForInput then WaitingForInput else Running, None, now)
  }

  function Apply(r: Row, e: Event): Row {
    match e
    case FromAgent(m, at) => Transitioned(r, Target(m), Code(m), at)
    case HelloReconcile(running, at) => Reconciled(r, running, at)
    case CancelRequest(at) => CancelledBeforeStart(r, at)
    case DisconnectCleanup(writtenSince) => if writtenSince then r else DisconnectedRow(r)
    case Revocation => DisconnectedRow(r)
    case DispatchFailure(at) => FailedDispatch(r, at)
  }

  function ApplyAll(r: Row, events: seq<Event>): Row
    decreases |events|
  {
    if events == [] then r else ApplyAll(Apply(r, events[0]), events[1..])
  }

  ghost predicate Consistent(r: Row) {
    && (r.finishedAt != None <==> IsTerminal(r.status))
    && (r.exitCode != None ==> r.status == Completed || r.status == Failed)
    && (r.status == Running ==> r.startedAt != None)
  }

  /** When the last of the failed dispatches among `events` was written. */
  function LastDispatchFailure(events: seq<Event>): Option<Time>
    decreases |events|
  {
    if events == [] then None
    else if events[|events| - 1].DispatchFailure? then Some(events[|events| - 1].at)
    else LastDispatchFailure(events[..|events| - 1])
  }

  lemma {:induction false} LastDispatchFailureOfRest(events: seq<Event>)
    requires events != []
    ensures LastDispatchFailure(events) ==
              if LastDispatchFailure(events[1..]) == None && events[0].DispatchFailure? then Some(events[0].at)
              else LastDispatchFailure(events[1..])
    decreases |events|
  {
    if |events| > 1 {
      var init := events[..|events| - 1];
      assert init[1..] == events[1..][..|events| - 2];
      LastDispatchFailureOfRest(init);
    }
  }

  /**
   * Over every history of a job: finishedAt is set in exactly the terminal states, an exit code is
   * only ever found on a completed or failed job, and startedAt is written at most once. A finished
   * row changes through nothing but a dispatch reported undelivered, which makes it failed: the
   * row is what it was, or failed as of the last such report.
   */
  lemma {:induction false} LifecycleInvariant(r: Row, events: seq<Event>)
    requires Consistent(r)
    ensures var r' := ApplyAll(r, events);
            && Consistent(r')
            && (r.startedAt != None ==> r'.startedAt == r.startedAt)
            && (IsTerminal(r.status) ==>
                  r' == match LastDispatchFailure(events)
                        case None => r
                        case Some(at) => FailedDispatch(r, at))
    decreases |events|
  {
    if events != [] {
      LastDispatchFailureOfRest(events);
      LifecycleInvariant(Apply(r, events[0]), events[1..]);
    }
  }

  /** Nobody is left behind: every unfinished row becomes disconnected, and a final one stays. */
  lemma DisconnectsTheUnfinished(r: Row)
    ensures DisconnectedRow(r) == if IsTerminal(r.status) then r else r.(status := Disconnected)
  {
  }

  function At(e: Event): Time {
    match e
    case FromAgent(_, at) => at
    case HelloReconcile(_, at) => at
    case CancelRequest(at) => at
    case DispatchFailure(at) => at
    case _ => 0
  }

  /** The events after which the row is running, first of all. */
  ghost predicate FirstRunning(r: Row, events: seq<Event>, k: nat) {
    && k < |events| && ApplyAll(r, events[..k + 1]).status == Running
    && forall i :: 0 <= i <= k ==> ApplyAll(r, events[..i]).status != Running
  }

  lemma {:induction false} ApplyAllSnoc(r: Row, events: seq<Event>, e: Event)
    ensures ApplyAll(r, events + [e]) == Apply(ApplyAll(r, events), e)
    decreases |events|
  {
    if events == [] {
      assert ([] + [e])[1..] == [];
    } else {
      assert (events + [e])[1..] == events[1..] + [e];
      ApplyAllSnoc(Apply(r, events[0]), events[1..], e);
    }
  }

  lemma FirstRunningOfInit(r: Row, init: seq<Event>, e: Event, k: nat)
    requires k < |init|
    ensures FirstRunning(r, init + [e], k) <==> FirstRunning(r, init, k)
  {
    assert forall i :: 0 <= i <= k + 1 ==> (init + [e])[..i] == init[..i];
  }

  /** The last of several events is the first after which the row runs, or some earlier one is, or none. */
  lemma LastIsFirstRunning(r: Row, init: seq<Event>, e: Event)
    ensures FirstRunning(r, init + [e], |init|) <==>
              ApplyAll(r, init + [e]).status == Running && forall i :: 0 <= i <= |init| ==> ApplyAll(r, init[..i]).status != Running
  {
    assert (init + [e])[..|init| + 1] == init + [e];
    assert forall i :: 0 <= i <= |init| ==> (init + [e])[..i] == init[..i];
  }

  /**
   * When a job started: a row has a startedAt exactly when it has ever been running, and it is the
   * time of the event that made it so for the first time.
   */
  lemma {:induction false} StartedWhenFirstRunning(r: Row, events: seq<Event>)
    requires r.startedAt == None && r.status != Running
    ensures ApplyAll(r, events).startedAt != None <==> exists k: nat :: FirstRunning(r, events, k)
    ensures forall k: nat :: FirstRunning(r, events, k) ==> ApplyAll(r, events).startedAt == Some(At(events[k]))
    ensures ApplyAll(r, events).status == Running ==> ApplyAll(r, events).startedAt != None
    decreases |events|
  {
    if events != [] {
      var n := |events| - 1;
      var init, e := events[..n], events[n];
      assert events == init + [e];
      ApplyAllSnoc(r, init, e);
      StartedWhenFirstRunning(r, init);
      StartedStep(ApplyAll(r, init), e);
      LastIsFirstRunning(r, init, e);
      forall k: nat | k < n ensures FirstRunning(r, events, k) <==> FirstRunning(r, init, k) {
        FirstRunningOfInit(r, init, e, k);
      }
      hide FirstRunning, ApplyAll, Apply;
      if exists i :: 0 <= i <= n && ApplyAll(r, init[..i]).status == Running {
        FirstExists(r, init);
        var k: nat :| FirstRunning(r, init, k);
        WithinEvents(r, init, k);
        assert FirstRunning(r, events, k);
      }
      forall k: nat | FirstRunning(r, events, k) ensures k <= n {
        WithinEvents(r, events, k);
      }
      assert init[..n] == init;
    }
  }

  lemma WithinEvents(r: Row, events: seq<Event>, k: nat)
    requires FirstRunning(r, events, k)
    ensures k < |events|
  {
  }

  lemma StartedStep(r: Row, e: Event)
    ensures r.startedAt != None ==> Apply(r, e).startedAt == r.startedAt
    ensures r.startedAt == None && r.status != Running ==>
              Apply(r, e).startedAt == if Apply(r, e).status == Running then Some(At(e)) else None
  {
  }

  lemma {:induction false} FirstExists(r: Row, events: seq<Event>)
    requires exists i :: 0 <= i <= |events| && ApplyAll(r, events[..i]).status == Running
    requires r.status != Running
    ensures exists k :: FirstRunning(r, events, k)
  {
    var i :| 0 <= i <= |events| && ApplyAll(r, events[..i]).status == Running;
    var k := 0;
    while ApplyAll(r, events[..k]).status != Running
      invariant 0 <= k <= i && forall j :: 0 <= j < k ==> ApplyAll(r, events[..j]).status != Running
      decreases i - k
    {
      k := k + 1;
    }
    assert events[..0] == [];
    assert FirstRunning(r, events, k - 1);
  }

  /** Resuming a listed job never trips over the transition table, from any unfinished status. */
  lemma HelloNeverInvalid(r: Row, now: Time)
    requires !IsTerminal(r.status)
    ensures r.status == Queued ==> !Invalid(r, Dispatched)
    ensures var r1 := if r.status == Queued then Transitioned(r, Dispatched, None, now) else r;
            !Invalid(r1, if r.status == WaitingForInput then WaitingForInput else Running)
    ensures Reconciled(r, true, now).status == if r.status == WaitingForInput then WaitingForInput else Running
  {
  }
}
