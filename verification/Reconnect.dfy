/**
 * One job across the agent and the server: the session's goroutines, the frames between
 * them and the job row, through any number of lost connections and reconnects.
 */
module Reconnect {
  import opened Lifecycle
  import opened Wrappers

  datatype Outcome = CompletedWith(code: int) | FailedWith(maybeCode: Option<int>) | WasCancelled

  /** An agent session. `status` of an active one is Running or WaitingForInput (a PTY). */
  datatype Session = Absent | Starting | Active(status: Status) | Done(outcome: Outcome)

  function Final(o: Outcome): Message {
    match o
    case CompletedWith(c) => JobCompleted(c)
    case FailedWith(c) => JobFailed(c)
    case WasCancelled => JobCancelled
  }

  datatype Link =
    | Down(hello: bool, listed: bool)   // lost; frames already received are still being handled
    | CleanedUp                         // no connection, and nothing of the last one left to do
    | Dialing(listed: bool)             // hello sent, with or without this job among the running ones
    | Up(hello: bool, listed: bool, reconciled: bool)   // `hello`: the server has handled it

  /**
   * `wire` holds the frames received on the current connection and not handled yet, `fromRun` and
   * `fromLoop` what the session's goroutine and the connection's read loop are still to send.
   * `written`: the row's updatedAt lies after the loss of the connection. The last five record
   * what has happened: cancelled while queued, dispatch reported failed, left dispatched by a
   * cleanup that skipped the row, started although already disconnected, and an invalid transition
   * raised.
   */
  datatype State = State(
    created: bool, startSent: bool, row: Row, session: Session, startInFlight: bool, link: Link,
    wire: seq<Message>, fromRun: seq<Message>, fromLoop: seq<Message>, written: bool,
    cancelledEarly: bool, dispatchFailed: bool, escaped: bool, late: bool, raised: bool)

  const Start := State(false, false, NewRow, Absent, false, Up(true, false, true), [], [], [], false, false, false, false, false, false)

  datatype Step =
    | Create                       // the row is created
    | SendStart                    // job.start goes out
    | DispatchFails(at: Time)      // routing it is reported undelivered, whether it goes out or not
    | Accept                       // the agent accepts job.start
    | Reject                       // the agent refuses it: job.failed without a session
    | ProcessStarts(status: Status)
    | ProcessFailsToStart
    | Finish(outcome: Outcome)
    | SendFromRun
    | SendFromLoop
    | Handle(at: Time)             // the server handles the next frame
    | CancelQueued(at: Time)
    | NoteCancel                   // a delivered cancellation is noted on the row
    | Disconnect
    | CleanUp
    | Dial
    | Welcome
    | HandleHello(at: Time)
    | Reconcile

  predicate Connected(s: State) { s.link.Up? }

  predicate HelloPending(link: Link) {
    (link.Up? || link.Down?) && !link.hello
  }

  predicate Enabled(s: State, step: Step) {
    match step
    case Create => !s.created
    case SendStart => s.created && !s.startSent && Connected(s)
    case DispatchFails(_) => s.created && !s.dispatchFailed
    case Accept => s.startInFlight && Connected(s) && s.link.reconciled && s.fromLoop == []
    case Reject => s.startInFlight && Connected(s) && s.link.reconciled && s.fromLoop == []
    case ProcessStarts(st) => s.session.Starting? && st in {Running, WaitingForInput}
    case ProcessFailsToStart => s.session.Starting?
    case Finish(_) => s.session.Active? && s.fromRun == []
    case SendFromRun => s.fromRun != []
    case SendFromLoop => s.fromLoop != []
    case Handle(_) => s.wire != [] && (s.link.Up? || s.link.Down?) && s.link.hello
    case CancelQueued(_) => s.created
    case NoteCancel => s.created && s.row.status != Queued && !IsTerminal(s.row.status)
    case Disconnect => Connected(s) || s.link.Dialing?
    case CleanUp => s.link.Down?
    case Dial => s.link == CleanedUp && s.fromLoop == []
    case Welcome => s.link.Dialing?
    case HandleHello(_) => HelloPending(s.link)
    case Reconcile => s.link.Up? && !s.link.reconciled && s.fromLoop == []
  }

  /** What a session reports about itself after a reconnect. */
  function Report(session: Session): seq<Message> {
    match session
    case Absent => []
    case Starting => [JobStarted, JobStatus(Dispatched)]
    case Active(st) => [JobStarted, JobStatus(st)]
    case Done(o) => [Final(o)]
  }

  /** The row as a writer leaves it; it stays escaped only while it stays dispatched. */
  function Write(s: State, row: Row, wrote: bool): (s': State)
    ensures s' == s.(row := row, written := s'.written, escaped := s'.escaped)
  {
    s.(row := row, written := s.written || wrote, escaped := s.escaped && row.status == Dispatched)
  }

  function Next(s: State, step: Step): State
    requires Enabled(s, step)
  {
    match step
    case Create => s.(created := true, row := NewRow, written := true)
    case SendStart => s.(startSent := true, startInFlight := true, late := s.row.status == Disconnected)
    case DispatchFails(at) => Write(s, FailedDispatch(s.row, at), true).(dispatchFailed := true)
    case Accept => s.(startInFlight := false, session := Starting, wire := s.wire + [JobAccepted])
    case Reject => s.(startInFlight := false, wire := s.wire + [JobFailed(None)])
    case ProcessStarts(st) => s.(session := Active(st), fromRun := s.fromRun + [JobStarted, JobStatus(st)])
    case ProcessFailsToStart => s.(session := Done(FailedWith(None)), fromRun := s.fromRun + [JobFailed(None)])
    case Finish(o) => s.(session := Done(o), fromRun := s.fromRun + [Final(o)])
    case SendFromRun => s.(fromRun := s.fromRun[1..], wire := if Connected(s) then s.wire + [s.fromRun[0]] else s.wire)
    case SendFromLoop => s.(fromLoop := s.fromLoop[1..], wire := if Connected(s) then s.wire + [s.fromLoop[0]] else s.wire)
    case Handle(at) =>
      var target, code := Target(s.wire[0]), Code(s.wire[0]);
      Write(s, Transitioned(s.row, target, code, at), !IsTerminal(s.row.status) && CanTransition(s.row.status, target)).(
        wire := s.wire[1..], raised := s.raised || Invalid(s.row, target))
    case CancelQueued(at) =>
      Write(s, CancelledBeforeStart(s.row, at), s.row.status == Queued).(cancelledEarly := s.cancelledEarly || s.row.status == Queued)
    case NoteCancel => s.(written := true)
    case Disconnect =>
      s.(link := if s.link.Up? then Down(s.link.hello, s.link.listed) else CleanedUp, startInFlight := false, written := false)
    case CleanUp =>
      Write(s, if s.created && !s.written then DisconnectedRow(s.row) else s.row, false).(
        link := CleanedUp, wire := [], escaped := s.written && s.row.status == Dispatched)
    case Dial => s.(link := Dialing(s.session.Starting? || s.session.Active?))
    case Welcome => s.(link := Up(false, s.link.listed, false))
    case HandleHello(at) =>
      Write(s, Reconciled(s.row, s.link.listed, at), s.link.listed && !IsTerminal(s.row.status)).(
        link := if s.link.Up? then Up(true, s.link.listed, s.link.reconciled) else Down(true, s.link.listed))
    case Reconcile =>
      s.(link := Up(s.link.hello, s.link.listed, true), fromLoop := s.fromLoop + Report(s.session))
  }

  ghost predicate Run(states: seq<State>, steps: seq<Step>) {
    && |states| == |steps| + 1 && states[0] == Start
    && forall i :: 0 <= i < |steps| ==> Enabled(states[i], steps[i]) && states[i + 1] == Next(states[i], steps[i])
  }

  // ----- invariants -----------------------------------------------------------------

  predicate Live(st: Status) { st in {Running, WaitingForInput, Disconnected} }

  predicate Early(st: Status) { st in {Queued, Dispatched} }

  /** The frames a session sends once it has been accepted. */
  predicate Resumable(m: Message, session: Session) {
    match m
    case JobAccepted => false
    case JobStarted => !session.Absent?
    case JobStatus(st) =>
      (st == Dispatched && !session.Absent?) || (st in {Running, WaitingForInput} && (session.Done? || session == Active(st)))
    case JobFailed(_) => if session.Absent? then m == JobFailed(None) else session.Done? && m == Final(session.outcome)
    case _ => session.Done? && m == Final(session.outcome)
  }

  ghost predicate AllResumable(frames: seq<Message>, session: Session) {
    forall i :: 0 <= i < |frames| ==> Resumable(frames[i], session)
  }

  ghost predicate AllFinal(frames: seq<Message>, session: Session) {
    session.Done? && forall i :: 0 <= i < |frames| ==> frames[i] == Final(session.outcome)
  }

  predicate HeadAccepted(frames: seq<Message>) {
    frames != [] && frames[0] == JobAccepted
  }

  function AfterAccepted(frames: seq<Message>): seq<Message> {
    if HeadAccepted(frames) then frames[1..] else frames
  }

  /** The first of `frames` starts the run, or ends a job that never ran. */
  predicate BeginsRun(frames: seq<Message>) {
    frames != [] ==> frames[0] == JobStarted || frames[0].JobFailed?
  }

  /** The frames that will still join the wire while the connection lasts. */
  function Sendable(s: State): seq<Message> {
    if Connected(s) then s.fromRun else []
  }

  /** A run not yet begun on the row's side: its first frames are on their way, in order. */
  ghost predicate RunAhead(s: State, wire: seq<Message>) {
    && !s.session.Absent? && s.fromLoop == [] && (Connected(s) ==> s.link.reconciled) && (s.link.Up? || s.link.Down?)
    && BeginsRun(wire + Sendable(s))
    && (Connected(s) && !s.session.Starting? ==> wire + s.fromRun != [])
  }

  ghost predicate SessionInv(s: State) {
    && Consistent(s.row)
    && (!s.created ==> !s.startSent && s.row == NewRow && !s.cancelledEarly && !s.dispatchFailed)
    && (!s.startSent ==> s.session.Absent? && s.wire == [] && !s.startInFlight && !s.late)
    && (s.session.Absent? ==> s.fromRun == [] && s.fromLoop == [] && (s.wire == [] || s.wire == [JobFailed(None)]))
    && (s.session.Starting? ==> s.fromRun == [])
    && (s.startInFlight ==> Connected(s) && s.session.Absent? && s.wire == [])
    && (s.session.Active? ==> s.session.status in {Running, WaitingForInput})
    && (s.link == CleanedUp || s.link.Dialing? ==> s.wire == [])
    && (s.link.Dialing? || (s.link.Up? && !s.link.reconciled) ==> s.fromLoop == [])
    && (s.link != CleanedUp && s.link.listed ==> !s.session.Absent?)
  }

  /** Everything on its way was sent by the session as it was or is. */
  ghost predicate FramesInv(s: State) {
    && AllResumable(s.fromRun, s.session) && AllResumable(s.fromLoop, s.session) && AllResumable(AfterAccepted(s.wire), s.session)
    && (s.session.Done? ==> AllFinal(s.fromRun, s.session))
  }

  /** A start that has not been answered on the row's side yet. */
  ghost predicate StartInv(s: State) {
    && (s.startInFlight || HeadAccepted(s.wire) ==>
          && (s.row.status == Queued || s.cancelledEarly || s.dispatchFailed || (s.late && s.row.status == Disconnected))
          && (s.link.Up? || s.link.Down?) && !s.link.listed)
    && (s.late ==> s.row.status != Queued && !s.cancelledEarly)
    && (s.link.Down? && s.row.status == Queued && s.startSent ==> !s.written)
    && (s.startSent && s.session.Absent? ==> s.row.status in {Queued, Disconnected} || IsTerminal(s.row.status))
    && (s.startSent && s.session.Absent? && !s.startInFlight && s.row.status == Queued ==> s.wire == [JobFailed(None)] || s.link.Down?)
    && (s.created && !s.startSent ==> s.row.status in {Queued, Cancelled, Disconnected} || s.dispatchFailed)
  }

  /** A dispatched row skipped by a cleanup: only a hello that lists its job, or an end of the job, is to come. */
  ghost predicate EscapedInv(s: State) {
    s.escaped ==>
      && s.row.status == Dispatched && !s.session.Absent?
      && match s.link
         case CleanedUp => true
         case Dialing(listed) => listed || s.session.Done?
         case Up(hello, listed, _) => (hello ==> !listed) && (!listed ==> EndsOnly(s))
         case Down(hello, listed) => (hello ==> !listed) && (!listed ==> EndsOnly(s))
  }

  ghost predicate EndsOnly(s: State) {
    AllFinal(s.wire, s.session) && AllFinal(s.fromRun, s.session) && AllFinal(s.fromLoop, s.session)
  }

  ghost predicate RowInv(s: State) {
    && (s.created && s.row.status == Queued && !s.session.Absent? ==> HeadAccepted(s.wire) && RunAhead(s, s.wire[1..]))
    && (s.row.status == Dispatched && !s.escaped ==> RunAhead(s, s.wire))
  }

  ghost predicate Agrees(row: Row, session: Session) {
    match session
    case Done(o) => row.status == Target(Final(o)) && row.exitCode == Code(Final(o))
    case Absent => row.status == Failed && row.exitCode == None
    case _ => false
  }

  ghost predicate OutcomeInv(s: State) {
    && (IsTerminal(s.row.status) && !s.cancelledEarly && !s.dispatchFailed ==> Agrees(s.row, s.session) && !s.startInFlight)
    && (s.cancelledEarly ==> s.row.status == Cancelled || s.dispatchFailed)
    && (s.dispatchFailed ==> s.row.status == Failed)
    && (s.session.Done? && Connected(s) && s.link.reconciled && !IsTerminal(s.row.status) ==>
          var f := Final(s.session.outcome); f in s.wire || f in s.fromRun || f in s.fromLoop)
  }

  /** The last word of a series of frames is `m`. */
  predicate EndsWith(frames: seq<Message>, m: Message) {
    frames != [] && frames[|frames| - 1] == m
  }

  /** What is on its way about an active session ends with its status, or holds a report that raises. */
  ghost predicate SettlingInv(s: State) {
    && (s.session.Starting? && s.fromLoop != [] ==> EndsWith(s.fromLoop, JobStatus(Dispatched)))
    && (s.session.Active? && !IsTerminal(s.row.status) ==> SettlesOn(s, s.session.status))
  }

  ghost predicate SettlesOn(s: State, st: Status) {
    && (s.fromRun != [] ==> EndsWith(s.fromRun, JobStatus(st)))
    && (s.fromLoop != [] ==> EndsWith(s.fromLoop, JobStatus(st)) || EndsWith(s.fromLoop, JobStatus(Dispatched)))
    && (Connected(s) && s.link.reconciled && s.fromRun == [] && s.fromLoop == [] ==>
          if s.wire == [] then s.link.hello && s.row.status == st
          else EndsWith(s.wire, JobStatus(st)) || JobStatus(Dispatched) in s.wire)
  }

  ghost predicate Inv(s: State) {
    SessionInv(s) && FramesInv(s) && StartInv(s) && EscapedInv(s) && RowInv(s) && OutcomeInv(s) && SettlingInv(s)
  }

  /** The frames that make the server raise, by what has happened before they are handled. */
  predicate Trips(s: State, m: Message) {
    && !IsTerminal(s.row.status)
    && ((m == JobAccepted && s.late) || (m.JobCompleted? && s.escaped) || m == JobStatus(Dispatched))
  }

  lemma HandleRaisesIff(s: State, at: Time)
    requires Inv(s) && Enabled(s, Handle(at)) && !s.raised
    ensures Next(s, Handle(at)).raised <==> Trips(s, s.wire[0])
  {
  }

  lemma WritersKeepRow(r: Row, target: Status, code: Option<int>, listed: bool, at: Time)
    requires Consistent(r)
    ensures (code == None || target == Completed || target == Failed) ==> Consistent(Transitioned(r, target, code, at))
    ensures Consistent(CancelledBeforeStart(r, at)) && Consistent(DisconnectedRow(r)) && Consistent(Reconciled(r, listed, at))
  {
  }

  lemma RowStaysConsistent(s: State, step: Step)
    requires Consistent(s.row) && Enabled(s, step)
    ensures Consistent(Next(s, step).row)
  {
    assert Consistent(NewRow);
    hide Consistent, Transitioned, CancelledBeforeStart, DisconnectedRow, Reconciled;
    match step
    case Handle(at) => WritersKeepRow(s.row, Target(s.wire[0]), Code(s.wire[0]), false, at);
    case CancelQueued(at) => WritersKeepRow(s.row, Queued, None, false, at);
    case HandleHello(at) => WritersKeepRow(s.row, Queued, None, s.link.listed, at);
    case CleanUp => WritersKeepRow(s.row, Queued, None, false, 0);
    case _ =>
  }

  predicate MovesFrames(step: Step) {
    step.SendFromRun? || step.SendFromLoop? || step.Handle?
  }

  predicate MovesLink(step: Step) {
    step.Disconnect? || step.CleanUp? || step.Dial? || step.Welcome? || step.HandleHello? || step.Reconcile?
  }

  lemma SessionKeepsOnLoss(s: State, step: Step)
    requires SessionInv(s) && Enabled(s, step) && (step.Disconnect? || step.CleanUp?)
    ensures SessionInv(Next(s, step))
  {
    RowStaysConsistent(s, step);
    hide Consistent, DisconnectedRow;
  }

  lemma SessionKeepsOnDial(s: State, step: Step)
    requires SessionInv(s) && Enabled(s, step) && (step.Dial? || step.Welcome?)
    ensures SessionInv(Next(s, step))
  {
    hide Consistent;
  }

  lemma SessionKeepsOnReport(s: State, step: Step)
    requires SessionInv(s) && Enabled(s, step) && (step.HandleHello? || step.Reconcile?)
    ensures SessionInv(Next(s, step))
  {
    RowStaysConsistent(s, step);
    hide Consistent, Reconciled;
  }

  lemma SessionKeepsOnFrames(s: State, step: Step)
    requires SessionInv(s) && StartInv(s) && Enabled(s, step) && MovesFrames(step)
    ensures SessionInv(Next(s, step))
  {
    RowStaysConsistent(s, step);
    hide Consistent, Transitioned;
  }

  /** The steps that write the row, apart from those on frames and links. */
  predicate WritesRow(step: Step) {
    step.Create? || step.DispatchFails? || step.CancelQueued? || step.NoteCancel?
  }

  lemma SessionKeepsOnWrite(s: State, step: Step)
    requires SessionInv(s) && Enabled(s, step) && WritesRow(step)
    ensures SessionInv(Next(s, step))
  {
    RowStaysConsistent(s, step);
    hide Consistent, CancelledBeforeStart, FailedDispatch;
  }

  lemma SessionKeepsOthers(s: State, step: Step)
    requires SessionInv(s) && StartInv(s) && Enabled(s, step) && !MovesLink(step) && !MovesFrames(step) && !WritesRow(step)
    ensures SessionInv(Next(s, step))
  {
    hide Consistent;
  }

  lemma SessionKeeps(s: State, step: Step)
    requires Inv(s) && Enabled(s, step)
    ensures SessionInv(Next(s, step))
  {
    hide SessionInv, StartInv, FramesInv, EscapedInv, RowInv, OutcomeInv, SettlingInv, Next, Enabled;
    match step
    case Disconnect => SessionKeepsOnLoss(s, step);
    case CleanUp => SessionKeepsOnLoss(s, step);
    case Dial => SessionKeepsOnDial(s, step);
    case Welcome => SessionKeepsOnDial(s, step);
    case HandleHello(_) => SessionKeepsOnReport(s, step);
    case Reconcile => SessionKeepsOnReport(s, step);
    case _ =>
      if MovesFrames(step) {
        SessionKeepsOnFrames(s, step);
      } else if WritesRow(step) {
        SessionKeepsOnWrite(s, step);
      } else {
        SessionKeepsOthers(s, step);
      }
  }

  lemma FramesKeepOnMove(s: State, step: Step)
    requires FramesInv(s) && SessionInv(s) && Enabled(s, step) && MovesFrames(step)
    ensures FramesInv(Next(s, step))
  {
    hide Consistent, Transitioned;
  }

  lemma FramesKeepOnLink(s: State, step: Step)
    requires FramesInv(s) && SessionInv(s) && Enabled(s, step) && MovesLink(step)
    ensures FramesInv(Next(s, step))
  {
    hide Consistent, DisconnectedRow, Reconciled, HelloPending;
  }

  lemma FramesKeepOthers(s: State, step: Step)
    requires FramesInv(s) && SessionInv(s) && Enabled(s, step) && !MovesFrames(step) && !MovesLink(step)
    ensures FramesInv(Next(s, step))
  {
    hide Consistent, CancelledBeforeStart, FailedDispatch;
  }

  lemma FramesKeep(s: State, step: Step)
    requires Inv(s) && Enabled(s, step)
    ensures FramesInv(Next(s, step))
  {
    if MovesFrames(step) {
      FramesKeepOnMove(s, step);
    } else if MovesLink(step) {
      FramesKeepOnLink(s, step);
    } else {
      FramesKeepOthers(s, step);
    }
  }

  lemma StartKeepsOnHandle(s: State, at: Time)
    requires Inv(s) && Enabled(s, Handle(at)) && !Next(s, Handle(at)).raised
    ensures StartInv(Next(s, Handle(at)))
  {
    hide EscapedInv, SettlingInv, Consistent;
  }

  lemma StartKeepsOthers(s: State, step: Step)
    requires Inv(s) && Enabled(s, step) && !step.Handle?
    ensures StartInv(Next(s, step))
  {
    hide EscapedInv, SettlingInv, Consistent;
  }

  lemma StartKeeps(s: State, step: Step)
    requires Inv(s) && Enabled(s, step) && !Next(s, step).raised
    ensures StartInv(Next(s, step))
  {
    if step.Handle? { StartKeepsOnHandle(s, step.at); } else { StartKeepsOthers(s, step); }
  }

  lemma EscapedKeepsOnFrames(s: State, step: Step)
    requires Inv(s) && Enabled(s, step) && !Next(s, step).raised && MovesFrames(step)
    ensures EscapedInv(Next(s, step))
  {
    hide OutcomeInv, SettlingInv, Consistent, RunAhead;
  }

  lemma EscapedKeepsOnLink(s: State, step: Step)
    requires Inv(s) && Enabled(s, step) && MovesLink(step)
    ensures EscapedInv(Next(s, step))
  {
    hide Consistent;
  }

  lemma EscapedKeepsOthers(s: State, step: Step)
    requires Inv(s) && Enabled(s, step) && !MovesFrames(step) && !MovesLink(step)
    ensures EscapedInv(Next(s, step))
  {
    hide SettlingInv, Consistent, RunAhead;
  }

  lemma EscapedKeeps(s: State, step: Step)
    requires Inv(s) && Enabled(s, step) && !Next(s, step).raised
    ensures EscapedInv(Next(s, step))
  {
    if MovesFrames(step) {
      EscapedKeepsOnFrames(s, step);
    } else if MovesLink(step) {
      EscapedKeepsOnLink(s, step);
    } else {
      EscapedKeepsOthers(s, step);
    }
  }

  lemma RowKeepsOnSend(s: State, step: Step)
    requires Inv(s) && Enabled(s, step) && (step.SendFromRun? || step.SendFromLoop?)
    ensures RowInv(Next(s, step))
  {
    hide OutcomeInv, SettlingInv, Consistent, EscapedInv;
    if step.SendFromRun? {
      var m, rest := s.fromRun[0], s.fromRun[1..];
      assert (s.wire + [m]) + rest == s.wire + s.fromRun;
    }
  }

  lemma RowKeepsOnHandle(s: State, at: Time)
    requires Inv(s) && Enabled(s, Handle(at)) && !Next(s, Handle(at)).raised
    ensures RowInv(Next(s, Handle(at)))
  {
    hide OutcomeInv, SettlingInv, Consistent;
  }

  lemma RowKeepsOnLoss(s: State, step: Step)
    requires Inv(s) && Enabled(s, step) && (step.Disconnect? || step.CleanUp?)
    ensures RowInv(Next(s, step))
  {
    hide OutcomeInv, SettlingInv, FramesInv, Consistent;
  }

  lemma RowKeepsOnReturn(s: State, step: Step)
    requires Inv(s) && Enabled(s, step) && (step.Dial? || step.Welcome? || step.HandleHello? || step.Reconcile?)
    ensures RowInv(Next(s, step))
  {
    hide OutcomeInv, SettlingInv, FramesInv, Consistent;
  }

  lemma RowKeepsOnLink(s: State, step: Step)
    requires Inv(s) && Enabled(s, step) && MovesLink(step)
    ensures RowInv(Next(s, step))
  {
    if step.Disconnect? || step.CleanUp? { RowKeepsOnLoss(s, step); } else { RowKeepsOnReturn(s, step); }
  }

  lemma RowKeepsOthers(s: State, step: Step)
    requires Inv(s) && Enabled(s, step) && !MovesFrames(step) && !MovesLink(step)
    ensures RowInv(Next(s, step))
  {
    hide OutcomeInv, SettlingInv, EscapedInv, FramesInv, Consistent;
  }

  lemma RowKeeps(s: State, step: Step)
    requires Inv(s) && Enabled(s, step) && !Next(s, step).raised
    ensures RowInv(Next(s, step))
  {
    if step.Handle? {
      RowKeepsOnHandle(s, step.at);
    } else if MovesFrames(step) {
      RowKeepsOnSend(s, step);
    } else if MovesLink(step) {
      RowKeepsOnLink(s, step);
    } else {
      RowKeepsOthers(s, step);
    }
  }

  lemma OutcomeKeepsOnFrames(s: State, step: Step)
    requires Inv(s) && Enabled(s, step) && !Next(s, step).raised && MovesFrames(step)
    ensures OutcomeInv(Next(s, step))
  {
    hide SettlingInv, RunAhead, EscapedInv;
  }

  lemma OutcomeKeepsOthers(s: State, step: Step)
    requires Inv(s) && Enabled(s, step) && !MovesFrames(step)
    ensures OutcomeInv(Next(s, step))
  {
    hide SettlingInv, RunAhead, EscapedInv;
  }

  lemma OutcomeKeeps(s: State, step: Step)
    requires Inv(s) && Enabled(s, step) && !Next(s, step).raised
    ensures OutcomeInv(Next(s, step))
  {
    if MovesFrames(step) { OutcomeKeepsOnFrames(s, step); } else { OutcomeKeepsOthers(s, step); }
  }

  lemma SettlingKeepsOnRunSend(s: State)
    requires Inv(s) && Enabled(s, SendFromRun)
    ensures SettlingInv(Next(s, SendFromRun))
  {
    hide OutcomeInv, StartInv, RowInv, EscapedInv, FramesInv, Consistent;
  }

  lemma SettlingKeepsOnLoopSend(s: State)
    requires Inv(s) && Enabled(s, SendFromLoop)
    ensures SettlingInv(Next(s, SendFromLoop))
  {
    hide OutcomeInv, StartInv, RowInv, EscapedInv, FramesInv, Consistent;
  }

  lemma SettlingKeepsOnSend(s: State, step: Step)
    requires Inv(s) && Enabled(s, step) && (step.SendFromRun? || step.SendFromLoop?)
    ensures SettlingInv(Next(s, step))
  {
    if step.SendFromRun? { SettlingKeepsOnRunSend(s); } else { SettlingKeepsOnLoopSend(s); }
  }

  lemma SettlingKeepsOnHandle(s: State, at: Time)
    requires Inv(s) && Enabled(s, Handle(at)) && !Next(s, Handle(at)).raised
    ensures SettlingInv(Next(s, Handle(at)))
  {
    hide OutcomeInv, StartInv, Consistent;
  }

  lemma SettlingKeepsOthers(s: State, step: Step)
    requires Inv(s) && Enabled(s, step) && !Next(s, step).raised && !MovesFrames(step)
    ensures SettlingInv(Next(s, step))
  {
    hide OutcomeInv, RowInv, EscapedInv, Consistent;
  }

  lemma SettlingKeeps(s: State, step: Step)
    requires Inv(s) && Enabled(s, step) && !Next(s, step).raised
    ensures SettlingInv(Next(s, step))
  {
    if step.Handle? {
      SettlingKeepsOnHandle(s, step.at);
    } else if MovesFrames(step) {
      SettlingKeepsOnSend(s, step);
    } else {
      SettlingKeepsOthers(s, step);
    }
  }

  lemma StartInvariant()
    ensures Inv(Start)
  {
  }

  lemma StepKeeps(s: State, step: Step)
    requires Inv(s) && Enabled(s, step) && !Next(s, step).raised
    ensures Inv(Next(s, step))
  {
    SessionKeeps(s, step);
    FramesKeep(s, step);
    StartKeeps(s, step);
    EscapedKeeps(s, step);
    RowKeeps(s, step);
    OutcomeKeeps(s, step);
    SettlingKeeps(s, step);
    hide *;
    hide Inv;
  }

  lemma RaisedKept(s: State, step: Step)
    requires Enabled(s, step) && !step.Handle?
    ensures Next(s, step).raised == s.raised
  {
    hide Enabled, Reconciled, CancelledBeforeStart, DisconnectedRow, FailedDispatch, Report;
    match step
    case HandleHello(_) =>
    case CleanUp =>
    case CancelQueued(_) =>
    case DispatchFails(_) =>
    case _ =>
  }

  lemma RaisingStep(s: State, step: Step)
    requires Enabled(s, step)
    ensures Next(s, step).raised == (s.raised || (step.Handle? && Invalid(s.row, Target(s.wire[0]))))
  {
    if step.Handle? {
      hide Transitioned, Invalid, Target;
    } else {
      hide Next;
      RaisedKept(s, step);
    }
  }

  lemma {:induction false} RunKeeps(states: seq<State>, steps: seq<Step>, i: nat)
    requires Run(states, steps) && i < |states| && !states[i].raised
    ensures Inv(states[i])
    decreases i
  {
    hide Inv, Next, Enabled;
    if i == 0 {
      StartInvariant();
    } else {
      RaisingStep(states[i - 1], steps[i - 1]);
      RunKeeps(states, steps, i - 1);
      StepKeeps(states[i - 1], steps[i - 1]);
    }
  }

  // ----- theorems -------------------------------------------------------------------

  /**
   * When the server raises an invalid transition: exactly when it handles the acceptance of a
   * start whose row was already disconnected when it was sent, the completion of a job whose
   * dispatched row a cleanup skipped, or the report of a process not started yet, on a row not
   * final. Through any interleaving, nothing else makes it raise for the first time.
   */
  lemma RaisesIff(states: seq<State>, steps: seq<Step>, i: nat)
    requires Run(states, steps) && i < |steps| && !states[i].raised
    ensures states[i + 1].raised <==> steps[i].Handle? && Trips(states[i], states[i].wire[0])
  {
    RunKeeps(states, steps, i);
    RaisingStep(states[i], steps[i]);
    if steps[i].Handle? { HandleRaisesIff(states[i], steps[i].at); }
  }

  /** The three situations to avoid, each recognised before the step that creates it. */
  predicate Risky(s: State, step: Step) {
    match step
    case SendStart => s.row.status == Disconnected
    case CleanUp => s.written && s.row.status == Dispatched
    case Reconcile => s.session.Starting?
    case _ => false
  }

  ghost predicate NoRisk(s: State) {
    !s.late && !s.escaped && !s.raised
    && JobStatus(Dispatched) !in s.wire && JobStatus(Dispatched) !in s.fromRun && JobStatus(Dispatched) !in s.fromLoop
  }

  lemma RiskFreeOnFrames(s: State, step: Step)
    requires Inv(s) && NoRisk(s) && Enabled(s, step) && MovesFrames(step)
    ensures NoRisk(Next(s, step))
  {
    if step.Handle? { HandleRaisesIff(s, step.at); }
    hide RowInv, OutcomeInv, SettlingInv, EscapedInv, Transitioned;
  }

  lemma RiskFreeOthers(s: State, step: Step)
    requires Inv(s) && NoRisk(s) && Enabled(s, step) && !Risky(s, step) && !MovesFrames(step)
    ensures NoRisk(Next(s, step))
  {
    hide FramesInv, StartInv, RowInv, OutcomeInv, SettlingInv, EscapedInv, Consistent, Reconciled;
  }

  lemma RiskFreeStep(s: State, step: Step)
    requires Inv(s) && NoRisk(s) && Enabled(s, step) && !Risky(s, step)
    ensures NoRisk(Next(s, step))
  {
    if MovesFrames(step) { RiskFreeOnFrames(s, step); } else { RiskFreeOthers(s, step); }
  }

  /**
   * Without these situations no interleaving of session steps, lost connections, cleanups,
   * hellos and reports raises an invalid transition.
   */
  lemma {:induction false} ReconnectNeverRaises(states: seq<State>, steps: seq<Step>, i: nat)
    requires Run(states, steps) && i < |states|
    requires forall k :: 0 <= k < i ==> !Risky(states[k], steps[k])
    ensures !states[i].raised && NoRisk(states[i])
    decreases i
  {
    hide Inv, Next, Enabled, Risky;
    if i > 0 {
      ReconnectNeverRaises(states, steps, i - 1);
      RunKeeps(states, steps, i - 1);
      RiskFreeStep(states[i - 1], steps[i - 1]);
    }
  }

  /**
   * A job that has ended on the server ended as its session did, unless it was cancelled in the
   * queue or its dispatch was reported failed: such rows stay cancelled and failed whatever the
   * session does.
   */
  lemma OutcomeAgrees(states: seq<State>, steps: seq<Step>, i: nat)
    requires Run(states, steps) && i < |states| && !states[i].raised
    ensures var s := states[i];
            && (IsTerminal(s.row.status) && !s.cancelledEarly && !s.dispatchFailed ==> Agrees(s.row, s.session))
            && (s.dispatchFailed ==> s.row.status == Failed)
            && (s.cancelledEarly && !s.dispatchFailed ==> s.row.status == Cancelled)
  {
    RunKeeps(states, steps, i);
  }

  /** Nothing is on its way in either direction on a connection whose reports have gone out. */
  predicate Quiet(s: State) {
    s.link.Up? && s.link.hello && s.link.reconciled && s.wire == [] && s.fromRun == [] && s.fromLoop == []
  }

  /**
   * Agreement: whatever was lost or skipped before, once a connection has gone quiet without
   * raising, the row says what the session says - running, waiting for input, or its outcome
   * with its exit code - unless the job was cancelled while it was still queued, or its dispatch
   * was reported failed. FailedDispatchDisagrees shows what that report can do. The row of a start
   * that was refused or lost is final or disconnected.
   */
  lemma QuietConnectionsAgree(states: seq<State>, steps: seq<Step>, i: nat)
    requires Run(states, steps) && i < |states| && !states[i].raised && Quiet(states[i])
    ensures var s := states[i];
            && (s.session.Active? ==> s.row.status == s.session.status || s.cancelledEarly || s.dispatchFailed)
            && (s.session.Done? ==> Agrees(s.row, s.session) || s.cancelledEarly || s.dispatchFailed)
            && (s.session.Absent? && s.startSent && !s.startInFlight ==> IsTerminal(s.row.status) || s.row.status == Disconnected)
  {
    RunKeeps(states, steps, i);
  }

  /** Queued and dispatched rows are the only ones that refuse an outcome, and only a completion; a cleanup mends that. */
  lemma SkippedCleanupRaisesOnEarlyRows(row: Row, o: Outcome)
    ensures Invalid(row, Target(Final(o))) <==> Early(row.status) && o.CompletedWith?
    ensures !Invalid(DisconnectedRow(row), Target(Final(o)))
  {
  }

  /** The steps that give the row a new updatedAt, as far as a later cleanup looks at it. */
  predicate Writes(s: State, step: Step) {
    match step
    case Create => true
    case DispatchFails(_) => true
    case NoteCancel => true
    case CancelQueued(_) => s.row.status == Queued
    case Handle(_) => s.wire != [] && !IsTerminal(s.row.status) && CanTransition(s.row.status, Target(s.wire[0]))
    case HandleHello(_) => HelloPending(s.link) && s.link.listed && !IsTerminal(s.row.status)
    case _ => false
  }

  /** Some step from `from` on has written the row, and the connection has not been lost since. */
  ghost predicate WrittenSince(states: seq<State>, steps: seq<Step>, n: nat)
    requires n <= |steps| <= |states|
  {
    exists k :: 0 <= k < n && Writes(states[k], steps[k]) && forall j :: k < j < n ==> steps[j] != Disconnect
  }

  lemma WrittenStep(s: State, step: Step)
    requires Enabled(s, step)
    ensures Next(s, step).written <==> step != Disconnect && (s.written || Writes(s, step))
  {
    hide Transitioned, Reconciled, CancelledBeforeStart, DisconnectedRow, FailedDispatch, Report;
    match step
    case Create =>
    case DispatchFails(_) =>
    case Handle(_) =>
    case CancelQueued(_) =>
    case NoteCancel =>
    case CleanUp =>
    case HandleHello(_) =>
    case _ =>
  }

  /** What a cleanup skips: exactly the rows written since the connection was lost, or the last one was. */
  lemma {:induction false} SkippedIffWrittenSince(states: seq<State>, steps: seq<Step>, n: nat)
    requires Run(states, steps) && n < |states|
    ensures states[n].written <==> WrittenSince(states, steps, n)
    decreases n
  {
    hide Next, Enabled, Writes;
    if n > 0 {
      SkippedIffWrittenSince(states, steps, n - 1);
      WrittenStep(states[n - 1], steps[n - 1]);
      if WrittenSince(states, steps, n - 1) && steps[n - 1] != Disconnect {
        var k :| 0 <= k < n - 1 && Writes(states[k], steps[k]) && forall j :: k < j < n - 1 ==> steps[j] != Disconnect;
        assert WrittenSince(states, steps, n);
      }
      if Writes(states[n - 1], steps[n - 1]) {
        assert WrittenSince(states, steps, n);
        assert steps[n - 1] != Disconnect by { DisconnectWritesNothing(states[n - 1]); }
      }
    }
  }

  lemma DisconnectWritesNothing(s: State)
    ensures !Writes(s, Disconnect)
  {
  }

  /** Whether the server has cleaned up and not heard of the agent since. */
  predicate Away(link: Link) {
    link == CleanedUp || link.Dialing?
  }

  lemma RowUntouched(s: State, step: Step)
    requires Enabled(s, step) && !WritesRow(step) && !step.Handle? && !step.CleanUp? && !step.HandleHello?
    ensures Next(s, step).row == s.row && Next(s, step).created == s.created
  {
    hide Enabled, Report, HelloPending;
    match step
    case SendStart =>
    case Accept =>
    case Reject =>
    case ProcessStarts(_) =>
    case ProcessFailsToStart =>
    case Finish(_) =>
    case SendFromRun =>
    case SendFromLoop =>
    case Disconnect =>
    case Dial =>
    case Welcome =>
    case Reconcile =>
  }

  lemma AwayStep(s: State, step: Step)
    requires Enabled(s, step) && s.created && Away(s.link)
    requires IsTerminal(s.row.status) || s.row.status == Disconnected
    ensures var r := Next(s, step).row; IsTerminal(r.status) || r.status == Disconnected
    ensures Next(s, step).created
  {
    if !WritesRow(step) {
      RowUntouched(s, step);
      hide Next;
    }
  }

  /**
   * What the server says about an absent device: from the cleanup of a job whose row was not
   * written after the loss, and until the agent is back, the row is final or disconnected. The
   * cleanup itself changes nothing else, and nothing about a row that it skips.
   */
  lemma {:induction false} AbsentJobsDisconnected(states: seq<State>, steps: seq<Step>, i: nat, j: nat)
    requires Run(states, steps) && i < j < |states| && steps[i] == CleanUp && states[i].created && !states[i].written
    requires forall k :: i < k <= j ==> Away(states[k].link)
    ensures states[j].created && (IsTerminal(states[j].row.status) || states[j].row.status == Disconnected)
    ensures var was := states[i].row;
            states[i + 1].row == if IsTerminal(was.status) then was else was.(status := Disconnected)
    decreases j
  {
    hide Next, Enabled, Away, IsTerminal;
    if j == i + 1 {
      CleanUpStep(states[i]);
    } else {
      AbsentJobsDisconnected(states, steps, i, j - 1);
      AwayStep(states[j - 1], steps[j - 1]);
    }
  }

  lemma CleanUpStep(s: State)
    requires Enabled(s, CleanUp) && s.created
    ensures Next(s, CleanUp).created
    ensures Next(s, CleanUp).row == if s.written || IsTerminal(s.row.status) then s.row else s.row.(status := Disconnected)
  {
    DisconnectsTheUnfinished(s.row);
  }

  // ----- each situation does raise --------------------------------------------------

  /** The agent reconnects, and the server handles its hello. */
  function Reopen(s: State, at: Time): (s': State)
    requires s.link == CleanedUp && s.fromLoop == []
    ensures s' == s.(link := Up(true, s.session.Starting? || s.session.Active?, false), row := s'.row, written := s'.written,
                     escaped := s'.escaped)
    ensures s'.row == Reconciled(s.row, s.session.Starting? || s.session.Active?, at)
  {
    var dialled := Next(s, Dial);
    Next(Next(dialled, Welcome), HandleHello(at))
  }

  /** The agent sends the first frame of its report. */
  function BeginReport(s: State): (s': State)
    requires s.link.Up? && !s.link.reconciled && s.fromLoop == [] && !s.session.Absent?
    ensures s' == s.(link := Up(s.link.hello, s.link.listed, true), wire := s.wire + [Report(s.session)[0]], fromLoop := s'.fromLoop)
  {
    var reported := Next(s, Reconcile);
    Next(reported, SendFromLoop)
  }

  /** A dispatched row that a cleanup skipped: the next report raises if and only if it is a completion. */
  lemma SkippedRowRaisesIffCompleted(s: State, at: Time)
    requires Inv(s) && !s.raised && s.link == CleanedUp && s.escaped && s.fromLoop == [] && !s.session.Absent?
    ensures Next(BeginReport(Reopen(s, at)), Handle(at)).raised <==> s.session.Done? && s.session.outcome.CompletedWith?
  {
    hide Reopen, BeginReport, SessionInv, FramesInv, StartInv, RowInv, OutcomeInv, SettlingInv;
    assert s.row.status == Dispatched;
    assert s.wire == [] by { EmptyWhenCleanedUp(s); }
  }

  lemma EmptyWhenCleanedUp(s: State)
    requires Inv(s) && s.link == CleanedUp
    ensures s.wire == []
  {
  }

  lemma BeforeStart(s: State)
    requires Inv(s) && Enabled(s, SendStart)
    ensures s.wire == [] && s.row.status in {Queued, Cancelled, Disconnected, Failed}
  {
    hide FramesInv, EscapedInv, RowInv, SettlingInv;
  }

  /** A start sent late, once accepted: the acceptance raises if and only if the row was disconnected by then. */
  lemma LateStartRaisesIff(s: State, at: Time)
    requires Inv(s) && !s.raised && Enabled(s, SendStart)
    requires s.link.hello && s.link.reconciled && s.fromLoop == []
    ensures Next(Next(Next(s, SendStart), Accept), Handle(at)).raised <==> s.row.status == Disconnected
  {
    BeforeStart(s);
    hide Inv;
    var accepted := Next(Next(s, SendStart), Accept);
    assert accepted.wire == [JobAccepted];
  }

  lemma BeforeReport(s: State)
    requires Inv(s) && s.link.Up? && s.link.hello && !s.link.reconciled && s.session.Starting? && s.wire == []
    ensures s.fromLoop == [] && (IsTerminal(s.row.status) || Live(s.row.status))
  {
  }

  /** The report of a session whose process has not started goes out. */
  function ReportUnstarted(s: State): (s': State)
    requires s.link.Up? && !s.link.reconciled && s.session.Starting? && s.fromLoop == []
    ensures s' == s.(link := s.link.(reconciled := true), wire := s.wire + [JobStarted] + [JobStatus(Dispatched)])
  {
    Next(Next(Next(s, Reconcile), SendFromLoop), SendFromLoop)
  }

  /** A report on a process that has not started raises if and only if the row is not final. */
  lemma UnstartedReportRaises(s: State, at: Time)
    requires Inv(s) && !s.raised && s.link.Up? && s.link.hello && !s.link.reconciled && s.session.Starting? && s.wire == []
    ensures s.fromLoop == []
    ensures Next(Next(ReportUnstarted(s), Handle(at)), Handle(at)).raised <==> !IsTerminal(s.row.status)
  {
    BeforeReport(s);
    hide Inv, ReportUnstarted;
    var reported := ReportUnstarted(s);
    assert reported.wire == [JobStarted, JobStatus(Dispatched)];
    assert Next(reported, Handle(at)).wire == [JobStatus(Dispatched)];
  }

  lemma RunSnoc(states: seq<State>, steps: seq<Step>, step: Step) returns (states': seq<State>, steps': seq<Step>)
    requires Run(states, steps) && Enabled(states[|steps|], step)
    ensures Run(states', steps') && states'[|steps'|] == Next(states[|steps|], step) && steps' == steps + [step]
  {
    states', steps' := states + [Next(states[|steps|], step)], steps + [step];
    hide Next, Enabled;
  }

  /** An accepted start is handled only after the connection is lost. */
  lemma AcceptedBeforeLoss(at: Time) returns (states: seq<State>, steps: seq<Step>)
    ensures Run(states, steps)
    ensures states[|steps|] ==
            State(true, true, Row(Dispatched, None, None, None), Active(Running), false, Down(true, false),
                  [], [JobStarted, JobStatus(Running)], [], true, false, false, false, false, false)
  {
    states, steps := [Start], [];
    states, steps := RunSnoc(states, steps, Create);
    hide Run;
    states, steps := RunSnoc(states, steps, SendStart);
    states, steps := RunSnoc(states, steps, Accept);
    states, steps := RunSnoc(states, steps, ProcessStarts(Running));
    states, steps := RunSnoc(states, steps, Disconnect);
    states, steps := RunSnoc(states, steps, Handle(at));
  }

  /**
   * Such a row is reached: the acceptance is handled only after the connection is lost, so the
   * cleanup skips the row, and the job completes before the agent is back.
   */
  lemma CleanupSkipsDispatchedRow(at: Time) returns (states: seq<State>, steps: seq<Step>)
    ensures Run(states, steps)
    ensures var s := states[|steps|];
            s.link == CleanedUp && s.escaped && s.session == Done(CompletedWith(0)) && s.wire == [] && s.fromRun == [] && s.fromLoop == []
            && s.row.status == Dispatched && !s.raised
  {
    states, steps := AcceptedBeforeLoss(at);
    hide Run;
    states, steps := RunSnoc(states, steps, SendFromRun);
    states, steps := RunSnoc(states, steps, SendFromRun);
    states, steps := RunSnoc(states, steps, Finish(CompletedWith(0)));
    states, steps := RunSnoc(states, steps, SendFromRun);
    states, steps := RunSnoc(states, steps, CleanUp);
  }

  /** A row created before the connection is lost and cleaned up, whose start goes out on the next connection. */
  lemma StartOutlivesCleanup(at: Time) returns (states: seq<State>, steps: seq<Step>)
    ensures Run(states, steps)
    ensures var s := states[|steps|];
            Enabled(s, SendStart) && s.row.status == Disconnected && s.link.hello && s.link.reconciled && s.fromLoop == [] && s.wire == []
            && !s.raised
  {
    states, steps := [Start], [];
    states, steps := RunSnoc(states, steps, Create);
    hide Run;
    states, steps := RunSnoc(states, steps, Disconnect);
    states, steps := RunSnoc(states, steps, CleanUp);
    states, steps := RunSnoc(states, steps, Dial);
    states, steps := RunSnoc(states, steps, Welcome);
    states, steps := RunSnoc(states, steps, HandleHello(at));
    states, steps := RunSnoc(states, steps, Reconcile);
  }

  lemma ReopenRun(states: seq<State>, steps: seq<Step>, at: Time) returns (states': seq<State>, steps': seq<Step>)
    requires Run(states, steps) && states[|steps|].link == CleanedUp && states[|steps|].fromLoop == []
    ensures Run(states', steps') && states'[|steps'|] == Reopen(states[|steps|], at)
  {
    states', steps' := RunSnoc(states, steps, Dial);
    hide Run, Write, Reconciled;
    states', steps' := RunSnoc(states', steps', Welcome);
    states', steps' := RunSnoc(states', steps', HandleHello(at));
  }

  lemma BeginReportRun(states: seq<State>, steps: seq<Step>) returns (states': seq<State>, steps': seq<Step>)
    requires Run(states, steps)
    requires var s := states[|steps|]; s.link.Up? && !s.link.reconciled && s.fromLoop == [] && !s.session.Absent?
    ensures Run(states', steps') && states'[|steps'|] == BeginReport(states[|steps|])
  {
    states', steps' := RunSnoc(states, steps, Reconcile);
    hide Run;
    states', steps' := RunSnoc(states', steps', SendFromLoop);
  }

  /** The same run, up to the report: the server raises. */
  lemma SkippedCompletionRaises(at: Time) returns (states: seq<State>, steps: seq<Step>)
    ensures Run(states, steps) && states[|steps|].raised
  {
    states, steps := CleanupSkipsDispatchedRow(at);
    hide Run, Reopen, BeginReport;
    states, steps := ReopenRun(states, steps, at);
    states, steps := BeginReportRun(states, steps);
    states, steps := RunSnoc(states, steps, Handle(at));
  }

  lemma LateAcceptanceRaises(at: Time) returns (states: seq<State>, steps: seq<Step>)
    ensures Run(states, steps) && states[|steps|].raised
  {
    states, steps := StartOutlivesCleanup(at);
    hide Run;
    states, steps := RunSnoc(states, steps, SendStart);
    states, steps := RunSnoc(states, steps, Accept);
    states, steps := RunSnoc(states, steps, Handle(at));
  }

  /** A job whose start was delivered and reported undelivered all the same, running. */
  function RunningThoughFailed(at: Time): State {
    State(true, true, FailedDispatch(NewRow, at), Active(Running), false, Up(true, false, true),
          [], [], [], true, false, true, false, false, false)
  }

  lemma DeliveredThoughFailed(at: Time) returns (states: seq<State>, steps: seq<Step>)
    ensures Run(states, steps)
    ensures states[|steps|] == RunningThoughFailed(at).(session := Starting)
  {
    states, steps := [Start], [];
    states, steps := RunSnoc(states, steps, Create);
    hide Run;
    states, steps := RunSnoc(states, steps, SendStart);
    states, steps := RunSnoc(states, steps, DispatchFails(at));
    states, steps := RunSnoc(states, steps, Accept);
    states, steps := RunSnoc(states, steps, Handle(at));
  }

  lemma RunsThoughFailed(at: Time) returns (states: seq<State>, steps: seq<Step>)
    ensures Run(states, steps)
    ensures states[|steps|] == RunningThoughFailed(at)
  {
    states, steps := DeliveredThoughFailed(at);
    hide Run;
    states, steps := RunSnoc(states, steps, ProcessStarts(Running));
    states, steps := RunSnoc(states, steps, SendFromRun);
    states, steps := RunSnoc(states, steps, SendFromRun);
    states, steps := RunSnoc(states, steps, Handle(at));
    states, steps := RunSnoc(states, steps, Handle(at));
  }

  /**
   * A start that is delivered although routing it is reported failed: the job runs and completes,
   * every report of it is ignored, and the row says failed for good.
   */
  lemma FailedDispatchDisagrees(at: Time) returns (states: seq<State>, steps: seq<Step>)
    ensures Run(states, steps)
    ensures var s := states[|steps|];
            Quiet(s) && !s.raised && s.session == Done(CompletedWith(0)) && s.row == Row(Failed, None, Some(at), None)
  {
    states, steps := RunsThoughFailed(at);
    hide Run;
    states, steps := RunSnoc(states, steps, Finish(CompletedWith(0)));
    states, steps := RunSnoc(states, steps, SendFromRun);
    states, steps := RunSnoc(states, steps, Handle(at));
  }
}
