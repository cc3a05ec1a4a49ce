/**
 * What a routed send achieves, and what a heartbeat finds out: the other side of Presence, whose
 * invariants bound what can happen. Here, what does happen.
 */
module RoutedSends {
  import opened Presence
  import opened Wrappers

  // ----- what a send learns ---------------------------------------------------------

  /** Whether the message goes out on the connection's socket. */
  predicate OnSocketNow(s: State, id: SendId, k: nat)
    requires (id, k) in s.attempts && s.attempts[(id, k)].stage.TouchAnswered?
  {
    s.attempts[(id, k)].stage.ok && s.attempts[(id, k)].target !in s.closed
  }

  /**
   * What a step tells the send that waits for attempt `k`: an outcome on its own instance at once,
   * one elsewhere by its ack, a failed publish as a failure, and so the timeout.
   */
  function Learned(s: State, step: Step, id: SendId, k: nat): Option<bool>
    requires Enabled(s, step) && (id, k) in s.attempts
  {
    var target := s.attempts[(id, k)].target;
    match step
    case LaunchLocal(i) => if i == id && !Mapped(s, target) then Some(false) else None
    case Publish(i, published, _) => if i == id && !published then Some(false) else None
    case ReceiveEnvelope(i, j) => if i == id && j == k && IsLocal(s, id, target) && !Mapped(s, target) then Some(false) else None
    case SendOnSocket(i, j) => if i == id && j == k && IsLocal(s, id, target) then Some(OnSocketNow(s, id, k)) else None
    case ReceiveAck(i, j) => if i == id && j == k then Some(s.attempts[(id, k)].stage == Over(true)) else None
    case AckTimeout(i) => if i == id then Some(false) else None
    case _ => None
  }

  /** The phase of a send that has been told `learned` about the attempt it waits for. */
  function After(s: State, id: SendId, k: nat, learned: Option<bool>): Phase
    requires (id, k) in s.attempts
  {
    match learned
    case None => Awaiting(k)
    case Some(true) => Finished(true)
    case Some(false) => Reading(k + 1, Some(s.attempts[(id, k)].target))
  }

  predicate MovesAttempt(step: Step) {
    step.ReadOwner? || step.LaunchLocal? || step.Publish? || step.ReceiveEnvelope? || step.TouchForSend? || step.SendOnSocket?
  }

  /** How an attempt ends: its stage says so, and the send knows at once if it is on that instance. */
  lemma Concluded(s: State, id: SendId, k: nat, sent: bool)
    requires (id, k) in s.attempts
    ensures var s' := Conclude(s, id, k, sent);
            && s'.attempts == s.attempts[(id, k) := s.attempts[(id, k)].(stage := Over(sent))]
            && s'.sends.Keys == s.sends.Keys
            && forall i :: i in s.sends ==>
                 s'.sends[i].phase ==
                   if i == id && s.sends[i].phase == Awaiting(k) && IsLocal(s, id, s.attempts[(id, k)].target)
                   then After(s, id, k, Some(sent)) else s.sends[i].phase
  {
  }

  lemma LearnsOnSocket(s: State, i: SendId, j: nat, id: SendId, k: nat)
    requires Enabled(s, SendOnSocket(i, j)) && id in s.sends && s.sends[id].phase == Awaiting(k) && (id, k) in s.attempts
    ensures var s' := Next(s, SendOnSocket(i, j));
            id in s'.sends && s'.sends[id].phase == After(s, id, k, Learned(s, SendOnSocket(i, j), id, k))
  {
    var c := s.attempts[(i, j)].target;
    var s0 := Unmap(s, c).(closed := s.closed + {c});
    hide Executed, Unmap, Mapped, Holder, Conclude, Resume;
    Concluded(s0, i, j, false);
    Concluded(s, i, j, false);
    Concluded(s, i, j, true);
    assert IsLocal(s0, i, c) == IsLocal(s, i, c);
    hide IsLocal;
  }

  lemma LearnsFromAttempts(s: State, step: Step, id: SendId, k: nat)
    requires Enabled(s, step) && id in s.sends && s.sends[id].phase == Awaiting(k) && (id, k) in s.attempts
    requires MovesAttempt(step) && !step.SendOnSocket?
    ensures id in Next(s, step).sends && Next(s, step).sends[id].phase == After(s, id, k, Learned(s, step, id, k))
  {
    hide Executed, Unmap, Mapped, Holder;
    match step
    case LaunchLocal(_) =>
    case Publish(_, _, _) =>
    case ReceiveEnvelope(_, _) =>
    case ReadOwner(_, _) =>
    case TouchForSend(_, _, _, _) =>
  }

  lemma LearnsOtherwise(s: State, step: Step, id: SendId, k: nat)
    requires Enabled(s, step) && id in s.sends && s.sends[id].phase == Awaiting(k) && (id, k) in s.attempts && !MovesAttempt(step)
    ensures id in Next(s, step).sends && Next(s, step).sends[id].phase == After(s, id, k, Learned(s, step, id, k))
  {
    hide Executed, Unmap, Mapped, Holder, IsLocal;
    match step
    case ReceiveAck(_, _) =>
    case AckTimeout(_) =>
    case BeginSend(_, _) =>
    case _ =>
  }

  /**
   * A send acts on what it learns, and on nothing else: told of a delivery it returns true, told of a
   * failure it reads the presence again, and until then it waits.
   */
  lemma SendActsOnWhatItLearns(s: State, step: Step, id: SendId, k: nat)
    requires Enabled(s, step) && id in s.sends && s.sends[id].phase == Awaiting(k) && (id, k) in s.attempts
    ensures id in Next(s, step).sends && Next(s, step).sends[id].phase == After(s, id, k, Learned(s, step, id, k))
  {
    if step.SendOnSocket? {
      LearnsOnSocket(s, step.id, step.k, id, k);
    } else if MovesAttempt(step) {
      LearnsFromAttempts(s, step, id, k);
    } else {
      LearnsOtherwise(s, step, id, k);
    }
    hide Next, Enabled, Learned;
  }

  // ----- a reachable device gets its message ----------------------------------------

  /** A connection that holds the presence on an open socket and is in its instance's map. */
  predicate Reachable(s: State, c: Conn) {
    s.presence == Some(c) && c !in s.closed && Mapped(s, c)
  }

  /** The send has looked up `c` and is to make attempt `k` there. */
  ghost predicate PlannedAt(s: State, id: SendId, k: nat, c: Conn) {
    id in s.sends && s.sends[id].phase == Awaiting(k) && (id, k) in s.attempts && s.attempts[(id, k)] == Attempt(c, Planned)
  }

  /** The attempt has found the connection and is to ask for its touch. */
  ghost predicate AskingAt(s: State, id: SendId, k: nat, c: Conn) {
    id in s.sends && s.sends[id].phase == Awaiting(k) && (id, k) in s.attempts && s.attempts[(id, k)] == Attempt(c, AskingTouch)
  }

  ghost predicate DeliveredAndKnown(s: State, id: SendId, k: nat, c: Conn) {
    id in s.sends && s.sends[id].phase == Finished(true) && Delivered(id, k, c) in s.events
  }

  lemma PlanAttempt(states: seq<State>, steps: seq<Step>, id: SendId, c: Conn) returns (states': seq<State>, steps': seq<Step>)
    requires Run(states, steps) && id in states[|steps|].sends && Reachable(states[|steps|], c)
    requires var phase := states[|steps|].sends[id].phase; phase.Reading? && phase.k < 2 && phase.last != Some(c)
    ensures Run(states', steps') && Reachable(states'[|steps'|], c)
    ensures PlannedAt(states'[|steps'|], id, states[|steps|].sends[id].phase.k, c)
  {
    states', steps' := RunSnoc(states, steps, ReadOwner(id, true));
    hide Run;
  }

  /** On its own instance at once, elsewhere by an envelope. */
  lemma FindConnection(states: seq<State>, steps: seq<Step>, id: SendId, k: nat, c: Conn) returns (states': seq<State>, steps': seq<Step>)
    requires Run(states, steps) && Reachable(states[|steps|], c) && PlannedAt(states[|steps|], id, k, c)
    ensures Run(states', steps') && Reachable(states'[|steps'|], c) && AskingAt(states'[|steps'|], id, k, c)
  {
    var s := states[|steps|];
    hide Run;
    if IsLocal(s, id, c) {
      states', steps' := RunSnoc(states, steps, LaunchLocal(id));
    } else {
      states', steps' := RunSnoc(states, steps, Publish(id, true, true));
      states', steps' := RunSnoc(states', steps', ReceiveEnvelope(id, k));
    }
  }

  lemma TouchAndSend(states: seq<State>, steps: seq<Step>, id: SendId, k: nat, c: Conn) returns (states': seq<State>, steps': seq<Step>)
    requires Run(states, steps) && Reachable(states[|steps|], c) && AskingAt(states[|steps|], id, k, c)
    ensures Run(states', steps') && DeliveredAndKnown(states'[|steps'|], id, k, c)
  {
    hide Run, Mapped;
    states', steps' := RunSnoc(states, steps, TouchForSend(id, k, true, true));
    states', steps' := RunSnoc(states', steps', SendOnSocket(id, k));
    var s := states'[|steps'|];
    assert s.events[|s.events| - 1] == Delivered(id, k, c);
    if s.sends[id].phase == Awaiting(k) {
      states', steps' := RunSnoc(states', steps', ReceiveAck(id, k));
    }
  }

  /** While a send may still make an attempt, a reachable device gets its message, and the send knows. */
  lemma AttemptSucceeds(states: seq<State>, steps: seq<Step>, id: SendId, c: Conn) returns (states': seq<State>, steps': seq<Step>)
    requires Run(states, steps) && id in states[|steps|].sends && Reachable(states[|steps|], c)
    requires var phase := states[|steps|].sends[id].phase; phase.Reading? && phase.k < 2 && phase.last != Some(c)
    ensures Run(states', steps') && DeliveredAndKnown(states'[|steps'|], id, states[|steps|].sends[id].phase.k, c)
  {
    var k := states[|steps|].sends[id].phase.k;
    hide Run, Reachable, PlannedAt, AskingAt, DeliveredAndKnown;
    states', steps' := PlanAttempt(states, steps, id, c);
    states', steps' := FindConnection(states', steps', id, k, c);
    states', steps' := TouchAndSend(states', steps', id, k, c);
  }

  /**
   * A reachable device gets its message: from every state that can be reached, and whichever instance
   * sends, if nothing fails the first attempt delivers it and the send returns true.
   */
  lemma HolderGetsTheMessage(states: seq<State>, steps: seq<Step>, id: SendId, i: Instance, c: Conn)
    returns (states': seq<State>, steps': seq<Step>)
    requires Run(states, steps) && id !in states[|steps|].sends && Reachable(states[|steps|], c)
    ensures Run(states', steps') && DeliveredAndKnown(states'[|steps'|], id, 0, c)
  {
    states', steps' := RunSnoc(states, steps, BeginSend(id, i));
    hide Run;
    states', steps' := AttemptSucceeds(states', steps', id, c);
  }

  /** A connection that a send has found on its way to the touch, and its successor at the presence. */
  ghost predicate Replaced(s: State, id: SendId, c: Conn, d: Conn) {
    AskingAt(s, id, 0, c) && c != d && Reachable(s, d)
  }

  /** The first attempt is over, undelivered, and the send knows or is about to be told. */
  ghost predicate FirstFailed(s: State, id: SendId, c: Conn) {
    && id in s.sends && (id, 0) in s.attempts && s.attempts[(id, 0)] == Attempt(c, Over(false))
    && (s.sends[id].phase == Reading(1, Some(c)) || (s.sends[id].phase == Awaiting(0) && (id, 0) in s.acks))
  }

  /** The touch is refused and the connection closed; its instance forgets the device. */
  lemma RefusedTouch(states: seq<State>, steps: seq<Step>, id: SendId, c: Conn, d: Conn) returns (states': seq<State>, steps': seq<Step>)
    requires Run(states, steps) && Replaced(states[|steps|], id, c, d)
    ensures Run(states', steps') && FirstFailed(states'[|steps'|], id, c)
    ensures var s, s' := states[|steps|], states'[|steps'|];
            && s'.presence == Some(d) && d !in s'.closed && c in s'.closed && s'.owner == s.owner
            && (Mapped(s', d) <==> !OnInstanceOf(s, c, d))
  {
    states', steps' := RunSnoc(states, steps, TouchForSend(id, 0, true, true));
    hide Run;
    states', steps' := RunSnoc(states', steps', SendOnSocket(id, 0));
  }

  lemma FailureKnown(states: seq<State>, steps: seq<Step>, id: SendId, c: Conn) returns (states': seq<State>, steps': seq<Step>)
    requires Run(states, steps) && FirstFailed(states[|steps|], id, c)
    ensures Run(states', steps')
    ensures var s, s' := states[|steps|], states'[|steps'|];
            && s' == s.(sends := s'.sends, acks := s'.acks) && id in s'.sends && s'.sends[id].phase == Reading(1, Some(c))
            && s'.sends[id].instance == s.sends[id].instance
  {
    var s := states[|steps|];
    states', steps' := states, steps;
    if s.sends[id].phase == Awaiting(0) {
      states', steps' := RunSnoc(states, steps, ReceiveAck(id, 0));
    }
    hide Run;
  }

  /**
   * A reconnect in the middle of a send, to another instance, does not lose the message: the touch of
   * the connection looked up is refused, and the second attempt goes to its successor.
   */
  lemma SuccessorGetsTheMessage(states: seq<State>, steps: seq<Step>, id: SendId, c: Conn, d: Conn)
    returns (states': seq<State>, steps': seq<Step>)
    requires Run(states, steps) && Replaced(states[|steps|], id, c, d) && !OnInstanceOf(states[|steps|], c, d)
    ensures Run(states', steps') && DeliveredAndKnown(states'[|steps'|], id, 1, d)
  {
    states', steps' := RefusedTouch(states, steps, id, c, d);
    hide Run;
    states', steps' := FailureKnown(states', steps', id, c);
    states', steps' := AttemptSucceeds(states', steps', id, d);
  }

  /** The successor holds the presence on an open socket, and no instance can find it. */
  ghost predicate Lost(s: State, id: SendId, d: Conn) {
    s.presence == Some(d) && d !in s.closed && !Mapped(s, d) && id in s.sends
  }

  lemma SecondAttemptFails(states: seq<State>, steps: seq<Step>, id: SendId, d: Conn) returns (states': seq<State>, steps': seq<Step>)
    requires Run(states, steps) && Lost(states[|steps|], id, d) && PlannedAt(states[|steps|], id, 1, d)
    ensures Run(states', steps') && Lost(states'[|steps'|], id, d)
    ensures states'[|steps'|].sends[id].phase == Reading(2, Some(d)) && states'[|steps'|].events == states[|steps|].events
  {
    var s := states[|steps|];
    hide Run, Mapped;
    if IsLocal(s, id, d) {
      states', steps' := RunSnoc(states, steps, LaunchLocal(id));
    } else {
      states', steps' := RunSnoc(states, steps, Publish(id, true, true));
      states', steps' := RunSnoc(states', steps', ReceiveEnvelope(id, 1));
      states', steps' := RunSnoc(states', steps', ReceiveAck(id, 1));
    }
  }

  /**
   * A reconnect in the middle of a send, to the same instance, loses the message even if nothing
   * fails: the refused touch deletes the successor's entry along, the second attempt does not find it,
   * and the send returns false although the device is connected.
   */
  lemma SuccessorOnSameInstanceIsLost(states: seq<State>, steps: seq<Step>, id: SendId, c: Conn, d: Conn)
    returns (states': seq<State>, steps': seq<Step>)
    requires Run(states, steps) && Replaced(states[|steps|], id, c, d) && OnInstanceOf(states[|steps|], c, d)
    ensures Run(states', steps') && Lost(states'[|steps'|], id, d) && states'[|steps'|].sends[id].phase == Finished(false)
  {
    states', steps' := RefusedTouch(states, steps, id, c, d);
    hide Run, Mapped;
    states', steps' := FailureKnown(states', steps', id, c);
    states', steps' := RunSnoc(states', steps', ReadOwner(id, true));
    states', steps' := SecondAttemptFails(states', steps', id, d);
    states', steps' := RunSnoc(states', steps', ReadOwner(id, true));
  }

  /** The connection a send has found is replaced before its touch, on the same instance. */
  lemma ReconnectDuringSend(id: SendId, i: Instance, c: Conn, d: Conn) returns (states: seq<State>, steps: seq<Step>)
    requires c != d
    ensures Run(states, steps) && Replaced(states[|steps|], id, c, d) && OnInstanceOf(states[|steps|], c, d)
  {
    states, steps := [Start], [];
    states, steps := RunSnoc(states, steps, Claim(c, i));
    hide Run;
    states, steps := RunSnoc(states, steps, Place(c));
    states, steps := RunSnoc(states, steps, BeginSend(id, i));
    states, steps := RunSnoc(states, steps, ReadOwner(id, true));
    states, steps := RunSnoc(states, steps, LaunchLocal(id));
    states, steps := RunSnoc(states, steps, Claim(d, i));
    states, steps := RunSnoc(states, steps, Place(d));
  }

  // ----- what a send goes through ---------------------------------------------------

  /** Attempts reach a touch only by way of the map of the connection's instance. */
  ghost predicate FoundInMap(states: seq<State>, steps: seq<Step>, n: nat, id: SendId, k: nat, c: Conn)
    requires n <= |steps| <= |states|
  {
    exists m :: 0 <= m < n && Mapped(states[m], c) && (steps[m] == LaunchLocal(id) || steps[m] == ReceiveEnvelope(id, k))
  }

  predicate PastTheMap(stage: Stage) {
    stage == AskingTouch || stage.TouchAnswered? || stage == Over(true)
  }

  lemma PassesTheMap(s: State, step: Step, id: SendId, k: nat)
    requires Enabled(s, step) && (id, k) in Next(s, step).attempts && PastTheMap(Next(s, step).attempts[(id, k)].stage)
    ensures (id, k) in s.attempts && s.attempts[(id, k)].target == Next(s, step).attempts[(id, k)].target
    ensures PastTheMap(s.attempts[(id, k)].stage)
            || (Mapped(s, s.attempts[(id, k)].target) && (step == LaunchLocal(id) || step == ReceiveEnvelope(id, k)))
  {
    if step.SendOnSocket? {
      PassesTheMapSent(s, step.id, step.k, id, k);
    } else if step.ReceiveEnvelope? {
      PassesTheMapFound(s, step, step.id, step.k, id, k);
    } else if step.LaunchLocal? {
      PassesTheMapFound(s, step, step.id, s.sends[step.id].phase.k, id, k);
    } else if MovesAttempt(step) {
      PassesTheMapMoving(s, step, id, k);
    } else {
      AttemptsStay(s, step);
    }
    hide Next, Enabled;
  }

  lemma AttemptsStay(s: State, step: Step)
    requires Enabled(s, step) && !MovesAttempt(step)
    ensures Next(s, step).attempts == s.attempts
  {
    hide Enabled, Executed, Holder, Resume, Unmap, Mapped, IsLocal, AwaitedAt, AtStage;
  }

  lemma PassesTheMapSent(s: State, i: SendId, j: nat, id: SendId, k: nat)
    requires Enabled(s, SendOnSocket(i, j)) && (id, k) in Next(s, SendOnSocket(i, j)).attempts
    requires PastTheMap(Next(s, SendOnSocket(i, j)).attempts[(id, k)].stage)
    ensures (id, k) in s.attempts && s.attempts[(id, k)].target == Next(s, SendOnSocket(i, j)).attempts[(id, k)].target
    ensures PastTheMap(s.attempts[(id, k)].stage)
  {
    var c := s.attempts[(i, j)].target;
    hide Holder, Resume, Unmap, IsLocal, Mapped, Conclude;
    Concluded(Unmap(s, c).(closed := s.closed + {c}), i, j, false);
    Concluded(s, i, j, false);
    Concluded(s, i, j, true);
  }

  lemma PassesTheMapFound(s: State, step: Step, i: SendId, j: nat, id: SendId, k: nat)
    requires Enabled(s, step) && (i, j) in s.attempts
    requires step == ReceiveEnvelope(i, j) || (step == LaunchLocal(i) && s.sends[i].phase.k == j)
    requires (id, k) in Next(s, step).attempts && PastTheMap(Next(s, step).attempts[(id, k)].stage)
    ensures (id, k) in s.attempts && s.attempts[(id, k)].target == Next(s, step).attempts[(id, k)].target
    ensures PastTheMap(s.attempts[(id, k)].stage)
            || (Mapped(s, s.attempts[(id, k)].target) && (step == LaunchLocal(id) || step == ReceiveEnvelope(id, k)))
  {
    hide Executed, Holder, Resume, Unmap, IsLocal, Mapped, Conclude;
    Concluded(s, i, j, false);
  }

  lemma PassesTheMapMoving(s: State, step: Step, id: SendId, k: nat)
    requires Enabled(s, step) && (step.Publish? || step.TouchForSend? || step.ReadOwner?)
    requires (id, k) in Next(s, step).attempts && PastTheMap(Next(s, step).attempts[(id, k)].stage)
    ensures (id, k) in s.attempts && s.attempts[(id, k)].target == Next(s, step).attempts[(id, k)].target
    ensures PastTheMap(s.attempts[(id, k)].stage)
  {
    hide Executed, Holder, Resume, Unmap, IsLocal, Mapped;
    match step
    case Publish(_, _, _) =>
    case TouchForSend(_, _, _, _) =>
    case ReadOwner(_, _) =>
  }

  lemma {:induction false} TouchedOnlyFromTheMap(states: seq<State>, steps: seq<Step>, n: nat, id: SendId, k: nat)
    requires Run(states, steps) && n < |states| && (id, k) in states[n].attempts && PastTheMap(states[n].attempts[(id, k)].stage)
    ensures FoundInMap(states, steps, n, id, k, states[n].attempts[(id, k)].target)
    decreases n
  {
    hide Next, Enabled, Mapped, PastTheMap;
    if n > 0 {
      PassesTheMap(states[n - 1], steps[n - 1], id, k);
      if PastTheMap(states[n - 1].attempts[(id, k)].stage) {
        TouchedOnlyFromTheMap(states, steps, n - 1, id, k);
      }
    }
  }

  // ----- what a heartbeat finds out -------------------------------------------------

  /** Answers are true: what has passed is on record, and what was refused or released does not hold the presence. */
  ghost predicate TruthfulAnswer(s: State, task: Task) {
    && task.conn in s.owner
    && (task.answer == Passed ==> (if task.Heartbeat? then Touched(task.conn) else Released(task.conn)) in s.events)
    && (task.answer == Refused || (task.answer == Passed && task.Detach?) ==> s.presence != Some(task.conn))
  }

  ghost predicate Truthful(s: State) {
    forall t :: t in s.tasks ==> TruthfulAnswer(s, s.tasks[t])
  }

  lemma TruthfulOnTasks(s: State, step: Step)
    requires Enabled(s, step) && Truthful(s) && TouchesTasks(step)
    ensures Truthful(Next(s, step))
  {
    hide Holder, Conclude, Resume, Unmap, IsLocal, AwaitedAt, AtStage;
    match step
    case BeginHeartbeat(_, _) =>
    case BeginDetach(_, _) =>
    case Continue(_) =>
    case Command(t, ran, replied) =>
      var s', task := Next(s, step), s.tasks[t];
      if ran && s.presence == Some(task.conn) {
        var e := if task.Heartbeat? then Touched(task.conn) else Released(task.conn);
        assert s'.events == s.events + [e] && s'.events[|s.events|] == e;
      }
      forall u | u in s'.tasks ensures TruthfulAnswer(s', s'.tasks[u]) {
        assert TruthfulAnswer(s, s.tasks[u]);
      }
  }

  lemma TruthfulElsewhere(s: State, step: Step)
    requires Enabled(s, step) && Truthful(s) && !TouchesTasks(step)
    ensures Truthful(Next(s, step))
  {
    LocalFrame(s, step);
    EventsGrow(s, step);
    var s' := Next(s, step);
    assert s'.presence == s.presence || s'.presence == None || (step.Claim? && step.conn !in s.owner && s'.presence == Some(step.conn)) by {
      PresenceMoves(s, step);
    }
    OwnersStay(s, step);
    hide Next, Enabled;
    forall t | t in s'.tasks ensures TruthfulAnswer(s', s'.tasks[t]) {
      assert TruthfulAnswer(s, s.tasks[t]);
    }
  }

  lemma PresenceMoves(s: State, step: Step)
    requires Enabled(s, step) && !TouchesTasks(step)
    ensures var p := Next(s, step).presence;
            p == s.presence || p == None || (step.Claim? && step.conn !in s.owner && p == Some(step.conn))
  {
    LocalFrame(s, step);
    if !MovesPresence(step) { hide Next, Enabled; }
  }

  lemma OwnersStay(s: State, step: Step)
    requires Enabled(s, step)
    ensures s.owner.Keys <= Next(s, step).owner.Keys
  {
    LocalFrame(s, step);
    if !step.Claim? { hide Next, Enabled; }
  }

  /**
   * What a connection concludes from its heartbeats and detaches, over any run: Redis has touched or
   * released the presence of that connection if the answer was positive, and the connection does not
   * hold the presence, then or later, if it was negative. Acting on a heartbeat closes the connection
   * unless the answer was positive.
   */
  lemma {:induction false} AnswersAreTrue(states: seq<State>, steps: seq<Step>, n: nat)
    requires Run(states, steps) && n < |states|
    ensures Truthful(states[n])
    ensures n < |steps| && steps[n].Continue? && states[n].tasks[steps[n].task].Heartbeat? ==>
              var task := states[n].tasks[steps[n].task];
              states[n + 1].closed == if task.answer == Passed then states[n].closed else states[n].closed + {task.conn}
    decreases n
  {
    if n > 0 {
      AnswersAreTrue(states, steps, n - 1);
      if TouchesTasks(steps[n - 1]) {
        TruthfulOnTasks(states[n - 1], steps[n - 1]);
      } else {
        TruthfulElsewhere(states[n - 1], steps[n - 1]);
      }
    }
    if n < |steps| && steps[n].Continue? { assert Enabled(states[n], steps[n]); }
    hide Truthful;
  }

  /** A heartbeat that Redis runs and answers closes the connection exactly if it does not hold the presence. */
  lemma HeartbeatFindsOut(states: seq<State>, steps: seq<Step>, t: TaskId, c: Conn) returns (states': seq<State>, steps': seq<Step>)
    requires Run(states, steps) && t !in states[|steps|].tasks && Mapped(states[|steps|], c)
    ensures Run(states', steps')
    ensures var s, s' := states[|steps|], states'[|steps'|];
            && s'.presence == s.presence && s'.tasks == s.tasks
            && s'.closed == (if s.presence == Some(c) then s.closed else s.closed + {c})
            && (Mapped(s', c) <==> s.presence == Some(c))
  {
    states', steps' := RunSnoc(states, steps, BeginHeartbeat(t, c));
    hide Run;
    states', steps' := RunSnoc(states', steps', Command(t, true, true));
    states', steps' := RunSnoc(states', steps', Continue(t));
  }
}
