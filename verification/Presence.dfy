/**
 * Presence of one device across any number of server instances sharing one Redis key, and
 * messages routed to its agent. A step is what runs between two awaits, or one Redis command.
 */
module Presence {
  import opened Wrappers

  type Conn = nat       // a connection id, generated once per attach
  type Instance = nat
  type TaskId = nat
  type SendId = nat

  /** What Redis and the sockets have seen, in order. */
  datatype Event =
    | Claimed(conn: Conn)
    | Touched(conn: Conn)                           // a heartbeat's touch passed
    | TouchedForSend(id: SendId, attempt: nat, conn: Conn)
    | Delivered(id: SendId, attempt: nat, conn: Conn)
    | Released(conn: Conn)                          // a detach's release passed
    | Expired

  /** Whose presence value the key holds after these events. */
  function Holder(events: seq<Event>): Option<Conn> {
    if events == [] then None
    else
      match events[|events| - 1]
      case Claimed(c) => Some(c)
      case Released(_) => None
      case Expired => None
      case _ => Holder(events[..|events| - 1])
  }

  /** What the caller of a Redis command has learned; a failed call may or may not have run. */
  datatype Answer = Waiting | Passed | Refused | Failed

  /** A heartbeat or a detach: its Redis command is outstanding, or answered and to be acted on. */
  datatype Task = Heartbeat(conn: Conn, answer: Answer) | Detach(conn: Conn, answer: Answer)

  /** One delivery attempt, from the decision to make it to its outcome at the socket. */
  datatype Stage = Planned | InEnvelope | AskingTouch | TouchAnswered(ok: bool) | Over(sent: bool)

  datatype Attempt = Attempt(target: Conn, stage: Stage)

  /** sendToAgent: reading the owner before attempt `k`, awaiting its outcome, or returned. */
  datatype Phase = Reading(k: nat, last: Option<Conn>) | Awaiting(k: nat) | Finished(result: bool)

  datatype Send = Send(instance: Instance, phase: Phase)

  type Key = (SendId, nat)

  /** `adrift` holds the commands that Redis has not run although their callers have given up on them. */
  datatype State = State(
    presence: Option<Conn>, owner: map<Conn, Instance>, agents: map<Instance, Conn>, closed: set<Conn>,
    placing: set<Conn>, tasks: map<TaskId, Task>,
    sends: map<SendId, Send>, attempts: map<Key, Attempt>, acks: set<Key>, events: seq<Event>, adrift: set<Task>)

  const Start := State(None, map[], map[], {}, {}, map[], map[], map[], {}, [], {})

  datatype Step =
    | Claim(conn: Conn, instance: Instance)
    | Place(conn: Conn)
    | Expire
    | SocketCloses(conn: Conn)
    | BeginHeartbeat(task: TaskId, conn: Conn)
    | BeginDetach(task: TaskId, conn: Conn)
    | Command(task: TaskId, ran: bool, replied: bool)
    | RunLate(command: Task)       // a command runs after its caller has given up on it
    | Continue(task: TaskId)
    | BeginSend(id: SendId, instance: Instance)
    | ReadOwner(id: SendId, reached: bool)
    | LaunchLocal(id: SendId)
    | Publish(id: SendId, published: bool, carried: bool)
    | ReceiveEnvelope(id: SendId, k: nat)
    | TouchForSend(id: SendId, k: nat, ran: bool, replied: bool)
    | SendOnSocket(id: SendId, k: nat)
    | ReceiveAck(id: SendId, k: nat)
    | AckTimeout(id: SendId)

  predicate Mapped(s: State, c: Conn) {
    c in s.owner && s.owner[c] in s.agents && s.agents[s.owner[c]] == c
  }

  /** The attempt a send is waiting for. */
  predicate AwaitedAt(s: State, id: SendId, stage: Stage) {
    id in s.sends && s.sends[id].phase.Awaiting? && (id, s.sends[id].phase.k) in s.attempts
    && s.attempts[(id, s.sends[id].phase.k)].stage == stage
  }

  predicate IsLocal(s: State, id: SendId, c: Conn) {
    id in s.sends && c in s.owner && s.owner[c] == s.sends[id].instance
  }

  predicate AtStage(s: State, key: Key, stage: Stage) {
    key in s.attempts && s.attempts[key].stage == stage
  }

  predicate Enabled(s: State, step: Step) {
    match step
    case Claim(c, _) => c !in s.owner
    case Place(c) => c in s.placing && c in s.owner
    case Expire => true
    case SocketCloses(_) => true
    case BeginHeartbeat(t, c) => t !in s.tasks && Mapped(s, c)
    case BeginDetach(t, c) => t !in s.tasks && Mapped(s, c)
    case Command(t, _, _) => t in s.tasks && s.tasks[t].answer == Waiting
    case RunLate(command) => command in s.adrift
    case Continue(t) => t in s.tasks && s.tasks[t].answer != Waiting
    case BeginSend(id, _) => id !in s.sends
    case ReadOwner(id, _) => id in s.sends && s.sends[id].phase.Reading?
    case LaunchLocal(id) => AwaitedAt(s, id, Planned) && IsLocal(s, id, s.attempts[(id, s.sends[id].phase.k)].target)
    case Publish(id, published, carried) =>
      (published ==> carried) && AwaitedAt(s, id, Planned) && !IsLocal(s, id, s.attempts[(id, s.sends[id].phase.k)].target)
    case ReceiveEnvelope(id, k) => AtStage(s, (id, k), InEnvelope)
    case TouchForSend(id, k, _, _) => AtStage(s, (id, k), AskingTouch)
    case SendOnSocket(id, k) => (id, k) in s.attempts && s.attempts[(id, k)].stage.TouchAnswered?
    case ReceiveAck(id, k) => (id, k) in s.acks
    case AckTimeout(id) =>
      id in s.sends && s.sends[id].phase.Awaiting? && (id, s.sends[id].phase.k) in s.attempts
      && s.attempts[(id, s.sends[id].phase.k)].stage != Planned && !IsLocal(s, id, s.attempts[(id, s.sends[id].phase.k)].target)
  }

  function Unmap(s: State, c: Conn): (s': State)
    ensures s' == s.(agents := s'.agents)
  {
    if c in s.owner then s.(agents := s.agents - {s.owner[c]}) else s
  }

  function SetStage(s: State, key: Key, stage: Stage): State
    requires key in s.attempts
  {
    s.(attempts := s.attempts[key := s.attempts[key].(stage := stage)])
  }

  /** The outcome of attempt `k` reaches a send that may no longer be waiting for it. */
  function Resume(s: State, id: SendId, k: nat, sent: bool): (s': State)
    requires (id, k) in s.attempts
    ensures s' == s.(sends := s'.sends)
  {
    if id !in s.sends || s.sends[id].phase != Awaiting(k) then s
    else
      var phase := if sent then Finished(true) else Reading(k + 1, Some(s.attempts[(id, k)].target));
      s.(sends := s.sends[id := s.sends[id].(phase := phase)])
  }

  /** An attempt is over; its outcome returns directly, or as an ack from another instance. */
  function Conclude(s: State, id: SendId, k: nat, sent: bool): (s': State)
    requires (id, k) in s.attempts
    ensures s' == s.(sends := s'.sends, attempts := s'.attempts, acks := s'.acks)
  {
    var s' := SetStage(s, (id, k), Over(sent));
    if IsLocal(s, id, s.attempts[(id, k)].target) then Resume(s', id, k, sent) else s'.(acks := s'.acks + {(id, k)})
  }

  /** Redis runs the compare-and-set of a heartbeat, a send's touch included, or of a detach. */
  function Executed(s: State, command: Task): (s': State)
    ensures s' == s.(presence := s'.presence, events := s'.events)
  {
    var c := command.conn;
    if s.presence != Some(c) then s
    else if command.Heartbeat? then s.(events := s.events + [Touched(c)])
    else s.(presence := None, events := s.events + [Released(c)])
  }

  function Next(s: State, step: Step): State
    requires Enabled(s, step)
  {
    match step
    case Claim(c, i) =>
      s.(presence := Some(c), owner := s.owner[c := i], placing := s.placing + {c}, events := s.events + [Claimed(c)])
    case Place(c) => s.(agents := s.agents[s.owner[c] := c], placing := s.placing - {c})
    case Expire => s.(presence := None, events := s.events + [Expired])
    case SocketCloses(c) => s.(closed := s.closed + {c})
    case BeginHeartbeat(t, c) => s.(tasks := s.tasks[t := Heartbeat(c, Waiting)])
    case BeginDetach(t, c) => s.(tasks := s.tasks[t := Detach(c, Waiting)])
    case Command(t, ran, replied) =>
      var command := s.tasks[t];
      var ok := ran && s.presence == Some(command.conn);
      var answer := if !(ran && replied) then Failed else if ok then Passed else Refused;
      var s' := s.(tasks := s.tasks[t := command.(answer := answer)]);
      if ran then Executed(s', command) else s'.(adrift := s.adrift + {command})
    case RunLate(command) => Executed(s.(adrift := s.adrift - {command}), command)
    case Continue(t) =>
      var task, s' := s.tasks[t], s.(tasks := s.tasks - {t});
      if task.Heartbeat? then
        if task.answer == Passed then s' else Unmap(s', task.conn).(closed := s.closed + {task.conn})
      else if task.answer == Failed then s'
      else Unmap(s', task.conn)
    case BeginSend(id, i) => s.(sends := s.sends[id := Send(i, Reading(0, None))])
    case ReadOwner(id, reached) =>
      var op := s.sends[id];
      if !reached || s.presence == None || s.presence == op.phase.last || op.phase.k >= 2
      then s.(sends := s.sends[id := op.(phase := Finished(false))])
      else s.(sends := s.sends[id := op.(phase := Awaiting(op.phase.k))],
              attempts := s.attempts[(id, op.phase.k) := Attempt(s.presence.value, Planned)])
    case LaunchLocal(id) =>
      var k := s.sends[id].phase.k;
      if Mapped(s, s.attempts[(id, k)].target) then SetStage(s, (id, k), AskingTouch)
      else Conclude(s, id, k, false)
    case Publish(id, published, carried) =>
      var k := s.sends[id].phase.k;
      var s' := SetStage(s, (id, k), if carried then InEnvelope else Over(false));
      if published then s' else Resume(s', id, k, false)
    case ReceiveEnvelope(id, k) =>
      if Mapped(s, s.attempts[(id, k)].target) then SetStage(s, (id, k), AskingTouch)
      else Conclude(s, id, k, false)
    case TouchForSend(id, k, ran, replied) =>
      var c := s.attempts[(id, k)].target;
      var ok := ran && s.presence == Some(c);
      var s' := SetStage(s, (id, k), TouchAnswered(ok && replied));
      if ok then s'.(events := s.events + [TouchedForSend(id, k, c)])
      else if ran then s' else s'.(adrift := s.adrift + {Heartbeat(c, Waiting)})
    case SendOnSocket(id, k) =>
      var c := s.attempts[(id, k)].target;
      if !s.attempts[(id, k)].stage.ok then Conclude(Unmap(s, c).(closed := s.closed + {c}), id, k, false)
      else if c in s.closed then Conclude(s, id, k, false)
      else Conclude(s, id, k, true).(events := s.events + [Delivered(id, k, c)])
    case ReceiveAck(id, k) =>
      var s' := s.(acks := s.acks - {(id, k)});
      if (id, k) in s.attempts then Resume(s', id, k, s.attempts[(id, k)].stage == Over(true)) else s'
    case AckTimeout(id) => Resume(s, id, s.sends[id].phase.k, false)
  }

  ghost predicate Run(states: seq<State>, steps: seq<Step>) {
    && |states| == |steps| + 1 && states[0] == Start
    && forall i :: 0 <= i < |steps| ==> Enabled(states[i], steps[i]) && states[i + 1] == Next(states[i], steps[i])
  }

  // ----- invariants -----------------------------------------------------------------

  /** Every event was lawful when it happened. */
  ghost predicate Lawful(events: seq<Event>) {
    forall j :: 0 <= j < |events| ==> LawfulAt(events, j)
  }

  ghost predicate LawfulAt(events: seq<Event>, j: nat)
    requires j < |events|
  {
    match events[j]
    case Claimed(c) => forall i :: 0 <= i < j ==> events[i] != Claimed(c)
    case Touched(c) => Holder(events[..j]) == Some(c)
    case TouchedForSend(_, _, c) => Holder(events[..j]) == Some(c)
    case Released(c) => Holder(events[..j]) == Some(c)
    case Delivered(id, k, c) =>
      && (exists i :: 0 <= i < j && events[i] == TouchedForSend(id, k, c))
      && (forall i, c': Conn :: 0 <= i < j ==> events[i] != Delivered(id, k, c'))
    case Expired => true
  }

  ghost predicate KeyInv(s: State) {
    && s.presence == Holder(s.events)
    && (forall c: Conn :: Claimed(c) in s.events ==> c in s.owner)
    && Lawful(s.events)
  }

  /** The attempts a send has made so far. */
  ghost predicate AttemptsOf(s: State, id: SendId)
    requires id in s.sends
  {
    match s.sends[id].phase
    case Reading(k, last) =>
      k <= 2 && (forall j :: (id, j) in s.attempts ==> j < k) && (k == 0 <==> last == None)
      && (k > 0 ==> (id, k - 1) in s.attempts && last == Some(s.attempts[(id, k - 1)].target))
    case Awaiting(k) => k < 2 && (id, k) in s.attempts && forall j :: (id, j) in s.attempts ==> j <= k
    case Finished(sent) =>
      (forall j :: (id, j) in s.attempts ==> j < 2)
      && (sent ==> exists k :: (id, k) in s.attempts && s.attempts[(id, k)].stage == Over(true))
  }

  ghost predicate StageInv(s: State, id: SendId, k: nat)
    requires (id, k) in s.attempts
  {
    var a := s.attempts[(id, k)];
    && (a.stage == TouchAnswered(true) || a.stage == Over(true) ==> TouchedForSend(id, k, a.target) in s.events)
    && (a.stage == Over(true) <==> Delivered(id, k, a.target) in s.events)
    && (forall c: Conn :: Delivered(id, k, c) in s.events ==> c == a.target)
    && ((id, k) in s.acks ==> a.stage.Over?)
  }

  ghost predicate SendInv(s: State) {
    && (forall id :: id in s.sends ==> AttemptsOf(s, id))
    && (forall id, k :: (id, k) in s.attempts ==> id in s.sends && StageInv(s, id, k))
    && s.acks <= s.attempts.Keys
    && (forall id: SendId, k: nat, c: Conn :: Delivered(id, k, c) in s.events ==> (id, k) in s.attempts)
    && (forall id :: (id, 0) in s.attempts && (id, 1) in s.attempts ==> s.attempts[(id, 0)].target != s.attempts[(id, 1)].target)
  }

  ghost predicate Inv(s: State) {
    KeyInv(s) && SendInv(s)
  }

  lemma HolderSnoc(events: seq<Event>, e: Event)
    ensures Holder(events + [e]) ==
              match e case Claimed(c) => Some(c) case Released(_) => None case Expired => None case _ => Holder(events)
  {
    assert (events + [e])[..|events|] == events;
  }

  lemma LawfulSnoc(events: seq<Event>, e: Event)
    requires Lawful(events) && LawfulAt(events + [e], |events|)
    ensures Lawful(events + [e])
  {
    var all := events + [e];
    forall j | 0 <= j < |events| ensures LawfulAt(all, j) {
      assert LawfulAt(events, j);
      assert all[..j] == events[..j];
    }
  }

  /** One more event, lawful where it stands and reflected in the key. */
  lemma AppendEvent(s: State, s': State, e: Event)
    requires KeyInv(s) && s'.events == s.events + [e] && s'.owner.Keys >= s.owner.Keys
    requires LawfulAt(s.events + [e], |s.events|)
    requires s'.presence == match e case Claimed(c) => Some(c) case Released(_) => None case Expired => None case _ => s.presence
    requires e.Claimed? ==> e.conn in s'.owner
    ensures KeyInv(s')
  {
    HolderSnoc(s.events, e);
    LawfulSnoc(s.events, e);
  }

  lemma KeyKeepsOnExecution(s: State, s': State, command: Task)
    requires KeyInv(s) && s'.owner == s.owner
    requires s'.presence == Executed(s, command).presence && s'.events == Executed(s, command).events
    ensures KeyInv(s')
  {
    hide Lawful, Holder;
    var c := command.conn;
    if s.presence == Some(c) {
      var e := if command.Heartbeat? then Touched(c) else Released(c);
      assert (s.events + [e])[..|s.events|] == s.events;
      AppendEvent(s, s', e);
    }
  }

  lemma KeyKeepsOnCommand(s: State, t: TaskId, ran: bool, replied: bool)
    requires Inv(s) && Enabled(s, Command(t, ran, replied))
    ensures KeyInv(Next(s, Command(t, ran, replied)))
  {
    hide Lawful, Holder, SendInv;
    if ran {
      KeyKeepsOnExecution(s, Next(s, Command(t, ran, replied)), s.tasks[t]);
    }
  }

  lemma KeyKeepsOnTouch(s: State, id: SendId, k: nat, ran: bool, replied: bool)
    requires Inv(s) && Enabled(s, TouchForSend(id, k, ran, replied))
    ensures KeyInv(Next(s, TouchForSend(id, k, ran, replied)))
  {
    hide Lawful, Holder, SendInv;
    var s' := Next(s, TouchForSend(id, k, ran, replied));
    var c := s.attempts[(id, k)].target;
    if ran && s.presence == Some(c) {
      var e := TouchedForSend(id, k, c);
      assert (s.events + [e])[..|s.events|] == s.events;
      AppendEvent(s, s', e);
    }
  }

  lemma KeyKeepsOnSocket(s: State, id: SendId, k: nat)
    requires Inv(s) && Enabled(s, SendOnSocket(id, k))
    ensures KeyInv(Next(s, SendOnSocket(id, k)))
  {
    hide Lawful, Holder, Conclude, Resume, Unmap;
    var s' := Next(s, SendOnSocket(id, k));
    var a := s.attempts[(id, k)];
    assert StageInv(s, id, k);
    hide SendInv, StageInv;
    if a.stage.ok && a.target !in s.closed {
      var e := Delivered(id, k, a.target);
      var all := s.events + [e];
      var i :| 0 <= i < |s.events| && s.events[i] == TouchedForSend(id, k, a.target);
      assert all[i] == TouchedForSend(id, k, a.target);
      forall j, c: Conn | 0 <= j < |s.events| ensures all[j] != Delivered(id, k, c) {
        assert all[j] == Delivered(id, k, c) ==> Delivered(id, k, c) in s.events;
      }
      AppendEvent(s, s', e);
    }
  }

  lemma KeyKeepsOnClaim(s: State, c: Conn, i: Instance)
    requires Inv(s) && c !in s.owner
    ensures KeyInv(Next(s, Claim(c, i)))
  {
    hide Lawful, Holder, SendInv;
    forall j | 0 <= j < |s.events| ensures s.events[j] != Claimed(c) {
      assert s.events[j] == Claimed(c) ==> Claimed(c) in s.events;
    }
    AppendEvent(s, Next(s, Claim(c, i)), Claimed(c));
  }

  lemma KeyKeeps(s: State, step: Step)
    requires Inv(s) && Enabled(s, step)
    ensures KeyInv(Next(s, step))
  {
    hide Conclude, Resume, Unmap, Mapped, IsLocal, AwaitedAt, AtStage, Lawful, SendInv;
    match step
    case Claim(c, i) => KeyKeepsOnClaim(s, c, i);
    case Expire => AppendEvent(s, Next(s, Expire), Expired);
    case Command(t, ran, replied) => KeyKeepsOnCommand(s, t, ran, replied);
    case RunLate(command) => KeyKeepsOnExecution(s, Next(s, step), command);
    case TouchForSend(id, k, ran, replied) => KeyKeepsOnTouch(s, id, k, ran, replied);
    case SendOnSocket(id, k) => KeyKeepsOnSocket(s, id, k);
    case _ => QuietStep(s, step);
  }

  predicate TouchesTheKey(step: Step) {
    step.Claim? || step.Expire? || step.Command? || step.RunLate? || step.TouchForSend? || step.SendOnSocket?
  }

  predicate MovesSend(step: Step) {
    step.BeginSend? || step.ReadOwner? || step.LaunchLocal? || step.Publish? || step.ReceiveEnvelope?
    || step.ReceiveAck? || step.AckTimeout?
  }

  lemma QuietSendStep(s: State, step: Step)
    requires Enabled(s, step) && MovesSend(step)
    ensures var s' := Next(s, step); s'.events == s.events && s'.presence == s.presence && s'.owner == s.owner
  {
    hide Enabled, Conclude, Resume, Unmap, Mapped, IsLocal, AwaitedAt, AtStage;
    match step
    case BeginSend(_, _) =>
    case ReadOwner(_, _) =>
    case LaunchLocal(_) =>
    case Publish(_, _, _) =>
    case ReceiveEnvelope(_, _) =>
    case ReceiveAck(_, _) =>
    case AckTimeout(_) =>
  }

  lemma QuietStep(s: State, step: Step)
    requires Enabled(s, step) && !TouchesTheKey(step)
    ensures var s' := Next(s, step); s'.events == s.events && s'.presence == s.presence && s'.owner == s.owner
  {
    hide Enabled, Conclude, Resume, Unmap, Mapped, IsLocal, AwaitedAt, AtStage;
    if MovesSend(step) {
      hide Next;
      QuietSendStep(s, step);
    }
  }

  /** Steps that leave sends and attempts alone, and deliver nothing. */
  lemma SendFrame(s: State, s': State)
    requires SendInv(s) && s'.sends == s.sends && s'.attempts == s.attempts && s'.acks <= s.acks
    requires s'.events == s.events || (exists e :: s'.events == s.events + [e] && !e.Delivered?)
    ensures SendInv(s')
  {
    forall e | e in s.events ensures e in s'.events {
    }
    forall e | e in s'.events && e.Delivered? ensures e in s.events {
    }
    forall id, k | (id, k) in s'.attempts ensures id in s'.sends && StageInv(s', id, k) {
      assert StageInv(s, id, k);
    }
    forall id | id in s'.sends ensures AttemptsOf(s', id) {
      assert AttemptsOf(s, id);
    }
  }

  /** The attempt at `key` moves to another stage; who has been told about it is unchanged. */
  lemma StageFrame(s: State, s': State, id: SendId, k: nat, stage: Stage)
    requires SendInv(s) && (id, k) in s.attempts && s.attempts[(id, k)].stage != Over(true)
    requires s'.sends == s.sends && s'.attempts == s.attempts[(id, k) := s.attempts[(id, k)].(stage := stage)]
    requires s'.acks <= s.acks + {(id, k)} && ((id, k) in s'.acks ==> stage.Over?)
    requires forall e :: e in s.events ==> e in s'.events
    requires forall e :: e in s'.events && e !in s.events && e.Delivered? ==> e == Delivered(id, k, s.attempts[(id, k)].target)
    requires stage == Over(true) <==> Delivered(id, k, s.attempts[(id, k)].target) in s'.events
    requires stage in {TouchAnswered(true), Over(true)} ==> TouchedForSend(id, k, s.attempts[(id, k)].target) in s'.events
    ensures SendInv(s')
  {
    forall i, j | (i, j) in s'.attempts ensures i in s'.sends && StageInv(s', i, j) {
      StageFrameAt(s, s', id, k, stage, i, j);
    }
    hide StageInv;
    forall i | i in s'.sends ensures AttemptsOf(s', i) {
      assert AttemptsOf(s, i);
    }
  }

  lemma StageFrameAt(s: State, s': State, id: SendId, k: nat, stage: Stage, i: SendId, j: nat)
    requires SendInv(s) && (id, k) in s.attempts && s.attempts[(id, k)].stage != Over(true)
    requires s'.attempts == s.attempts[(id, k) := s.attempts[(id, k)].(stage := stage)]
    requires s'.acks <= s.acks + {(id, k)} && ((id, k) in s'.acks ==> stage.Over?)
    requires forall e :: e in s.events ==> e in s'.events
    requires forall e :: e in s'.events && e !in s.events && e.Delivered? ==> e == Delivered(id, k, s.attempts[(id, k)].target)
    requires stage == Over(true) <==> Delivered(id, k, s.attempts[(id, k)].target) in s'.events
    requires stage in {TouchAnswered(true), Over(true)} ==> TouchedForSend(id, k, s.attempts[(id, k)].target) in s'.events
    requires (i, j) in s.attempts
    ensures StageInv(s', i, j)
  {
    assert StageInv(s, i, j);
    hide AttemptsOf;
  }

  /** A send that has just learned the outcome of the attempt it was waiting for. */
  lemma ResumeKeeps(s: State, id: SendId, k: nat, sent: bool)
    requires SendInv(s) && (id, k) in s.attempts && (sent ==> s.attempts[(id, k)].stage == Over(true))
    ensures SendInv(Resume(s, id, k, sent))
  {
    var s' := Resume(s, id, k, sent);
    forall i, j | (i, j) in s'.attempts ensures i in s'.sends && StageInv(s', i, j) {
      assert StageInv(s, i, j);
    }
    forall i | i in s'.sends ensures AttemptsOf(s', i) {
      assert AttemptsOf(s, i);
    }
  }

  lemma ConcludeKeeps(s: State, s0: State, id: SendId, k: nat, sent: bool)
    requires SendInv(s) && (id, k) in s.attempts && s.attempts[(id, k)].stage != Over(true)
    requires s0.sends == s.sends && s0.attempts == s.attempts && s0.acks == s.acks && s0.owner == s.owner
    requires s0.events == if sent then s.events + [Delivered(id, k, s.attempts[(id, k)].target)] else s.events
    requires sent ==> TouchedForSend(id, k, s.attempts[(id, k)].target) in s.events
    ensures SendInv(Conclude(s0, id, k, sent))
  {
    var c := s.attempts[(id, k)].target;
    assert StageInv(s, id, k);
    var s1 := SetStage(s0, (id, k), Over(sent));
    if sent { assert s0.events[|s.events|] == Delivered(id, k, c); }
    StageFrame(s, s1, id, k, Over(sent));
    if IsLocal(s0, id, c) {
      ResumeKeeps(s1, id, k, sent);
    } else {
      StageFrame(s, s1.(acks := s1.acks + {(id, k)}), id, k, Over(sent));
    }
  }

  /** A send that gives up: its attempts stay as they are. */
  lemma GiveUpKeeps(s: State, id: SendId)
    requires SendInv(s) && id in s.sends && s.sends[id].phase.Reading?
    ensures SendInv(s.(sends := s.sends[id := s.sends[id].(phase := Finished(false))]))
  {
    var s' := s.(sends := s.sends[id := s.sends[id].(phase := Finished(false))]);
    assert AttemptsOf(s, id);
    forall i, j | (i, j) in s'.attempts ensures i in s'.sends && StageInv(s', i, j) {
      assert StageInv(s, i, j);
    }
    forall i | i in s'.sends ensures AttemptsOf(s', i) {
      assert AttemptsOf(s, i);
    }
  }

  lemma FreshAttempt(s: State, id: SendId, k: nat)
    requires SendInv(s) && id in s.sends && s.sends[id].phase.Reading? && k == s.sends[id].phase.k < 2
    ensures (id, k) !in s.attempts && AttemptsOf(s, id)
    ensures k == 1 ==> (id, 0) in s.attempts && s.sends[id].phase.last == Some(s.attempts[(id, 0)].target)
    ensures forall d: Conn :: Delivered(id, k, d) !in s.events
  {
    assert AttemptsOf(s, id);
    forall d: Conn ensures Delivered(id, k, d) !in s.events {
      assert Delivered(id, k, d) in s.events ==> (id, k) in s.attempts;
    }
  }

  /** A send that makes its next attempt, at another connection than the one before. */
  lemma AttemptStages(s: State, s': State, id: SendId, k: nat, c: Conn, i: SendId, j: nat)
    requires SendInv(s) && (id, k) !in s.attempts && forall d: Conn :: Delivered(id, k, d) !in s.events
    requires s' == s.(sends := s'.sends, attempts := s.attempts[(id, k) := Attempt(c, Planned)])
    requires (i, j) in s'.attempts
    ensures StageInv(s', i, j)
  {
    if (i, j) in s.attempts { assert StageInv(s, i, j); }
  }

  lemma AttemptKeeps(s: State, id: SendId, k: nat, c: Conn)
    requires SendInv(s) && id in s.sends && s.sends[id].phase.Reading? && k == s.sends[id].phase.k < 2
    requires s.sends[id].phase.last != Some(c)
    ensures SendInv(s.(sends := s.sends[id := s.sends[id].(phase := Awaiting(k))], attempts := s.attempts[(id, k) := Attempt(c, Planned)]))
  {
    var s' := s.(sends := s.sends[id := s.sends[id].(phase := Awaiting(k))], attempts := s.attempts[(id, k) := Attempt(c, Planned)]);
    hide Holder, Lawful, StageInv, AttemptsOf;
    FreshAttempt(s, id, k);
    forall i, j | (i, j) in s'.attempts ensures i in s'.sends && StageInv(s', i, j) {
      AttemptStages(s, s', id, k, c, i, j);
    }
    forall i | i in s'.sends ensures AttemptsOf(s', i) {
      NextAttemptOf(s, s', id, k, c, i);
    }
  }

  lemma NextAttemptOf(s: State, s': State, id: SendId, k: nat, c: Conn, i: SendId)
    requires id in s.sends && i in s.sends && AttemptsOf(s, i)
    requires s.sends[id].phase.Reading? && k == s.sends[id].phase.k < 2
    requires s' == s.(sends := s.sends[id := s.sends[id].(phase := Awaiting(k))], attempts := s.attempts[(id, k) := Attempt(c, Planned)])
    ensures AttemptsOf(s', i)
  {
  }

  lemma SendKeepsOnRead(s: State, id: SendId, reached: bool)
    requires Inv(s) && Enabled(s, ReadOwner(id, reached))
    ensures SendInv(Next(s, ReadOwner(id, reached)))
  {
    var phase := s.sends[id].phase;
    hide SendInv, KeyInv;
    if !reached || s.presence == None || s.presence == phase.last || phase.k >= 2 {
      GiveUpKeeps(s, id);
    } else {
      AttemptKeeps(s, id, phase.k, s.presence.value);
    }
  }

  lemma SendKeepsOnBegin(s: State, id: SendId, i: Instance)
    requires Inv(s) && id !in s.sends
    ensures SendInv(Next(s, BeginSend(id, i)))
  {
    var s' := Next(s, BeginSend(id, i));
    forall i, j | (i, j) in s'.attempts ensures i in s'.sends && StageInv(s', i, j) {
      assert StageInv(s, i, j);
    }
    forall i | i in s'.sends ensures AttemptsOf(s', i) {
      if i in s.sends { assert AttemptsOf(s, i); }
    }
  }

  lemma SendKeepsOnLaunch(s: State, id: SendId, k: nat)
    requires Inv(s) && (AtStage(s, (id, k), Planned) || AtStage(s, (id, k), InEnvelope))
    ensures SendInv(if Mapped(s, s.attempts[(id, k)].target) then SetStage(s, (id, k), AskingTouch) else Conclude(s, id, k, false))
  {
    assert StageInv(s, id, k);
    if Mapped(s, s.attempts[(id, k)].target) {
      StageFrame(s, SetStage(s, (id, k), AskingTouch), id, k, AskingTouch);
    } else {
      ConcludeKeeps(s, s, id, k, false);
    }
  }

  lemma SendKeepsOnPublish(s: State, id: SendId, published: bool, carried: bool)
    requires Inv(s) && Enabled(s, Publish(id, published, carried))
    ensures SendInv(Next(s, Publish(id, published, carried)))
  {
    var k := s.sends[id].phase.k;
    assert StageInv(s, id, k);
    var stage := if carried then InEnvelope else Over(false);
    StageFrame(s, SetStage(s, (id, k), stage), id, k, stage);
    if !published { ResumeKeeps(SetStage(s, (id, k), stage), id, k, false); }
  }

  lemma SendKeepsOnTouch(s: State, id: SendId, k: nat, ran: bool, replied: bool)
    requires Inv(s) && Enabled(s, TouchForSend(id, k, ran, replied))
    ensures SendInv(Next(s, TouchForSend(id, k, ran, replied)))
  {
    assert StageInv(s, id, k);
    var s', c := Next(s, TouchForSend(id, k, ran, replied)), s.attempts[(id, k)].target;
    var ok := ran && s.presence == Some(c);
    if ok { assert s'.events[|s.events|] == TouchedForSend(id, k, c); }
    StageFrame(s, s', id, k, TouchAnswered(ok && replied));
  }

  lemma SendKeepsOnSocket(s: State, id: SendId, k: nat)
    requires Inv(s) && Enabled(s, SendOnSocket(id, k))
    ensures SendInv(Next(s, SendOnSocket(id, k)))
  {
    assert StageInv(s, id, k);
    var a := s.attempts[(id, k)];
    if !a.stage.ok {
      ConcludeKeeps(s, Unmap(s, a.target).(closed := s.closed + {a.target}), id, k, false);
    } else if a.target in s.closed {
      ConcludeKeeps(s, s, id, k, false);
    } else {
      ConcludeKeeps(s, s.(events := s.events + [Delivered(id, k, a.target)]), id, k, true);
    }
  }

  lemma SendKeeps(s: State, step: Step)
    requires Inv(s) && Enabled(s, step)
    ensures SendInv(Next(s, step))
  {
    hide Lawful, Holder, Conclude, Resume, Unmap;
    match step
    case ReadOwner(id, reached) => SendKeepsOnRead(s, id, reached);
    case BeginSend(id, i) => SendKeepsOnBegin(s, id, i);
    case LaunchLocal(id) => SendKeepsOnLaunch(s, id, s.sends[id].phase.k);
    case Publish(id, published, carried) => SendKeepsOnPublish(s, id, published, carried);
    case ReceiveEnvelope(id, k) => SendKeepsOnLaunch(s, id, k);
    case TouchForSend(id, k, ran, replied) => SendKeepsOnTouch(s, id, k, ran, replied);
    case SendOnSocket(id, k) => SendKeepsOnSocket(s, id, k);
    case ReceiveAck(id, k) =>
      SendFrame(s, s.(acks := s.acks - {(id, k)}));
      if (id, k) in s.attempts {
        ResumeKeeps(s.(acks := s.acks - {(id, k)}), id, k, s.attempts[(id, k)].stage == Over(true));
      }
    case AckTimeout(id) => ResumeKeeps(s, id, s.sends[id].phase.k, false);
    case _ => SendKeepsElsewhere(s, step);
  }

  lemma SendKeepsElsewhere(s: State, step: Step)
    requires Inv(s) && Enabled(s, step)
    requires step.Claim? || step.Place? || step.Expire? || step.SocketCloses? || step.BeginHeartbeat? || step.BeginDetach?
             || step.Command? || step.RunLate? || step.Continue?
    ensures SendInv(Next(s, step))
  {
    hide KeyInv, Holder, Conclude, Resume, Unmap, AttemptsOf, StageInv;
    if step.Command? || step.RunLate? {
      var c := if step.Command? then s.tasks[step.task].conn else step.command.conn;
      assert !Touched(c).Delivered? && !Released(c).Delivered?;
    } else if step.Claim? {
      assert !Claimed(step.conn).Delivered?;
    }
    SendFrame(s, Next(s, step));
  }

  lemma EventsGrow(s: State, step: Step)
    requires Enabled(s, step)
    ensures s.events <= Next(s, step).events
  {
    if TouchesTheKey(step) {
      hide Enabled, Conclude, Resume, Unmap, Mapped, IsLocal, AwaitedAt, AtStage;
      assert s.events <= Next(s, step).events;
    } else {
      QuietStep(s, step);
    }
  }

  lemma StartInv()
    ensures Inv(Start)
  {
  }

  lemma {:induction false} RunKeeps(states: seq<State>, steps: seq<Step>, i: nat, j: nat)
    requires Run(states, steps) && i <= j < |states|
    ensures Inv(states[j]) && states[i].events <= states[j].events
    decreases j
  {
    hide Next, Enabled, KeyInv, SendInv;
    if j == 0 {
      StartInv();
    } else {
      RunKeeps(states, steps, if i < j then i else j - 1, j - 1);
      KeyKeeps(states[j - 1], steps[j - 1]);
      SendKeeps(states[j - 1], steps[j - 1]);
      EventsGrow(states[j - 1], steps[j - 1]);
    }
  }

  // ----- fencing --------------------------------------------------------------------

  /** Whoever holds the key claimed it, and nobody has claimed, released or expired it since. */
  lemma {:induction false} HolderClaimed(events: seq<Event>, c: Conn) returns (i: nat)
    requires Holder(events) == Some(c)
    ensures i < |events| && events[i] == Claimed(c)
    ensures forall k :: i < k < |events| ==> !events[k].Claimed? && !events[k].Released? && events[k] != Expired
    decreases |events|
  {
    var n := |events| - 1;
    if events[n].Claimed? {
      i := n;
    } else {
      i := HolderClaimed(events[..n], c);
    }
  }

  /** A connection that has lost the key never holds it again. */
  lemma NeverRegained(events: seq<Event>, c: Conn, i: nat, m: nat, j: nat)
    requires Lawful(events) && i < m < j <= |events|
    requires Holder(events[..i]) == Some(c) && Holder(events[..m]) != Some(c)
    ensures Holder(events[..j]) != Some(c)
  {
    if Holder(events[..j]) == Some(c) {
      var a := HolderClaimed(events[..i], c);
      var b := HolderClaimed(events[..j], c);
      ClaimUnique(events, c, a, b);
      HoldsUntilLost(events, c, a, m);
    }
  }

  /** From its claim on, a connection holds the key as long as nothing takes it away. */
  lemma {:induction false} HoldsUntilLost(events: seq<Event>, c: Conn, a: nat, m: nat)
    requires a < m <= |events| && events[a] == Claimed(c)
    requires forall k :: a < k < m ==> !events[k].Claimed? && !events[k].Released? && events[k] != Expired
    ensures Holder(events[..m]) == Some(c)
    decreases m
  {
    assert events[..m][..m - 1] == events[..m - 1];
    if m - 1 > a {
      HoldsUntilLost(events, c, a, m - 1);
    }
  }

  /** The connections whose touches and releases pass: they claimed, and none claimed after them. */
  ghost predicate PassesAt(events: seq<Event>, j: nat, c: Conn)
    requires j < |events|
  {
    match events[j]
    case Touched(d) => c == d
    case TouchedForSend(_, _, d) => c == d
    case Released(d) => c == d
    case _ => false
  }

  /** Claims, releases and expiries: whatever puts an end to somebody's hold. */
  predicate TakesTheKey(e: Event) {
    e.Claimed? || e.Released? || e == Expired
  }

  ghost predicate HeldThenLost(events: seq<Event>, c: Conn, i: nat, m: nat) {
    i < m <= |events| && Holder(events[..i]) == Some(c) && Holder(events[..m]) != Some(c)
  }

  /** A connection that lost the key never holds it again. */
  ghost predicate LosersStayOut(events: seq<Event>) {
    forall c: Conn, i: nat, m: nat, j: nat ::
      HeldThenLost(events, c, i, m) && m < j <= |events| ==> Holder(events[..j]) != Some(c)
  }

  ghost predicate Superseded(events: seq<Event>, c: Conn, i: nat, m: nat) {
    i < m < |events| && events[i] == Claimed(c) && TakesTheKey(events[m])
  }

  /** Once a claimed connection has been superseded, its touches and releases no longer pass. */
  ghost predicate SupersededFailed(events: seq<Event>) {
    forall c: Conn, i: nat, m: nat, j: nat ::
      Superseded(events, c, i, m) && m < j < |events| ==> !PassesAt(events, j, c)
  }

  ghost predicate ReleasedAtMostOnce(events: seq<Event>) {
    forall i, j :: 0 <= i < j < |events| && events[i].Released? ==> events[j] != events[i]
  }

  /**
   * Fencing, over all runs of any number of instances and operations, with expiry at any
   * moment: the key's value is what its events say; a connection that lost the key never
   * holds it again; a touch or release that passes is one by the holder, so after a newer
   * claim, a release or an expiry the older connection neither extends nor deletes anything;
   * and no detach of a connection succeeds twice.
   */
  lemma Fencing(states: seq<State>, steps: seq<Step>, n: nat)
    requires Run(states, steps) && n < |states|
    ensures states[n].presence == Holder(states[n].events)
    ensures LosersStayOut(states[n].events)
    ensures SupersededFailed(states[n].events)
    ensures ReleasedAtMostOnce(states[n].events)
  {
    RunKeeps(states, steps, n, n);
    var events := states[n].events;
    hide Holder, Lawful, SendInv;
    forall c: Conn, i: nat, m: nat, j: nat | HeldThenLost(events, c, i, m) && m < j <= |events|
      ensures Holder(events[..j]) != Some(c)
    {
      NeverRegained(events, c, i, m, j);
    }
    forall c: Conn, i: nat, m: nat, j: nat | Superseded(events, c, i, m) && m < j < |events|
      ensures !PassesAt(events, j, c)
    {
      SupersededNeverPasses(events, c, i, m, j);
    }
    forall i, j | 0 <= i < j < |events| && events[i].Released? ensures events[j] != events[i] {
      ReleasedOnce(events, events[i].conn, i, j);
    }
  }

  lemma ClaimUnique(events: seq<Event>, c: Conn, a: nat, i: nat)
    requires Lawful(events) && a < |events| && i < |events| && events[a] == Claimed(c) && events[i] == Claimed(c)
    ensures a == i
  {
    assert LawfulAt(events, a) && LawfulAt(events, i);
  }

  lemma PassingIsHolding(events: seq<Event>, c: Conn, j: nat)
    requires Lawful(events) && j < |events| && PassesAt(events, j, c)
    ensures Holder(events[..j]) == Some(c)
  {
    assert LawfulAt(events, j);
  }

  lemma SupersededNeverPasses(events: seq<Event>, c: Conn, i: nat, m: nat, j: nat)
    requires Lawful(events) && i < m < j < |events| && events[i] == Claimed(c) && TakesTheKey(events[m])
    ensures !PassesAt(events, j, c)
  {
    if PassesAt(events, j, c) {
      PassingIsHolding(events, c, j);
      var a := HolderClaimed(events[..j], c);
      ClaimUnique(events, c, a, i);
    }
  }

  lemma ReleasedOnce(events: seq<Event>, c: Conn, i: nat, j: nat)
    requires Lawful(events) && i < j < |events| && events[i] == Released(c)
    ensures events[j] != Released(c)
  {
    PassingIsHolding(events, c, i);
    var a := HolderClaimed(events[..i], c);
    SupersededNeverPasses(events, c, a, i, j);
  }

  // ----- routed sends ---------------------------------------------------------------

  /**
   * A routed send makes at most two attempts, at two different connections; it puts the
   * message on any one connection at most once; and when it reports success the message was
   * put on a connection that held the device's presence when it was touched for this send.
   */
  lemma RoutedSend(states: seq<State>, steps: seq<Step>, n: nat, id: SendId)
    requires Run(states, steps) && n < |states| && id in states[n].sends
    ensures var s := states[n];
            && (forall k: nat :: (id, k) in s.attempts ==> k < 2)
            && (forall i, j, k: nat, l: nat, c: Conn :: 0 <= i < j < |s.events| && s.events[i] == Delivered(id, k, c)
                  ==> s.events[j] != Delivered(id, l, c))
    ensures states[n].sends[id].phase == Finished(true) ==>
              exists k: nat, c: Conn :: DeliveredToHolder(states[n].events, id, k, c)
  {
    RunKeeps(states, steps, n, n);
    var s := states[n];
    assert AttemptsOf(s, id);
    hide Run, KeyInv, SendInv, AttemptsOf;
    forall i, j, k: nat, l: nat, c: Conn | 0 <= i < j < |s.events| && s.events[i] == Delivered(id, k, c)
      ensures s.events[j] != Delivered(id, l, c)
    {
      DeliveredOnce(s, id, i, j, k, l, c);
    }
    if s.sends[id].phase == Finished(true) {
      SuccessWasDelivered(s, id);
    }
  }

  /** The connections that a send has made an attempt at. */
  ghost predicate Tried(s: State, id: SendId, c: Conn) {
    exists k :: (id, k) in s.attempts && s.attempts[(id, k)].target == c
  }

  /**
   * A send goes on while it can: reading the presence, it makes an attempt at the connection it
   * finds there exactly when it finds one that it has not tried yet and has made fewer than two
   * attempts. Otherwise it returns false, and makes none any more.
   */
  lemma AttemptMadeIff(states: seq<State>, steps: seq<Step>, n: nat, id: SendId, reached: bool)
    requires Run(states, steps) && n < |steps| && steps[n] == ReadOwner(id, reached)
    ensures id in states[n].sends && id in states[n + 1].sends && states[n].sends[id].phase.Reading?
    ensures var s, s' := states[n], states[n + 1];
            var k := s.sends[id].phase.k;
            if reached && s.presence.Some? && !Tried(s, id, s.presence.value) && k < 2
            then s'.attempts == s.attempts[(id, k) := Attempt(s.presence.value, Planned)] && s'.sends[id].phase == Awaiting(k)
            else s'.attempts == s.attempts && s'.sends[id].phase == Finished(false)
    ensures forall j :: (id, j) in states[n].attempts ==> j < states[n].sends[id].phase.k
  {
    assert Enabled(states[n], steps[n]);
    RunKeeps(states, steps, n, n);
    var s := states[n];
    hide Run, KeyInv;
    assert AttemptsOf(s, id);
    var k := s.sends[id].phase.k;
    if k == 1 { assert s.attempts[(id, 0)].target == s.sends[id].phase.last.value; }
  }

  ghost predicate DeliveredToHolder(events: seq<Event>, id: SendId, k: nat, c: Conn) {
    exists i, j :: 0 <= i < j < |events| && events[i] == TouchedForSend(id, k, c)
                   && Holder(events[..i]) == Some(c) && events[j] == Delivered(id, k, c)
  }

  lemma SuccessWasDelivered(s: State, id: SendId)
    requires Inv(s) && id in s.sends && s.sends[id].phase == Finished(true)
    ensures exists k: nat, c: Conn :: DeliveredToHolder(s.events, id, k, c)
  {
    assert AttemptsOf(s, id);
    var k: nat :| (id, k) in s.attempts && s.attempts[(id, k)].stage == Over(true);
    var c := s.attempts[(id, k)].target;
    assert StageInv(s, id, k) && Delivered(id, k, c) in s.events;
    var j :| 0 <= j < |s.events| && s.events[j] == Delivered(id, k, c);
    assert LawfulAt(s.events, j);
    var i :| 0 <= i < j && s.events[i] == TouchedForSend(id, k, c);
    assert LawfulAt(s.events, i);
    assert DeliveredToHolder(s.events, id, k, c);
  }

  lemma DeliveredToTarget(s: State, id: SendId, k: nat, c: Conn)
    requires Inv(s) && Delivered(id, k, c) in s.events
    ensures (id, k) in s.attempts && s.attempts[(id, k)].target == c && k < 2
  {
    assert StageInv(s, id, k) && AttemptsOf(s, id);
  }

  lemma DeliveredOnce(s: State, id: SendId, i: nat, j: nat, k: nat, l: nat, c: Conn)
    requires Inv(s) && id in s.sends && i < j < |s.events| && s.events[i] == Delivered(id, k, c)
    ensures s.events[j] != Delivered(id, l, c)
  {
    if s.events[j] == Delivered(id, l, c) {
      DeliveredToTarget(s, id, k, c);
      DeliveredToTarget(s, id, l, c);
      OneDeliveryPerAttempt(s.events, id, k, c, i, j, l);
    }
  }

  lemma OneDeliveryPerAttempt(events: seq<Event>, id: SendId, k: nat, c: Conn, i: nat, j: nat, l: nat)
    requires Lawful(events) && i < j < |events| && events[i] == Delivered(id, k, c) && events[j] == Delivered(id, l, c)
    ensures k != l
  {
    assert LawfulAt(events, j);
  }

  // ----- the local map --------------------------------------------------------------

  predicate OnInstanceOf(s: State, c: Conn, d: Conn) {
    c in s.owner && d in s.owner && s.owner[c] == s.owner[d]
  }

  /** A placement, or a command acted on, by which `c` takes or deletes its instance's entry of the device. */
  predicate ClearsEntry(s: State, c: Conn, step: Step) {
    match step
    case Place(e) => e == c
    case Continue(t) =>
      t in s.tasks && s.tasks[t].conn == c
      && if s.tasks[t].Heartbeat? then s.tasks[t].answer != Passed else s.tasks[t].answer != Failed
    case SendOnSocket(id, k) => AtStage(s, (id, k), TouchAnswered(false)) && s.attempts[(id, k)].target == c
    case _ => false
  }

  /** Whose step it is, for the steps that may clear an entry. */
  ghost predicate Evicts(s: State, d: Conn, step: Step) {
    exists c: Conn :: OnInstanceOf(s, c, d) && ClearsEntry(s, c, step) && !(step.Place? && c == d)
  }

  predicate TouchesTheMap(step: Step) {
    step.Place? || step.Continue? || step.SendOnSocket?
  }

  predicate TouchesTasks(step: Step) {
    step.BeginHeartbeat? || step.BeginDetach? || step.Command? || step.Continue?
  }

  /** Claims, expiries and commands: the steps by which the presence itself may change. */
  predicate MovesPresence(step: Step) {
    step.Claim? || step.Expire? || step.Command? || step.RunLate?
  }

  /** Most steps leave the local maps, the outstanding commands and the presence alone. */
  ghost predicate LocallyFramed(s: State, s': State, step: Step) {
    && (!TouchesTheMap(step) ==> s'.agents == s.agents && s'.closed >= s.closed)
    && (!TouchesTasks(step) ==> s'.tasks == s.tasks)
    && (!step.Claim? ==> s'.owner == s.owner)
    && (!step.Place? && !step.Claim? ==> s'.placing == s.placing)
    && (!MovesPresence(step) ==> s'.presence == s.presence)
  }

  lemma LocalFrameOnSends(s: State, step: Step)
    requires Enabled(s, step) && !TouchesTasks(step) && !MovesPresence(step) && !TouchesTheMap(step)
    ensures var s' := Next(s, step);
            s' == s.(closed := s'.closed, sends := s'.sends, attempts := s'.attempts, acks := s'.acks,
                     events := s'.events, adrift := s'.adrift)
            && s'.closed >= s.closed
  {
    hide Enabled, Conclude, Resume, Unmap, Mapped, IsLocal, AwaitedAt, AtStage;
    match step
    case SocketCloses(_) =>
    case BeginSend(_, _) =>
    case ReadOwner(_, _) =>
    case LaunchLocal(_) =>
    case Publish(_, _, _) =>
    case ReceiveEnvelope(_, _) =>
    case TouchForSend(_, _, _, _) =>
    case ReceiveAck(_, _) =>
    case AckTimeout(_) =>
  }

  lemma LocalFrameOnSocket(s: State, id: SendId, k: nat)
    requires Enabled(s, SendOnSocket(id, k))
    ensures var s' := Next(s, SendOnSocket(id, k));
            s' == s.(agents := s'.agents, closed := s'.closed, sends := s'.sends, attempts := s'.attempts, acks := s'.acks,
                     events := s'.events)
  {
    hide Conclude, Resume, Unmap, Mapped, IsLocal, AwaitedAt, AtStage, Executed;
  }

  lemma LocalFrameOnTasks(s: State, step: Step)
    requires Enabled(s, step) && !step.SendOnSocket? && (TouchesTasks(step) || MovesPresence(step) || step.Place?)
    ensures LocallyFramed(s, Next(s, step), step)
  {
    hide Enabled, Conclude, Resume, Unmap, Mapped, IsLocal, AwaitedAt, AtStage;
  }

  lemma LocalFrame(s: State, step: Step)
    requires Enabled(s, step)
    ensures LocallyFramed(s, Next(s, step), step)
  {
    hide Enabled, Next;
    if step.SendOnSocket? {
      LocalFrameOnSocket(s, step.id, step.k);
    } else if TouchesTasks(step) || MovesPresence(step) || step.Place? {
      LocalFrameOnTasks(s, step);
    } else {
      LocalFrameOnSends(s, step);
    }
  }

  /** An entry of the local map is lost exactly by another's placement or by a command acted on, on that instance. */
  lemma EntryLostIffCleared(s: State, step: Step, d: Conn)
    requires Enabled(s, step) && Mapped(s, d)
    ensures !Mapped(Next(s, step), d) <==> Evicts(s, d, step)
  {
    if !TouchesTheMap(step) {
      LocalFrame(s, step);
      hide Next, Enabled;
      assert Next(s, step).agents == s.agents;
    } else {
      MapStep(s, step, d);
    }
  }

  lemma MapStep(s: State, step: Step, d: Conn)
    requires Enabled(s, step) && Mapped(s, d) && TouchesTheMap(step)
    ensures !Mapped(Next(s, step), d) <==> Evicts(s, d, step)
  {
    hide Holder, Resume;
    if step.Place? {
      assert Evicts(s, d, step) <==> OnInstanceOf(s, step.conn, d) && step.conn != d;
    } else if step.Continue? {
      var c := s.tasks[step.task].conn;
      assert Evicts(s, d, step) <==> OnInstanceOf(s, c, d) && ClearsEntry(s, c, step);
    } else {
      var c := s.attempts[(step.id, step.k)].target;
      assert Evicts(s, d, step) <==> OnInstanceOf(s, c, d) && ClearsEntry(s, c, step);
    }
  }

  /** Placed once, a connection is never placed again. */
  ghost predicate PlacedOnce(s: State, d: Conn) {
    d in s.owner && d !in s.placing
  }

  lemma StaysPlaced(s: State, step: Step, d: Conn)
    requires Enabled(s, step) && PlacedOnce(s, d)
    ensures PlacedOnce(Next(s, step), d)
    ensures !Mapped(s, d) ==> !Mapped(Next(s, step), d)
  {
    LocalFrame(s, step);
    hide Holder, Conclude, Resume, IsLocal, AwaitedAt, AtStage;
    if !TouchesTheMap(step) && !step.Claim? { hide Next, Enabled; }
  }

  /** From its placement on, a connection is in its instance's map exactly while nothing has cleared its entry. */
  lemma {:induction false} MappedIffNeverCleared(states: seq<State>, steps: seq<Step>, p: nat, n: nat, d: Conn)
    requires Run(states, steps) && p < n < |states| && steps[p] == Place(d)
    ensures PlacedOnce(states[n], d)
    ensures Mapped(states[n], d) <==> forall k :: p < k < n ==> !Evicts(states[k], d, steps[k])
    decreases n
  {
    if n == p + 1 {
      assert Enabled(states[p], steps[p]);
    } else {
      MappedIffNeverCleared(states, steps, p, n - 1, d);
      assert Enabled(states[n - 1], steps[n - 1]);
      hide Next, Enabled, Evicts, Mapped;
      if Mapped(states[n - 1], d) {
        EntryLostIffCleared(states[n - 1], steps[n - 1], d);
      }
      StaysPlaced(states[n - 1], steps[n - 1], d);
    }
  }

  /** A detach that Redis has answered concerns a connection without the presence. */
  ghost predicate AnsweredDetaches(s: State) {
    forall t :: t in s.tasks ==>
      && s.tasks[t].conn in s.owner
      && (s.tasks[t].Detach? && s.tasks[t].answer in {Passed, Refused} ==> s.presence != Some(s.tasks[t].conn))
  }

  /** Closed, or claimed and no longer holding the presence: for good. */
  ghost predicate Out(s: State, d: Conn) {
    d in s.closed || (d in s.owner && s.presence != Some(d))
  }

  lemma DetachStep(s: State, step: Step)
    requires Enabled(s, step) && AnsweredDetaches(s)
    ensures AnsweredDetaches(Next(s, step))
  {
    LocalFrame(s, step);
    if !TouchesTasks(step) && !MovesPresence(step) {
      hide Next, Enabled;
      assert Next(s, step).tasks == s.tasks;
    } else {
      hide Next, Enabled, AnsweredDetaches;
      if step.Command? {
        DetachAnswered(s, step.task, step.ran, step.replied);
      } else if TouchesTasks(step) {
        DetachCommandStep(s, step);
      } else {
        DetachPresenceStep(s, step);
      }
    }
  }

  /** A command that runs for nobody, a claim or an expiry: no task learns anything. */
  lemma DetachPresenceStep(s: State, step: Step)
    requires Enabled(s, step) && AnsweredDetaches(s) && MovesPresence(step) && !step.Command?
    ensures AnsweredDetaches(Next(s, step))
  {
    hide Holder, Conclude, Resume, Unmap, IsLocal, AwaitedAt, AtStage, Mapped;
  }

  lemma DetachCommandStep(s: State, step: Step)
    requires Enabled(s, step) && AnsweredDetaches(s) && TouchesTasks(step) && !step.Command?
    ensures AnsweredDetaches(Next(s, step))
  {
    hide Holder, Conclude, Resume, Unmap, IsLocal, AwaitedAt, AtStage, Executed;
    match step
    case BeginHeartbeat(_, _) =>
    case BeginDetach(_, _) =>
    case Continue(_) =>
  }

  lemma DetachAnswered(s: State, t: TaskId, ran: bool, replied: bool)
    requires Enabled(s, Command(t, ran, replied)) && AnsweredDetaches(s)
    ensures AnsweredDetaches(Next(s, Command(t, ran, replied)))
  {
    hide Holder;
  }

  lemma OutForGoodOnChange(s: State, step: Step, d: Conn)
    requires Enabled(s, step) && AnsweredDetaches(s) && d in s.owner && (TouchesTheMap(step) || MovesPresence(step))
    ensures Out(s, d) || (!step.Place? && ClearsEntry(s, d, step)) ==> Out(Next(s, step), d)
    ensures d in Next(s, step).owner
  {
    hide Holder, Conclude, Resume, Unmap, IsLocal, AwaitedAt;
  }

  lemma OutForGood(s: State, step: Step, d: Conn)
    requires Enabled(s, step) && AnsweredDetaches(s) && d in s.owner
    ensures Out(s, d) || (!step.Place? && ClearsEntry(s, d, step)) ==> Out(Next(s, step), d)
    ensures d in Next(s, step).owner
  {
    if TouchesTheMap(step) || MovesPresence(step) {
      OutForGoodOnChange(s, step, d);
    } else {
      LocalFrame(s, step);
      hide Next, Enabled, AnsweredDetaches;
    }
  }

  lemma {:induction false} RunOut(states: seq<State>, steps: seq<Step>, k: nat, n: nat, d: Conn)
    requires Run(states, steps) && k < n < |states| && d in states[k].owner
    ensures AnsweredDetaches(states[k]) && AnsweredDetaches(states[n]) && d in states[n].owner
    ensures Out(states[k], d) || (!steps[k].Place? && ClearsEntry(states[k], d, steps[k])) ==> Out(states[n], d)
    decreases n
  {
    hide Next, Enabled, AnsweredDetaches, Out, ClearsEntry;
    if n == k + 1 {
      DetachesAnswered(states, steps, k);
    } else {
      RunOut(states, steps, k, n - 1, d);
    }
    DetachStep(states[n - 1], steps[n - 1]);
    OutForGood(states[n - 1], steps[n - 1], d);
  }

  lemma {:induction false} DetachesAnswered(states: seq<State>, steps: seq<Step>, n: nat)
    requires Run(states, steps) && n < |states|
    ensures AnsweredDetaches(states[n])
  {
    hide Next, Enabled;
    if n > 0 {
      DetachesAnswered(states, steps, n - 1);
      DetachStep(states[n - 1], steps[n - 1]);
    }
  }

  /** Another connection on the same instance takes or deletes the entry. */
  ghost predicate EvictedByOther(s: State, d: Conn, step: Step) {
    exists c: Conn :: c != d && OnInstanceOf(s, c, d) && ClearsEntry(s, c, step)
  }

  /**
   * A placed connection that still holds the presence on an open socket is found by its instance
   * if and only if, since its placement, no other connection of that instance was placed there and
   * no command of another one was acted on there.
   */
  lemma HolderFoundIff(states: seq<State>, steps: seq<Step>, p: nat, n: nat, d: Conn)
    requires Run(states, steps) && p < n < |states| && steps[p] == Place(d)
    requires states[n].presence == Some(d) && d !in states[n].closed
    ensures Mapped(states[n], d) <==> forall k :: p < k < n ==> !EvictedByOther(states[k], d, steps[k])
  {
    MappedIffNeverCleared(states, steps, p, n, d);
    forall k | p < k < n ensures Evicts(states[k], d, steps[k]) <==> EvictedByOther(states[k], d, steps[k]) {
      MappedIffNeverCleared(states, steps, p, k, d);
      RunOut(states, steps, k, n, d);
    }
  }

  lemma RunSnoc(states: seq<State>, steps: seq<Step>, step: Step) returns (states': seq<State>, steps': seq<Step>)
    requires Run(states, steps) && Enabled(states[|steps|], step)
    ensures Run(states', steps') && |states'| == |steps'| + 1 && states'[|steps'|] == Next(states[|steps|], step)
  {
    states', steps' := states + [Next(states[|steps|], step)], steps + [step];
    hide Next, Enabled;
  }

  /** A detach of `c` is about to ask Redis when the agent reconnects to the same instance as `d`. */
  lemma ReconnectDuringDetach(i: Instance, c: Conn, d: Conn, t: TaskId) returns (states: seq<State>, steps: seq<Step>)
    requires c != d
    ensures Run(states, steps)
    ensures states[|steps|] == Start.(presence := Some(d), owner := map[c := i, d := i], agents := map[i := d],
                                 tasks := map[t := Detach(c, Waiting)], events := [Claimed(c), Claimed(d)])
  {
    states, steps := [Start], [];
    states, steps := RunSnoc(states, steps, Claim(c, i));
    states, steps := RunSnoc(states, steps, Place(c));
    states, steps := RunSnoc(states, steps, BeginDetach(t, c));
    hide Run;
    states, steps := RunSnoc(states, steps, Claim(d, i));
    states, steps := RunSnoc(states, steps, Place(d));
  }

  /**
   * The local agent map is keyed by device, and a detach deletes the device's entry after
   * awaiting its release. Reconnecting to the same instance in between loses the new entry: the
   * successor holds the presence and its socket is open, but its instance cannot find it.
   */
  lemma StaleDetachDropsSuccessor(i: Instance, c: Conn, d: Conn, t: TaskId) returns (states: seq<State>, steps: seq<Step>)
    requires c != d
    ensures Run(states, steps)
    ensures var s := states[|steps|];
            s.presence == Some(d) && d in s.owner && s.owner[d] == i && d !in s.closed && !Mapped(s, d) && s.tasks == map[]
  {
    states, steps := ReconnectDuringDetach(i, c, d, t);
    hide Run;
    states, steps := RunSnoc(states, steps, Command(t, true, true));
    states, steps := RunSnoc(states, steps, Continue(t));
  }
}
