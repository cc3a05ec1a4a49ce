/** RepositoryValidationBroker: validation requests waiting for an agent's answer. */
module Validation {
  import opened Wrappers

  type RepositoryId = nat
  type DeviceId = nat
  type RequestId = nat    // one call of request()

  datatype Code = InProgress | DeviceOffline | TimedOut | ShuttingDown

  datatype Outcome = Resolved(valid: bool) | Rejected(code: Code)

  datatype Request = Request(device: DeviceId, repository: RepositoryId)

  /** `checking`: calls past their duplicate check, awaiting isAgentOnline. Settling is not guarded. */
  datatype State = State(
    checking: map<RequestId, Request>, registered: map<RequestId, Request>,
    pending: map<RepositoryId, RequestId>, armed: set<RequestId>, outcome: map<RequestId, Outcome>)

  const Start := State(map[], map[], map[], {}, map[])

  datatype Event =
    | Ask(id: RequestId, request: Request)
    | Checked(id: RequestId, online: bool)
    | SendFailed(id: RequestId)
    | TimerFires(id: RequestId)
    | Answer(device: DeviceId, repository: RepositoryId, valid: bool)
    | DeviceGone(device: DeviceId)
    | Shutdown

  predicate Enabled(s: State, e: Event) {
    match e
    case Ask(id, _) => id !in s.checking && id !in s.registered && id !in s.outcome
    case Checked(id, _) => id in s.checking
    case SendFailed(id) => id in s.registered
    case TimerFires(id) => id in s.armed && id in s.registered
    case _ => true
  }

  /** The requests whose entries these are. */
  function Waiting(s: State, repositories: set<RepositoryId>): set<RequestId> {
    set r | r in repositories && r in s.pending :: s.pending[r]
  }

  function Verdicts(ids: set<RequestId>, o: Outcome): map<RequestId, Outcome> {
    map id | id in ids :: o
  }

  /** Settle the entries of `repositories` with `o`: clear the timer, delete, settle. */
  function Drop(s: State, repositories: set<RepositoryId>, o: Outcome): (s': State)
    ensures s'.checking == s.checking && s'.registered == s.registered && s'.pending == s.pending - repositories
  {
    var ids := Waiting(s, repositories);
    s.(pending := s.pending - repositories, armed := s.armed - ids, outcome := s.outcome + Verdicts(ids, o))
  }

  predicate WaitsFor(s: State, r: RepositoryId, device: DeviceId) {
    r in s.pending && s.pending[r] in s.registered && s.registered[s.pending[r]].device == device
  }

  function EntriesOf(s: State, device: DeviceId): set<RepositoryId> {
    set r | r in s.pending && WaitsFor(s, r, device)
  }

  function Next(s: State, e: Event): State
    requires Enabled(s, e)
  {
    match e
    case Ask(id, request) =>
      if request.repository in s.pending then s.(outcome := s.outcome[id := Rejected(InProgress)])
      else s.(checking := s.checking[id := request])
    case Checked(id, online) =>
      var request := s.checking[id];
      var s' := s.(checking := s.checking - {id});
      if !online then s'.(outcome := s.outcome[id := Rejected(DeviceOffline)])
      else s'.(registered := s.registered[id := request], armed := s.armed + {id}, pending := s.pending[request.repository := id])
    case SendFailed(id) => Drop(s, {s.registered[id].repository}, Rejected(DeviceOffline))
    case TimerFires(id) =>
      s.(pending := s.pending - {s.registered[id].repository}, armed := s.armed - {id},
         outcome := s.outcome[id := Rejected(TimedOut)])
    case Answer(device, r, valid) => if WaitsFor(s, r, device) then Drop(s, {r}, Resolved(valid)) else s
    case DeviceGone(device) => Drop(s, EntriesOf(s, device), Rejected(DeviceOffline))
    case Shutdown => Drop(s, s.pending.Keys, Rejected(ShuttingDown))
  }

  ghost predicate Inv(s: State) {
    && (forall id :: id in s.armed <==> id in s.registered && id !in s.outcome)
    && (forall r :: r in s.pending ==> s.pending[r] in s.armed && s.registered[s.pending[r]].repository == r)
    && (forall id :: id in s.checking ==> id !in s.registered && id !in s.outcome)
  }

  /** Every open request still has its entry, so an answer can reach it. */
  ghost predicate Complete(s: State) {
    forall id :: id in s.armed && id in s.registered ==> Reachable(s, id)
  }

  ghost predicate Reachable(s: State, id: RequestId)
    requires id in s.registered
  {
    s.registered[id].repository in s.pending && s.pending[s.registered[id].repository] == id
  }

  ghost predicate Keeps(before: map<RequestId, Outcome>, after: map<RequestId, Outcome>) {
    forall id :: id in before ==> id in after && after[id] == before[id]
  }

  lemma DropKeeps(s: State, repositories: set<RepositoryId>, o: Outcome)
    requires Inv(s)
    ensures Inv(Drop(s, repositories, o)) && Keeps(s.outcome, Drop(s, repositories, o).outcome)
    ensures Complete(s) ==> Complete(Drop(s, repositories, o))
  {
    var s' := Drop(s, repositories, o);
    forall r | r in s'.pending ensures s'.pending[r] in s'.armed {
      assert s.registered[s.pending[r]].repository == r;
    }
    if Complete(s) {
      forall id | id in s'.armed && id in s'.registered ensures Reachable(s', id) {
        assert Reachable(s, id);
      }
    }
  }

  lemma DropNothing(s: State, o: Outcome)
    ensures Drop(s, {}, o) == s
  {
  }

  lemma WaitingOneMore(s: State, gone: set<RepositoryId>, r: RepositoryId, o: Outcome)
    requires r in s.pending && r !in gone
    ensures Waiting(s, gone + {r}) == Waiting(s, gone) + {s.pending[r]}
    ensures Waiting(Drop(s, gone, o), {r}) == {s.pending[r]}
  {
    assert r in gone + {r};
  }

  lemma SettleOneMore(outcome: map<RequestId, Outcome>, ids: set<RequestId>, id: RequestId, o: Outcome)
    ensures outcome + Verdicts(ids, o) + Verdicts({id}, o) == outcome + Verdicts(ids + {id}, o)
  {
  }

  lemma DropOneMore(s: State, gone: set<RepositoryId>, r: RepositoryId, o: Outcome)
    requires r in s.pending && r !in gone
    ensures Drop(Drop(s, gone, o), {r}, o) == Drop(s, gone + {r}, o)
  {
    WaitingOneMore(s, gone, r, o);
    var ids, id := Waiting(s, gone), s.pending[r];
    hide Waiting, Verdicts;
    SettleOneMore(s.outcome, ids, id, o);
    assert s.armed - ids - {id} == s.armed - (ids + {id});
    assert s.pending - gone - {r} == s.pending - (gone + {r});
  }

  /** No settlement ever overwrites another, although none of them checks. */
  lemma StepKeeps(s: State, e: Event)
    requires Inv(s) && Enabled(s, e)
    ensures Inv(Next(s, e)) && Keeps(s.outcome, Next(s, e).outcome)
  {
    match e
    case SendFailed(id) => DropKeeps(s, {s.registered[id].repository}, Rejected(DeviceOffline));
    case Answer(_, r, valid) => DropKeeps(s, {r}, Resolved(valid));
    case DeviceGone(device) => DropKeeps(s, EntriesOf(s, device), Rejected(DeviceOffline));
    case Shutdown => DropKeeps(s, s.pending.Keys, Rejected(ShuttingDown));
    case _ =>
  }

  ghost predicate Run(states: seq<State>, events: seq<Event>) {
    && |states| == |events| + 1 && states[0] == Start
    && forall i :: 0 <= i < |events| ==> Enabled(states[i], events[i]) && states[i + 1] == Next(states[i], events[i])
  }

  /**
   * Over any run every request settles at most once; until it does its timer is armed, so it can
   * still settle, and afterwards neither a timer nor an entry is left of it.
   */
  lemma {:induction false} SettlesOnce(states: seq<State>, events: seq<Event>, i: nat, j: nat)
    requires Run(states, events) && i <= j < |states|
    ensures Keeps(states[i].outcome, states[j].outcome)
    ensures forall id :: id in states[j].registered ==> (id in states[j].armed <==> id !in states[j].outcome)
    ensures forall id, r :: id in states[j].outcome ==> id !in states[j].armed && !(r in states[j].pending && states[j].pending[r] == id)
    ensures Inv(states[j])
    decreases j
  {
    hide Next, Enabled;
    if j > 0 {
      SettlesOnce(states, events, if i < j then i else j - 1, j - 1);
      StepKeeps(states[j - 1], events[j - 1]);
    }
  }

  /**
   * Two calls can both pass the duplicate check before either registers. Registering over another
   * call's entry is the only way an open request loses its entry.
   */
  predicate Overwrites(s: State, e: Event) {
    e.Checked? && e.online && e.id in s.checking && s.checking[e.id].repository in s.pending
  }

  lemma EntryLostIffOverwritten(s: State, e: Event)
    requires Inv(s) && Complete(s) && Enabled(s, e)
    ensures Complete(Next(s, e)) <==> !Overwrites(s, e)
  {
    var s' := Next(s, e);
    match e
    case SendFailed(id) => DropKeeps(s, {s.registered[id].repository}, Rejected(DeviceOffline));
    case Answer(_, r, valid) => DropKeeps(s, {r}, Resolved(valid));
    case DeviceGone(device) => DropKeeps(s, EntriesOf(s, device), Rejected(DeviceOffline));
    case Shutdown => DropKeeps(s, s.pending.Keys, Rejected(ShuttingDown));
    case Checked(id, online) =>
      if Overwrites(s, e) {
        var other := s.pending[s.checking[id].repository];
        assert other in s'.armed && other in s'.registered && !Reachable(s', other);
      } else {
        forall i | i in s'.armed && i in s'.registered ensures Reachable(s', i) {
          assert i in s.armed && i in s.registered ==> Reachable(s, i);
        }
      }
    case TimerFires(id) =>
      forall i | i in s'.armed && i in s'.registered ensures Reachable(s', i) {
        assert Reachable(s, i) && Reachable(s, id);
      }
    case Ask(_, _) =>
      forall i | i in s'.armed && i in s'.registered ensures Reachable(s', i) {
        assert Reachable(s, i);
      }
  }

  ghost predicate HasEntry(s: State, id: RequestId) {
    id in s.registered && Reachable(s, id)
  }

  /** What an event means to one request that has not settled: its outcome, if it settles by it. */
  ghost function VerdictOn(s: State, e: Event, id: RequestId): Option<Outcome> {
    match e
    case Ask(i, request) => if i == id && request.repository in s.pending then Some(Rejected(InProgress)) else None
    case Checked(i, online) => if i == id && !online then Some(Rejected(DeviceOffline)) else None
    case SendFailed(i) =>
      if HasEntry(s, id) && i in s.registered && s.registered[i].repository == s.registered[id].repository
      then Some(Rejected(DeviceOffline)) else None
    case TimerFires(i) => if i == id then Some(Rejected(TimedOut)) else None
    case Answer(device, r, valid) =>
      if HasEntry(s, id) && s.registered[id] == Request(device, r) then Some(Resolved(valid)) else None
    case DeviceGone(device) => if HasEntry(s, id) && s.registered[id].device == device then Some(Rejected(DeviceOffline)) else None
    case Shutdown => if HasEntry(s, id) then Some(Rejected(ShuttingDown)) else None
  }

  /** Who settles, and how: each request exactly by its own verdict, whatever happens to the others. */
  lemma SettlesByItsVerdict(s: State, e: Event, id: RequestId)
    requires Inv(s) && Enabled(s, e) && id !in s.outcome
    ensures id in Next(s, e).outcome <==> VerdictOn(s, e, id).Some?
    ensures VerdictOn(s, e, id).Some? ==> Next(s, e).outcome[id] == VerdictOn(s, e, id).value
  {
    match e
    case SendFailed(i) => DropSettles(s, {s.registered[i].repository}, Rejected(DeviceOffline), id);
    case Answer(device, r, valid) => if WaitsFor(s, r, device) { DropSettles(s, {r}, Resolved(valid), id); }
    case DeviceGone(device) => DropSettles(s, EntriesOf(s, device), Rejected(DeviceOffline), id);
    case Shutdown => DropSettles(s, s.pending.Keys, Rejected(ShuttingDown), id);
    case _ =>
  }

  lemma DropSettles(s: State, repositories: set<RepositoryId>, o: Outcome, id: RequestId)
    requires Inv(s) && id !in s.outcome
    ensures id in Drop(s, repositories, o).outcome <==> HasEntry(s, id) && s.registered[id].repository in repositories
    ensures id in Drop(s, repositories, o).outcome ==> Drop(s, repositories, o).outcome[id] == o
  {
    var ids := Waiting(s, repositories);
    if id in ids {
      var r :| r in repositories && r in s.pending && s.pending[r] == id;
      assert s.registered[s.pending[r]].repository == r;
    }
    if HasEntry(s, id) && s.registered[id].repository in repositories {
      assert s.pending[s.registered[id].repository] in ids;
    }
  }

  /** Answers and departures of other devices leave an open request open. */
  lemma OtherDevicesDoNotSettle(s: State, id: RequestId, device: DeviceId, r: RepositoryId, valid: bool)
    requires Inv(s) && id in s.armed && s.registered[id].device != device
    ensures id in Next(s, Answer(device, r, valid)).armed && id !in Next(s, Answer(device, r, valid)).outcome
    ensures id in Next(s, DeviceGone(device)).armed && id !in Next(s, DeviceGone(device)).outcome
  {
    SettlesByItsVerdict(s, Answer(device, r, valid), id);
    SettlesByItsVerdict(s, DeviceGone(device), id);
    StepKeeps(s, Answer(device, r, valid));
    StepKeeps(s, DeviceGone(device));
    assert Next(s, Answer(device, r, valid)).registered == s.registered && Next(s, DeviceGone(device)).registered == s.registered;
    hide Next;
  }

  /**
   * In a run without such a race, whatever can go wrong rejects an open request with its own code:
   * a message that is not delivered, its device going offline, the timer, and the shutdown.
   */
  lemma FailuresReject(states: seq<State>, events: seq<Event>, n: nat, id: RequestId)
    requires Run(states, events) && n < |states| && id in states[n].armed
    requires forall i :: 0 <= i < n ==> !Overwrites(states[i], events[i])
    ensures RejectedByFailures(states[n], id)
  {
    StaysComplete(states, events, n);
    var s := states[n];
    assert HasEntry(s, id);
    SettlesByItsVerdict(s, SendFailed(id), id);
    SettlesByItsVerdict(s, DeviceGone(s.registered[id].device), id);
    SettlesByItsVerdict(s, TimerFires(id), id);
    SettlesByItsVerdict(s, Shutdown, id);
    hide Next;
  }

  ghost predicate RejectedByFailures(s: State, id: RequestId) {
    && id in s.registered && id in s.armed
    && Settled(Next(s, SendFailed(id)), id, Rejected(DeviceOffline))
    && Settled(Next(s, DeviceGone(s.registered[id].device)), id, Rejected(DeviceOffline))
    && Settled(Next(s, TimerFires(id)), id, Rejected(TimedOut))
    && Settled(Next(s, Shutdown), id, Rejected(ShuttingDown))
  }

  ghost predicate Settled(s: State, id: RequestId, o: Outcome) {
    id in s.outcome && s.outcome[id] == o
  }

  /** In a run without such a race, an agent's answer settles the open request it is for. */
  lemma {:induction false} AnswerSettles(states: seq<State>, events: seq<Event>, n: nat, id: RequestId, valid: bool)
    requires Run(states, events) && n < |states|
    requires forall i :: 0 <= i < n ==> !Overwrites(states[i], events[i])
    requires id in states[n].armed
    ensures var s := states[n];
            id in s.registered
            && Next(s, Answer(s.registered[id].device, s.registered[id].repository, valid)).outcome == s.outcome[id := Resolved(valid)]
  {
    StaysComplete(states, events, n);
    assert Reachable(states[n], id);
  }

  lemma {:induction false} StaysComplete(states: seq<State>, events: seq<Event>, n: nat)
    requires Run(states, events) && n < |states|
    requires forall i :: 0 <= i < n ==> !Overwrites(states[i], events[i])
    ensures Inv(states[n]) && Complete(states[n])
  {
    SettlesOnce(states, events, n, n);
    if n > 0 {
      StaysComplete(states, events, n - 1);
      EntryLostIffOverwritten(states[n - 1], events[n - 1]);
    }
  }

  /** With such a race, the loser's timer takes the winner's entry along, and the answer is dropped. */
  lemma RaceLosesAnswer(d: DeviceId, r: RepositoryId) returns (states: seq<State>, events: seq<Event>)
    ensures Run(states, events) && |events| == 7 && events[5] == Answer(d, r, true)
    ensures 1 in states[5].armed && states[6] == states[5]
    ensures 1 in states[7].outcome && states[7].outcome[1] == Rejected(TimedOut)
  {
    events := [Ask(0, Request(d, r)), Ask(1, Request(d, r)), Checked(0, true), Checked(1, true),
               TimerFires(0), Answer(d, r, true), TimerFires(1)];
    var s1 := Next(Start, events[0]);
    var s2 := Next(s1, events[1]);
    var s3 := Next(s2, events[2]);
    var s4 := Next(s3, events[3]);
    var s5 := Next(s4, events[4]);
    states := [Start, s1, s2, s3, s4, s5, s5, Next(s5, events[6])];
  }

  class RepositoryValidationBroker {
    var checking: map<RequestId, Request>
    var registered: map<RequestId, Request>
    var pending: map<RepositoryId, RequestId>
    var armed: set<RequestId>
    var outcome: map<RequestId, Outcome>

    ghost function Abstract(): State
      reads this
    {
      State(checking, registered, pending, armed, outcome)
    }

    constructor ()
      ensures Abstract() == Start
    {
      checking, registered, pending, armed, outcome := map[], map[], map[], {}, map[];
    }

    /** request() up to its first await. */
    method Begin(id: RequestId, request: Request)
      requires Enabled(Abstract(), Ask(id, request))
      modifies this
      ensures Abstract() == Next(old(Abstract()), Ask(id, request))
    {
      if request.repository in pending {
        outcome := outcome[id := Rejected(InProgress)];
      } else {
        checking := checking[id := request];
      }
    }

    /** The rest of request(): offline, or a timer and an entry, which may replace another's. */
    method Register(id: RequestId, online: bool)
      requires Enabled(Abstract(), Checked(id, online))
      modifies this
      ensures Abstract() == Next(old(Abstract()), Checked(id, online))
    {
      var request := checking[id];
      checking := checking - {id};
      if !online {
        outcome := outcome[id := Rejected(DeviceOffline)];
      } else {
        registered := registered[id := request];
        armed := armed + {id};
        pending := pending[request.repository := id];
      }
    }

    /** Clear the timer, delete the entry, settle its promise. */
    method SettleEntry(r: RepositoryId, o: Outcome)
      requires Inv(Abstract()) && r in pending
      modifies this
      ensures Abstract() == Drop(old(Abstract()), {r}, o) && Inv(Abstract())
    {
      DropKeeps(Abstract(), {r}, o);
      var id := pending[r];
      armed := armed - {id};
      pending := pending - {r};
      outcome := outcome[id := o];
    }

    method FailSend(id: RequestId)
      requires Inv(Abstract()) && id in registered
      modifies this
      ensures Abstract() == Next(old(Abstract()), SendFailed(id))
    {
      var r := registered[id].repository;
      if r in pending { SettleEntry(r, Rejected(DeviceOffline)); }
    }

    method FireTimer(id: RequestId)
      requires Enabled(Abstract(), TimerFires(id))
      modifies this
      ensures Abstract() == Next(old(Abstract()), TimerFires(id))
    {
      pending := pending - {registered[id].repository};
      armed := armed - {id};
      outcome := outcome[id := Rejected(TimedOut)];
    }

    method SettleLocal(device: DeviceId, r: RepositoryId, valid: bool) returns (handled: bool)
      requires Inv(Abstract())
      modifies this
      ensures Abstract() == Next(old(Abstract()), Answer(device, r, valid))
      ensures handled <==> WaitsFor(old(Abstract()), r, device)
    {
      if r !in pending || registered[pending[r]].device != device { return false; }
      SettleEntry(r, Resolved(valid));
      return true;
    }

    /** cancelLocalForDevice: a loop over the entries, settling the device's. */
    method CancelLocalForDevice(device: DeviceId)
      requires Inv(Abstract())
      modifies this
      ensures Abstract() == Next(old(Abstract()), DeviceGone(device))
    {
      ghost var s, gone := Abstract(), {};
      DropNothing(s, Rejected(DeviceOffline));
      hide Drop;
      var rest := pending.Keys;
      while rest != {}
        invariant rest <= s.pending.Keys && gone !! rest && Inv(s)
        invariant forall r :: r in gone <==> r in s.pending && r !in rest && WaitsFor(s, r, device)
        invariant Abstract() == Drop(s, gone, Rejected(DeviceOffline))
        decreases |rest|
      {
        var r :| r in rest;
        DropKeeps(s, gone, Rejected(DeviceOffline));
        rest := rest - {r};
        if registered[pending[r]].device == device {
          DropOneMore(s, gone, r, Rejected(DeviceOffline));
          SettleEntry(r, Rejected(DeviceOffline));
          gone := gone + {r};
        }
      }
      assert gone == EntriesOf(s, device);
    }

    /** shutdown() settles every entry. */
    method ShutDown()
      requires Inv(Abstract())
      modifies this
      ensures Abstract() == Next(old(Abstract()), Shutdown)
    {
      ghost var s, gone := Abstract(), {};
      DropNothing(s, Rejected(ShuttingDown));
      hide Drop;
      var rest := pending.Keys;
      while rest != {}
        invariant rest <= s.pending.Keys && Inv(s)
        invariant forall r :: r in gone <==> r in s.pending && r !in rest
        invariant Abstract() == Drop(s, gone, Rejected(ShuttingDown))
        decreases |rest|
      {
        var r :| r in rest;
        DropKeeps(s, gone, Rejected(ShuttingDown));
        DropOneMore(s, gone, r, Rejected(ShuttingDown));
        SettleEntry(r, Rejected(ShuttingDown));
        rest, gone := rest - {r}, gone + {r};
      }
      assert gone == s.pending.Keys;
    }
  }
}
