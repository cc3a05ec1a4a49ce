/** The correlated acknowledgements of messages relayed to another server instance. */
module Acks {
  import opened Wrappers

  type CorrelationId = nat

  /** What happens to the promises of sendToRemoteAgent, in order. */
  datatype Event =
    | Registered(id: CorrelationId)
    | Acked(id: CorrelationId, sent: bool)
    | TimedOut(id: CorrelationId)
    | PublishFailed(id: CorrelationId)
    | ShutDown

  /** What an event would settle the promise `id` with, were it still open. */
  function Verdict(e: Event, id: CorrelationId): Option<bool> {
    match e
    case Acked(i, sent) => if i == id then Some(sent) else None
    case TimedOut(i) => if i == id then Some(false) else None
    case PublishFailed(i) => if i == id then Some(false) else None
    case ShutDown => Some(false)
    case Registered(_) => None
  }

  /** The promise's value after these events: the first verdict since its registration. */
  function Outcome(trace: seq<Event>, id: CorrelationId): Option<bool> {
    if trace == [] then None
    else
      var before, last := trace[..|trace| - 1], trace[|trace| - 1];
      if Outcome(before, id) != None || Registered(id) !in before then Outcome(before, id) else Verdict(last, id)
  }

  /** Correlation ids are generated afresh, and only an issued message can time out or fail to publish. */
  ghost predicate Possible(before: seq<Event>, e: Event) {
    match e
    case Registered(id) => e !in before
    case TimedOut(id) => Registered(id) in before
    case PublishFailed(id) => Registered(id) in before
    case _ => true
  }

  ghost predicate WellFormed(trace: seq<Event>) {
    forall k :: 0 <= k < |trace| ==> Possible(trace[..k], trace[k])
  }

  /** A promise is open: it was handed out and has no value yet. */
  ghost predicate Open(trace: seq<Event>, id: CorrelationId) {
    Registered(id) in trace && Outcome(trace, id) == None
  }

  lemma OutcomeSnoc(trace: seq<Event>, e: Event, id: CorrelationId)
    ensures Outcome(trace + [e], id) ==
              if Outcome(trace, id) != None || Registered(id) !in trace then Outcome(trace, id) else Verdict(e, id)
  {
    assert (trace + [e])[..|trace|] == trace;
  }

  lemma OpenSnoc(trace: seq<Event>, e: Event, id: CorrelationId)
    ensures Open(trace + [e], id) <==>
              (Open(trace, id) && Verdict(e, id) == None) || (e == Registered(id) && (Registered(id) !in trace || Open(trace, id)))
  {
    OutcomeSnoc(trace, e, id);
    if Outcome(trace, id) != None { OutcomeNeedsRegistration(trace, id); }
  }

  lemma {:induction false} OutcomeNeedsRegistration(trace: seq<Event>, id: CorrelationId)
    requires Outcome(trace, id) != None
    ensures Registered(id) in trace
  {
    var before := trace[..|trace| - 1];
    if Outcome(before, id) != None {
      OutcomeNeedsRegistration(before, id);
    }
  }

  /** A promise settles at most once: nothing that happens later changes its value. */
  lemma {:induction false} SettledForGood(trace: seq<Event>, more: seq<Event>, id: CorrelationId)
    requires Outcome(trace, id) != None
    ensures Outcome(trace + more, id) == Outcome(trace, id)
    decreases |more|
  {
    if more == [] {
      assert trace + more == trace;
    } else {
      var rest := more[..|more| - 1];
      SettledForGood(trace, rest, id);
      assert trace + more == (trace + rest) + [more[|more| - 1]];
      OutcomeSnoc(trace + rest, more[|more| - 1], id);
    }
  }

  /** Event `k` is the first verdict on `id` after its registration. */
  ghost predicate DecidedAt(trace: seq<Event>, id: CorrelationId, k: nat) {
    && k < |trace| && Registered(id) in trace[..k] && Verdict(trace[k], id) != None
    && forall j :: 0 <= j < k && Registered(id) in trace[..j] ==> Verdict(trace[j], id) == None
  }

  /** Whichever of reply, timeout, failed publish and shutdown comes first decides; the rest are ignored. */
  lemma {:induction false} FirstVerdictWins(trace: seq<Event>, id: CorrelationId, v: bool)
    ensures Outcome(trace, id) == Some(v) <==> exists k: nat :: DecidedAt(trace, id, k) && Verdict(trace[k], id) == Some(v)
  {
    if Outcome(trace, id) == Some(v) {
      var k := Decider(trace, id);
      assert DecidedAt(trace, id, k) && Verdict(trace[k], id) == Some(v);
    }
    if k: nat :| DecidedAt(trace, id, k) && Verdict(trace[k], id) == Some(v) {
      DecidedGivesOutcome(trace, id, k);
    }
  }

  lemma {:induction false} Decider(trace: seq<Event>, id: CorrelationId) returns (k: nat)
    requires Outcome(trace, id) != None
    ensures DecidedAt(trace, id, k) && Verdict(trace[k], id) == Outcome(trace, id)
    decreases |trace|
  {
    var n := |trace| - 1;
    var before := trace[..n];
    if Outcome(before, id) != None {
      k := Decider(before, id);
      assert forall j :: 0 <= j <= k ==> trace[..j] == before[..j];
    } else {
      k := n;
      forall j | 0 <= j < k && Registered(id) in trace[..j] ensures Verdict(trace[j], id) == None {
        NoVerdictWhileOpen(before, id, j);
        assert trace[..j] == before[..j];
      }
    }
  }

  lemma {:induction false} NoVerdictWhileOpen(trace: seq<Event>, id: CorrelationId, j: nat)
    requires Outcome(trace, id) == None && j < |trace| && Registered(id) in trace[..j]
    ensures Verdict(trace[j], id) == None
    decreases |trace|
  {
    var n := |trace| - 1;
    var before := trace[..n];
    if j < n {
      assert before[..j] == trace[..j];
      NoVerdictWhileOpen(before, id, j);
    }
  }

  lemma {:induction false} UndecidedStaysOpen(trace: seq<Event>, id: CorrelationId)
    requires forall j :: 0 <= j < |trace| && Registered(id) in trace[..j] ==> Verdict(trace[j], id) == None
    ensures Outcome(trace, id) == None
  {
    if trace != [] {
      var before := trace[..|trace| - 1];
      forall j | 0 <= j < |before| && Registered(id) in before[..j] ensures Verdict(before[j], id) == None {
        assert before[..j] == trace[..j];
      }
      UndecidedStaysOpen(before, id);
    }
  }

  lemma {:induction false} DecidedGivesOutcome(trace: seq<Event>, id: CorrelationId, k: nat)
    requires DecidedAt(trace, id, k)
    ensures Outcome(trace, id) == Verdict(trace[k], id)
  {
    var head := trace[..k + 1];
    assert head[..k] == trace[..k];
    forall j | 0 <= j < k && Registered(id) in head[..k][..j] ensures Verdict(head[..k][j], id) == None {
      assert head[..k][..j] == trace[..j];
    }
    UndecidedStaysOpen(head[..k], id);
    assert Outcome(head, id) == Verdict(trace[k], id);
    SettledForGood(head, trace[k + 1..], id);
    assert head + trace[k + 1..] == trace;
  }

  lemma WellFormedSnoc(trace: seq<Event>, e: Event)
    requires WellFormed(trace) && Possible(trace, e)
    ensures WellFormed(trace + [e])
  {
    forall k | 0 <= k <= |trace| ensures Possible((trace + [e])[..k], (trace + [e])[k]) {
      assert (trace + [e])[..k] == trace[..k];
      assert trace[..|trace|] == trace;
    }
  }

  function RefuseAll(resolved: map<CorrelationId, bool>, ids: set<CorrelationId>): map<CorrelationId, bool> {
    resolved + map id | id in ids :: false
  }

  class ConnectionHub {
    /** The messages awaiting an ack, the timers that may still fire, and the promises' values. */
    var pendingAcks: set<CorrelationId>
    var armed: set<CorrelationId>
    var resolved: map<CorrelationId, bool>
    ghost var trace: seq<Event>

    /** Entries and armed timers are exactly the open promises, and every value is the first verdict. */
    ghost predicate Valid()
      reads this
    {
      && WellFormed(trace)
      && pendingAcks == armed
      && (forall id :: id in armed <==> Open(trace, id))
      && (forall id :: id in resolved <==> Outcome(trace, id) != None)
      && (forall id :: id in resolved ==> Outcome(trace, id) == Some(resolved[id]))
    }

    constructor ()
      ensures Valid() && trace == []
    {
      pendingAcks, armed, resolved, trace := {}, {}, map[], [];
    }

    /** Resolving a promise: the first value sticks. */
    method Resolve(id: CorrelationId, sent: bool)
      modifies this`resolved
      ensures resolved == if id in old(resolved) then old(resolved) else old(resolved)[id := sent]
    {
      if id !in resolved { resolved := resolved[id := sent]; }
    }

    /** sendToRemoteAgent up to its publish: a promise, its timer and its entry. */
    method Register(id: CorrelationId)
      requires Valid() && Registered(id) !in trace
      modifies this
      ensures Valid() && trace == old(trace) + [Registered(id)]
      ensures pendingAcks == old(pendingAcks) + {id} && resolved == old(resolved)
    {
      armed := armed + {id};
      pendingAcks := pendingAcks + {id};
      Extend(Registered(id));
    }

    /** A relay.ack envelope; unknown and late ones are ignored. */
    method ReceiveAck(id: CorrelationId, sent: bool)
      requires Valid()
      modifies this
      ensures Valid() && trace == old(trace) + [Acked(id, sent)]
      ensures pendingAcks == old(pendingAcks) - {id}
      ensures resolved == if id in old(pendingAcks) then old(resolved)[id := sent] else old(resolved)
    {
      if id in pendingAcks {
        armed := armed - {id};
        pendingAcks := pendingAcks - {id};
        Resolve(id, sent);
      }
      Extend(Acked(id, sent));
    }

    /** The request timer fires; it can only while armed. */
    method TimeOut(id: CorrelationId)
      requires Valid() && id in armed
      modifies this
      ensures Valid() && trace == old(trace) + [TimedOut(id)]
      ensures pendingAcks == old(pendingAcks) - {id} && resolved == old(resolved)[id := false]
    {
      armed := armed - {id};
      pendingAcks := pendingAcks - {id};
      Resolve(id, false);
      Extend(TimedOut(id));
    }

    /** The publish did not go out, possibly after a reply or the timer already settled the promise. */
    method FailPublish(id: CorrelationId)
      requires Valid() && Registered(id) in trace
      modifies this
      ensures Valid() && trace == old(trace) + [PublishFailed(id)]
      ensures pendingAcks == old(pendingAcks) - {id}
      ensures resolved == if id in old(resolved) then old(resolved) else old(resolved)[id := false]
    {
      armed := armed - {id};
      pendingAcks := pendingAcks - {id};
      Resolve(id, false);
      Extend(PublishFailed(id));
    }

    method RefusePending()
      requires armed == pendingAcks && forall id :: id in pendingAcks ==> id !in resolved
      modifies this`armed, this`resolved
      ensures armed == {} && resolved == RefuseAll(old(resolved), pendingAcks)
    {
      var rest := pendingAcks;
      while rest != {}
        invariant rest <= pendingAcks && armed == rest
        invariant forall id :: id in resolved <==> id in old(resolved) || (id in pendingAcks && id !in rest)
        invariant forall id :: id in resolved ==> resolved[id] == if id in old(resolved) then old(resolved)[id] else false
        decreases |rest|
      {
        var id :| id in rest;
        armed := armed - {id};
        Resolve(id, false);
        rest := rest - {id};
      }
    }

    /** performShutdown settles whatever is still open and leaves no entry and no timer. */
    method Shutdown()
      requires Valid()
      modifies this
      ensures Valid() && trace == old(trace) + [ShutDown]
      ensures pendingAcks == {} && armed == {}
      ensures resolved == RefuseAll(old(resolved), old(pendingAcks))
      ensures forall id :: id in old(pendingAcks) ==> id in resolved && !resolved[id]
      ensures forall id :: id in old(resolved) ==> id in resolved && resolved[id] == old(resolved)[id]
    {
      RefusePending();
      pendingAcks := {};
      Extend(ShutDown);
    }

    /** The fields already reflect `e`; record it. */
    ghost method Extend(e: Event)
      requires WellFormed(trace) && Possible(trace, e) && pendingAcks == armed
      requires forall id :: id in armed <==> (Open(trace, id) && Verdict(e, id) == None) || e == Registered(id)
      requires forall id :: id in resolved <==> Outcome(trace, id) != None || (Open(trace, id) && Verdict(e, id) != None)
      requires forall id :: id in resolved ==>
                 Some(resolved[id]) == if Outcome(trace, id) != None then Outcome(trace, id) else Verdict(e, id)
      modifies this`trace
      ensures Valid() && trace == old(trace) + [e]
    {
      WellFormedSnoc(trace, e);
      forall id
        ensures Open(trace + [e], id) <==> (Open(trace, id) && Verdict(e, id) == None) || e == Registered(id)
        ensures Outcome(trace + [e], id) ==
                  if Outcome(trace, id) != None || Registered(id) !in trace then Outcome(trace, id) else Verdict(e, id)
      {
        OutcomeSnoc(trace, e, id);
        OpenSnoc(trace, e, id);
      }
      trace := trace + [e];
    }
  }
}
