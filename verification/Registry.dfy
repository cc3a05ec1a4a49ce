/** The agent's session registry: two-phase starts, bounded retention of finished sessions. */
module Registry {
  import opened Wrappers

  type JobId = nat
  type Time = int

  const MAX_RETAINED_JOBS: nat := 100
  const MAX_RUNNING_JOB_IDS: nat := 100

  datatype Session = Session(startedAt: Time, done: bool, cancelled: bool)

  type Sessions = map<JobId, Session>

  datatype CheckResult = AlreadyKnown | ShuttingDown | Continue

  datatype StartResult = Existing | Refused | Accepted

  function Finished(m: Sessions): set<JobId> {
    set id | id in m && m[id].done
  }

  function Unfinished(m: Sessions): set<JobId> {
    set id | id in m && !m[id].done
  }

  /** What an eviction down to `target` may do: it removes as many finished sessions as it must
    * and can, and none that started later than a finished one it keeps. */
  ghost predicate Evicted(before: Sessions, after: Sessions, target: nat) {
    && after.Keys <= before.Keys
    && (forall id :: id in after ==> after[id] == before[id])
    && before.Keys - after.Keys <= Finished(before)
    && |before.Keys - after.Keys| == Min(|Finished(before)|, Max(0, |before.Keys| - target))
    && (forall r, k :: r in before.Keys - after.Keys && k in after && after[k].done ==> before[r].startedAt <= before[k].startedAt)
  }

  lemma FinishedOrNot(m: Sessions)
    ensures m.Keys == Finished(m) + Unfinished(m) && |m.Keys| == |Finished(m)| + |Unfinished(m)|
  {
  }

  /** Room is made exactly when the unfinished sessions alone fit; they are never evicted. */
  lemma EvictionMakesRoomIff(before: Sessions, after: Sessions, target: nat)
    requires Evicted(before, after, target)
    ensures Unfinished(after) == Unfinished(before)
    ensures |after.Keys| <= target <==> |Unfinished(before)| <= target
    ensures |after.Keys| <= target || Finished(after) == {}
  {
    var gone := before.Keys - after.Keys;
    FinishedOrNot(before);
    assert Finished(before) == Finished(after) + gone;
    assert |Finished(before)| == |Finished(after)| + |gone|;
    SameUnfinished(before, after, target);
    FinishedOrNot(after);
  }

  lemma SameUnfinished(before: Sessions, after: Sessions, target: nat)
    requires Evicted(before, after, target)
    ensures Unfinished(after) == Unfinished(before)
  {
  }

  /** When nothing has to go, nothing does. */
  lemma NoExcessNoEviction(before: Sessions, after: Sessions, target: nat)
    requires Evicted(before, after, target) && |before.Keys| <= target
    ensures after == before
  {
    assert before.Keys - after.Keys == {};
  }

  lemma EvictedKeys(before: Sessions, after: Sessions, target: nat)
    requires Evicted(before, after, target)
    ensures after.Keys <= before.Keys && |after.Keys| <= |before.Keys|
    ensures forall id :: id in Unfinished(before) ==> id in after && after[id] == before[id]
  {
    assert before.Keys == after.Keys + (before.Keys - after.Keys);
  }

  lemma AddSession(m: Sessions, id: JobId, now: Time)
    requires id !in m
    ensures var m' := m[id := Session(now, false, false)];
            m' - {id} == m && |m'.Keys| == |m.Keys| + 1 && Unfinished(m') == Unfinished(m) + {id}
  {
    assert m[id := Session(now, false, false)].Keys == m.Keys + {id};
  }

  // ----- sorting --------------------------------------------------------------------

  ghost predicate SortedBy(key: JobId -> int, ids: seq<JobId>) {
    forall i, j :: 0 <= i < j < |ids| ==> key(ids[i]) <= key(ids[j])
  }

  lemma SortedCons(key: JobId -> int, x: JobId, tail: seq<JobId>, y: JobId, rest: seq<JobId>)
    requires SortedBy(key, rest) && multiset(rest) == multiset(tail) + multiset{y}
    requires key(x) <= key(y) && forall i :: 0 <= i < |tail| ==> key(x) <= key(tail[i])
    ensures SortedBy(key, [x] + rest)
  {
    forall i | 0 <= i < |rest| ensures key(x) <= key(rest[i]) {
      assert rest[i] in multiset(rest);
      assert rest[i] in tail || rest[i] == y;
    }
  }

  function InsertBy(key: JobId -> int, ids: seq<JobId>, id: JobId): (r: seq<JobId>)
    requires SortedBy(key, ids)
    ensures multiset(r) == multiset(ids) + multiset{id} && SortedBy(key, r)
  {
    if ids == [] || key(id) <= key(ids[0]) then [id] + ids
    else
      var rest := InsertBy(key, ids[1..], id);
      assert ids == [ids[0]] + ids[1..];
      SortedCons(key, ids[0], ids[1..], id, rest);
      [ids[0]] + rest
  }

  function SortBy(key: JobId -> int, ids: seq<JobId>): (r: seq<JobId>)
    ensures multiset(r) == multiset(ids) && SortedBy(key, r)
  {
    if ids == [] then []
    else
      assert ids == [ids[0]] + ids[1..];
      InsertBy(key, SortBy(key, ids[1..]), ids[0])
  }

  function Elements(ids: seq<JobId>): set<JobId> {
    set id | id in ids
  }

  lemma {:induction false} DistinctElements(ids: seq<JobId>, s: set<JobId>)
    requires multiset(ids) == multiset(s)
    ensures Elements(ids) == s && |ids| == |s|
    ensures forall i, j :: 0 <= i < j < |ids| ==> ids[i] != ids[j]
  {
    assert |multiset(ids)| == |ids|;
    forall x ensures x in ids <==> x in s {
      assert x in ids <==> x in multiset(ids);
    }
    forall i, j | 0 <= i < j < |ids| ensures ids[i] != ids[j] {
      assert multiset(ids)[ids[i]] <= 1;
      if ids[i] == ids[j] { Twice(ids, i, j); }
    }
  }

  lemma Twice(ids: seq<JobId>, i: nat, j: nat)
    requires i < j < |ids| && ids[i] == ids[j]
    ensures multiset(ids)[ids[i]] >= 2
  {
    assert ids == ids[..i] + [ids[i]] + ids[i + 1..j] + [ids[j]] + ids[j + 1..];
  }

  function StartOf(m: Sessions, id: JobId): int {
    if id in m then m[id].startedAt else 0
  }

  function ByStart(m: Sessions): JobId -> int {
    (id: JobId) => StartOf(m, id)
  }

  function ById(): JobId -> int {
    (id: JobId) => id as int
  }

  lemma ElementsSnoc(ids: seq<JobId>, k: nat)
    requires k < |ids| && forall i, j :: 0 <= i < j < |ids| ==> ids[i] != ids[j]
    ensures Elements(ids[..k + 1]) == Elements(ids[..k]) + {ids[k]} && ids[k] !in Elements(ids[..k])
  {
    assert ids[..k + 1] == ids[..k] + [ids[k]];
  }

  lemma StrictlySorted(ids: seq<JobId>, s: set<JobId>)
    requires multiset(ids) == multiset(s) && SortedBy(ById(), ids)
    ensures Elements(ids) == s && |ids| == |s|
    ensures forall i, j :: 0 <= i < j < |ids| ==> ids[i] < ids[j]
  {
    DistinctElements(ids, s);
    forall i, j | 0 <= i < j < |ids| ensures ids[i] < ids[j] {
      assert ById()(ids[i]) <= ById()(ids[j]);
    }
  }

  // ----- the manager ----------------------------------------------------------------

  class Manager {
    var sessions: Sessions
    var closed: bool
    /** The sessions whose goroutine has not reported its end, and those committed after Close. */
    ghost var running: set<JobId>
    ghost var late: set<JobId>

    /**
     * At most one session per job and at most 100 in all; every running process is still
     * registered; and after Close only a start that was already past its check escapes cancelling.
     */
    ghost predicate Valid()
      reads this
    {
      && |sessions.Keys| <= MAX_RETAINED_JOBS
      && running == Unfinished(sessions)
      && (closed ==> forall id :: id in running && id !in late ==> sessions[id].cancelled)
    }

    constructor ()
      ensures Valid() && sessions == map[] && !closed && late == {}
    {
      sessions, closed, running, late := map[], false, {}, {};
    }

    /** evictCompletedLocked: collect the finished sessions, sort by start time, drop the oldest. */
    method EvictCompleted(target: nat) returns (room: bool)
      modifies this`sessions
      ensures Evicted(old(sessions), sessions, target)
      ensures room <==> |sessions.Keys| <= target
    {
      if |sessions.Keys| <= target { return true; }
      ghost var before := sessions;
      var completed := CompletedByStart();
      ghost var k := DropOldest(completed, target);
      RemovedPrefix(before, completed, k);
      hide Finished, Elements;
      room := |sessions.Keys| <= target;
    }

    method DropOldest(completed: seq<JobId>, target: nat) returns (ghost k: nat)
      requires |sessions.Keys| > target && Elements(completed) <= sessions.Keys
      requires forall i, j :: 0 <= i < j < |completed| ==> completed[i] != completed[j]
      modifies this`sessions
      ensures k == Min(|completed|, |old(sessions).Keys| - target)
      ensures sessions == old(sessions) - Elements(completed[..k])
      ensures |sessions.Keys| == |old(sessions).Keys| - k
    {
      var rest := completed;
      k := 0;
      assert Elements(completed[..0]) == {};
      hide Elements;
      while |sessions.Keys| > target && |rest| > 0
        invariant k <= |completed| && rest == completed[k..]
        invariant sessions == old(sessions) - Elements(completed[..k])
        invariant |sessions.Keys| == |old(sessions).Keys| - k >= target
      {
        DropOne(old(sessions), completed, k);
        sessions := sessions - {rest[0]};
        rest := rest[1..];
        k := k + 1;
      }
    }

    /** The finished sessions, earliest start first. */
    method CompletedByStart() returns (completed: seq<JobId>)
      ensures Elements(completed) == Finished(sessions) && |completed| == |Finished(sessions)|
      ensures forall i, j :: 0 <= i < j < |completed| ==> completed[i] != completed[j]
      ensures forall i, j :: 0 <= i < j < |completed| ==> StartOf(sessions, completed[i]) <= StartOf(sessions, completed[j])
    {
      var found := [];
      var rest := sessions.Keys;
      while rest != {}
        invariant rest <= sessions.Keys
        invariant multiset(found) == multiset(Finished(sessions) - rest)
        decreases |rest|
      {
        var id :| id in rest;
        rest := rest - {id};
        if sessions[id].done {
          assert Finished(sessions) - rest == (Finished(sessions) - (rest + {id})) + {id};
          found := found + [id];
        } else {
          assert Finished(sessions) - rest == Finished(sessions) - (rest + {id});
        }
      }
      assert Finished(sessions) - rest == Finished(sessions);
      completed := SortBy(ByStart(sessions), found);
      DistinctElements(completed, Finished(sessions));
    }

    /** The first part of Start, up to releasing the lock. */
    method CheckStart(id: JobId) returns (result: CheckResult)
      requires Valid()
      ensures result == if id in sessions then AlreadyKnown else if closed then ShuttingDown else Continue
    {
      if id in sessions { return AlreadyKnown; }
      if closed { return ShuttingDown; }
      return Continue;
    }

    /** makeRoomLocked: there is room for one more exactly when fewer than 100 sessions are unfinished. */
    method MakeRoom() returns (room: bool)
      requires Valid()
      modifies this`sessions
      ensures Valid() && Evicted(old(sessions), sessions, MAX_RETAINED_JOBS - 1) && sessions.Keys <= old(sessions).Keys
      ensures room <==> |running| < MAX_RETAINED_JOBS
      ensures room ==> |sessions.Keys| < MAX_RETAINED_JOBS
    {
      room := EvictCompleted(MAX_RETAINED_JOBS - 1);
      EvictionMakesRoomIff(old(sessions), sessions, MAX_RETAINED_JOBS - 1);
      EvictedKeys(old(sessions), sessions, MAX_RETAINED_JOBS - 1);
      hide Evicted, Finished;
    }

    /** The second part, after the command has been built; it looks up the job again, but not `closed`. */
    method CommitStart(id: JobId, now: Time) returns (result: StartResult)
      requires Valid()
      modifies this
      ensures Valid() && closed == old(closed)
      ensures result == if id in old(sessions) then Existing
                        else if |old(running)| >= MAX_RETAINED_JOBS then Refused else Accepted
      ensures result == Existing ==> sessions == old(sessions)
      ensures result == Refused ==> Evicted(old(sessions), sessions, MAX_RETAINED_JOBS - 1)
      ensures result == Accepted ==> id in sessions && sessions[id] == Session(now, false, false)
                                     && Evicted(old(sessions), sessions - {id}, MAX_RETAINED_JOBS - 1)
      ensures running == if result == Accepted then old(running) + {id} else old(running)
      ensures late == if result == Accepted && closed then old(late) + {id} else old(late)
    {
      if id in sessions { return Existing; }
      hide Evicted, Finished, Unfinished;
      var room := MakeRoom();
      if !room { return Refused; }
      Insert(id, now);
      return Accepted;
    }

    /** The last part of a start: register the session under its job id. */
    method Insert(id: JobId, now: Time)
      requires Valid() && id !in sessions && |sessions.Keys| < MAX_RETAINED_JOBS
      modifies this
      ensures Valid() && closed == old(closed)
      ensures sessions == old(sessions)[id := Session(now, false, false)] && sessions - {id} == old(sessions)
      ensures running == old(running) + {id}
      ensures late == if closed then old(late) + {id} else old(late)
    {
      AddSession(sessions, id, now);
      hide Unfinished;
      sessions := sessions[id := Session(now, false, false)];
      running := running + {id};
      if closed { late := late + {id}; }
    }

    /** finish() or finishStartFailure(), from the goroutine of a running session. */
    method Finish(id: JobId)
      requires Valid() && id in running
      modifies this
      ensures Valid() && closed == old(closed) && late == old(late)
      ensures sessions == old(sessions)[id := old(sessions)[id].(done := true)] && running == old(running) - {id}
    {
      sessions := sessions[id := sessions[id].(done := true)];
      assert sessions.Keys == old(sessions).Keys;
      running := running - {id};
    }

    /** prune(): as the bound always holds, it never has anything to evict. */
    method Prune()
      requires Valid()
      modifies this
      ensures Valid() && sessions == old(sessions) && running == old(running) && closed == old(closed) && late == old(late)
    {
      var _ := EvictCompleted(MAX_RETAINED_JOBS);
      NoExcessNoEviction(old(sessions), sessions, MAX_RETAINED_JOBS);
    }

    method Cancel(id: JobId)
      requires Valid()
      modifies this
      ensures Valid() && closed == old(closed) && running == old(running) && late == old(late)
      ensures sessions == if id in old(sessions) && !old(sessions)[id].done
                          then old(sessions)[id := old(sessions)[id].(cancelled := true)] else old(sessions)
    {
      if id in sessions && !sessions[id].done && !sessions[id].cancelled {
        sessions := sessions[id := sessions[id].(cancelled := true)];
        assert sessions.Keys == old(sessions).Keys;
      }
    }

    /** Close: refuse new starts, then cancel every session registered at that moment. */
    method Close()
      requires Valid()
      modifies this
      ensures Valid() && closed && running == old(running)
      ensures late == {} && forall id :: id in running ==> sessions[id].cancelled
      ensures sessions.Keys == old(sessions).Keys
      ensures forall id :: id in sessions ==>
                sessions[id] == old(sessions)[id].(cancelled := old(sessions)[id].cancelled || !old(sessions)[id].done)
    {
      closed := true;
      var rest := sessions.Keys;
      while rest != {}
        invariant rest <= sessions.Keys && sessions.Keys == old(sessions).Keys && closed && running == old(running)
        invariant forall id :: id in sessions ==>
            sessions[id] == if id in rest then old(sessions)[id]
                            else old(sessions)[id].(cancelled := old(sessions)[id].cancelled || !old(sessions)[id].done)
        decreases |rest|
      {
        var id :| id in rest;
        if !sessions[id].done && !sessions[id].cancelled {
          sessions := sessions[id := sessions[id].(cancelled := true)];
        }
        rest := rest - {id};
      }
      late := {};
    }

    /** The hello's job list: sorted, and never cut short although it is capped. */
    method RunningJobIDs() returns (ids: seq<JobId>)
      requires Valid()
      ensures Elements(ids) == running && |ids| == |running|
      ensures forall i, j :: 0 <= i < j < |ids| ==> ids[i] < ids[j]
    {
      FinishedOrNot(sessions);
      var found := CollectRunning();
      hide Unfinished, Finished, Elements, SortedBy;
      ids := SortBy(ById(), found);
      StrictlySorted(ids, running);
      assert ids[..|ids|] == ids;
      ids := ids[..Min(|ids|, MAX_RUNNING_JOB_IDS)];
    }

    method CollectRunning() returns (found: seq<JobId>)
      ensures multiset(found) == multiset(Unfinished(sessions))
    {
      found := [];
      var rest := sessions.Keys;
      while rest != {}
        invariant rest <= sessions.Keys
        invariant multiset(found) == multiset(Unfinished(sessions) - rest)
        decreases |rest|
      {
        var id :| id in rest;
        rest := rest - {id};
        if !sessions[id].done {
          assert Unfinished(sessions) - rest == (Unfinished(sessions) - (rest + {id})) + {id};
          found := found + [id];
        } else {
          assert Unfinished(sessions) - rest == Unfinished(sessions) - (rest + {id});
        }
      }
      assert Unfinished(sessions) - rest == Unfinished(sessions);
    }
  }

  lemma DropOne(before: Sessions, completed: seq<JobId>, k: nat)
    requires k < |completed| && Elements(completed) <= before.Keys
    requires forall i, j :: 0 <= i < j < |completed| ==> completed[i] != completed[j]
    ensures var m := before - Elements(completed[..k]);
            m - {completed[k]} == before - Elements(completed[..k + 1]) && |(m - {completed[k]}).Keys| == |m.Keys| - 1
  {
    ElementsSnoc(completed, k);
    assert completed[k] in Elements(completed);
    hide Elements;
    var m := before - Elements(completed[..k]);
    assert (m - {completed[k]}).Keys == m.Keys - {completed[k]};
  }

  lemma RemovedPrefix(before: Sessions, completed: seq<JobId>, k: nat)
    requires Elements(completed) == Finished(before) && k <= |completed|
    requires forall i, j :: 0 <= i < j < |completed| ==> completed[i] != completed[j]
    requires forall i, j :: 0 <= i < j < |completed| ==> StartOf(before, completed[i]) <= StartOf(before, completed[j])
    ensures var after := before - Elements(completed[..k]);
            before.Keys - after.Keys == Elements(completed[..k]) <= Finished(before) && |Elements(completed[..k])| == k
            && forall r, l :: r in before.Keys - after.Keys && l in after && after[l].done ==> before[r].startedAt <= before[l].startedAt
  {
    var gone := Elements(completed[..k]);
    DistinctPrefix(completed, k);
    forall x | x in completed[..k] ensures x in Finished(before) {
      assert x in Elements(completed);
    }
    assert forall x :: (x in gone <==> x in completed[..k]) && (x in Elements(completed) <==> x in completed);
    assert gone <= Finished(before);
    hide Elements;
    var after := before - gone;
    assert before.Keys - after.Keys == gone;
    forall r, l | r in gone && l in after && after[l].done ensures before[r].startedAt <= before[l].startedAt {
      OlderFirst(before, completed, k, r, l);
    }
  }

  lemma OlderFirst(m: Sessions, completed: seq<JobId>, k: nat, r: JobId, l: JobId)
    requires k <= |completed| && r in m && l in m && r in completed[..k] && l in completed && l !in completed[..k]
    requires forall i, j :: 0 <= i < j < |completed| ==> StartOf(m, completed[i]) <= StartOf(m, completed[j])
    ensures m[r].startedAt <= m[l].startedAt
  {
    var i :| 0 <= i < k && completed[i] == r;
    var j :| 0 <= j < |completed| && completed[j] == l;
  }

  lemma {:induction false} DistinctPrefix(ids: seq<JobId>, k: nat)
    requires k <= |ids| && forall i, j :: 0 <= i < j < |ids| ==> ids[i] != ids[j]
    ensures |Elements(ids[..k])| == k
  {
    if k > 0 {
      DistinctPrefix(ids, k - 1);
      ElementsSnoc(ids, k - 1);
    }
  }

  /**
   * Closing between the two parts of a start: the start was allowed before Close and commits
   * after it, so its process runs although Close has already cancelled everything it saw.
   */
  method StartRacingClose(m: Manager, id: JobId, now: Time) returns (checked: CheckResult, result: StartResult)
    requires m.Valid() && !m.closed && id !in m.sessions && |m.running| < MAX_RETAINED_JOBS
    modifies m
    ensures checked == Continue && result == Accepted
    ensures m.Valid() && m.closed && m.late == {id} && m.running == old(m.running) + {id}
    ensures !m.sessions[id].cancelled && forall other :: other in old(m.running) ==> m.sessions[other].cancelled
  {
    checked := m.CheckStart(id);
    m.Close();
    result := m.CommitStart(id, now);
  }
}
