/** Background persistence of live output: per-job batching, and the per-job operation chain. */
module Persistence {
  import opened Chunks
  import ReplayBuffer
  import Retention
  import opened Wrappers

  type JobId = Retention.JobId
  type DeviceId = Retention.DeviceId

  const PERSIST_FLUSH_CHUNKS: nat := 200

  datatype Pending = Pending(deviceId: DeviceId, chunks: seq<Chunk>, timerArmed: bool)

  function Entry(pending: map<JobId, Pending>, j: JobId): seq<Chunk> {
    if j in pending then pending[j].chunks else []
  }

  function Batches(handed: map<JobId, seq<seq<Chunk>>>, j: JobId): seq<seq<Chunk>> {
    if j in handed then handed[j] else []
  }

  function Relayed(relayed: map<JobId, seq<Chunk>>, j: JobId): seq<Chunk> {
    if j in relayed then relayed[j] else []
  }

  class JobService {
    var pendingPersist: map<JobId, Pending>
    /** Per job: the batches handed to persistChunks, and every chunk relayed, in order. */
    ghost var handed: map<JobId, seq<seq<Chunk>>>
    ghost var relayed: map<JobId, seq<Chunk>>

    /** Nothing relayed is dropped, repeated or reordered on its way to persistChunks. */
    ghost predicate Valid()
      reads this
    {
      && (forall j :: j in pendingPersist ==>
            1 <= |pendingPersist[j].chunks| < PERSIST_FLUSH_CHUNKS && pendingPersist[j].timerArmed)
      && (forall j, i :: j in handed && 0 <= i < |handed[j]| ==> 1 <= |handed[j][i]| <= PERSIST_FLUSH_CHUNKS)
      && (forall j :: Conserved(j))
    }

    ghost predicate Conserved(j: JobId)
      reads this
    {
      Flatten(Batches(handed, j)) + Entry(pendingPersist, j) == Relayed(relayed, j)
    }

    constructor ()
      ensures Valid() && pendingPersist == map[] && handed == map[] && relayed == map[]
    {
      pendingPersist, handed, relayed := map[], map[], map[];
    }

    /** The live path, apart from its broadcast: buffer the chunk, flush a full batch. */
    method RelayOutput(deviceId: DeviceId, jobId: JobId, chunk: Chunk)
      requires Valid()
      modifies this
      ensures Valid()
      ensures relayed == old(relayed)[jobId := Relayed(old(relayed), jobId) + [chunk]]
      ensures pendingPersist - {jobId} == old(pendingPersist) - {jobId}
      ensures jobId in pendingPersist ==>
                pendingPersist[jobId].deviceId == if jobId in old(pendingPersist) then old(pendingPersist)[jobId].deviceId else deviceId
      ensures var full := Entry(old(pendingPersist), jobId) + [chunk];
              if |full| >= PERSIST_FLUSH_CHUNKS
              then jobId !in pendingPersist && handed == old(handed)[jobId := Batches(old(handed), jobId) + [full]]
              else Entry(pendingPersist, jobId) == full && handed == old(handed)
    {
      hide Flatten;
      var entry := if jobId in pendingPersist then pendingPersist[jobId] else Pending(deviceId, [], false);
      ghost var before := entry.chunks;
      assert Conserved(jobId);
      entry := entry.(chunks := entry.chunks + [chunk]);
      relayed := relayed[jobId := Relayed(relayed, jobId) + [chunk]];
      assert Flatten(Batches(handed, jobId)) + entry.chunks == (Flatten(Batches(handed, jobId)) + before) + [chunk];
      if |entry.chunks| >= PERSIST_FLUSH_CHUNKS {
        FlattenSnoc(Batches(handed, jobId), entry.chunks);
        handed := handed[jobId := Batches(handed, jobId) + [entry.chunks]];
        pendingPersist := pendingPersist - {jobId};
      } else {
        pendingPersist := pendingPersist[jobId := entry.(timerArmed := true)];
      }
      forall j ensures Conserved(j) {
        assert j != jobId ==> old(Conserved(j));
      }
    }

    /** flushPersist, as run by the armed timer, by flushOutput, or by a full batch. */
    method FlushPersist(jobId: JobId)
      requires Valid()
      modifies this
      ensures Valid() && relayed == old(relayed)
      ensures pendingPersist == old(pendingPersist) - {jobId}
      ensures handed == if jobId in old(pendingPersist)
                        then old(handed)[jobId := Batches(old(handed), jobId) + [old(pendingPersist)[jobId].chunks]]
                        else old(handed)
      ensures Flatten(Batches(handed, jobId)) == Relayed(relayed, jobId)
    {
      hide Flatten;
      assert Conserved(jobId);
      if jobId in pendingPersist {
        var entry := pendingPersist[jobId];
        FlattenSnoc(Batches(handed, jobId), entry.chunks);
        handed := handed[jobId := Batches(handed, jobId) + [entry.chunks]];
        pendingPersist := pendingPersist - {jobId};
      }
      assert Flatten(Batches(handed, jobId)) + [] == Flatten(Batches(handed, jobId));
      forall j ensures Conserved(j) {
        assert j != jobId ==> old(Conserved(j));
      }
    }
  }

  // ----- what the batches amount to in the database ---------------------------------

  function PersistAll(s: Retention.Store, batches: seq<seq<Chunk>>, cap: nat): Retention.Store
    decreases |batches|
  {
    if batches == [] then s else PersistAll(Retention.Persist(s, batches[0], cap), batches[1..], cap)
  }

  lemma {:induction false} InsertLast(rows: seq<Chunk>, c: Chunk)
    requires Increasing(rows + [c])
    ensures Retention.InsertOne(rows, c) == rows + [c]
  {
    if rows != [] {
      assert (rows + [c])[0].sequence < (rows + [c])[|rows|].sequence;
      assert (rows + [c])[1..] == rows[1..] + [c];
      InsertLast(rows[1..], c);
    }
  }

  lemma {:induction false} InsertInOrder(rows: seq<Chunk>, b: seq<Chunk>)
    requires Increasing(rows + b)
    ensures Retention.InsertAll(rows, b) == rows + b
    decreases |b|
  {
    if b == [] {
      assert rows + b == rows;
    } else {
      assert (rows + b)[..|rows| + 1] == rows + [b[0]];
      InsertLast(rows, b[0]);
      assert rows + b == (rows + [b[0]]) + b[1..];
      InsertInOrder(rows + [b[0]], b[1..]);
    }
  }

  lemma AllNewInOrder(rows: seq<Chunk>, b: seq<Chunk>)
    requires Increasing(rows + b)
    ensures Retention.NewChunks(rows, b) == b && Retention.DistinctSequences(b)
  {
    Retention.PrefixBelowSuffix(rows + b, |rows|);
    assert (rows + b)[..|rows|] == rows && (rows + b)[|rows|..] == b;
    Retention.WithoutNothing(b, Sequences(rows));
  }

  /** The chunk limit plays no part once it is at least the number of chunks. */
  lemma {:induction false} RoomyChunkLimit(log: seq<Chunk>, m: nat, n: nat, cap: nat)
    requires |log| <= m && |log| <= n
    ensures ReplayBuffer.Retained(log, m, cap) == ReplayBuffer.Retained(log, n, cap)
  {
    if log != [] {
      RoomyChunkLimit(log[1..], m, n, cap);
    }
  }

  ghost predicate IsWindow(s: Retention.Store, history: seq<Chunk>, cap: nat) {
    Retention.Exact(s) && Bytes(s.rows) <= cap && s.rows == ReplayBuffer.Retained(history, |history|, cap)
  }

  /** One in-order batch moves the stored window along the history. */
  lemma BatchMovesWindow(s: Retention.Store, history: seq<Chunk>, b: seq<Chunk>, cap: nat)
    requires IsWindow(s, history, cap) && Increasing(history + b)
    ensures IsWindow(Retention.Persist(s, b, cap), history + b, cap)
  {
    hide Bytes, Sequences, Increasing, ReplayBuffer.Retained;
    hide Retention.Persist, Retention.Without, Retention.InsertAll, Retention.EvictCount;
    var n := |history + b|;
    RoomyChunkLimit(history, |history|, n, cap);
    var start := ReplayBuffer.LongestSuffix(history, n, cap);
    assert s.rows + b == (history + b)[start..];
    IncreasingSuffix(history + b, start);
    AllNewInOrder(s.rows, b);
    InsertInOrder(s.rows, b);
    Retention.IncrementalRetentionRefinesSimple(s, b, cap);
    RoomyChunkLimit(s.rows + b, |s.rows + b|, n, cap);
    Retention.WindowOfConcatenation(history, b, n, cap);
  }

  /**
   * However the timers cut the live stream into batches, persisting them in turn leaves
   * what trimming the whole stream once would leave: its longest suffix within the cap.
   */
  lemma {:induction false} BatchingIsInvisible(s: Retention.Store, history: seq<Chunk>, batches: seq<seq<Chunk>>, cap: nat)
    requires IsWindow(s, history, cap) && Increasing(history + Flatten(batches))
    ensures IsWindow(PersistAll(s, batches, cap), history + Flatten(batches), cap)
    decreases |batches|
  {
    if batches == [] {
      assert history + [] == history;
    } else {
      var b, rest := batches[0], Flatten(batches[1..]);
      assert history + Flatten(batches) == (history + b) + rest;
      assert Increasing(history + b) by {
        assert history + b == ((history + b) + rest)[..|history + b|];
      }
      BatchMovesWindow(s, history, b, cap);
      BatchingIsInvisible(Retention.Persist(s, b, cap), history + b, batches[1..], cap);
    }
  }

  // ----- the per-job operation chain ------------------------------------------------

  datatype Operation = Waiting | Running | Settled(failed: bool) | Cleaned(failed: bool)

  /**
   * The promise chain of one job. `predecessor[i]` is the operation that was the tail when
   * operation i was queued, -1 if there was none; `tail` is the map entry, -1 if absent.
   * Each method is one turn of the event loop.
   */
  class OutputQueue {
    var operations: seq<Operation>
    var predecessor: seq<int>
    var tail: int

    /** The operations before `n` are over and cleaned up; those after it have not begun. */
    ghost predicate Frontier(n: nat)
      reads this
    {
      && n <= |operations|
      && (forall i :: 0 <= i < n ==> operations[i].Cleaned?)
      && (forall i :: n < i < |operations| ==> operations[i] == Waiting)
      && (n < |operations| ==> !operations[n].Cleaned?)
    }

    ghost predicate Valid()
      reads this
    {
      && |predecessor| == |operations|
      && (exists n :: Frontier(n))
      && (forall i :: 0 <= i < |operations| ==>
            predecessor[i] == i - 1
            || (predecessor[i] == -1 && forall k :: 0 <= k < i ==> operations[k].Cleaned?))
      && tail == if Outstanding() then |operations| - 1 else -1
    }

    /** Some operation has not settled, or has not removed its map entry yet. */
    ghost predicate Outstanding()
      reads this
    {
      exists i :: 0 <= i < |operations| && !operations[i].Cleaned?
    }

    predicate CanStart(i: nat)
      reads this
      requires i < |operations| && i < |predecessor|
    {
      operations[i] == Waiting
      && (predecessor[i] < 0 || predecessor[i] >= |operations| || operations[predecessor[i]].Cleaned?)
    }

    constructor ()
      ensures Valid() && operations == []
    {
      operations, predecessor, tail := [], [], -1;
      new;
      assert Frontier(0);
    }

    method Call() returns (i: nat)
      requires Valid()
      modifies this
      ensures Valid() && i == |old(operations)| && operations == old(operations) + [Waiting]
    {
      ghost var n :| Frontier(n);
      i := |operations|;
      assert !Outstanding() ==> forall k :: 0 <= k < i ==> operations[k].Cleaned?;
      operations := operations + [Waiting];
      predecessor := predecessor + [tail];
      tail := i;
      assert Frontier(n);
      assert operations[i] == Waiting;
    }

    /** `previous.catch(...).then(operation)`: whatever came before, it only has to be over. */
    method Begin(i: nat)
      requires Valid() && i < |operations| && CanStart(i)
      modifies this
      ensures Valid() && operations == old(operations)[i := Running]
      ensures forall k :: 0 <= k < i ==> old(operations)[k].Cleaned?
      ensures forall k :: 0 <= k < |operations| && operations[k] == Running ==> k == i
    {
      ghost var n :| Frontier(n);
      operations := operations[i := Running];
      assert n == i;
      assert Frontier(n);
      assert Outstanding() by { assert operations[i] == Running; }
    }

    method Settle(i: nat, failed: bool)
      requires Valid() && i < |operations| && operations[i] == Running
      modifies this
      ensures Valid() && operations == old(operations)[i := Settled(failed)]
    {
      ghost var n :| Frontier(n);
      operations := operations[i := Settled(failed)];
      assert Frontier(n);
      assert Outstanding() by { assert operations[i] == Settled(failed); }
    }

    /** The `finally` block: it drops the map entry only if no later call has replaced it. */
    method CleanUp(i: nat)
      requires Valid() && i < |operations| && operations[i].Settled?
      modifies this
      ensures Valid() && operations == old(operations)[i := Cleaned(old(operations)[i].failed)]
      ensures tail == -1 <==> forall k :: 0 <= k < |operations| ==> operations[k].Cleaned?
    {
      ghost var n :| Frontier(n);
      operations := operations[i := Cleaned(operations[i].failed)];
      if tail == i { tail := -1; }
      assert n == i;
      assert Frontier(i + 1);
      if i + 1 < |operations| {
        assert operations[i + 1] == Waiting;
      }
    }

    /** At most one operation runs, and it has everything before it behind it. */
    lemma NeverOverlap(i: nat, k: nat)
      requires Valid() && i < |operations| && k < i && operations[i] != Waiting
      ensures operations[k].Cleaned?
    {
    }

    /** Failures block nothing: while anything is outstanding its first operation can advance. */
    lemma NeverBlocked() returns (i: nat)
      requires Valid() && Outstanding()
      ensures i < |operations| && (forall k :: 0 <= k < i ==> operations[k].Cleaned?)
      ensures CanStart(i) || operations[i] == Running || operations[i].Settled?
    {
      var n :| Frontier(n);
      i := n;
    }
  }
}
