/** Server-side output storage: de-duplicated inserts and incremental enforcement of the byte cap. */
module Retention {
  import opened Chunks
  import ReplayBuffer

  type JobId = nat
  type DeviceId = nat
  type UserId = nat

  /** The output rows of one job, ordered by their unique sequence, and its running totals. */
  datatype Store = Store(rows: seq<Chunk>, retainedBytes: int, truncated: bool)

  /** The byte counter and the rows agree, and the rows are keyed by sequence. */
  ghost predicate Exact(s: Store) {
    Increasing(s.rows) && s.retainedBytes == Bytes(s.rows)
  }

  /** What holds whatever batches arrive: the counter never falls below the stored bytes. */
  ghost predicate Bounded(s: Store, cap: nat) {
    Increasing(s.rows) && Bytes(s.rows) <= s.retainedBytes && Bytes(s.rows) <= cap
  }

  ghost predicate DistinctSequences(chunks: seq<Chunk>) {
    forall i, j :: 0 <= i < j < |chunks| ==> chunks[i].sequence != chunks[j].sequence
  }

  /** Insert into a table keyed by sequence; a row already there wins. */
  function InsertOne(rows: seq<Chunk>, c: Chunk): seq<Chunk> {
    if rows == [] || c.sequence < rows[0].sequence then [c] + rows
    else if c.sequence == rows[0].sequence then rows
    else [rows[0]] + InsertOne(rows[1..], c)
  }

  function InsertAll(rows: seq<Chunk>, chunks: seq<Chunk>): seq<Chunk>
    decreases |chunks|
  {
    if chunks == [] then rows else InsertAll(InsertOne(rows, chunks[0]), chunks[1..])
  }

  /** The chunks whose sequence is not among `ids`, in their order. */
  function Without(chunks: seq<Chunk>, ids: set<nat>): seq<Chunk> {
    if chunks == [] then []
    else (if chunks[0].sequence in ids then [] else [chunks[0]]) + Without(chunks[1..], ids)
  }

  /** The incoming chunks whose sequence is not stored yet. */
  function NewChunks(rows: seq<Chunk>, chunks: seq<Chunk>): seq<Chunk> {
    Without(chunks, Sequences(rows))
  }

  /** How many of the oldest rows go to reclaim the given bytes: the fewest that suffice. */
  function EvictCount(rows: seq<Chunk>, bytesToReclaim: int): (k: nat)
    ensures k <= |rows|
  {
    if bytesToReclaim <= 0 || rows == [] then 0
    else 1 + EvictCount(rows[1..], bytesToReclaim - |rows[0].data|)
  }

  /** The effect of one persisted batch on a job's rows and totals. */
  function Persist(s: Store, chunks: seq<Chunk>, cap: nat): Store {
    var added := NewChunks(s.rows, chunks);
    if added == [] then s
    else
      var union := InsertAll(s.rows, added);
      var projected := s.retainedBytes + Bytes(added);
      var k := EvictCount(union, projected - cap);
      Store(union[k..], projected - Bytes(union[..k]), s.truncated || k > 0)
  }

  /** The new chunks that outlived the eviction their own batch caused. */
  function Surviving(s: Store, chunks: seq<Chunk>, cap: nat): seq<Chunk> {
    var added := NewChunks(s.rows, chunks);
    var union := InsertAll(s.rows, added);
    Without(added, Sequences(union[..EvictCount(union, s.retainedBytes + Bytes(added) - cap)]))
  }

  function FindMany(rows: seq<Chunk>, cursor: int, take: nat): seq<Chunk> {
    var above := Above(rows, cursor);
    if |above| <= take then above else above[..take]
  }

  // ----- the minimal prefix ---------------------------------------------------------

  lemma {:induction false} EvictCountMinimal(rows: seq<Chunk>, bytesToReclaim: int)
    ensures var k := EvictCount(rows, bytesToReclaim);
            && (Bytes(rows[..k]) >= bytesToReclaim || k == |rows|)
            && forall j :: 0 <= j < k ==> Bytes(rows[..j]) < bytesToReclaim
  {
    if bytesToReclaim > 0 && rows != [] {
      var rest, d := rows[1..], |rows[0].data|;
      EvictCountMinimal(rest, bytesToReclaim - d);
      forall j | 1 <= j <= |rows| ensures Bytes(rows[..j]) == d + Bytes(rest[..j - 1]) {
        assert rows[..j][1..] == rest[..j - 1];
      }
    }
  }

  // ----- inserting ------------------------------------------------------------------

  lemma {:induction false} WithoutMembers(chunks: seq<Chunk>, ids: set<nat>, c: Chunk)
    ensures c in Without(chunks, ids) <==> c in chunks && c.sequence !in ids
  {
    if chunks != [] {
      WithoutMembers(chunks[1..], ids, c);
    }
  }

  lemma {:induction false} WithoutDistinct(chunks: seq<Chunk>, ids: set<nat>)
    requires DistinctSequences(chunks)
    ensures DistinctSequences(Without(chunks, ids))
  {
    if chunks != [] {
      var c, rest := chunks[0], Without(chunks[1..], ids);
      WithoutDistinct(chunks[1..], ids);
      forall i | 0 <= i < |rest| ensures rest[i].sequence != c.sequence {
        WithoutMembers(chunks[1..], ids, rest[i]);
      }
    }
  }

  lemma {:induction false} WithoutSequences(chunks: seq<Chunk>, ids: set<nat>)
    ensures Sequences(Without(chunks, ids)) == Sequences(chunks) - ids
  {
    if chunks != [] {
      WithoutSequences(chunks[1..], ids);
      var rest := Without(chunks[1..], ids);
      assert ([chunks[0]] + rest)[1..] == rest;
      assert [] + rest == rest;
    }
  }

  lemma HeadDistinct(chunks: seq<Chunk>)
    requires DistinctSequences(chunks) && chunks != []
    ensures chunks[0].sequence !in Sequences(chunks[1..])
  {
    SequencesMembers(chunks[1..], chunks[0].sequence);
  }

  lemma {:induction false} InsertOneTable(rows: seq<Chunk>, c: Chunk)
    requires Increasing(rows)
    ensures Increasing(InsertOne(rows, c))
    ensures Sequences(InsertOne(rows, c)) == Sequences(rows) + {c.sequence}
    ensures InsertOne(rows, c) != []
    ensures InsertOne(rows, c)[0] == c || (rows != [] && InsertOne(rows, c)[0] == rows[0])
  {
    if rows == [] || c.sequence < rows[0].sequence {
      IncreasingCons(c, rows);
      assert ([c] + rows)[1..] == rows;
    } else if c.sequence > rows[0].sequence {
      InsertOneTable(rows[1..], c);
      var rest := InsertOne(rows[1..], c);
      IncreasingCons(rows[0], rest);
      assert ([rows[0]] + rest)[1..] == rest;
    }
  }

  lemma {:induction false} InsertOneContents(rows: seq<Chunk>, c: Chunk)
    requires Increasing(rows)
    ensures c.sequence in Sequences(rows) ==> InsertOne(rows, c) == rows
    ensures c.sequence !in Sequences(rows) ==>
              && multiset(InsertOne(rows, c)) == multiset(rows) + multiset{c}
              && Bytes(InsertOne(rows, c)) == Bytes(rows) + |c.data|
  {
    if rows == [] || c.sequence < rows[0].sequence {
      HeadIsLeast(rows, c.sequence);
      assert ([c] + rows)[1..] == rows;
    } else {
      assert rows == [rows[0]] + rows[1..];
      if c.sequence > rows[0].sequence {
        InsertOneContents(rows[1..], c);
        var rest := InsertOne(rows[1..], c);
        assert ([rows[0]] + rest)[1..] == rest;
      }
    }
  }

  lemma {:induction false} InsertAllTable(rows: seq<Chunk>, chunks: seq<Chunk>)
    requires Increasing(rows)
    ensures Increasing(InsertAll(rows, chunks))
    ensures Sequences(InsertAll(rows, chunks)) == Sequences(rows) + Sequences(chunks)
    ensures Bytes(rows) <= Bytes(InsertAll(rows, chunks)) <= Bytes(rows) + Bytes(chunks)
    decreases |chunks|
  {
    if chunks != [] {
      InsertOneTable(rows, chunks[0]);
      InsertOneContents(rows, chunks[0]);
      InsertAllTable(InsertOne(rows, chunks[0]), chunks[1..]);
    }
  }

  lemma {:induction false} InsertAllMembers(rows: seq<Chunk>, chunks: seq<Chunk>, x: Chunk)
    requires Increasing(rows)
    ensures x in rows ==> x in InsertAll(rows, chunks)
    ensures x in InsertAll(rows, chunks) ==> x in rows || x in chunks
    decreases |chunks|
  {
    if chunks != [] {
      var rows' := InsertOne(rows, chunks[0]);
      InsertOneTable(rows, chunks[0]);
      InsertOneContents(rows, chunks[0]);
      InsertAllMembers(rows', chunks[1..], x);
      assert x in rows ==> x in rows' by {
        if x in rows { assert multiset(rows)[x] > 0; assert multiset(rows')[x] > 0; }
      }
      assert x in rows' ==> x in rows || x == chunks[0] by {
        if x in rows' { assert multiset(rows')[x] > 0; }
      }
    }
  }

  /** For distinct new sequences every chunk gets a row, so the bytes add up exactly. */
  lemma {:induction false} InsertAllDistinct(rows: seq<Chunk>, chunks: seq<Chunk>)
    requires Increasing(rows) && DistinctSequences(chunks)
    requires Sequences(rows) !! Sequences(chunks)
    ensures multiset(InsertAll(rows, chunks)) == multiset(rows) + multiset(chunks)
    ensures Bytes(InsertAll(rows, chunks)) == Bytes(rows) + Bytes(chunks)
    decreases |chunks|
  {
    if chunks != [] {
      var c, rest := chunks[0], chunks[1..];
      assert chunks == [c] + rest;
      HeadDistinct(chunks);
      InsertOneTable(rows, c);
      InsertOneContents(rows, c);
      InsertAllDistinct(InsertOne(rows, c), rest);
    }
  }

  // ----- deleting a prefix ----------------------------------------------------------

  lemma {:induction false} WithoutNothing(rows: seq<Chunk>, ids: set<nat>)
    requires Sequences(rows) !! ids
    ensures Without(rows, ids) == rows
  {
    if rows != [] {
      WithoutNothing(rows[1..], ids);
    }
  }

  lemma {:induction false} DeletePrefix(rows: seq<Chunk>, m: nat)
    requires Increasing(rows) && m <= |rows|
    ensures Without(rows, Sequences(rows[..m])) == rows[m..]
  {
    DeleteUpTo(rows, Sequences(rows[..m]), m);
    PrefixBelowSuffix(rows, m);
  }

  lemma {:induction false} DeleteUpTo(rows: seq<Chunk>, ids: set<nat>, m: nat)
    requires m <= |rows| && Sequences(rows[..m]) <= ids
    ensures Without(rows, ids) == Without(rows[m..], ids)
    ensures Sequences(rows[m..]) !! ids ==> Without(rows, ids) == rows[m..]
  {
    if m == 0 {
      assert rows[0..] == rows;
    } else {
      assert rows[..m][1..] == rows[1..][..m - 1] && rows[1..][m - 1..] == rows[m..];
      DeleteUpTo(rows[1..], ids, m - 1);
    }
    if Sequences(rows[m..]) !! ids {
      WithoutNothing(rows[m..], ids);
    }
  }

  lemma {:induction false} PrefixBelowSuffix(rows: seq<Chunk>, m: nat)
    requires Increasing(rows) && m <= |rows|
    ensures Sequences(rows[..m]) + Sequences(rows[m..]) == Sequences(rows)
    ensures Sequences(rows[..m]) !! Sequences(rows[m..])
    ensures forall a, b :: a in Sequences(rows[..m]) && b in Sequences(rows[m..]) ==> a < b
  {
    SequencesConcat(rows[..m], rows[m..]);
    assert rows == rows[..m] + rows[m..];
    if 0 < m < |rows| {
      HeadIsLeast(rows[m..], rows[m - 1].sequence);
      LastIsGreatest(rows[..m]);
      hide Sequences;
      var least := rows[m - 1].sequence;
      assert forall a :: a in Sequences(rows[..m]) ==> a <= least;
    } else if m == 0 {
      assert Sequences(rows[..m]) == {};
    } else {
      assert Sequences(rows[m..]) == {};
    }
  }

  lemma {:induction false} LastIsGreatest(rows: seq<Chunk>)
    requires Increasing(rows) && rows != []
    ensures forall s :: s in Sequences(rows) ==> s <= rows[|rows| - 1].sequence
  {
    if |rows| > 1 {
      LastIsGreatest(rows[1..]);
    }
  }

  // ----- the simple specification of retention --------------------------------------

  function Ids(rows: seq<Chunk>): seq<nat> {
    seq(|rows|, i requires 0 <= i < |rows| => rows[i].sequence)
  }

  function IdSet(ids: seq<nat>): set<nat> {
    set id | id in ids
  }

  lemma {:induction false} IdsAreSequences(rows: seq<Chunk>)
    ensures IdSet(Ids(rows)) == Sequences(rows)
  {
    if rows != [] {
      IdsAreSequences(rows[1..]);
      assert Ids(rows) == [rows[0].sequence] + Ids(rows[1..]);
    }
  }

  /** chunkIdsToRemove, with the row's unique sequence standing for its id. */
  method ChunkIdsToRemove(oldestFirst: seq<Chunk>, maximumBytes: nat) returns (ids: seq<nat>)
    ensures ids == Ids(oldestFirst[..EvictCount(oldestFirst, Bytes(oldestFirst) - maximumBytes)])
  {
    var total := 0;
    for i := 0 to |oldestFirst|
      invariant total == Bytes(oldestFirst[..i])
    {
      BytesSnoc(oldestFirst[..i], oldestFirst[i]);
      assert oldestFirst[..i + 1] == oldestFirst[..i] + [oldestFirst[i]];
      total := total + |oldestFirst[i].data|;
    }
    assert oldestFirst[..|oldestFirst|] == oldestFirst;
    var bytesToRemove := if total > maximumBytes then total - maximumBytes else 0;
    ids := [];
    var i := 0;
    while i < |oldestFirst| && bytesToRemove > 0
      invariant i <= |oldestFirst| && ids == Ids(oldestFirst[..i])
      invariant EvictCount(oldestFirst, total - maximumBytes) == i + EvictCount(oldestFirst[i..], bytesToRemove)
    {
      assert oldestFirst[i..][1..] == oldestFirst[i + 1..];
      ids := ids + [oldestFirst[i].sequence];
      bytesToRemove := bytesToRemove - |oldestFirst[i].data|;
      i := i + 1;
    }
  }

  // ----- the paged eviction loop ----------------------------------------------------

  lemma TakeOneMore(rows: seq<Chunk>, i: nat)
    requires i < |rows|
    ensures Bytes(rows[..i + 1]) == Bytes(rows[..i]) + |rows[i].data|
    ensures Sequences(rows[..i + 1]) == Sequences(rows[..i]) + {rows[i].sequence}
  {
    assert rows[..i + 1] == rows[..i] + [rows[i]];
    BytesSnoc(rows[..i], rows[i]);
    SequencesConcat(rows[..i], [rows[i]]);
    assert Sequences([rows[i]]) == {rows[i].sequence};
  }

  /**
   * One page of deletions: stops inside the page as soon as enough has been reclaimed.
   * `rows` is the whole table; the page `oldest` is its beginning.
   */
  method EvictPage(oldest: seq<Chunk>, reclaimed: nat, bytesToReclaim: int, ghost rows: seq<Chunk>)
    returns (removeIds: set<nat>, removedBytes: nat, cursorSequence: nat, ghost m: nat)
    requires oldest != [] && oldest <= rows && reclaimed < bytesToReclaim
    ensures 1 <= m <= |rows| && cursorSequence == rows[m - 1].sequence
    ensures removeIds == Sequences(rows[..m]) && removedBytes == reclaimed + Bytes(rows[..m])
    ensures removedBytes < bytesToReclaim ==> removeIds == Sequences(oldest) && removedBytes == reclaimed + Bytes(oldest)
    ensures EvictCount(rows, bytesToReclaim - reclaimed) == m + EvictCount(rows[m..], bytesToReclaim - removedBytes)
  {
    removeIds, removedBytes, cursorSequence, m := {}, reclaimed, 0, 0;
    assert rows[..|oldest|] == oldest;
    for i := 0 to |oldest|
      invariant m == i && removeIds == Sequences(rows[..i]) && removedBytes == reclaimed + Bytes(rows[..i])
      invariant i > 0 ==> cursorSequence == rows[i - 1].sequence
      invariant EvictCount(rows, bytesToReclaim - reclaimed) == i + EvictCount(rows[i..], bytesToReclaim - removedBytes)
      invariant i < |oldest| ==> removedBytes < bytesToReclaim
    {
      TakeOneMore(rows, i);
      assert rows[i..][1..] == rows[i + 1..] && rows[i..][0] == oldest[i];
      removeIds := removeIds + {oldest[i].sequence};
      removedBytes := removedBytes + |oldest[i].data|;
      cursorSequence := oldest[i].sequence;
      m := i + 1;
      if removedBytes >= bytesToReclaim { break; }
    }
  }

  lemma PageIsPrefix(rows: seq<Chunk>, cursor: int, take: nat)
    requires Increasing(rows) && (rows != [] ==> cursor < rows[0].sequence)
    ensures FindMany(rows, cursor, take) <= rows
    ensures take >= 1 && rows != [] ==> FindMany(rows, cursor, take) != []
  {
    AboveIsSuffix(rows, cursor, 0);
    assert rows[0..] == rows;
  }

  /** Moving the first m rows from the table to the evicted part. */
  lemma EvictPrefix(gone: seq<Chunk>, rows: seq<Chunk>, m: nat)
    requires Increasing(rows) && 1 <= m <= |rows|
    ensures gone + rows == (gone + rows[..m]) + rows[m..]
    ensures Bytes(gone + rows[..m]) == Bytes(gone) + Bytes(rows[..m])
    ensures Sequences(gone + rows[..m]) == Sequences(gone) + Sequences(rows[..m])
    ensures Without(rows, Sequences(rows[..m])) == rows[m..] && Increasing(rows[m..])
    ensures m < |rows| ==> rows[m - 1].sequence < rows[m..][0].sequence
  {
    BytesConcat(gone, rows[..m]);
    SequencesConcat(gone, rows[..m]);
    DeletePrefix(rows, m);
  }

  /** Evicts in pages of any size; the page size has no influence on the outcome. */
  method EvictOldest(table: seq<Chunk>, bytesToReclaim: int, pageSize: nat)
    returns (rows: seq<Chunk>, removedBytes: nat, removedSequences: set<nat>)
    requires Increasing(table) && pageSize >= 1
    ensures var k := EvictCount(table, bytesToReclaim);
            rows == table[k..] && removedBytes == Bytes(table[..k]) && removedSequences == Sequences(table[..k])
  {
    rows, removedBytes, removedSequences := table, 0, {};
    var cursorSequence: int := -1;
    ghost var gone: seq<Chunk> := [];
    while removedBytes < bytesToReclaim
      invariant table == gone + rows && Increasing(rows)
      invariant removedBytes == Bytes(gone) && removedSequences == Sequences(gone)
      invariant EvictCount(table, bytesToReclaim) == |gone| + EvictCount(rows, bytesToReclaim - removedBytes)
      invariant rows != [] ==> cursorSequence < rows[0].sequence
      decreases |rows|
    {
      PageIsPrefix(rows, cursorSequence, pageSize);
      var oldest := FindMany(rows, cursorSequence, pageSize);
      if |oldest| == 0 { break; }
      var removeIds, total, last, m := EvictPage(oldest, removedBytes, bytesToReclaim, rows);
      EvictPrefix(gone, rows, m);
      gone := gone + rows[..m];
      removedBytes := total;
      removedSequences := removedSequences + removeIds;
      cursorSequence := last;
      rows := Without(rows, removeIds);
    }
    assert table[..|gone|] == gone && table[|gone|..] == rows;
  }

  /** Without an overflow nothing goes, and sequences are removed exactly when rows are. */
  lemma NothingToReclaim(table: seq<Chunk>, bytesToReclaim: int)
    ensures var k := EvictCount(table, bytesToReclaim);
            && (bytesToReclaim <= 0 ==> k == 0) && (Sequences(table[..k]) != {} <==> k > 0)
            && (Increasing(table) ==> Increasing(table[k..]))
    ensures Bytes(table[..0]) == 0 && Sequences(table[..0]) == {}
  {
    var k := EvictCount(table, bytesToReclaim);
    if k > 0 {
      assert table[..k][0].sequence in Sequences(table[..k]);
    }
  }

  datatype JobOutput = JobOutput(deviceId: DeviceId, userId: UserId, store: Store)

  datatype Persisted = Persisted(chunks: seq<Chunk>, userId: int, truncated: bool)

  /** The output tables of every job, changed only by whole transactions. */
  class OutputDatabase {
    var jobs: map<JobId, JobOutput>
    const maximumOutputBytes: nat

    ghost predicate Valid()
      reads this
    {
      forall j :: j in jobs ==> Increasing(jobs[j].store.rows)
    }

    constructor (maximumOutputBytes: nat)
      ensures Valid() && jobs == map[] && this.maximumOutputBytes == maximumOutputBytes
    {
      this.maximumOutputBytes, jobs := maximumOutputBytes, map[];
    }

    /** Returns the newly stored chunks that survived retention; `userId` -1 stands for null. */
    method PersistChunks(deviceId: DeviceId, jobId: JobId, chunks: seq<Chunk>) returns (result: Persisted)
      requires Valid()
      modifies this
      ensures Valid() && jobs.Keys == old(jobs.Keys)
      ensures forall j :: j in jobs && j != jobId ==> jobs[j] == old(jobs)[j]
      ensures jobId !in old(jobs) || old(jobs)[jobId].deviceId != deviceId ==>
                jobs == old(jobs) && result == Persisted([], -1, false)
      ensures jobId in old(jobs) && old(jobs)[jobId].deviceId == deviceId ==>
                jobs[jobId] == old(jobs)[jobId].(store := Persist(old(jobs)[jobId].store, chunks, maximumOutputBytes))
      ensures jobId in old(jobs) && old(jobs)[jobId].deviceId == deviceId ==>
                result.chunks == Surviving(old(jobs)[jobId].store, chunks, maximumOutputBytes)
      ensures jobId in old(jobs) && old(jobs)[jobId].deviceId == deviceId ==>
                if NewChunks(old(jobs)[jobId].store.rows, chunks) == [] then result == Persisted([], -1, false)
                else result.userId == jobs[jobId].userId && result.truncated == jobs[jobId].store.truncated
    {
      result := Persisted([], -1, false);
      if jobId !in jobs || jobs[jobId].deviceId != deviceId { return; }
      var job := jobs[jobId];
      var added := NewChunks(job.store.rows, chunks);
      if |added| == 0 { return; }
      var addedBytes := Bytes(added);

      InsertAllTable(job.store.rows, added);
      hide Bytes, Sequences, Without, InsertAll, EvictCount, Increasing;
      var table := InsertAll(job.store.rows, added);
      var projectedBytes := job.store.retainedBytes + addedBytes;
      var removedBytes, removedSequences := 0, {};
      var rows := table;
      assert table[..0] == [] && table[0..] == table;
      if projectedBytes > maximumOutputBytes {
        var doubled := if |added| * 2 > 32 then |added| * 2 else 32;
        var pageSize := if doubled < 1024 then doubled else 1024;
        rows, removedBytes, removedSequences := EvictOldest(table, projectedBytes - maximumOutputBytes, pageSize);
      }
      NothingToReclaim(table, projectedBytes - maximumOutputBytes);
      var truncated := job.store.truncated || removedSequences != {};
      var store := Store(rows, projectedBytes - removedBytes, truncated);
      assert store == Persist(job.store, chunks, maximumOutputBytes);
      assert Without(added, removedSequences) == Surviving(job.store, chunks, maximumOutputBytes);
      hide Persist, Surviving, NewChunks;
      jobs := jobs[jobId := job.(store := store)];
      result := Persisted(Without(added, removedSequences), job.userId, truncated);
    }
  }

  /** The chunks PersistChunks reports back are exactly the new ones now in the table. */
  lemma SurvivorsAreTheNewlyStored(s: Store, chunks: seq<Chunk>, cap: nat, c: Chunk)
    requires Increasing(s.rows)
    ensures c in Surviving(s, chunks, cap) <==>
              c in chunks && c.sequence !in Sequences(s.rows) && c.sequence in Sequences(Persist(s, chunks, cap).rows)
  {
    var added := NewChunks(s.rows, chunks);
    var union := InsertAll(s.rows, added);
    var k := EvictCount(union, s.retainedBytes + Bytes(added) - cap);
    hide Bytes, Increasing, InsertAll, EvictCount, Without;
    InsertAllTable(s.rows, added);
    PrefixBelowSuffix(union, k);
    WithoutMembers(chunks, Sequences(s.rows), c);
    WithoutMembers(added, Sequences(union[..k]), c);
    SequencesMembers(added, c.sequence);
  }

  // ----- theorems -------------------------------------------------------------------

  /** The chunk counts and retained rows that chunkIdsToRemove would leave behind. */
  ghost predicate LeftByChunkIdsToRemove(table: seq<Chunk>, cap: nat, rows: seq<Chunk>) {
    var ids := Ids(table[..EvictCount(table, Bytes(table) - cap)]);
    rows == Without(table, IdSet(ids))
  }

  /**
   * Incremental retention refines the simple one. On a batch of distinct sequences the
   * rows left are those that chunkIdsToRemove leaves of the sorted union, they are the
   * longest suffix of the union within the cap, and the byte counter stays exact.
   */
  lemma IncrementalRetentionRefinesSimple(s: Store, chunks: seq<Chunk>, cap: nat)
    requires Exact(s) && DistinctSequences(chunks) && Bytes(s.rows) <= cap
    ensures var union, s' := InsertAll(s.rows, NewChunks(s.rows, chunks)), Persist(s, chunks, cap);
            && Exact(s') && s'.retainedBytes <= cap
            && multiset(union) == multiset(s.rows) + multiset(NewChunks(s.rows, chunks))
            && LeftByChunkIdsToRemove(union, cap, s'.rows)
            && s'.rows == ReplayBuffer.Retained(union, |union|, cap)
  {
    hide Bytes, EvictCount, InsertAll, NewChunks, Persist, ReplayBuffer.Retained, Increasing, Without;
    var added := NewChunks(s.rows, chunks);
    var union := InsertAll(s.rows, added);
    UnionOfDistinctBatch(s.rows, chunks);
    var k := EvictCount(union, Bytes(union) - cap);
    PersistDistinct(s, chunks, cap);
    EvictionFitsTheCap(union, cap);
    IncreasingSuffix(union, k);
    IdsAreSequences(union[..k]);
    DeletePrefix(union, k);
    EvictionLeavesLongestSuffix(union, cap);
  }

  lemma EvictionFitsTheCap(table: seq<Chunk>, cap: nat)
    ensures var k := EvictCount(table, Bytes(table) - cap);
            Bytes(table) - Bytes(table[..k]) == Bytes(table[k..]) <= cap
  {
    var k := EvictCount(table, Bytes(table) - cap);
    EvictCountMinimal(table, Bytes(table) - cap);
    BytesSplit(table, k);
    if k == |table| {
      assert table[..k] == table;
    }
  }

  lemma UnionOfDistinctBatch(rows: seq<Chunk>, chunks: seq<Chunk>)
    requires Increasing(rows) && DistinctSequences(chunks)
    ensures var added := NewChunks(rows, chunks);
            var union := InsertAll(rows, added);
            && Increasing(union)
            && multiset(union) == multiset(rows) + multiset(added)
            && Bytes(union) == Bytes(rows) + Bytes(added)
  {
    var added := NewChunks(rows, chunks);
    WithoutDistinct(chunks, Sequences(rows));
    WithoutSequences(chunks, Sequences(rows));
    InsertAllTable(rows, added);
    InsertAllDistinct(rows, added);
  }

  /** On a distinct batch the counter-driven eviction evicts by the true byte total. */
  lemma PersistDistinct(s: Store, chunks: seq<Chunk>, cap: nat)
    requires Exact(s) && DistinctSequences(chunks) && Bytes(s.rows) <= cap
    ensures var union := InsertAll(s.rows, NewChunks(s.rows, chunks));
            var k := EvictCount(union, Bytes(union) - cap);
            Persist(s, chunks, cap) == Store(union[k..], Bytes(union) - Bytes(union[..k]), s.truncated || k > 0)
  {
    UnionOfDistinctBatch(s.rows, chunks);
    if NewChunks(s.rows, chunks) == [] {
      assert InsertAll(s.rows, []) == s.rows && s.rows[0..] == s.rows;
    }
  }

  lemma EvictionLeavesLongestSuffix(table: seq<Chunk>, cap: nat)
    ensures table[EvictCount(table, Bytes(table) - cap)..] == ReplayBuffer.Retained(table, |table|, cap)
  {
    var k := EvictCount(table, Bytes(table) - cap);
    EvictCountMinimal(table, Bytes(table) - cap);
    var start := ReplayBuffer.LongestSuffix(table, |table|, cap);
    BytesSplit(table, start);
    BytesSplit(table, k);
    assert ReplayBuffer.Fits(table[start..], |table|, cap) && ReplayBuffer.Fits(table[k..], |table|, cap);
  }

  /** Repeats included: stored bytes stay within both the counter and the cap. */
  lemma AnyBatchStaysBounded(s: Store, chunks: seq<Chunk>, cap: nat)
    requires Bounded(s, cap)
    ensures Bounded(Persist(s, chunks, cap), cap)
  {
    var added := NewChunks(s.rows, chunks);
    if added != [] {
      var union := InsertAll(s.rows, added);
      InsertAllTable(s.rows, added);
      var reclaim := s.retainedBytes + Bytes(added) - cap;
      EvictCountMinimal(union, reclaim);
      BytesSplit(union, EvictCount(union, reclaim));
    }
  }

  /** A sequence repeated within the batch, unless it is among `ids`, carries data only the first time. */
  ghost predicate RepeatsAreEmpty(chunks: seq<Chunk>, ids: set<nat>) {
    forall i, j :: 0 <= i < j < |chunks| && chunks[i].sequence == chunks[j].sequence && chunks[j].sequence !in ids ==>
      chunks[j].data == []
  }

  /** Inserting in turn: whatever finds its sequence taken carries no data. */
  predicate NothingWasted(taken: set<nat>, chunks: seq<Chunk>)
    decreases |chunks|
  {
    chunks == []
    || ((chunks[0].sequence in taken ==> chunks[0].data == []) && NothingWasted(taken + {chunks[0].sequence}, chunks[1..]))
  }

  lemma {:induction false} FullGainIff(rows: seq<Chunk>, chunks: seq<Chunk>)
    requires Increasing(rows)
    ensures Bytes(InsertAll(rows, chunks)) == Bytes(rows) + Bytes(chunks) <==> NothingWasted(Sequences(rows), chunks)
    decreases |chunks|
  {
    if chunks != [] {
      InsertOneTable(rows, chunks[0]);
      InsertOneContents(rows, chunks[0]);
      InsertAllTable(InsertOne(rows, chunks[0]), chunks[1..]);
      FullGainIff(InsertOne(rows, chunks[0]), chunks[1..]);
    }
  }

  lemma RepeatsAreEmptyCons(c: Chunk, rest: seq<Chunk>, ids: set<nat>)
    ensures RepeatsAreEmpty([c] + rest, ids) <==>
              RepeatsAreEmpty(rest, ids) && forall d :: d in rest && d.sequence == c.sequence && d.sequence !in ids ==> d.data == []
  {
    var all := [c] + rest;
    if RepeatsAreEmpty(all, ids) {
      forall i, j | 0 <= i < j < |rest| && rest[i].sequence == rest[j].sequence && rest[j].sequence !in ids
        ensures rest[j].data == []
      {
        assert all[i + 1] == rest[i] && all[j + 1] == rest[j];
      }
      forall d | d in rest && d.sequence == c.sequence && d.sequence !in ids ensures d.data == [] {
        var j :| 0 <= j < |rest| && rest[j] == d;
        assert all[0] == c && all[j + 1] == d;
      }
    }
  }

  lemma {:induction false} NothingWastedIff(taken: set<nat>, chunks: seq<Chunk>)
    ensures NothingWasted(taken, chunks) <==>
              RepeatsAreEmpty(chunks, {}) && forall d :: d in chunks && d.sequence in taken ==> d.data == []
    decreases |chunks|
  {
    if chunks != [] {
      assert chunks == [chunks[0]] + chunks[1..];
      RepeatsAreEmptyCons(chunks[0], chunks[1..], {});
      NothingWastedIff(taken + {chunks[0].sequence}, chunks[1..]);
    }
  }

  lemma {:induction false} RepeatsOfTheNew(chunks: seq<Chunk>, ids: set<nat>)
    ensures RepeatsAreEmpty(Without(chunks, ids), {}) <==> RepeatsAreEmpty(chunks, ids)
  {
    if chunks != [] {
      var c, rest := chunks[0], chunks[1..];
      assert chunks == [c] + rest;
      RepeatsOfTheNew(rest, ids);
      RepeatsAreEmptyCons(c, rest, ids);
      RepeatsAreEmptyCons(c, Without(rest, ids), {});
      forall d ensures d in Without(rest, ids) <==> d in rest && d.sequence !in ids {
        WithoutMembers(rest, ids, d);
      }
      assert [] + Without(rest, ids) == Without(rest, ids);
    }
  }

  /** All of a batch's new bytes get rows exactly when its repeats of new sequences are empty. */
  lemma BatchGainIff(rows: seq<Chunk>, chunks: seq<Chunk>)
    requires Increasing(rows)
    ensures var added := NewChunks(rows, chunks);
            Bytes(InsertAll(rows, added)) == Bytes(rows) + Bytes(added) <==> RepeatsAreEmpty(chunks, Sequences(rows))
  {
    var ids := Sequences(rows);
    var added := NewChunks(rows, chunks);
    FullGainIff(rows, added);
    NothingWastedIff(ids, added);
    RepeatsOfTheNew(chunks, ids);
    forall d | d in added ensures d.sequence !in ids {
      WithoutMembers(chunks, ids, d);
    }
  }

  /**
   * Eviction never changes how far the counter runs ahead of the stored bytes, a batch adds what
   * finds no row of its own. So the counter is exact afterwards if and only if it was exact before
   * and the batch repeats no sequence that is not stored yet, but for empty repeats.
   */
  lemma CounterDrift(s: Store, chunks: seq<Chunk>, cap: nat)
    requires Bounded(s, cap)
    ensures var added, s' := NewChunks(s.rows, chunks), Persist(s, chunks, cap);
            var stored := Bytes(InsertAll(s.rows, added)) - Bytes(s.rows);
            s'.retainedBytes - Bytes(s'.rows) == s.retainedBytes - Bytes(s.rows) + Bytes(added) - stored
    ensures var s' := Persist(s, chunks, cap);
            && (s'.retainedBytes == Bytes(s'.rows) <==>
                  s.retainedBytes == Bytes(s.rows) && RepeatsAreEmpty(chunks, Sequences(s.rows)))
            && s'.retainedBytes - Bytes(s'.rows) >= s.retainedBytes - Bytes(s.rows)
  {
    var added := NewChunks(s.rows, chunks);
    var union := InsertAll(s.rows, added);
    InsertAllTable(s.rows, added);
    BatchGainIff(s.rows, chunks);
    if added != [] {
      BytesSplit(union, EvictCount(union, s.retainedBytes + Bytes(added) - cap));
    }
  }

  /** Chunks with data, as agents send them: exactly a repeated new sequence breaks an exact counter, for good. */
  lemma RepeatedSequenceBreaksTheCounter(s: Store, chunks: seq<Chunk>, cap: nat)
    requires Exact(s) && Bytes(s.rows) <= cap && forall c :: c in chunks ==> c.data != []
    ensures var s' := Persist(s, chunks, cap);
            s'.retainedBytes > Bytes(s'.rows) <==>
              exists i, j :: 0 <= i < j < |chunks| && chunks[i].sequence == chunks[j].sequence && chunks[j].sequence !in Sequences(s.rows)
  {
    CounterDrift(s, chunks, cap);
  }

  /** Trimming batch by batch gives the window of the whole history, however it was split. */
  lemma {:induction false} WindowOfConcatenation(a: seq<Chunk>, b: seq<Chunk>, maxChunks: nat, cap: nat)
    ensures ReplayBuffer.Retained(ReplayBuffer.Retained(a, maxChunks, cap) + b, maxChunks, cap)
         == ReplayBuffer.Retained(a + b, maxChunks, cap)
    decreases |a|
  {
    if !ReplayBuffer.Fits(a, maxChunks, cap) && a != [] {
      BytesConcat(a, b);
      assert (a + b)[1..] == a[1..] + b;
      WindowOfConcatenation(a[1..], b, maxChunks, cap);
    }
  }
}
