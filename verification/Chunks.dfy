/** Output chunks, and the arithmetic of their byte lengths. */
module Chunks {

  type byte = b: int | 0 <= b < 256

  datatype Stream = Stdout | Stderr | System

  /** One sequence-numbered piece of terminal output. `data` holds its UTF-8 bytes. */
  datatype Chunk = Chunk(sequence: nat, stream: Stream, data: seq<byte>)

  function Bytes(chunks: seq<Chunk>): (total: nat)
  {
    if chunks == [] then 0 else |chunks[0].data| + Bytes(chunks[1..])
  }

  /** Strictly increasing sequence numbers: the shape of a query ordered by sequence. */
  ghost predicate Increasing(chunks: seq<Chunk>) {
    forall i, j :: 0 <= i < j < |chunks| ==> chunks[i].sequence < chunks[j].sequence
  }

  /** The log an agent session builds: chunk number i carries sequence i. */
  ghost predicate Numbered(log: seq<Chunk>) {
    forall i :: 0 <= i < |log| ==> log[i].sequence == i
  }

  function Sequences(chunks: seq<Chunk>): set<nat> {
    if chunks == [] then {} else {chunks[0].sequence} + Sequences(chunks[1..])
  }

  /** The chunks whose sequence exceeds `bound`, in their order. */
  function Above(chunks: seq<Chunk>, bound: int): (r: seq<Chunk>)
  {
    if chunks == [] then []
    else (if bound < chunks[0].sequence then [chunks[0]] else []) + Above(chunks[1..], bound)
  }

  lemma {:induction false} AboveMembers(chunks: seq<Chunk>, bound: int, c: Chunk)
    ensures c in Above(chunks, bound) <==> c in chunks && bound < c.sequence
  {
    if chunks != [] {
      AboveMembers(chunks[1..], bound, c);
    }
  }

  lemma {:induction false} SequencesMembers(chunks: seq<Chunk>, s: nat)
    ensures s in Sequences(chunks) <==> exists c :: c in chunks && c.sequence == s
  {
    if chunks != [] {
      SequencesMembers(chunks[1..], s);
      assert chunks == [chunks[0]] + chunks[1..];
    }
  }

  lemma {:induction false} SequencesConcat(a: seq<Chunk>, b: seq<Chunk>)
    ensures Sequences(a + b) == Sequences(a) + Sequences(b)
  {
    if a == [] {
      assert a + b == b;
    } else {
      SequencesConcat(a[1..], b);
      assert (a + b)[1..] == a[1..] + b;
    }
  }

  lemma IncreasingCons(c: Chunk, rest: seq<Chunk>)
    requires Increasing(rest) && (rest != [] ==> c.sequence < rest[0].sequence)
    ensures Increasing([c] + rest)
  {
  }

  lemma IncreasingSuffix(chunks: seq<Chunk>, i: nat)
    requires Increasing(chunks) && i <= |chunks|
    ensures Increasing(chunks[i..])
  {
  }

  /** Nothing in an increasing list sits at or below a bound its head exceeds. */
  lemma {:induction false} HeadIsLeast(chunks: seq<Chunk>, bound: int)
    requires Increasing(chunks) && (chunks != [] ==> bound < chunks[0].sequence)
    ensures forall s :: s in Sequences(chunks) ==> bound < s
  {
    if chunks != [] {
      HeadIsLeast(chunks[1..], bound);
    }
  }

  lemma {:induction false} BytesConcat(a: seq<Chunk>, b: seq<Chunk>)
    ensures Bytes(a + b) == Bytes(a) + Bytes(b)
  {
    if a == [] {
      assert a + b == b;
    } else {
      BytesConcat(a[1..], b);
      assert (a + b)[1..] == a[1..] + b;
    }
  }

  lemma BytesSplit(chunks: seq<Chunk>, i: nat)
    requires i <= |chunks|
    ensures Bytes(chunks) == Bytes(chunks[..i]) + Bytes(chunks[i..])
  {
    BytesConcat(chunks[..i], chunks[i..]);
    assert chunks == chunks[..i] + chunks[i..];
  }

  lemma BytesSnoc(chunks: seq<Chunk>, c: Chunk)
    ensures Bytes(chunks + [c]) == Bytes(chunks) + |c.data|
  {
    BytesConcat(chunks, [c]);
    assert Bytes([c]) == |c.data|;
  }

  lemma BytesSuffix(chunks: seq<Chunk>, i: nat, j: nat)
    requires i <= j <= |chunks|
    ensures Bytes(chunks[j..]) <= Bytes(chunks[i..])
  {
    BytesSplit(chunks[i..], j - i);
    assert chunks[i..][j - i..] == chunks[j..];
  }

  /** On an increasing list, filtering by sequence is cutting off a prefix. */
  lemma {:induction false} AboveIsSuffix(chunks: seq<Chunk>, bound: int, start: nat)
    requires Increasing(chunks) && start <= |chunks|
    requires forall i :: 0 <= i < start ==> chunks[i].sequence <= bound
    requires start < |chunks| ==> bound < chunks[start].sequence
    ensures Above(chunks, bound) == chunks[start..]
  {
    if chunks == [] {
    } else if start == 0 {
      if |chunks| > 1 {
        assert chunks[0].sequence < chunks[1].sequence;
      }
      AboveIsSuffix(chunks[1..], bound, 0);
      assert chunks == [chunks[0]] + chunks[1..];
    } else {
      AboveIsSuffix(chunks[1..], bound, start - 1);
      assert chunks[1..][start - 1..] == chunks[start..];
    }
  }

  lemma OfOne(a: Chunk)
    ensures Bytes([a]) == |a.data| && Sequences([a]) == {a.sequence}
    ensures [a][..0] == [] && [a][0..] == [a] && [a][1..] == []
  {
  }

  lemma OfTwo(a: Chunk, b: Chunk)
    ensures Bytes([a, b]) == |a.data| + |b.data| && Sequences([a, b]) == {a.sequence, b.sequence}
    ensures [a, b][1..] == [b] && [a, b][..0] == [] && [a, b][0..] == [a, b] && [a, b][..1] == [a]
  {
    OfOne(b);
    assert [a, b][1..] == [b];
  }

  lemma OfThree(a: Chunk, b: Chunk, c: Chunk)
    ensures Bytes([a, b, c]) == |a.data| + |b.data| + |c.data|
    ensures Sequences([a, b, c]) == {a.sequence, b.sequence, c.sequence}
    ensures [a, b, c][1..] == [b, c] && [a, b, c][..2] == [a, b] && [a, b, c][2..] == [c]
  {
    OfTwo(b, c);
    assert [a, b, c][1..] == [b, c];
  }
}
