/** Replay pages on the server, and the client's cursor loop over them. */
module Paging {
  import opened Chunks
  import Retention
  import opened Wrappers

  const PAGE_LIMIT: nat := 1000

  /** A replayed item: a stored row, or the notice that older output was removed. */
  datatype Item = Notice(at: nat) | Row(chunk: Chunk) {
    function Sequence(): nat {
      match this case Notice(at) => at case Row(c) => c.sequence
    }
  }

  ghost predicate StrictlyIncreasing(items: seq<Item>) {
    forall i, j :: 0 <= i < j < |items| ==> items[i].Sequence() < items[j].Sequence()
  }

  function Rows(chunks: seq<Chunk>): (r: seq<Item>)
    ensures |r| == |chunks| && forall i :: 0 <= i < |r| ==> r[i] == Row(chunks[i])
  {
    seq(|chunks|, i requires 0 <= i < |chunks| => Row(chunks[i]))
  }

  /** One below the earliest row; an empty table counts as starting at 1. */
  function NoticeSequence(rows: seq<Chunk>): nat {
    var earliest := if rows == [] then 1 else rows[0].sequence;
    if earliest > 0 then earliest - 1 else 0
  }

  function GapNotice(s: Retention.Store, afterSequence: int): seq<Item> {
    if s.truncated && afterSequence < NoticeSequence(s.rows) then [Notice(NoticeSequence(s.rows))] else []
  }

  /** One page: at most `limit` rows, preceded by the notice when a gap is visible. */
  function Replay(s: Retention.Store, afterSequence: int, limit: nat): seq<Item> {
    GapNotice(s, afterSequence) + Rows(Retention.FindMany(s.rows, afterSequence, limit))
  }

  /** The answer of a single unlimited query. */
  function Everything(s: Retention.Store, afterSequence: int): seq<Item> {
    GapNotice(s, afterSequence) + Rows(Above(s.rows, afterSequence))
  }

  function MaxSequence(items: seq<Item>, floor: int): (max: int)
    ensures max >= floor && forall i :: 0 <= i < |items| ==> items[i].Sequence() <= max
    ensures max == floor || exists i :: 0 <= i < |items| && items[i].Sequence() == max
  {
    if items == [] then floor
    else
      var m := MaxSequence(items[..|items| - 1], floor);
      var last := items[|items| - 1].Sequence();
      if last > m then last else m
  }

  /** A query above a cursor cuts the ordered table at some position. */
  lemma {:induction false} AboveStart(rows: seq<Chunk>, cursor: int) returns (start: nat)
    requires Increasing(rows)
    ensures start <= |rows| && Above(rows, cursor) == rows[start..]
    ensures forall i :: 0 <= i < start ==> rows[i].sequence <= cursor
    ensures start < |rows| ==> cursor < rows[start].sequence
  {
    start := 0;
    while start < |rows| && rows[start].sequence <= cursor
      invariant start <= |rows| && forall i :: 0 <= i < start ==> rows[i].sequence <= cursor
    {
      start := start + 1;
    }
    AboveIsSuffix(rows, cursor, start);
  }

  lemma {:induction false} MaxIsLast(items: seq<Item>, floor: int)
    requires items != []
    requires forall i :: 0 <= i < |items| ==> items[i].Sequence() <= items[|items| - 1].Sequence()
    requires floor <= items[|items| - 1].Sequence()
    ensures MaxSequence(items, floor) == items[|items| - 1].Sequence()
  {
    MaxAtMost(items[..|items| - 1], floor, items[|items| - 1].Sequence());
  }

  lemma {:induction false} MaxAtMost(items: seq<Item>, floor: int, bound: int)
    requires floor <= bound && forall i :: 0 <= i < |items| ==> items[i].Sequence() <= bound
    ensures MaxSequence(items, floor) <= bound
  {
    if items != [] {
      MaxAtMost(items[..|items| - 1], floor, bound);
    }
  }

  /** The rows of a full page: at least one, from where the cursor cuts the table. */
  lemma PageRows(s: Retention.Store, cursor: int, limit: nat) returns (start: nat, end: nat)
    requires Increasing(s.rows) && limit >= 2 && |Replay(s, cursor, limit)| >= limit
    ensures start < end <= |s.rows| && cursor < s.rows[start].sequence
    ensures Above(s.rows, cursor) == s.rows[start..]
    ensures Replay(s, cursor, limit) == GapNotice(s, cursor) + Rows(s.rows[start..end])
  {
    start := AboveStart(s.rows, cursor);
    var above := s.rows[start..];
    end := start + if |above| <= limit then |above| else limit;
    assert Retention.FindMany(s.rows, cursor, limit) == s.rows[start..end];
  }

  lemma PageMax(s: Retention.Store, cursor: int, start: nat, end: nat)
    requires Increasing(s.rows) && start < end <= |s.rows| && cursor < s.rows[start].sequence
    ensures MaxSequence(GapNotice(s, cursor) + Rows(s.rows[start..end]), cursor) == s.rows[end - 1].sequence
    ensures cursor < s.rows[end - 1].sequence && s.rows[0].sequence <= s.rows[end - 1].sequence
    ensures Above(s.rows, s.rows[end - 1].sequence) == s.rows[end..]
  {
    var notice, last := GapNotice(s, cursor), s.rows[end - 1].sequence;
    var page := notice + Rows(s.rows[start..end]);
    assert page[|page| - 1] == Row(s.rows[end - 1]);
    assert forall i :: start <= i < end ==> s.rows[i].sequence <= last;
    forall i | 0 <= i < |page| ensures page[i].Sequence() <= last {
      if i < |notice| {
        assert page[i] == notice[0] && NoticeSequence(s.rows) <= s.rows[0].sequence <= last;
      } else {
        assert page[i] == Row(s.rows[start + (i - |notice|)]);
      }
    }
    MaxIsLast(page, cursor);
    AboveIsSuffix(s.rows, last, end);
  }

  /** A full page leaves exactly the rest to be fetched from the greatest sequence seen. */
  lemma FullPage(s: Retention.Store, cursor: int, limit: nat)
    requires Increasing(s.rows) && limit >= 2 && |Replay(s, cursor, limit)| >= limit
    ensures var page := Replay(s, cursor, limit);
            var next := MaxSequence(page, cursor);
            && Everything(s, cursor) == page + Everything(s, next)
            && next > cursor && |Above(s.rows, next)| < |Above(s.rows, cursor)|
  {
    hide Above, MaxSequence, Increasing, Replay, GapNotice;
    var start, end := PageRows(s, cursor, limit);
    PageMax(s, cursor, start, end);
    RowsSplit(s.rows, start, end);
    NoSecondNotice(s, s.rows[end - 1].sequence);
    Associative(GapNotice(s, cursor), Rows(s.rows[start..end]), Rows(s.rows[end..]));
    hide Rows;
    assert [] + Rows(s.rows[end..]) == Rows(s.rows[end..]);
  }

  lemma NoSecondNotice(s: Retention.Store, cursor: int)
    requires s.rows != [] && cursor >= s.rows[0].sequence
    ensures GapNotice(s, cursor) == []
  {
  }

  lemma RowsSplit(rows: seq<Chunk>, start: nat, end: nat)
    requires start <= end <= |rows|
    ensures Rows(rows[start..]) == Rows(rows[start..end]) + Rows(rows[end..])
  {
  }

  lemma LastPage(s: Retention.Store, cursor: int, limit: nat)
    requires |Replay(s, cursor, limit)| < limit
    ensures Replay(s, cursor, limit) == Everything(s, cursor)
  {
  }

  /** A sequence asked for that lies below everything stored; an empty table counts as starting at 1. */
  ghost predicate IsMissing(s: Retention.Store, afterSequence: int, m: nat) {
    m > afterSequence && if s.rows == [] then m < 1 else forall i :: 0 <= i < |s.rows| ==> m < s.rows[i].sequence
  }

  /** Some output asked for is gone; a truncated store that starts at 0 would be taken for one, too. */
  ghost predicate GapVisible(s: Retention.Store, afterSequence: int) {
    s.truncated && ((exists m: nat :: IsMissing(s, afterSequence, m)) || (afterSequence < 0 && 0 in Sequences(s.rows)))
  }

  /**
   * A gap is visible. The answer starts with a notice exactly when the store is truncated and
   * lacks something asked for below its rows; the notice stands at the greatest sequence lacking,
   * right before the first row, and there is no other. A truncated store never has a row 0
   * (NoResurrection); if it had, reading from the start would get a notice as well.
   */
  lemma NoticeIffGapVisible(s: Retention.Store, afterSequence: int)
    requires Increasing(s.rows)
    ensures var items := Everything(s, afterSequence);
            && (items != [] && items[0].Notice? <==> GapVisible(s, afterSequence))
            && (forall i :: 1 <= i < |items| ==> items[i].Row?)
            && (items != [] && items[0].Notice? ==>
                  && (forall m: nat :: IsMissing(s, afterSequence, m) ==> m <= items[0].at)
                  && (IsMissing(s, afterSequence, items[0].at) || 0 in Sequences(s.rows)))
  {
    hide Above;
    var items, notice := Everything(s, afterSequence), GapNotice(s, afterSequence);
    var n := NoticeSequence(s.rows);
    assert items == notice + Rows(Above(s.rows, afterSequence));
    FirstMissing(s, afterSequence);
    if notice != [] { assert items[0] == Notice(n); }
  }

  lemma FirstMissing(s: Retention.Store, afterSequence: int)
    requires Increasing(s.rows)
    ensures var n := NoticeSequence(s.rows);
            && (forall m: nat :: IsMissing(s, afterSequence, m) ==> m <= n && afterSequence < n)
            && (afterSequence < n ==> IsMissing(s, afterSequence, n) || 0 in Sequences(s.rows))
            && (0 in Sequences(s.rows) ==> n == 0)
  {
    if s.rows != [] {
      SequencesMembers(s.rows, 0);
      SequencesMembers(s.rows, s.rows[0].sequence);
      assert s.rows[0] in s.rows;
    }
  }

  /** Behind the notice come exactly the stored chunks asked for. */
  lemma RowsAreTheStoredAbove(s: Retention.Store, afterSequence: int, c: Chunk)
    ensures Row(c) in Everything(s, afterSequence) <==> c in s.rows && c.sequence > afterSequence
  {
    AboveMembers(s.rows, afterSequence, c);
    var above := Above(s.rows, afterSequence);
    if c in above {
      var i :| 0 <= i < |above| && above[i] == c;
      assert Rows(above)[i] == Row(c);
    }
  }

  /**
   * The client's loop over limited pages returns what one unlimited query would: every
   * retained chunk above `afterSequence` in order, led by one notice if a gap is visible.
   */
  method Output(s: Retention.Store, afterSequence: int) returns (chunks: seq<Item>)
    requires Increasing(s.rows)
    ensures chunks == Everything(s, afterSequence)
  {
    chunks := [];
    var cursor := afterSequence;
    while true
      invariant chunks + Everything(s, cursor) == Everything(s, afterSequence)
      decreases |Above(s.rows, cursor)|
    {
      var batch := Replay(s, cursor, PAGE_LIMIT);
      if |batch| < PAGE_LIMIT {
        LastPage(s, cursor, PAGE_LIMIT);
        chunks := chunks + batch;
        break;
      }
      FullPage(s, cursor, PAGE_LIMIT);
      chunks := chunks + batch;
      var nextCursor := MaxSequence(batch, cursor);
      if nextCursor <= cursor { break; }
      cursor := nextCursor;
    }
  }

  /**
   * The output read back is strictly increasing exactly when the notice does not collide
   * with a first row numbered 0, which a truncated store never has (NoResurrection).
   */
  lemma OutputStrictlyIncreasing(s: Retention.Store, afterSequence: int)
    requires Increasing(s.rows)
    ensures StrictlyIncreasing(Everything(s, afterSequence)) <==>
              !(s.truncated && afterSequence < 0 && s.rows != [] && s.rows[0].sequence == 0)
  {
    hide Above;
    var items, notice := Everything(s, afterSequence), GapNotice(s, afterSequence);
    var start := AboveStart(s.rows, afterSequence);
    var rest := s.rows[start..];
    assert Increasing(rest) && items == notice + Rows(rest);
    if notice != [] {
      assert items[0] == notice[0];
      if rest != [] {
        assert items[1] == Row(rest[0]);
        NoticeBeforeRows(s.rows, start);
      }
    }
  }

  lemma NoticeBeforeRows(rows: seq<Chunk>, start: nat)
    requires Increasing(rows) && start < |rows|
    ensures NoticeSequence(rows) < rows[start].sequence || (start == 0 && rows[0].sequence == 0)
    ensures forall i :: start <= i < |rows| ==> rows[start].sequence <= rows[i].sequence
  {
  }
}
