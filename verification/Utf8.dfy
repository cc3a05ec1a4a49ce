/** UTF-8 well-formedness (section 3 of RFC 3629), and Go's repair of ill-formed input. */
module Utf8 {
  import opened Chunks
  import opened Wrappers

  predicate Continuation(b: byte) { 0x80 <= b < 0xC0 }

  predicate RuneStart(b: byte) { !Continuation(b) }

  /** The size of the well-formed rune at the head of `s`, or 0 when there is none. */
  function RuneSize(s: seq<byte>): (n: nat)
    ensures n <= 4 && n <= |s|
    ensures n > 0 ==> RuneStart(s[0])
    ensures forall i :: 1 <= i < n ==> Continuation(s[i])
  {
    if s == [] then 0
    else if s[0] < 0x80 then 1
    else if |s| >= 2 && 0xC2 <= s[0] <= 0xDF && Continuation(s[1]) then 2
    else if |s| >= 3 && 0xE0 <= s[0] <= 0xEF && Continuation(s[1]) && Continuation(s[2])
            && (s[0] == 0xE0 ==> 0xA0 <= s[1]) && (s[0] == 0xED ==> s[1] <= 0x9F) then 3
    else if |s| >= 4 && 0xF0 <= s[0] <= 0xF4 && Continuation(s[1]) && Continuation(s[2]) && Continuation(s[3])
            && (s[0] == 0xF0 ==> 0x90 <= s[1]) && (s[0] == 0xF4 ==> s[1] <= 0x8F) then 4
    else 0
  }

  predicate WellFormed(s: seq<byte>) {
    s == [] || (RuneSize(s) > 0 && WellFormed(s[RuneSize(s)..]))
  }

  const REPLACEMENT: seq<byte> := [0xEF, 0xBF, 0xBD]

  /** Each run of bytes that belongs to no well-formed rune becomes one U+FFFD. */
  function Sanitize(s: seq<byte>, inRun: bool := false): (r: seq<byte>)
  {
    if s == [] then []
    else
      var n := RuneSize(s);
      if n == 0 then (if inRun then [] else REPLACEMENT) + Sanitize(s[1..], true)
      else s[..n] + Sanitize(s[n..], false)
  }

  /** The head rune does not depend on what follows it. */
  lemma RuneSizePrefix(a: seq<byte>, b: seq<byte>)
    requires RuneSize(a) > 0
    ensures RuneSize(a + b) == RuneSize(a)
  {
  }

  /** A whole rune `p` in front passes through the repair untouched. */
  lemma SanitizePeel(p: seq<byte>, rest: seq<byte>)
    requires p != [] && RuneSize(p) == |p|
    ensures RuneSize(p + rest) == |p| && (p + rest)[|p|..] == rest
    ensures Sanitize(p + rest) == p + Sanitize(rest)
    ensures WellFormed(p + rest) <==> WellFormed(rest)
  {
    RuneSizePrefix(p, rest);
    assert (p + rest)[..|p|] == p;
  }

  lemma HeadRune(s: seq<byte>)
    requires RuneSize(s) > 0
    ensures var n := RuneSize(s); s == s[..n] + s[n..] && RuneSize(s[..n]) == n && WellFormed(s[..n])
  {
    var n := RuneSize(s);
    assert s[..n][n..] == [];
  }

  lemma {:induction false} WellFormedConcat(a: seq<byte>, b: seq<byte>)
    requires WellFormed(a) && WellFormed(b)
    ensures WellFormed(a + b)
  {
    if a == [] {
      assert a + b == b;
    } else {
      var n := RuneSize(a);
      RuneSizePrefix(a, b);
      assert (a + b)[n..] == a[n..] + b;
      WellFormedConcat(a[n..], b);
    }
  }

  /** A well-formed string may be cut before any byte that starts a rune. */
  lemma {:induction false} WellFormedCut(s: seq<byte>, k: nat)
    requires WellFormed(s) && k <= |s|
    requires k < |s| ==> RuneStart(s[k])
    ensures WellFormed(s[..k]) && WellFormed(s[k..])
    decreases |s|
  {
    if k == 0 {
      assert s[k..] == s;
    } else {
      var n := RuneSize(s);
      var p, t := s[..n], s[n..];
      HeadRune(s);
      WellFormedCut(t, k - n);
      assert s[..k] == p + t[..k - n] && s[k..] == t[k - n..];
      SanitizePeel(p, t[..k - n]);
    }
  }

  /** Runes are at most four bytes, so some rune starts within three bytes to the left. */
  lemma {:induction false} NearbyRuneStart(s: seq<byte>, k: nat) returns (j: nat)
    requires WellFormed(s) && k < |s|
    ensures j <= k <= j + 3 && RuneStart(s[j])
    decreases |s|
  {
    var n := RuneSize(s);
    if k < n {
      j := 0;
    } else {
      var j' := NearbyRuneStart(s[n..], k - n);
      j := j' + n;
    }
  }

  lemma {:induction false} SanitizeWellFormed(s: seq<byte>, inRun: bool)
    ensures WellFormed(Sanitize(s, inRun))
    decreases |s|
  {
    if s != [] {
      var n := RuneSize(s);
      if n == 0 {
        SanitizeWellFormed(s[1..], true);
        assert WellFormed(REPLACEMENT) by {
          assert RuneSize(REPLACEMENT) == 3 && REPLACEMENT[3..] == [];
        }
        WellFormedConcat(if inRun then [] else REPLACEMENT, Sanitize(s[1..], true));
      } else {
        SanitizeWellFormed(s[n..], false);
        assert RuneSize(s[..n]) == n && s[..n][n..] == [];
        WellFormedConcat(s[..n], Sanitize(s[n..], false));
      }
    }
  }

  lemma {:induction false} SanitizeKeepsWellFormed(s: seq<byte>, inRun: bool)
    requires WellFormed(s)
    ensures Sanitize(s, inRun) == s
    decreases |s|
  {
    if s != [] {
      var n := RuneSize(s);
      SanitizeKeepsWellFormed(s[n..], false);
      assert s == s[..n] + s[n..];
    }
  }

  // ----- a series of reads ----------------------------------------------------------

  /** How many bytes of `s` are not continuation bytes: in well-formed text, how many runes it has. */
  function Starts(s: seq<byte>): nat {
    if s == [] then 0 else (if RuneStart(s[0]) then 1 else 0) + Starts(s[1..])
  }

  lemma {:induction false} StartsConcat(a: seq<byte>, b: seq<byte>)
    ensures Starts(a + b) == Starts(a) + Starts(b)
  {
    if a == [] {
      assert a + b == b;
    } else {
      assert (a + b)[1..] == a[1..] + b;
      StartsConcat(a[1..], b);
    }
  }

  ghost predicate Continuations(s: seq<byte>) {
    forall i :: 0 <= i < |s| ==> Continuation(s[i])
  }

  lemma {:induction false} NoStarts(s: seq<byte>)
    requires Continuations(s)
    ensures Starts(s) == 0
  {
    if s != [] {
      NoStarts(s[1..]);
    }
  }

  lemma RuneHasOneStart(p: seq<byte>)
    requires p != [] && RuneStart(p[0]) && Continuations(p[1..])
    ensures Starts(p) == 1
  {
    NoStarts(p[1..]);
  }

  lemma ReplacementIsARune()
    ensures Starts(REPLACEMENT) == 1
  {
    assert REPLACEMENT[0] == 0xEF;
    RuneHasOneStart(REPLACEMENT);
  }

  lemma NoRuneAtContinuation(s: seq<byte>)
    requires s != [] && Continuation(s[0])
    ensures RuneSize(s) == 0
  {
    hide RuneSize;
  }

  lemma SanitizeStray(s: seq<byte>, inRun: bool)
    requires s != [] && Continuation(s[0])
    ensures Sanitize(s, inRun) == (if inRun then [] else REPLACEMENT) + Sanitize(s[1..], true)
  {
    NoRuneAtContinuation(s);
  }

  /** Inside a run, stray continuation bytes leave nothing behind. */
  lemma {:induction false} StrayInRun(y: seq<byte>, rest: seq<byte>)
    requires Continuations(y)
    ensures Sanitize(y + rest, true) == Sanitize(rest, true)
    decreases |y|
  {
    hide Sanitize, RuneSize;
    if y == [] {
      assert y + rest == rest;
    } else {
      var s := y + rest;
      assert s[1..] == y[1..] + rest && s[0] == y[0];
      SanitizeStray(s, true);
      StrayInRun(y[1..], rest);
      assert [] + Sanitize(rest, true) == Sanitize(rest, true);
    }
  }

  /** Stray continuation bytes before `rest` make it part of one run, replaced by one rune. */
  lemma StrayContinuations(y: seq<byte>, rest: seq<byte>)
    requires y != [] && Continuations(y)
    ensures Sanitize(y + rest) == REPLACEMENT + Sanitize(rest, true)
  {
    hide Sanitize, RuneSize;
    var s := y + rest;
    assert s[1..] == y[1..] + rest && s[0] == y[0];
    SanitizeStray(s, false);
    StrayInRun(y[1..], rest);
  }

  /** The beginning of a rune of which the end is missing. */
  lemma CutRune(x: seq<byte>, t: seq<byte>)
    requires x != [] && |x| < RuneSize(x + t)
    ensures RuneSize(x) == 0 && RuneStart(x[0]) && Continuations(x[1..])
  {
    assert forall i :: 0 <= i < |x| ==> (x + t)[i] == x[i];
    assert forall i :: 0 <= i < |x| - 1 ==> x[1..][i] == (x + t)[i + 1];
  }

  lemma PartialRune(x: seq<byte>, t: seq<byte>)
    requires x != [] && |x| < RuneSize(x + t)
    ensures RuneSize(x) == 0 && Starts(x) == 1
    ensures Sanitize(x, false) == REPLACEMENT && Sanitize(x, true) == []
  {
    CutRune(x, t);
    hide RuneSize, Starts;
    RuneHasOneStart(x);
    StrayInRun(x[1..], []);
    assert x[1..] + [] == x[1..];
  }

  /** What a read's repair does to the number of runes, if the text goes on well-formed from `t` on. */
  lemma {:induction false} StartsOfRead(r: seq<byte>, t: seq<byte>, inRun: bool)
    requires WellFormed(r + t)
    ensures Starts(Sanitize(r, inRun)) == Starts(r) - if inRun && r != [] && |r| < RuneSize(r + t) then 1 else 0
    decreases |r|
  {
    if r != [] {
      var n := RuneSize(r + t);
      if n <= |r| {
        var p, rest := r[..n], r[n..];
        HeadRune(r + t);
        assert (r + t)[..n] == p && r == p + rest && r + t == p + (rest + t);
        SanitizePeel(p, rest);
        SanitizePeel(p, rest + t);
        StartsOfRead(rest, t, false);
        StartsConcat(p, rest);
        StartsConcat(p, Sanitize(rest));
      } else {
        PartialRune(r, t);
        ReplacementIsARune();
      }
    }
  }

  /** Well-formed text continues well-formed after a well-formed part, else with the rest of a rune. */
  lemma {:induction false} AfterPart(a: seq<byte>, b: seq<byte>) returns (k: nat)
    requires WellFormed(a + b)
    ensures k <= |b| && Continuations(b[..k]) && WellFormed(b[k..]) && (k == 0 <==> WellFormed(a))
    decreases |a|
  {
    if a == [] {
      k := 0;
      assert a + b == b && b[0..] == b;
    } else {
      var n := RuneSize(a + b);
      if n <= |a| {
        var p, t := a[..n], a[n..];
        HeadRune(a + b);
        assert (a + b)[..n] == p && a == p + t && a + b == p + (t + b);
        SanitizePeel(p, t);
        SanitizePeel(p, t + b);
        k := AfterPart(t, b);
      } else {
        k := n - |a|;
        PartialRune(a, b);
        assert (a + b)[n..] == b[k..];
        assert forall i :: 0 <= i < k ==> b[i] == (a + b)[|a| + i];
      }
    }
  }

  /** What the agent makes of a series of reads: each one is repaired on its own. */
  function Repaired(pieces: seq<seq<byte>>): seq<byte> {
    if pieces == [] then [] else Sanitize(pieces[0]) + Repaired(pieces[1..])
  }

  ghost predicate AllWellFormed(pieces: seq<seq<byte>>) {
    forall i :: 0 <= i < |pieces| ==> WellFormed(pieces[i])
  }

  /** One read: the end `y` of a rune begun before, then `r'`, which `t` continues to well-formed text. */
  lemma ReadGains(y: seq<byte>, r': seq<byte>, t: seq<byte>)
    requires Continuations(y) && WellFormed(r' + t)
    ensures Starts(Sanitize(y + r')) >= Starts(y + r')
    ensures y != [] && WellFormed(r') ==> Starts(Sanitize(y + r')) > Starts(y + r')
  {
    StartsConcat(y, r');
    NoStarts(y);
    if y == [] {
      assert y + r' == r';
      StartsOfRead(r', t, false);
    } else {
      StrayContinuations(y, r');
      StartsConcat(REPLACEMENT, Sanitize(r', true));
      ReplacementIsARune();
      StartsOfRead(r', t, true);
      if WellFormed(r') {
        SanitizeKeepsWellFormed(r', true);
      }
    }
  }

  /** The same for a read `r` whose first `k` bytes, and perhaps more after it, end a rune begun before. */
  lemma PieceGains(r: seq<byte>, t: seq<byte>, k: nat) returns (k': nat)
    requires k <= |r + t| && Continuations((r + t)[..k]) && WellFormed((r + t)[k..])
    ensures k' <= |t| && Continuations(t[..k']) && WellFormed(t[k'..])
    ensures Starts(Sanitize(r)) >= Starts(r)
    ensures k > 0 || !WellFormed(r) ==> k' > 0 || Starts(Sanitize(r)) > Starts(r)
  {
    hide WellFormed, Sanitize, Starts;
    if |r| <= k {
      k' := k - |r|;
      assert t[k'..] == (r + t)[k..];
      assert t[..k'] == (r + t)[..k][|r|..] && r == (r + t)[..k][..|r|];
      WholeStray(r);
    } else {
      var y, rest := r[..k], r[k..];
      assert (r + t)[k..] == rest + t && (r + t)[..k] == y && r == y + rest;
      k' := AfterPart(rest, t);
      ReadGains(y, rest, t);
      assert k == 0 ==> rest == r;
    }
  }

  lemma WholeStray(r: seq<byte>)
    requires Continuations(r)
    ensures Starts(Sanitize(r)) >= Starts(r)
    ensures if r == [] then WellFormed(r) else Starts(Sanitize(r)) > Starts(r)
  {
    assert r + [] == r;
    ReadGains(r, [], []);
  }

  /** Repairing reads one by one never loses runes, and gains some as soon as one of them is cut. */
  lemma {:induction false} RepairGains(pieces: seq<seq<byte>>, k: nat)
    requires k <= |Flatten(pieces)| && Continuations(Flatten(pieces)[..k]) && WellFormed(Flatten(pieces)[k..])
    ensures Starts(Repaired(pieces)) >= Starts(Flatten(pieces))
    ensures k > 0 || !AllWellFormed(pieces) ==> Starts(Repaired(pieces)) > Starts(Flatten(pieces))
    decreases |pieces|
  {
    hide WellFormed, Sanitize, Starts, Continuations;
    if pieces != [] {
      var r, rest := pieces[0], pieces[1..];
      var k' := PieceGains(r, Flatten(rest), k);
      RepairGains(rest, k');
      StartsConcat(r, Flatten(rest));
      StartsConcat(Sanitize(r), Repaired(rest));
      assert WellFormed(r) && AllWellFormed(rest) ==> AllWellFormed(pieces);
    }
  }

  /**
   * The agent repairs each read on its own. For well-formed output, however it is cut into reads,
   * the repair is the identity exactly when every cut falls between two runes; a rune cut in the
   * middle is replaced, not carried over to the next read.
   */
  lemma ReadsAreLosslessIffRuneAligned(pieces: seq<seq<byte>>)
    requires WellFormed(Flatten(pieces))
    ensures Repaired(pieces) == Flatten(pieces) <==> AllWellFormed(pieces)
  {
    if AllWellFormed(pieces) {
      RepairKeeps(pieces);
    } else {
      assert Flatten(pieces)[0..] == Flatten(pieces);
      RepairGains(pieces, 0);
    }
  }

  lemma {:induction false} RepairKeeps(pieces: seq<seq<byte>>)
    requires AllWellFormed(pieces)
    ensures Repaired(pieces) == Flatten(pieces)
  {
    if pieces != [] {
      SanitizeKeepsWellFormed(pieces[0], false);
      RepairKeeps(pieces[1..]);
    }
  }
}
