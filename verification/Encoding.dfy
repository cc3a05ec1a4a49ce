/**
 * What UTF-8 is, independently of how Utf8 recognises it: the encoding of each Unicode scalar
 * value by arithmetic (section 3 of RFC 3629), and text as a series of scalar values.
 */
module Encoding {
  import opened Chunks
  import opened Utf8
  import opened Wrappers

  /** The Unicode scalar values: no surrogates. */
  type Scalar = c: int | 0 <= c < 0xD800 || 0xE000 <= c <= 0x10FFFF

  function Encode(c: Scalar): (bytes: seq<byte>)
    ensures 1 <= |bytes| <= 4
  {
    if c < 0x80 then [c]
    else if c < 0x800 then [0xC0 + c / 0x40, 0x80 + c % 0x40]
    else if c < 0x10000 then [0xE0 + c / 0x1000, 0x80 + c / 0x40 % 0x40, 0x80 + c % 0x40]
    else [0xF0 + c / 0x40000, 0x80 + c / 0x1000 % 0x40, 0x80 + c / 0x40 % 0x40, 0x80 + c % 0x40]
  }

  function EncodeAll(text: seq<Scalar>): seq<byte> {
    if text == [] then [] else Encode(text[0]) + EncodeAll(text[1..])
  }

  /** The value of the lower six bits of each byte after the first, below the rest of the first. */
  function Value(p: seq<byte>): int
    requires 1 <= |p| <= 4
  {
    if |p| == 1 then p[0]
    else if |p| == 2 then (p[0] as int - 0xC0) * 0x40 + (p[1] as int - 0x80)
    else if |p| == 3 then (p[0] as int - 0xE0) * 0x1000 + (p[1] as int - 0x80) * 0x40 + (p[2] as int - 0x80)
    else (p[0] as int - 0xF0) * 0x40000 + (p[1] as int - 0x80) * 0x1000 + (p[2] as int - 0x80) * 0x40 + (p[3] as int - 0x80)
  }

  /** The recogniser knows every encoding, whatever follows it. */
  lemma EveryEncodingIsARune(c: Scalar, rest: seq<byte>)
    ensures RuneSize(Encode(c) + rest) == |Encode(c)|
  {
    EncodingAlone(c);
    RuneSizePrefix(Encode(c), rest);
  }

  lemma EncodingAlone(c: Scalar)
    ensures RuneSize(Encode(c)) == |Encode(c)|
  {
  }

  lemma Digit(x: nat, y: nat)
    requires y < 0x40
    ensures (x * 0x40 + y) / 0x40 == x && (x * 0x40 + y) % 0x40 == y
  {
  }

  lemma Digits(c: nat)
    ensures c / 0x1000 == c / 0x40 / 0x40 && c / 0x40000 == c / 0x1000 / 0x40
  {
  }

  lemma TwoBytes(a: byte, b: byte)
    requires 0xC2 <= a <= 0xDF && Continuation(b)
    ensures var c := Value([a, b]); 0x80 <= c < 0x800 && Encode(c) == [a, b]
  {
    Digit(a as int - 0xC0, b as int - 0x80);
  }

  lemma ThreeBytes(a: byte, b: byte, d: byte)
    requires 0xE0 <= a <= 0xEF && Continuation(b) && Continuation(d)
    requires (a == 0xE0 ==> 0xA0 <= b) && (a == 0xED ==> b <= 0x9F)
    ensures var c := Value([a, b, d]); (0x800 <= c < 0xD800 || 0xE000 <= c < 0x10000) && Encode(c) == [a, b, d]
  {
    var x := (a as int - 0xE0) * 0x40 + (b as int - 0x80);
    Digit(a as int - 0xE0, b as int - 0x80);
    Digit(x, d as int - 0x80);
    Digits(x * 0x40 + (d as int - 0x80));
  }

  lemma FourBytes(a: byte, b: byte, d: byte, e: byte)
    requires 0xF0 <= a <= 0xF4 && Continuation(b) && Continuation(d) && Continuation(e)
    requires (a == 0xF0 ==> 0x90 <= b) && (a == 0xF4 ==> b <= 0x8F)
    ensures var c := Value([a, b, d, e]); 0x10000 <= c <= 0x10FFFF && Encode(c) == [a, b, d, e]
  {
    var x := (a as int - 0xF0) * 0x40 + (b as int - 0x80);
    var y := x * 0x40 + (d as int - 0x80);
    Digit(a as int - 0xF0, b as int - 0x80);
    Digit(x, d as int - 0x80);
    Digit(y, e as int - 0x80);
    Digits(y * 0x40 + (e as int - 0x80));
  }

  /** ... and nothing else: what it takes for a rune is the encoding of a scalar value. */
  lemma EveryRuneIsAnEncoding(s: seq<byte>) returns (c: Scalar)
    requires RuneSize(s) > 0
    ensures Encode(c) == s[..RuneSize(s)]
  {
    hide Encode, Value;
    var n := RuneSize(s);
    if n == 1 {
      c := s[0];
      OneByte(s[0]);
      assert s[..n] == [s[0]];
    } else if n == 2 {
      TwoBytes(s[0], s[1]);
      c := Value([s[0], s[1]]);
      assert s[..n] == [s[0], s[1]];
    } else if n == 3 {
      ThreeBytes(s[0], s[1], s[2]);
      c := Value([s[0], s[1], s[2]]);
      assert s[..n] == [s[0], s[1], s[2]];
    } else {
      FourBytes(s[0], s[1], s[2], s[3]);
      c := Value([s[0], s[1], s[2], s[3]]);
      assert s[..n] == [s[0], s[1], s[2], s[3]];
    }
  }

  lemma OneByte(a: byte)
    requires a < 0x80
    ensures Encode(a) == [a]
  {
  }

  lemma {:induction false} EncodingsAreWellFormed(text: seq<Scalar>)
    ensures WellFormed(EncodeAll(text))
  {
    if text != [] {
      var p, rest := Encode(text[0]), EncodeAll(text[1..]);
      EncodingAlone(text[0]);
      SanitizePeel(p, rest);
      EncodingsAreWellFormed(text[1..]);
    }
  }

  lemma {:induction false} WellFormedIsEncoded(s: seq<byte>) returns (text: seq<Scalar>)
    requires WellFormed(s)
    ensures EncodeAll(text) == s
    decreases |s|
  {
    if s == [] {
      text := [];
    } else {
      var n := RuneSize(s);
      var c := EveryRuneIsAnEncoding(s);
      var rest := WellFormedIsEncoded(s[n..]);
      text := [c] + rest;
      assert s == s[..n] + s[n..];
    }
  }

  /** Well-formed is what encodes some text. */
  lemma WellFormedIffEncoded(s: seq<byte>)
    ensures WellFormed(s) <==> exists text: seq<Scalar> :: EncodeAll(text) == s
  {
    if WellFormed(s) {
      var text := WellFormedIsEncoded(s);
    }
    forall text: seq<Scalar> | EncodeAll(text) == s ensures WellFormed(s) {
      EncodingsAreWellFormed(text);
    }
  }

  /** Text is read back as it was: no two texts share an encoding. */
  lemma {:induction false} EncodingIsInjective(a: seq<Scalar>, b: seq<Scalar>)
    requires EncodeAll(a) == EncodeAll(b)
    ensures a == b
    decreases |a|
  {
    if a != [] && b != [] {
      var p, q, x, y := Encode(a[0]), Encode(b[0]), EncodeAll(a[1..]), EncodeAll(b[1..]);
      EveryEncodingIsARune(a[0], x);
      EveryEncodingIsARune(b[0], y);
      assert p == (p + x)[..|p|] == (q + y)[..|q|] == q;
      assert x == (p + x)[|p|..] && y == (q + y)[|q|..];
      ScalarOfEncoding(a[0]);
      ScalarOfEncoding(b[0]);
      EncodingIsInjective(a[1..], b[1..]);
      assert a == [a[0]] + a[1..] && b == [b[0]] + b[1..];
    }
  }

  lemma ScalarOfEncoding(c: Scalar)
    ensures Value(Encode(c)) == c
  {
    Digits(c);
    assert c == c / 0x40 * 0x40 + c % 0x40 && c / 0x40 == c / 0x1000 * 0x40 + c / 0x40 % 0x40;
  }

  /** No rune of the whole text starts anywhere in `x`, which `rest` follows. */
  ghost predicate IllFormedRun(x: seq<byte>, rest: seq<byte>) {
    forall i :: 0 <= i < |x| ==> RuneSize((x + rest)[i..]) == 0
  }

  lemma {:induction false} RunLeavesNothing(x: seq<byte>, rest: seq<byte>)
    requires IllFormedRun(x, rest) && (rest == [] || RuneSize(rest) > 0)
    ensures Sanitize(x + rest, true) == Sanitize(rest)
    decreases |x|
  {
    if x == [] {
      assert x + rest == rest;
    } else {
      var s := x + rest;
      assert s[0..] == s && s[1..] == x[1..] + rest;
      forall i | 0 <= i < |x| - 1 ensures RuneSize((x[1..] + rest)[i..]) == 0 {
        assert (x[1..] + rest)[i..] == s[i + 1..];
      }
      RunLeavesNothing(x[1..], rest);
      assert [] + Sanitize(rest) == Sanitize(rest);
    }
  }

  /** What the repair does: text stays, and each run of bytes that belong to no rune becomes one U+FFFD. */
  lemma RepairReplacesRuns(text: seq<Scalar>, x: seq<byte>, rest: seq<byte>)
    requires x != [] && IllFormedRun(x, rest) && (rest == [] || RuneSize(rest) > 0)
    ensures Sanitize(EncodeAll(text) + x + rest) == EncodeAll(text) + Encode(0xFFFD) + Sanitize(rest)
    ensures Sanitize(EncodeAll(text)) == EncodeAll(text)
  {
    hide EncodeAll, Encode, Sanitize, RuneSize, IllFormedRun;
    EncodingsAreWellFormed(text);
    SanitizeKeepsWellFormed(EncodeAll(text), false);
    TextStays(text, x + rest);
    RunBecomesOne(x, rest);
    Associative(EncodeAll(text), x, rest);
    Associative(EncodeAll(text), Encode(0xFFFD), Sanitize(rest));
  }

  lemma RunBecomesOne(x: seq<byte>, rest: seq<byte>)
    requires x != [] && IllFormedRun(x, rest) && (rest == [] || RuneSize(rest) > 0)
    ensures Sanitize(x + rest) == Encode(0xFFFD) + Sanitize(rest)
  {
    var s := x + rest;
    assert s[0..] == s && s[1..] == x[1..] + rest;
    assert RuneSize(s) == 0;
    forall i | 0 <= i < |x| - 1 ensures RuneSize((x[1..] + rest)[i..]) == 0 {
      assert (x[1..] + rest)[i..] == s[i + 1..];
    }
    RunLeavesNothing(x[1..], rest);
    assert Encode(0xFFFD) == REPLACEMENT;
  }

  lemma {:induction false} TextStays(text: seq<Scalar>, rest: seq<byte>)
    ensures Sanitize(EncodeAll(text) + rest) == EncodeAll(text) + Sanitize(rest)
    decreases |text|
  {
    if text == [] {
      assert [] + rest == rest && [] + Sanitize(rest) == Sanitize(rest);
    } else {
      var p, tail := Encode(text[0]), EncodeAll(text[1..]);
      EncodingAlone(text[0]);
      assert p + tail + rest == p + (tail + rest);
      SanitizePeel(p, tail + rest);
      TextStays(text[1..], rest);
      assert p + (tail + Sanitize(rest)) == p + tail + Sanitize(rest);
    }
  }
}
