/**
 * Strict UTF-8 as the standard library's checked conversion accepts it: the
 * well-formed byte sequences of the Unicode Standard (no overlong forms, no
 * surrogates, nothing above U+10FFFF).
 */
module Utf8 {
  import opened Wrappers
  import opened Arith
  import opened Codec

  /** A continuation byte 10xxxxxx. */
  predicate IsCont(b: Byte)
  {
    0x80 <= b < 0xC0
  }

  /** A Unicode scalar value, the values Dafny's `char` ranges over. */
  predicate IsScalar(cp: int)
  {
    0 <= cp < 0xD800 || 0xE000 <= cp < 0x11_0000
  }

  /** Length of the well-formed sequence at the head of `bs`, or 0 when there is none. */
  function WellFormedLength(bs: seq<Byte>): (n: nat)
    ensures n <= 4 && n <= |bs|
    ensures |bs| > 0 && bs[0] < 0x80 ==> n == 1
  {
    if |bs| == 0 then 0
    else
      var b0 := bs[0];
      if b0 < 0x80 then 1
      else if 0xC2 <= b0 <= 0xDF then
        if |bs| >= 2 && IsCont(bs[1]) then 2 else 0
      else if 0xE0 <= b0 <= 0xEF then
        var lo := if b0 == 0xE0 then 0xA0 else 0x80;
        var hi := if b0 == 0xED then 0x9F else 0xBF;
        if |bs| >= 3 && lo <= bs[1] <= hi && IsCont(bs[2]) then 3 else 0
      else if 0xF0 <= b0 <= 0xF4 then
        var lo := if b0 == 0xF0 then 0x90 else 0x80;
        var hi := if b0 == 0xF4 then 0x8F else 0xBF;
        if |bs| >= 4 && lo <= bs[1] <= hi && IsCont(bs[2]) && IsCont(bs[3]) then 4 else 0
      else 0
  }

  /** The code point carried by a well-formed head sequence of length `n`. */
  function CodePoint(bs: seq<Byte>, n: nat): (cp: int)
    requires 1 <= n <= 4 && n == WellFormedLength(bs)
    ensures IsScalar(cp)
    ensures n == 1 ==> cp < 0x80
    ensures n == 2 ==> 0x80 <= cp < 0x800
    ensures n == 3 ==> 0x800 <= cp < 0x1_0000
    ensures n == 4 ==> 0x1_0000 <= cp < 0x11_0000
  {
    var b0, b1 := bs[0] as int, if n >= 2 then bs[1] as int else 0;
    if n == 1 then b0
    else if n == 2 then (b0 - 0xC0) * 64 + (b1 - 0x80)
    else if n == 3 then (b0 - 0xE0) * 4096 + (b1 - 0x80) * 64 + (bs[2] as int - 0x80)
    else (b0 - 0xF0) * 262144 + (b1 - 0x80) * 4096 + (bs[2] as int - 0x80) * 64 + (bs[3] as int - 0x80)
  }

  /** `bs` read as UTF-8; None when any part of it is ill-formed. */
  function Decode(bs: seq<Byte>): (r: Option<string>)
    ensures r.Some? ==> |r.value| <= |bs|
    decreases |bs|
  {
    if |bs| == 0 then Some([])
    else
      var n := WellFormedLength(bs);
      if n == 0 then None
      else
        match Decode(bs[n..])
        case None => None
        case Some(rest) => Some([CodePoint(bs, n) as char] + rest)
  }

  /** The UTF-8 form of one scalar value: shortest form, marker bits, then six bits per continuation byte. */
  function EncodeChar(c: char): (bs: seq<Byte>)
    ensures 1 <= |bs| <= 4
  {
    var cp := c as int;
    var q1, d0 := cp / 64, cp % 64;
    var q2, d1 := q1 / 64, q1 % 64;
    var q3, d2 := q2 / 64, q2 % 64;
    if cp < 0x80 then [cp]
    else if cp < 0x800 then [0xC0 + q1, 0x80 + d0]
    else if cp < 0x1_0000 then [0xE0 + q2, 0x80 + d1, 0x80 + d0]
    else [0xF0 + q3, 0x80 + d2, 0x80 + d1, 0x80 + d0]
  }

  /** The encoding of a character is one well-formed sequence that carries its code point. */
  lemma EncodeCharWellFormed(c: char)
    ensures WellFormedLength(EncodeChar(c)) == |EncodeChar(c)|
    ensures CodePoint(EncodeChar(c), |EncodeChar(c)|) == c as int
  {
    var cp := c as int;
    DivMod(cp, 64);
    DivMod(cp / 64, 64);
    DivMod(cp / 64 / 64, 64);
  }

  /** The UTF-8 form of a string. */
  function Encode(s: string): (bs: seq<Byte>)
    ensures |s| <= |bs| <= 4 * |s|
  {
    if |s| == 0 then [] else EncodeChar(s[0]) + Encode(s[1..])
  }

  /** A well-formed head sequence is recognised whatever follows it, and carries the same code point. */
  lemma WellFormedPrefix(a: seq<Byte>, b: seq<Byte>)
    requires 1 <= |a| && WellFormedLength(a) == |a|
    ensures WellFormedLength(a + b) == |a|
    ensures CodePoint(a + b, |a|) == CodePoint(a, |a|)
    ensures (a + b)[|a|..] == b
  {
    assert forall i :: 0 <= i < |a| ==> (a + b)[i] == a[i];
  }

  /** Re-encoding the code point of a well-formed head sequence gives back exactly those bytes. */
  lemma EncodeCodePoint(bs: seq<Byte>, n: nat)
    requires 1 <= n <= 4 && n == WellFormedLength(bs)
    ensures EncodeChar(CodePoint(bs, n) as char) == bs[..n]
  {
    if n == 2 {
      EncodeTwoBytes(bs);
    } else if n == 3 {
      EncodeThreeBytes(bs);
    } else if n == 4 {
      EncodeFourBytes(bs);
    }
  }

  lemma EncodeTwoBytes(bs: seq<Byte>)
    requires WellFormedLength(bs) == 2
    ensures EncodeChar(CodePoint(bs, 2) as char) == bs[..2]
  {
    var cp := CodePoint(bs, 2);
    DivModUnique(cp, 64, bs[0] as int - 0xC0, bs[1] as int - 0x80);
  }

  lemma EncodeThreeBytes(bs: seq<Byte>)
    requires WellFormedLength(bs) == 3
    ensures EncodeChar(CodePoint(bs, 3) as char) == bs[..3]
  {
    var cp := CodePoint(bs, 3);
    var x, y, z := bs[0] as int - 0xE0, bs[1] as int - 0x80, bs[2] as int - 0x80;
    DivModUnique(cp, 64, x * 64 + y, z);
    DivModUnique(x * 64 + y, 64, x, y);
  }

  lemma EncodeFourBytes(bs: seq<Byte>)
    requires WellFormedLength(bs) == 4
    ensures EncodeChar(CodePoint(bs, 4) as char) == bs[..4]
  {
    var cp := CodePoint(bs, 4);
    var x, y := bs[0] as int - 0xF0, bs[1] as int - 0x80;
    var z, w := bs[2] as int - 0x80, bs[3] as int - 0x80;
    DivModUnique(cp, 64, (x * 64 + y) * 64 + z, w);
    DivModUnique((x * 64 + y) * 64 + z, 64, x * 64 + y, z);
    DivModUnique(x * 64 + y, 64, x, y);
  }

  /** Decoding an encoded string gives the string back. */
  lemma {:induction false} DecodeEncode(s: string)
    ensures Decode(Encode(s)) == Some(s)
  {
    if |s| > 0 {
      var head, tail := EncodeChar(s[0]), Encode(s[1..]);
      EncodeCharWellFormed(s[0]);
      assert Encode(s) == head + tail;
      WellFormedPrefix(head, tail);
      DecodeEncode(s[1..]);
      assert CodePoint(head + tail, |head|) as char == s[0];
      assert Decode(Encode(s)) == Some([s[0]] + s[1..]);
      assert [s[0]] + s[1..] == s;
    }
  }

  /** One decoding step: a well-formed head sequence, then the decoded remainder. */
  lemma DecodeStep(bs: seq<Byte>)
    requires |bs| > 0 && Decode(bs).Some?
    ensures 1 <= WellFormedLength(bs) && Decode(bs[WellFormedLength(bs)..]).Some?
    ensures Decode(bs).value
            == [CodePoint(bs, WellFormedLength(bs)) as char] + Decode(bs[WellFormedLength(bs)..]).value
  {
  }

  /** Whatever decodes, re-encodes to the same bytes: the decoder accepts only canonical forms. */
  lemma {:induction false} EncodeDecode(bs: seq<Byte>)
    requires Decode(bs).Some?
    ensures Encode(Decode(bs).value) == bs
    decreases |bs|
  {
    if |bs| > 0 {
      DecodeStep(bs);
      var n := WellFormedLength(bs);
      EncodeDecode(bs[n..]);
      EncodeCodePoint(bs, n);
      EncodeDecodeStep(bs, n, CodePoint(bs, n) as char, Decode(bs[n..]).value);
    }
  }

  /** The step of the above: a head that re-encodes to its bytes, then a remainder that does. */
  lemma EncodeDecodeStep(bs: seq<Byte>, n: nat, c: char, rest: string)
    requires n <= |bs| && EncodeChar(c) == bs[..n] && Encode(rest) == bs[n..]
    ensures Encode([c] + rest) == bs
  {
    EncodeCons(c, rest);
    assert bs == bs[..n] + bs[n..];
  }

  /** Encoding a string is encoding its first character, then the rest. */
  lemma EncodeCons(c: char, s: string)
    ensures Encode([c] + s) == EncodeChar(c) + Encode(s)
  {
    assert ([c] + s)[1..] == s;
  }

  /** The ASCII string of the reader's unit test for text payloads. */
  lemma DecodeAsciiExample()
    ensures Decode([0x41, 0x42, 0x43]) == Some("ABC")
  {
    assert Encode("ABC") == [0x41, 0x42, 0x43];
    DecodeEncode("ABC");
  }

  /** The three-byte sequence of the same test is the single character U+4F55. */
  lemma DecodeThreeByteExample()
    ensures Decode([0xe4, 0xbd, 0x95]) == Some("\U{4F55}")
  {
    assert Encode("\U{4F55}") == [0xe4, 0xbd, 0x95];
    DecodeEncode("\U{4F55}");
  }

  /** The text that test expects for `e4 bd 95`: the three bytes each read as a Windows-1252 character. */
  const MisreadExpectation: string := "\U{E4}\U{BD}\U{2022}"

  /** The test's expected text is not what the bytes decode to: it has three characters, whose own
      UTF-8 encoding is seven bytes. */
  lemma MisreadExpectationDiffers()
    ensures Decode([0xe4, 0xbd, 0x95]) != Some(MisreadExpectation)
    ensures Encode(MisreadExpectation) == [0xc3, 0xa4, 0xc2, 0xbd, 0xe2, 0x80, 0xa2]
  {
    DecodeThreeByteExample();
    assert |MisreadExpectation| == 3;
  }
}
