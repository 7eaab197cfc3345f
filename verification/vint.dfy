/**
 * Length-prefixed integers of section 4 of RFC 8794 as the reader decodes
 * them: data sizes with the length marker masked off, element IDs with the
 * marker kept, and the exact-length byte read underneath both. The encoders
 * here are the reader's partners: they exist to state the round trips.
 */
module Vint {
  import opened Arith
  import opened Wrappers
  import opened Codec
  import opened Errors

  /** `read_bytes`: exactly `n` bytes from `pos`; a short read fails at `pos`. */
  function ReadBytes(data: seq<Byte>, pos: nat, n: nat): (r: Result<(seq<Byte>, nat), Error>)
    ensures r.Success? <==> pos + n <= |data|
    ensures r.Success? ==> |r.value.0| == n && r.value.1 == pos + n
    ensures r.Failure? ==> r.error == Truncated(pos)
  {
    if pos + n <= |data| then Success((data[pos..pos + n], pos + n))
    else Failure(Truncated(pos))
  }

  /** Reading back bytes that were laid down at `pos` yields them unchanged. */
  lemma ReadBytesRoundTrip(data: seq<Byte>, pos: nat, bs: seq<Byte>)
    requires pos + |bs| <= |data| && data[pos..pos + |bs|] == bs
    ensures ReadBytes(data, pos, |bs|) == Success((bs, pos + |bs|))
  {
  }

  /** The byte count a vint or ID with first byte `b` occupies: 1..8, and 9 for 0x00. */
  function PrefixLength(b: Byte): (n: nat)
    ensures 1 <= n <= 9
    ensures n == 9 <==> b == 0
  {
    LeadingZerosRange(b);
    LeadingZeros(b) + 1
  }

  /**
   * `read_vint`: the first byte's leading zeros give the length, the `length`
   * top bits of the first byte are cleared and the bytes are accumulated
   * big-endian. A 0x00 first byte makes the mask width `8 - 9` underflow after
   * the eight further bytes have been read. `ReadVintValue` states the value.
   */
  function ReadVint(data: seq<Byte>, pos: nat): (r: Result<(nat, nat), Error>)
    ensures r.Success? <==> pos < |data| && data[pos] != 0 && pos + PrefixLength(data[pos]) <= |data|
    ensures r.Success? ==> r.value.1 == pos + PrefixLength(data[pos])
    ensures pos + 9 <= |data| && data[pos] == 0 ==> r == Failure(VintOverflow(pos))
  {
    if pos >= |data| then Failure(Truncated(pos))
    else
      var len := PrefixLength(data[pos]);
      if pos + len > |data| then Failure(Truncated(pos + 1))
      else if len == 9 then Failure(VintOverflow(pos))
      else Success((Accumulate(ClearMarker(data[pos], len), data, pos + 1, pos + len), pos + len))
  }

  /** `b & (2^(8-len) - 1)`: the first byte of a `len`-byte vint without its marker bit and the zeros above it. */
  function ClearMarker(b: Byte, len: nat): Byte
    requires 1 <= len <= 8
  {
    if len == 1 then b % 0x80
    else if len == 2 then b % 0x40
    else if len == 3 then b % 0x20
    else if len == 4 then b % 0x10
    else if len == 5 then b % 0x08
    else if len == 6 then b % 0x04
    else if len == 7 then b % 0x02
    else b % 0x01
  }

  /** Clearing the marker keeps the low `8 - len` bits: the byte splits into a high part and the result. */
  lemma ClearMarkerLow(b: Byte, len: nat) returns (hi: nat)
    requires 1 <= len <= 8
    ensures ClearMarker(b, len) < Pow2(8 - len)
    ensures b == hi * Pow2(8 - len) + ClearMarker(b, len)
  {
    var m := if len == 1 then 0x80 else if len == 2 then 0x40 else if len == 3 then 0x20
             else if len == 4 then 0x10 else if len == 5 then 0x08 else if len == 6 then 0x04
             else if len == 7 then 0x02 else 0x01;
    assert Pow2(8 - len) == m by {
      Pow2Byte();
    }
    DivMod(b, m);
    hi := b / m;
  }

  /**
   * A vint of n bytes is the big-endian value of those bytes with the top n
   * bits cleared: its value modulo 2^(7n), which is below 2^(7n).
   */
  lemma ReadVintValue(data: seq<Byte>, pos: nat)
    requires ReadVint(data, pos).Success?
    ensures var (v, end) := ReadVint(data, pos).value;
            && end - pos <= 8
            && v == BigEndian(data[pos..end]) % Pow2(7 * (end - pos))
            && v < Pow2(7 * (end - pos))
  {
    var len := PrefixLength(data[pos]);
    var masked := ClearMarker(data[pos], len);
    var hi := ClearMarkerLow(data[pos], len);
    var rest := data[pos + 1 .. pos + len];
    var v := Accumulate(masked, data, pos + 1, pos + len);
    AccumulateValue(masked, data, pos + 1, pos + len);
    BigEndianCons(masked, rest);
    MaskedVintValue(data, pos, len, hi, masked, v);
  }

  lemma MaskedVintValue(data: seq<Byte>, pos: nat, len: nat, hi: nat, masked: Byte, v: nat)
    requires 1 <= len <= 8 && pos + len <= |data|
    requires masked < Pow2(8 - len) && data[pos] == hi * Pow2(8 - len) + masked
    requires v == BigEndian([masked] + data[pos + 1 .. pos + len]) % U64
    ensures v == BigEndian(data[pos..pos + len]) % Pow2(7 * len)
    ensures v < Pow2(7 * len)
  {
    var rest := data[pos + 1 .. pos + len];
    assert data[pos..pos + len] == [data[pos]] + rest;
    ShortValueFits([masked] + rest);
    MaskedValue(data[pos], hi, masked, rest);
  }

  /**
   * Clearing the top `n` bits of the first of `n` bytes leaves the value of
   * all `n` bytes modulo 2^(7n).
   */
  lemma MaskedValue(b: Byte, hi: nat, lo: Byte, rest: seq<Byte>)
    requires |rest| <= 7 && lo < Pow2(7 - |rest|) && b == hi * Pow2(7 - |rest|) + lo
    ensures BigEndian([lo] + rest) == BigEndian([b] + rest) % Pow2(7 * (|rest| + 1))
    ensures BigEndian([lo] + rest) < Pow2(7 * (|rest| + 1))
  {
    var k := |rest|;
    BigEndianCons(lo, rest);
    BigEndianCons(b, rest);
    TailScale(k);
    BigEndianBound(rest);
    MaskedAlgebra(b, hi, lo, Pow2(7 - k), Pow256(k), BigEndian(rest),
                  BigEndian([b] + rest), BigEndian([lo] + rest), Pow2(7 * (k + 1)));
  }

  /** The arithmetic of `MaskedValue` over plain numbers: the leading digit splits off above the modulus. */
  lemma MaskedAlgebra(b: nat, hi: nat, lo: nat, m: nat, p: nat, tail: nat, whole: nat, masked: nat, modulus: nat)
    requires b == hi * m + lo && lo < m && tail < p
    requires whole == b * p + tail && masked == lo * p + tail && modulus == m * p
    ensures masked == whole % modulus && masked < modulus
  {
    SplitMod(b, hi, lo, m, p, tail);
  }

  /** `MarkerScale` counted by the bytes after the first. */
  lemma TailScale(k: nat)
    requires k <= 7
    ensures Pow2(7 - k) * Pow256(k) == Pow2(7 * (k + 1))
  {
    MarkerScale(k + 1);
  }

  /** Keeping the low digit of the leading byte keeps the value modulo the scaled digit base. */
  lemma SplitMod(b: nat, hi: nat, lo: nat, m: nat, p: nat, rest: nat)
    requires m > 0 && p > 0 && b == hi * m + lo && lo < m && rest < p
    ensures lo * p + rest < m * p
    ensures (b * p + rest) % (m * p) == lo * p + rest
  {
    DigitBelowScale(lo, rest, m, p);
    MaskedSplit(b, hi, lo, m, p, rest);
    DivModUnique(b * p + rest, m * p, hi, lo * p + rest);
  }

  /** 2^(8-n) * 256^(n-1) == 2^(7n): the first byte's payload bits sit just below the marker. */
  lemma MarkerScale(n: nat)
    requires 1 <= n <= 8
    ensures Pow2(8 - n) * Pow256(n - 1) == Pow2(7 * n)
    ensures Pow2(9 - n) * Pow256(n - 1) == Pow2(7 * n + 1)
  {
    Pow256IsPow2(n - 1);
    Pow2Add(8 - n, 8 * (n - 1));
    Pow2Add(9 - n, 8 * (n - 1));
  }

  lemma DigitBelowScale(lo: nat, rest: nat, m: nat, p: nat)
    requires lo < m && rest < p
    ensures lo * p + rest < m * p
  {
    MulLe(lo + 1, m, p);
  }

  lemma MaskedSplit(b: nat, hi: nat, lo: nat, m: nat, p: nat, rest: nat)
    requires b == hi * m + lo
    ensures b * p + rest == hi * (m * p) + (lo * p + rest)
  {
  }

  /** `n` bytes carrying `v` with the length marker of width `n` set. */
  function EncodeVint(v: nat, n: nat): (bs: seq<Byte>)
    requires 1 <= n <= 8 && v < Pow2(7 * n)
    ensures |bs| == n
  {
    BigEndianBytes(Pow2(7 * n) + v, n)
  }

  /** The encoded bytes read big-endian as the marker bit 2^(7n) above the value, and lead with its top byte. */
  lemma EncodeVintValue(v: nat, n: nat)
    requires 1 <= n <= 8 && v < Pow2(7 * n)
    ensures BigEndian(EncodeVint(v, n)) == Pow2(7 * n) + v
    ensures EncodeVint(v, n)[0] == (Pow2(7 * n) + v) / Pow256(n - 1)
  {
    MarkerBelow(n, Pow2(7 * n) + v);
    BigEndianBytesValue(Pow2(7 * n) + v, n);
  }

  /** A value inside the marker class of width `n` fits in `n` bytes and its first byte has n - 1 leading zeros. */
  lemma MarkerFits(n: nat, m: nat)
    requires 1 <= n <= 8 && Pow2(7 * n) <= m < Pow2(7 * n + 1)
    ensures m < Pow256(n)
    ensures var q := m / Pow256(n - 1); q < 256 && PrefixLength(q) == n
  {
    MarkerBelow(n, m);
    var q := m / Pow256(n - 1);
    assert Pow2(8 - n) <= q < Pow2(9 - n) by {
      MarkerScale(n);
      DivBounds(m, Pow256(n - 1), Pow2(8 - n), Pow2(9 - n));
    }
    assert q < 256 by {
      Pow2Table();
      Pow2Monotone(9 - n, 8);
    }
    LeadingZerosOfRange(q, 8 - n);
  }

  /** A value with its marker bit at 7n fits in n bytes. */
  lemma MarkerBelow(n: nat, m: nat)
    requires 1 <= n <= 8 && m < Pow2(7 * n + 1)
    ensures m < Pow256(n)
  {
    MarkerScale(n);
    Pow2Table();
    Pow2Monotone(9 - n, 8);
    assert Pow256(n) == 256 * Pow256(n - 1);
    MulLe(Pow2(9 - n), 256, Pow256(n - 1));
  }


  /** Decoding an encoded size returns it and consumes exactly its width. */
  lemma ReadVintRoundTrip(data: seq<Byte>, pos: nat, v: nat, n: nat)
    requires 1 <= n <= 8 && v < Pow2(7 * n)
    requires pos + n <= |data| && data[pos..pos + n] == EncodeVint(v, n)
    ensures ReadVint(data, pos) == Success((v, pos + n))
  {
    EncodedVintHead(data, pos, v, n);
    ReadVintValue(data, pos);
    var r := ReadVint(data, pos);
    assert r.value.1 == pos + n;
    MarkerStripped(r.value.0, v, Pow2(7 * n));
  }

  /** Reducing the marker bit above a value modulo the marker leaves the value. */
  lemma MarkerStripped(w: nat, v: nat, p: nat)
    requires v < p && w == (p + v) % p
    ensures w == v
  {
    assert w == (v + 1 * p) % p;
    ModAddMultiple(v, 1, p);
    SmallMod(v, p);
  }

  /** An encoded vint announces its own width and carries its marker bit above the value. */
  lemma EncodedVintHead(data: seq<Byte>, pos: nat, v: nat, n: nat)
    requires 1 <= n <= 8 && v < Pow2(7 * n)
    requires pos + n <= |data| && data[pos..pos + n] == EncodeVint(v, n)
    ensures pos < |data| && data[pos] != 0 && PrefixLength(data[pos]) == n
    ensures BigEndian(data[pos..pos + n]) == Pow2(7 * n) + v
  {
    MarkerFits(n, Pow2(7 * n) + v);
    EncodeVintValue(v, n);
    assert data[pos] == EncodeVint(v, n)[0];
  }



  /**
   * The element ID as the reader takes it: `PrefixLength` bytes from `pos`,
   * marker kept, accumulated into a u64. A 0x00 first byte makes the reader
   * take nine bytes, of which the u64 keeps the last eight.
   */
  function ReadId(data: seq<Byte>, pos: nat): (r: Result<(nat, nat), Error>)
    ensures r.Success? <==> pos < |data| && pos + PrefixLength(data[pos]) <= |data|
    ensures r.Success? ==> r.value.1 == pos + PrefixLength(data[pos])
    ensures r.Failure? ==> r.error == Truncated(pos)
  {
    if pos >= |data| then Failure(Truncated(pos))
    else
      var len := PrefixLength(data[pos]);
      if pos + len > |data| then Failure(Truncated(pos))
      else Success((Accumulate(0, data, pos, pos + len), pos + len))
  }

  /**
   * The ID is the big-endian value of its bytes, marker included, kept to 64
   * bits; with a nonzero first byte that is the whole value, and its marker
   * declares the width that was read.
   */
  lemma ReadIdValue(data: seq<Byte>, pos: nat)
    requires ReadId(data, pos).Success?
    ensures var (id, end) := ReadId(data, pos).value;
            && id == BigEndian(data[pos..end]) % U64
            && (data[pos] != 0 ==> id == BigEndian(data[pos..end]) && IdWidth(id) == end - pos)
  {
    AccumulateValue(0, data, pos, pos + PrefixLength(data[pos]));
    IdMarker(data[pos..pos + PrefixLength(data[pos])]);
  }

  /** Bytes whose first byte declares their own length carry an ID of that width. */
  lemma IdMarker(bs: seq<Byte>)
    requires |bs| >= 1 && |bs| == PrefixLength(bs[0])
    ensures bs[0] != 0 ==> IdWidth(BigEndian(bs)) == |bs|
  {
    if bs[0] == 0 {
      return;
    }
    var n := |bs|;
    LeadingZerosBounds(bs[0]);
    var p := Pow256(n - 1);
    BigEndianCons(bs[0], bs[1..]);
    assert [bs[0]] + bs[1..] == bs;
    BigEndianBound(bs[1..]);
    MarkerScale(n);
    assert Pow2(8 - n) <= bs[0] < Pow2(9 - n);
    MulLe(Pow2(8 - n), bs[0], p);
    DigitBelowScale(bs[0], BigEndian(bs[1..]), Pow2(9 - n), p);
    IdWidthOfClass(BigEndian(bs), n);
  }

  /**
   * The width an ID value's own marker declares: the `w` with
   * 2^(7w) <= id < 2^(7w+1), or 0 when the value has no marker in 1..8 bytes.
   */
  function IdWidth(id: nat): (w: nat)
  {
    if 0x80 <= id < 0x100 then 1
    else if 0x4000 <= id < 0x8000 then 2
    else if 0x20_0000 <= id < 0x40_0000 then 3
    else if 0x1000_0000 <= id < 0x2000_0000 then 4
    else if 0x8_0000_0000 <= id < 0x10_0000_0000 then 5
    else if 0x400_0000_0000 <= id < 0x800_0000_0000 then 6
    else if 0x2_0000_0000_0000 <= id < 0x4_0000_0000_0000 then 7
    else if 0x100_0000_0000_0000 <= id < 0x200_0000_0000_0000 then 8
    else 0
  }

  /** A declared width is a width of 1..8 bytes whose marker class holds the value. */
  lemma IdWidthClass(id: nat)
    ensures IdWidth(id) <= 8
    ensures IdWidth(id) != 0 ==> Pow2(7 * IdWidth(id)) <= id < Pow2(7 * IdWidth(id) + 1)
  {
    var w := IdWidth(id);
    if w != 0 {
      ClassPowers(w);
    }
  }

  /** A value in the marker class of width `n` declares that width. */
  lemma IdWidthOfClass(id: nat, n: nat)
    requires 1 <= n <= 8 && Pow2(7 * n) <= id < Pow2(7 * n + 1)
    ensures IdWidth(id) == n
  {
    ClassPowers(n);
  }

  /** The lowest value of the marker class of width `n`, as a literal. */
  function ClassBase(n: nat): nat
  {
    if n == 1 then 0x80
    else if n == 2 then 0x4000
    else if n == 3 then 0x20_0000
    else if n == 4 then 0x1000_0000
    else if n == 5 then 0x8_0000_0000
    else if n == 6 then 0x400_0000_0000
    else if n == 7 then 0x2_0000_0000_0000
    else 0x100_0000_0000_0000
  }

  lemma ClassPowers(n: nat)
    requires 1 <= n <= 8
    ensures Pow2(7 * n) == ClassBase(n) && Pow2(7 * n + 1) == 2 * ClassBase(n)
  {
    Pow2Table();
  }

  /** The bytes of an ID: its value at the width its marker declares. */
  function EncodeId(id: nat): (bs: seq<Byte>)
    requires IdWidth(id) != 0
    ensures |bs| == IdWidth(id)
  {
    BigEndianBytes(id, IdWidth(id))
  }

  /** The encoded bytes read big-endian as the ID itself, and lead with its top byte. */
  lemma EncodeIdValue(id: nat)
    requires IdWidth(id) != 0
    ensures BigEndian(EncodeId(id)) == id
    ensures EncodeId(id)[0] == id / Pow256(IdWidth(id) - 1)
  {
    IdWidthClass(id);
    MarkerBelow(IdWidth(id), id);
    BigEndianBytesValue(id, IdWidth(id));
  }

  /** Reading an encoded ID returns it and consumes exactly its width. */
  lemma ReadIdRoundTrip(data: seq<Byte>, pos: nat, id: nat)
    requires IdWidth(id) != 0
    requires pos + IdWidth(id) <= |data| && data[pos..pos + IdWidth(id)] == EncodeId(id)
    ensures ReadId(data, pos) == Success((id, pos + IdWidth(id)))
  {
    var n := IdWidth(id);
    IdWidthClass(id);
    MarkerFits(n, id);
    EncodeIdValue(id);
    assert data[pos] == EncodeId(id)[0];
    assert PrefixLength(data[pos]) == n;
    ReadIdValue(data, pos);
  }

  /**
   * The all-ones size, which section 6.2 of RFC 8794 reserves for "unknown
   * size", is read as an ordinary number: one byte 0xFF gives 127.
   */
  lemma AllOnesIsOrdinary()
    ensures ReadVint([0xFF], 0) == Success((0x7F, 1))
    ensures ReadVint([0x7F, 0xFF], 0) == Success((0x3FFF, 2))
  {
    assert LeadingZeros(0xFF) == 0;
    assert LeadingZeros(0x7F) == 1 by { LeadingZerosOfRange(0x7F, 6); }
  }
}
