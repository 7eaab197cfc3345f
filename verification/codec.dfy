/**
 * The primitive byte codec of the EBML reader: leading-zero count, big-endian
 * unsigned and two's-complement signed decoding, and the raw-bit width choice
 * of the float decoder. Machine widths (u8, u64, i64, u32) are written out as
 * explicit modular arithmetic on unbounded integers.
 */
module Codec {
  import opened Arith
  import opened Wrappers

  type Byte = b: nat | b < 256

  /**
   * The number of zero bits above the highest set bit of `b`, and 8 for 0x00.
   * Shifting left until the top bit is set, as the reader does, is the recursion.
   */
  function LeadingZeros(b: Byte): nat
    decreases 256 - b
  {
    if b == 0 then 8
    else if b >= 128 then 0
    else 1 + LeadingZeros(2 * b)
  }

  /**
   * At most eight leading zeros, eight only for 0x00, and otherwise the
   * highest set bit sits at 7 - r.
   */
  lemma {:induction false} LeadingZerosBounds(b: Byte)
    ensures LeadingZeros(b) <= 8
    ensures b == 0 <==> LeadingZeros(b) == 8
    ensures b != 0 ==> Pow2(7 - LeadingZeros(b)) <= b < Pow2(8 - LeadingZeros(b))
    decreases 256 - b
  {
    Pow2Table();
    if b != 0 && b < 128 {
      LeadingZerosBounds(2 * b);
    }
  }

  /** The count ranges over 0..8 and reaches 8 only for 0x00. */
  lemma LeadingZerosRange(b: Byte)
    ensures LeadingZeros(b) <= 8
    ensures b == 0 <==> LeadingZeros(b) == 8
  {
    LeadingZerosBounds(b);
  }

  /** A nonzero byte lying in [2^k, 2^(k+1)) has exactly 7 - k leading zeros. */
  lemma LeadingZerosOfRange(b: Byte, k: nat)
    requires k <= 7 && Pow2(k) <= b < Pow2(k + 1)
    ensures LeadingZeros(b) == 7 - k
  {
    var r := LeadingZeros(b);
    LeadingZerosBounds(b);
    if 7 - r > k {
      Pow2Monotone(k + 1, 7 - r);
    } else if 7 - r < k {
      Pow2Monotone(8 - r, k);
    }
  }

  /** The reference value of a byte string: sum of b_i * 256^(n-1-i). */
  function BigEndian(bs: seq<Byte>): nat
  {
    if |bs| == 0 then 0 else bs[0] * Pow256(|bs| - 1) + BigEndian(bs[1..])
  }

  lemma {:induction false} BigEndianBound(bs: seq<Byte>)
    ensures BigEndian(bs) < Pow256(|bs|)
  {
    if |bs| > 0 {
      var p := Pow256(|bs| - 1);
      var rest := BigEndian(bs[1..]);
      BigEndianBound(bs[1..]);
      DigitBound(bs[0], rest, p);
    }
  }

  /** A digit below 256 followed by a value below `p` stays below 256 * p. */
  lemma DigitBound(d: Byte, rest: nat, p: nat)
    requires rest < p
    ensures d * p + rest < 256 * p
  {
    MulLe(d as int + 1, 256, p);
  }

  /** A leading byte contributes its value times 256 to the power of the rest's length. */
  lemma BigEndianCons(b: Byte, rest: seq<Byte>)
    ensures BigEndian([b] + rest) == b * Pow256(|rest|) + BigEndian(rest)
  {
    assert ([b] + rest)[1..] == rest;
  }

  /**
   * The low `n` bytes of `v` in big-endian order: the writer that `BigEndian`
   * inverts on values below 256^n.
   */
  function BigEndianBytes(v: nat, n: nat): (bs: seq<Byte>)
    ensures |bs| == n
  {
    if n == 0 then []
    else [(v / Pow256(n - 1)) % 256] + BigEndianBytes(v % Pow256(n - 1), n - 1)
  }

  /** A value below 256^n is read back from its `n` bytes, and its top byte leads. */
  lemma {:induction false} BigEndianBytesValue(v: nat, n: nat)
    requires v < Pow256(n)
    ensures BigEndian(BigEndianBytes(v, n)) == v
    ensures n > 0 ==> BigEndianBytes(v, n)[0] == v / Pow256(n - 1)
  {
    if n > 0 {
      var p := Pow256(n - 1);
      DigitSplit(v, p);
      SmallMod(v / p, 256);
      var rest := BigEndianBytes(v % p, n - 1);
      BigEndianBytesValue(v % p, n - 1);
      BigEndianCons(v / p, rest);
    }
  }

  lemma DigitSplit(v: nat, p: nat)
    requires p > 0 && v < 256 * p
    ensures v / p < 256 && v % p < p && v == (v / p) * p + v % p
  {
    DivBounds(v, p, 0, 256);
  }

  /**
   * The loop of `bytes_to_uint`/`bytes_to_int` over `data[from..to]`: shift
   * every byte, in order, into `acc`. One step, `acc = (acc << 8) | b` on 64
   * bits, keeps the low seven bytes of `acc` shifted up one byte, and the OR
   * into the zero low byte is an addition.
   */
  function Accumulate(acc: nat, data: seq<Byte>, from: nat, to: nat): (r: nat)
    requires acc < U64 && from <= to <= |data|
    decreases |data| - from
    ensures r < U64
  {
    if from == to then acc
    else Accumulate((acc % 0x100_0000_0000_0000) * 256 + data[from], data, from + 1, to)
  }

  /** The shift-and-or step is multiply-and-add kept to 64 bits. */
  lemma ShiftInValue(acc: nat, b: Byte)
    ensures (acc % 0x100_0000_0000_0000) * 256 + b == (acc * 256 + b) % U64
  {
    var low := acc % 0x100_0000_0000_0000;
    DivModUnique(acc * 256 + b, U64, acc / 0x100_0000_0000_0000, low * 256 + b);
  }

  /** The accumulator ends as the 64-bit residue of the seed followed by the bytes, big-endian. */
  lemma {:induction false} AccumulateValue(acc: nat, data: seq<Byte>, from: nat, to: nat)
    requires acc < U64 && from <= to <= |data|
    ensures Accumulate(acc, data, from, to) == (acc * Pow256(to - from) + BigEndian(data[from..to])) % U64
    decreases |data| - from
  {
    if from == to {
      assert data[from..to] == [] && Pow256(0) == 1;
      SmallMod(acc, U64);
    } else {
      var acc' := (acc % 0x100_0000_0000_0000) * 256 + data[from];
      AccumulateValue(acc', data, from + 1, to);
      AccumulateSlice(acc, data, from, to, acc', Accumulate(acc', data, from + 1, to));
    }
  }

  /** One step of the accumulation, stated on the slice the recursion walks. */
  lemma AccumulateSlice(acc: nat, data: seq<Byte>, from: nat, to: nat, acc': nat, r: nat)
    requires acc < U64 && from < to <= |data|
    requires acc' == (acc % 0x100_0000_0000_0000) * 256 + data[from]
    requires r == (acc' * Pow256(to - (from + 1)) + BigEndian(data[from + 1..to])) % U64
    ensures r == (acc * Pow256(to - from) + BigEndian(data[from..to])) % U64
  {
    var bs := data[from..to];
    ShiftInValue(acc, data[from]);
    assert bs[0] == data[from] && bs[1..] == data[from + 1..to] && |bs| == to - from;
    AccumulateStep(acc, bs, acc', r);
  }

  lemma AccumulateStep(acc: nat, bs: seq<Byte>, acc': nat, r: nat)
    requires |bs| > 0 && acc < U64
    requires acc' == (acc * 256 + bs[0]) % U64
    requires r == (acc' * Pow256(|bs| - 1) + BigEndian(bs[1..])) % U64
    ensures r == (acc * Pow256(|bs|) + BigEndian(bs)) % U64
  {
    var p := Pow256(|bs| - 1);
    StepAlgebra(acc, bs[0], p, Pow256(|bs|), BigEndian(bs[1..]), BigEndian(bs), acc', r);
  }

  /** The arithmetic of one step: reducing before scaling by `p` gives the same residue as reducing after. */
  lemma StepAlgebra(acc: nat, b: nat, p: nat, q: nat, tail: nat, whole: nat, acc': nat, r: nat)
    requires q == 256 * p && whole == b * p + tail
    requires acc' == (acc * 256 + b) % U64
    requires r == (acc' * p + tail) % U64
    ensures r == (acc * q + whole) % U64
  {
    var x := acc * 256 + b;
    var t := x / U64;
    assert x == t * U64 + acc';
    ShiftedProduct(acc, b, p, t, acc');
    ModAddMultiple(acc * q + whole, -(t * p), U64);
  }

  lemma ShiftedProduct(acc: int, b: int, p: int, t: int, acc': int)
    requires acc' == acc * 256 + b - t * U64
    ensures acc' * p == acc * (256 * p) + b * p + (-(t * p)) * U64
  {
    assert acc' * p == (acc * 256) * p + b * p - (t * U64) * p;
  }

  /** `bytes_to_uint`: big-endian accumulation into a u64, which keeps the low 64 bits. */
  function BytesToUint(bs: seq<Byte>): (r: nat)
    ensures r < U64
    ensures r == BigEndian(bs) % U64
  {
    AccumulateValue(0, bs, 0, |bs|);
    assert bs[0..|bs|] == bs;
    Accumulate(0, bs, 0, |bs|)
  }

  /** The decoded value is the bytes' big-endian value modulo 2^64, the value itself for up to eight bytes. */
  lemma BytesToUintValue(bs: seq<Byte>)
    ensures BytesToUint(bs) == BigEndian(bs) % U64
    ensures |bs| <= 8 ==> BytesToUint(bs) == BigEndian(bs)
  {
    ShortValueFits(bs);
  }

  /** Up to eight bytes never exceed a u64. */
  lemma ShortValueFits(bs: seq<Byte>)
    ensures |bs| <= 8 ==> BigEndian(bs) < U64 && BigEndian(bs) % U64 == BigEndian(bs)
  {
    if |bs| <= 8 {
      BigEndianBound(bs);
      Pow256Monotone(|bs|, 8);
      Pow256Table();
      SmallMod(BigEndian(bs), U64);
    }
  }

  /** Reads a 64-bit pattern as an `i64`. */
  function AsI64(u: nat): int
    requires u < U64
  {
    if u >= I64Sign then u - U64 else u
  }

  /** The reference signed value: two's complement of the bytes at their own width. */
  function TwosComplement(bs: seq<Byte>): int
    requires |bs| >= 1
  {
    if bs[0] >= 128 then BigEndian(bs) - Pow256(|bs|) else BigEndian(bs)
  }

  /** `0x7FFF_FFFF_FFFF_FFFF`, the accumulator seed of a negative signed decode. */
  const SignSeed: nat := 0x7FFF_FFFF_FFFF_FFFF

  /**
   * `bytes_to_int`: the accumulator starts at 0x7FFF... when the first byte's
   * top bit is set, so that the shifted-in ones sign-extend the result. An empty
   * input has no first byte, and the decoder fails on it.
   */
  function BytesToInt(bs: seq<Byte>): (r: Option<int>)
    ensures r.None? <==> |bs| == 0
    ensures 1 <= |bs| <= 8 ==> r == Some(TwosComplement(bs))
    ensures |bs| >= 8 ==> r == Some(AsI64(BigEndian(bs) % U64))
  {
    if |bs| == 0 then None
    else
      var seed := if bs[0] >= 128 then SignSeed else 0;
      var u := Accumulate(seed, bs, 0, |bs|);
      AccumulateValue(seed, bs, 0, |bs|);
      assert bs[0..|bs|] == bs;
      SignExtension(bs, seed, u);
      WideSignedIsLowBytes(bs, seed, u);
      Some(AsI64(u))
  }

  lemma SignExtension(bs: seq<Byte>, seed: nat, u: nat)
    requires 1 <= |bs|
    requires seed == if bs[0] >= 128 then SignSeed else 0
    requires u < U64 && u == (seed * Pow256(|bs|) + BigEndian(bs)) % U64
    ensures |bs| <= 8 ==> AsI64(u) == TwosComplement(bs)
  {
    if |bs| > 8 {
      return;
    }
    var n := |bs|;
    var p := Pow256(n);
    var p' := Pow256(n - 1);
    var be := BigEndian(bs);
    BigEndianBound(bs);
    BigEndianBound(bs[1..]);
    Pow256Monotone(n, 8);
    Pow256Monotone(n - 1, 7);
    Pow256Table();
    assert p == 256 * p';
    if bs[0] >= 128 {
      MulLe(128, bs[0], p');
      assert be >= 128 * p';
      calc {
        seed * p + be;
        (I64Sign - 1) * (256 * p') + be;
        (128 * p' - 1) * U64 + (U64 - p + be);
      }
      DivModUnique(seed * p + be, U64, 128 * p' - 1, U64 - p + be);
    } else {
      MulLe(bs[0] as int + 1, 128, p');
      SmallMod(be, U64);
    }
  }

  lemma WideSignedIsLowBytes(bs: seq<Byte>, seed: nat, u: nat)
    requires seed < U64
    requires u == (seed * Pow256(|bs|) + BigEndian(bs)) % U64
    ensures |bs| >= 8 ==> u == BigEndian(bs) % U64
  {
    if |bs| < 8 {
      return;
    }
    Pow256Add(8, |bs| - 8);
    Pow256Table();
    assert seed * Pow256(|bs|) == (seed * Pow256(|bs| - 8)) * U64;
    ModAddMultiple(BigEndian(bs), seed * Pow256(|bs| - 8), U64);
  }

  /**
   * `Into<bool>`: the signed decode compared with exactly 1. Any other value,
   * including other nonzero ones, is false; an empty payload fails as the
   * signed decode does.
   */
  function BytesToBool(bs: seq<Byte>): (r: Option<bool>)
    ensures r.None? <==> |bs| == 0
    ensures r == Some(true) <==> |bs| >= 1 && BigEndian(bs) % U64 == 1
  {
    match BytesToInt(bs)
    case None => None
    case Some(i) =>
      TrueOnlyForOne(bs);
      Some(i == 1)
  }

  lemma TrueOnlyForOne(bs: seq<Byte>)
    requires 1 <= |bs|
    ensures |bs| <= 8 ==> (TwosComplement(bs) == 1 <==> BigEndian(bs) % U64 == 1)
  {
    if |bs| > 8 {
      return;
    }
    BigEndianBound(bs);
    Pow256Monotone(|bs|, 8);
    Pow256Table();
    SmallMod(BigEndian(bs), U64);
    if bs[0] >= 128 {
      MulLe(128, bs[0], Pow256(|bs| - 1));
    }
  }

  /** The raw bits a float payload is read as, with the IEEE 754 width it selects. */
  datatype FloatBits = Binary32(bits: nat) | Binary64(bits: nat)

  /**
   * `bytes_to_float` without the IEEE 754 interpretation: more than four bytes
   * select binary64 over the u64 accumulation, otherwise the accumulation is
   * truncated to a u32 and read as binary32.
   */
  function BytesToFloatBits(bs: seq<Byte>): (r: FloatBits)
    ensures r.Binary64? <==> |bs| > 4
    ensures r.Binary64? ==> r.bits == BigEndian(bs) % U64
    ensures r.Binary32? ==> r.bits == BigEndian(bs) && r.bits < U32
  {
    var bits := BytesToUint(bs);
    BytesToUintValue(bs);
    if |bs| > 4 then Binary64(bits)
    else
      BigEndianBound(bs);
      Pow256Monotone(|bs|, 4);
      Pow256Table();
      SmallMod(bits, U32);
      Binary32(bits % U32)
  }

  /** The reader's own examples of the leading-zero count and of unsigned and signed decoding. */
  lemma CodecExamples()
    ensures LeadingZeros(0x81) == 0 && LeadingZeros(0x0e) == 4
    ensures LeadingZeros(0x01) == 7 && LeadingZeros(0x00) == 8
    ensures BytesToUint([0xFF]) == 255
    ensures BytesToInt([0x7F]) == Some(127) && BytesToInt([0xFE]) == Some(-2)
    ensures BytesToInt([0x00, 0x05]) == Some(5)
  {
    BytesToUintValue([0xFF]);
    assert BigEndian([0xFF]) == 255 by { BigEndianCons(0xFF, []); }
    assert BigEndian([0x7F]) == 127 by { BigEndianCons(0x7F, []); }
    assert BigEndian([0xFE]) == 254 by { BigEndianCons(0xFE, []); }
    assert BigEndian([0x00, 0x05]) == 5 by { BigEndianCons(0x00, [0x05]); BigEndianCons(0x05, []); }
  }
}
