/** Byte, word and bit-string helpers shared by every module: the Rust
    `u8`/`u32` types, big-endian word packing (`to_be_bytes` /
    `from_be_bytes`) and the most-significant-bit-first order that the
    `bitvec` crate's `Msb0` gives the bits of a byte. */
module Bits {

  type Byte = bv8
  type Word = bv32

  /** Byte `i` of `w` in big-endian order: byte 0 is the most significant. */
  function ByteAt(w: Word, i: nat): Byte
    requires i < 4
  {
    if i == 0 then (w >> 24) as Byte
    else if i == 1 then ((w >> 16) & 0xFF) as Byte
    else if i == 2 then ((w >> 8) & 0xFF) as Byte
    else (w & 0xFF) as Byte
  }

  /** `u32::to_be_bytes`. The bytes are kept behind three steps of
      recursion: the verifier unfolds a recursive function only a bounded
      number of times, so proofs about bytes of words see the byte
      sequence and not the bit-vector extraction, unless they ask for it
      with `ToBeBytesUnfold`. */
  function ToBeBytes(w: Word): (r: seq<Byte>)
    ensures |r| == 4
  {
    ToBeBytesAt(w, 3)
  }

  function ToBeBytesAt(w: Word, depth: nat): (r: seq<Byte>)
    ensures |r| == 4
  {
    if depth > 0 then ToBeBytesAt(w, depth - 1)
    else [ByteAt(w, 0), ByteAt(w, 1), ByteAt(w, 2), ByteAt(w, 3)]
  }

  lemma ToBeBytesUnfold(w: Word)
    ensures ToBeBytes(w) == [ByteAt(w, 0), ByteAt(w, 1), ByteAt(w, 2), ByteAt(w, 3)]
  {
    assert ToBeBytes(w) == ToBeBytesAt(w, 2);
    assert ToBeBytesAt(w, 2) == ToBeBytesAt(w, 0);
  }

  /** `u32::from_be_bytes`: the word whose big-endian bytes are `b`. */
  function FromBeBytes(b: seq<Byte>): (w: Word)
    requires |b| == 4
    ensures ToBeBytes(w) == b
  {
    var w := ((b[0] as Word) << 24) | ((b[1] as Word) << 16) | ((b[2] as Word) << 8) | (b[3] as Word);
    ToBeBytesUnfold(w);
    w
  }

  /** Unpacking and repacking a word gives the word back. */
  lemma FromBeBytesOfToBeBytes(w: Word)
    ensures FromBeBytes(ToBeBytes(w)) == w
  {
    ToBeBytesUnfold(w);
  }

  /** A word is determined by its big-endian bytes. */
  lemma ToBeBytesInjective(v: Word, w: Word)
    requires ToBeBytes(v) == ToBeBytes(w)
    ensures v == w
  {
    FromBeBytesOfToBeBytes(v);
    FromBeBytesOfToBeBytes(w);
  }

  /** Position-wise exclusive-or of two byte strings of the same length. */
  function XorBytes(x: seq<Byte>, y: seq<Byte>): (r: seq<Byte>)
    requires |x| == |y|
    ensures |r| == |x|
    ensures forall i :: 0 <= i < |x| ==> r[i] == x[i] ^ y[i]
  {
    seq(|x|, i requires 0 <= i < |x| => x[i] ^ y[i])
  }

  /** The bytes of an exclusive-or of words are the exclusive-ors of the
      bytes. */
  lemma ToBeBytesXor(v: Word, w: Word)
    ensures ToBeBytes(v ^ w) == XorBytes(ToBeBytes(v), ToBeBytes(w))
  {
    var x, y := ToBeBytes(v), ToBeBytes(w);
    forall i | 0 <= i < 4
      ensures ToBeBytes(v ^ w)[i] == XorBytes(x, y)[i]
    {
      ToBeBytesXorAt(v, w, i);
    }
  }

  lemma ToBeBytesXorAt(v: Word, w: Word, i: nat)
    requires i < 4
    ensures ToBeBytes(v ^ w)[i] == ToBeBytes(v)[i] ^ ToBeBytes(w)[i]
  {
    ToBeBytesIndex(v ^ w, i);
    ToBeBytesIndex(v, i);
    ToBeBytesIndex(w, i);
    ByteAtXor(v, w, i);
  }

  lemma ToBeBytesIndex(w: Word, i: nat)
    requires i < 4
    ensures ToBeBytes(w)[i] == ByteAt(w, i)
  {
    ToBeBytesUnfold(w);
  }

  lemma ByteAtXor(v: Word, w: Word, i: nat)
    requires i < 4
    ensures ByteAt(v ^ w, i) == ByteAt(v, i) ^ ByteAt(w, i)
  {
    if i == 0 {
    } else if i == 1 {
    } else if i == 2 {
    } else {
    }
  }

  /** The eight bits of a byte, most significant first (`Msb0`). */
  function ByteBits(b: Byte): seq<bool>
  {
    [b & 0x80 != 0, b & 0x40 != 0, b & 0x20 != 0, b & 0x10 != 0,
     b & 0x08 != 0, b & 0x04 != 0, b & 0x02 != 0, b & 0x01 != 0]
  }

  /** The mask of bit `i`, counting from the most significant bit. */
  function BitMask(i: nat): (m: Byte)
    requires i < 8
    ensures m == 0x80 || m == 0x40 || m == 0x20 || m == 0x10 || m == 0x08 || m == 0x04 || m == 0x02 || m == 0x01
  {
    if i < 4 then (if i < 2 then (if i == 0 then 0x80 else 0x40) else (if i == 2 then 0x20 else 0x10))
    else (if i < 6 then (if i == 4 then 0x08 else 0x04) else (if i == 6 then 0x02 else 0x01))
  }

  /** Bit `i` of `b`, counting from the most significant bit. */
  predicate BitAt(b: Byte, i: nat)
    requires i < 8
  {
    b & BitMask(i) != 0
  }

  /** `ByteBits` lists the bits in that order. */
  lemma ByteBitsBit(b: Byte, i: nat)
    requires i < 8
    ensures ByteBits(b)[i] == BitAt(b, i)
  {
  }

  /** A byte sequence as a bit string, each byte most significant bit first
      (`BitVec::<u8, Msb0>::from_vec`). */
  function BytesToBits(s: seq<Byte>): (r: seq<bool>)
    ensures |r| == 8 * |s|
  {
    if s == [] then [] else ByteBits(s[0]) + BytesToBits(s[1..])
  }

  /** Bit `8 * i + k` of `BytesToBits(s)` is bit `k` of byte `i`. */
  lemma {:induction false} BytesToBitsIndex(s: seq<Byte>, i: nat, k: nat)
    requires i < |s| && k < 8
    ensures BytesToBits(s)[8 * i + k] == ByteBits(s[i])[k]
  {
    if i == 0 {
      BytesToBitsHead(s, k);
    } else {
      BytesToBitsTail(s);
      BytesToBitsIndex(s[1..], i - 1, k);
      assert s[1..][i - 1] == s[i];
    }
  }

  /** The first eight bits are those of the first byte. */
  lemma BytesToBitsHead(s: seq<Byte>, k: nat)
    requires |s| > 0 && k < 8
    ensures BytesToBits(s)[k] == ByteBits(s[0])[k]
  {
  }

  /** After the first eight bits come those of the other bytes. */
  lemma BytesToBitsTail(s: seq<Byte>)
    requires |s| > 0
    ensures BytesToBits(s)[8..] == BytesToBits(s[1..])
  {
  }

  /** Bit strings of a concatenation concatenate. */
  lemma {:induction false} BytesToBitsAppend(s: seq<Byte>, t: seq<Byte>)
    ensures BytesToBits(s + t) == BytesToBits(s) + BytesToBits(t)
  {
    if s == [] {
      assert s + t == t;
    } else {
      assert (s + t)[1..] == s[1..] + t;
      BytesToBitsAppend(s[1..], t);
    }
  }

  /** `n` zero bits, as pushed by the padding loops. */
  function Zeros(n: nat): (r: seq<bool>)
    ensures |r| == n && forall i :: 0 <= i < n ==> !r[i]
  {
    seq(n, _ => false)
  }

  function BitByte(bit: bool): Byte
  {
    if bit then 1 else 0
  }

  /** The shift-and-or accumulation `acc = (acc << 1) | bit` over at most
      eight bits, as both base64 codecs write it: the first bit ends up the
      most significant of the `|bits|` low bits (see `PackSixBits` and
      `PackByteBits`). */
  function PackBits(bits: seq<bool>): Byte
    requires |bits| <= 8
    decreases |bits|
  {
    if bits == [] then 0
    else (PackBits(bits[..|bits| - 1]) << 1) | BitByte(bits[|bits| - 1])
  }

  /** Packing six bits gives a value below 64 whose low six bits, most
      significant first, are the input. */
  lemma PackSixBits(bits: seq<bool>)
    requires |bits| == 6
    ensures PackBits(bits) < 64
    ensures ByteBits(PackBits(bits)) == [false, false] + bits
  {
    PackSixBitsUnfold(bits);
    TopBitsClear(PackBits(bits));
  }

  lemma TopBitsClear(b: Byte)
    requires !ByteBits(b)[0] && !ByteBits(b)[1]
    ensures b < 64
  {
  }

  /** One step of the accumulation: packing one more bit shifts it in. */
  lemma PackBitsStep(bits: seq<bool>, k: nat)
    requires k < |bits| <= 8
    ensures PackBits(bits[..k + 1]) == (PackBits(bits[..k]) << 1) | BitByte(bits[k])
  {
    assert bits[..k + 1][..k] == bits[..k];
  }

  function Nibble(b0: bool, b1: bool, b2: bool, b3: bool): Byte
  {
    (BitByte(b0) << 3) | (BitByte(b1) << 2) | (BitByte(b2) << 1) | BitByte(b3)
  }

  /** The first four bits pack to their nibble. */
  lemma PackFirstFour(bits: seq<bool>)
    requires 4 <= |bits| <= 8
    ensures PackBits(bits[..4]) == Nibble(bits[0], bits[1], bits[2], bits[3])
  {
    assert bits[..0] == [];
    PackBitsStep(bits, 0);
    PackBitsStep(bits, 1);
    PackBitsStep(bits, 2);
    PackBitsStep(bits, 3);
  }

  lemma PackSixBitsUnfold(bits: seq<bool>)
    requires |bits| == 6
    ensures ByteBits(PackBits(bits)) == [false, false] + bits
  {
    PackSixFormula(bits);
    SixBitsOf(bits, PackBits(bits));
  }

  lemma SixBitsOf(bits: seq<bool>, p: Byte)
    requires |bits| == 6
    requires p == (((Nibble(bits[0], bits[1], bits[2], bits[3]) << 1) | BitByte(bits[4])) << 1) | BitByte(bits[5])
    ensures ByteBits(p) == [false, false] + bits
  {
    var b0, b1, b2, b3, b4, b5 := bits[0], bits[1], bits[2], bits[3], bits[4], bits[5];
    SixBits(b0, b1, b2, b3, b4, b5);
    assert [false, false] + bits == [false, false, b0, b1, b2, b3, b4, b5];
  }

  lemma PackSixFormula(bits: seq<bool>)
    requires |bits| == 6
    ensures PackBits(bits)
         == (((Nibble(bits[0], bits[1], bits[2], bits[3]) << 1) | BitByte(bits[4])) << 1) | BitByte(bits[5])
  {
    PackFirstFour(bits);
    assert bits[..6] == bits;
    PackBitsStep(bits, 4);
    PackBitsStep(bits, 5);
  }

  lemma SixBits(b0: bool, b1: bool, b2: bool, b3: bool, b4: bool, b5: bool)
    ensures
      var r := (((Nibble(b0, b1, b2, b3) << 1) | BitByte(b4)) << 1) | BitByte(b5);
      ByteBits(r) == [false, false, b0, b1, b2, b3, b4, b5]
  {
  }

  /** Packing eight bits gives the byte whose bits they are. */
  lemma PackEightBits(bits: seq<bool>)
    requires |bits| == 8
    ensures ByteBits(PackBits(bits)) == bits
  {
    PackEightFormula(bits);
    EightBitsOf(bits, PackBits(bits));
  }

  lemma EightBitsOf(bits: seq<bool>, p: Byte)
    requires |bits| == 8
    requires p == (Nibble(bits[0], bits[1], bits[2], bits[3]) << 4) | Nibble(bits[4], bits[5], bits[6], bits[7])
    ensures ByteBits(p) == bits
  {
    var b0, b1, b2, b3, b4, b5, b6, b7 := bits[0], bits[1], bits[2], bits[3], bits[4], bits[5], bits[6], bits[7];
    EightBits(b0, b1, b2, b3, b4, b5, b6, b7);
    assert bits == [b0, b1, b2, b3, b4, b5, b6, b7];
  }

  lemma PackEightFormula(bits: seq<bool>)
    requires |bits| == 8
    ensures PackBits(bits)
         == (Nibble(bits[0], bits[1], bits[2], bits[3]) << 4) | Nibble(bits[4], bits[5], bits[6], bits[7])
  {
    PackFirstFour(bits);
    PackLastFour(bits);
  }

  /** The last four of eight bits shift in below the first four. */
  lemma PackLastFour(bits: seq<bool>)
    requires |bits| == 8
    ensures PackBits(bits) == (PackBits(bits[..4]) << 4) | Nibble(bits[4], bits[5], bits[6], bits[7])
  {
    assert bits[..8] == bits;
    PackBitsStep(bits, 4);
    PackBitsStep(bits, 5);
    PackBitsStep(bits, 6);
    PackBitsStep(bits, 7);
    ShiftInFour(PackBits(bits[..4]), bits[4], bits[5], bits[6], bits[7]);
  }

  lemma EightBits(b0: bool, b1: bool, b2: bool, b3: bool, b4: bool, b5: bool, b6: bool, b7: bool)
    ensures ByteBits((Nibble(b0, b1, b2, b3) << 4) | Nibble(b4, b5, b6, b7)) == [b0, b1, b2, b3, b4, b5, b6, b7]
  {
  }

  lemma ShiftInFour(p: Byte, b4: bool, b5: bool, b6: bool, b7: bool)
    ensures ((((((((p << 1) | BitByte(b4)) << 1) | BitByte(b5)) << 1) | BitByte(b6)) << 1) | BitByte(b7))
         == (p << 4) | Nibble(b4, b5, b6, b7)
  {
  }
  /** The eight bits of a byte pack back to the byte. */
  lemma PackByteBits(b: Byte)
    ensures PackBits(ByteBits(b)) == b
  {
    PackEightBits(ByteBits(b));
    BitsDetermineByte(PackBits(ByteBits(b)), b);
  }

  /** A byte is determined by its bits. */
  lemma BitsDetermineByte(a: Byte, b: Byte)
    requires ByteBits(a) == ByteBits(b)
    ensures a == b
  {
    assert forall k :: 0 <= k < 8 ==> ByteBits(a)[k] == ByteBits(b)[k];
  }
}
