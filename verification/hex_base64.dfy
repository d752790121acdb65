/** The hex-to-base64 converter (`Base64::from_hex` of the first
    challenge): a hex string is parsed into bytes, their bits are
    zero-extended to a multiple of six, and every 6-bit group is looked up
    in the base64 table. Unlike the codec in `Base64`, no '=' characters
    are appended. Strings are their UTF-8 bytes, as `str::len` counts them. */
module HexBase64 {
  import opened Bits
  import opened Results
  import opened Base64Alphabet
  import opened BitGroups
  import Base64

  /** `Base64Error` of the converter. */
  datatype Error = LookupFailed | InvalidHexString | Overflow

  const ZeroChar: Byte := 0x30
  const XChar: Byte := 0x78
  const PlusChar: Byte := 0x2B

  // ---------------------------------------------------------------------
  // Hex parsing
  // ---------------------------------------------------------------------

  /** `strip_hex_prefix`: a leading "0x" (lower-case x only) is dropped. */
  function StripHexPrefix(s: seq<Byte>): (r: seq<Byte>)
    ensures s == r || (s == [ZeroChar, XChar] + r)
    ensures |s| >= 2 && s[0] == ZeroChar && s[1] == XChar ==> |r| == |s| - 2
  {
    if |s| >= 2 && s[0] == ZeroChar && s[1] == XChar then
      assert s == s[..2] + s[2..];
      s[2..]
    else s
  }

  /** The characters radix 16 accepts: 0-9, a-f, A-F. */
  predicate IsHexDigit(c: Byte)
  {
    0x30 <= c <= 0x39 || 0x61 <= c <= 0x66 || 0x41 <= c <= 0x46
  }

  /** The value of a hex digit. */
  function DigitValue(c: Byte): (v: Byte)
    requires IsHexDigit(c)
    ensures v < 16
  {
    if c <= 0x39 then c - 0x30
    else if c >= 0x61 then c - 0x61 + 10
    else c - 0x41 + 10
  }

  /** The lower-case digit of a value below 16; `DigitValue` inverts it. */
  function HexDigit(v: Byte): (c: Byte)
    requires v < 16
    ensures IsHexDigit(c) && DigitValue(c) == v
  {
    if v < 10 then 0x30 + v else 0x61 + (v - 10)
  }

  /** `u8::from_str_radix(sub, 16)` on a two-character string: two hex
      digits, or a '+' sign followed by one digit; nothing else parses. */
  function ParsePair(a: Byte, b: Byte): (r: Option<Byte>)
    ensures r.Some? <==> (a == PlusChar || IsHexDigit(a)) && IsHexDigit(b)
    ensures r.Some? && a == PlusChar ==> r.value == DigitValue(b)
  {
    if a == PlusChar then
      if IsHexDigit(b) then Some(DigitValue(b)) else None
    else if IsHexDigit(a) && IsHexDigit(b) then
      Some(DigitValue(a) * 16 + DigitValue(b))
    else None
  }

  /** Two digits give the number they write in base 16; the byte
      arithmetic of `ParsePair` does not wrap. */
  lemma ParsePairValue(a: Byte, b: Byte)
    requires IsHexDigit(a) && IsHexDigit(b)
    ensures ParsePair(a, b).Some?
    ensures ParsePair(a, b).value as int == 16 * DigitValue(a) as int + DigitValue(b) as int
  {
    var hi := DigitValue(a);
    var lo := DigitValue(b);
    assert ParsePair(a, b).value == hi * 16 + lo;
    NoWrap(hi, lo);
  }

  /** hi * 16 + lo stays below 256 for digit values. */
  lemma NoWrap(hi: Byte, lo: Byte)
    requires hi < 16 && lo < 16
    ensures (hi * 16 + lo) as int == 16 * hi as int + lo as int
  {
  }

  /** Every character pair of `h` parses: otherwise `hex_to_bytes` panics
      (its `expect`), and a pair that is not on a character boundary
      cannot parse either. */
  predicate PairsValid(h: seq<Byte>)
  {
    |h| % 2 == 0 && forall i :: 0 <= i < |h| / 2 ==> ParsePair(h[2 * i], h[2 * i + 1]).Some?
  }

  /** The parsed pairs in order. */
  function ParsePairs(h: seq<Byte>): (r: seq<Byte>)
    requires PairsValid(h)
    ensures |r| == |h| / 2
  {
    seq(|h| / 2, i requires 0 <= i < |h| / 2 => ParsePair(h[2 * i], h[2 * i + 1]).value)
  }

  /** `hex_to_bytes`: an odd length (counted before the prefix is
      stripped) is `InvalidHexString`; otherwise the prefix is stripped and
      each pair becomes one byte. */
  function HexToBytes(s: seq<Byte>): (r: Result<seq<Byte>, Error>)
    requires |s| % 2 == 0 ==> PairsValid(StripHexPrefix(s))
    ensures r.Err? <==> |s| % 2 == 1
    ensures r.Err? ==> r.error == InvalidHexString
    ensures r.Ok? ==> |r.value| == |StripHexPrefix(s)| / 2
  {
    if |s| % 2 == 0 then Ok(ParsePairs(StripHexPrefix(s)))
    else Err(InvalidHexString)
  }

  // ---------------------------------------------------------------------
  // Writing hex: the inverse of the parser
  // ---------------------------------------------------------------------

  /** A byte as two lower-case hex digits, high nibble first. */
  function ByteHex(b: Byte): seq<Byte>
  {
    [HexDigit(b >> 4), HexDigit(b & 0x0F)]
  }

  /** The hex string of a byte sequence. */
  function ToHex(s: seq<Byte>): (r: seq<Byte>)
    ensures |r| == 2 * |s|
  {
    if s == [] then [] else ByteHex(s[0]) + ToHex(s[1..])
  }

  /** The characters of byte `i` sit at positions 2i and 2i + 1. */
  lemma {:induction false} ToHexIndex(s: seq<Byte>, i: nat)
    requires i < |s|
    ensures ToHex(s)[2 * i] == HexDigit(s[i] >> 4)
    ensures ToHex(s)[2 * i + 1] == HexDigit(s[i] & 0x0F)
  {
    if i > 0 {
      ToHexIndex(s[1..], i - 1);
      assert ToHex(s) == ByteHex(s[0]) + ToHex(s[1..]);
      assert 2 * i == 2 + 2 * (i - 1);
    }
  }

  /** The two digits of a byte parse back to it. */
  lemma PairRoundTrip(b: Byte)
    ensures ParsePair(HexDigit(b >> 4), HexDigit(b & 0x0F)) == Some(b)
  {
    var hi := HexDigit(b >> 4);
    var lo := HexDigit(b & 0x0F);
    assert hi != PlusChar;
    NibblesJoin(b, DigitValue(hi), DigitValue(lo));
  }

  /** High nibble times 16 plus low nibble is the byte. */
  lemma NibblesJoin(b: Byte, hi: Byte, lo: Byte)
    requires hi == b >> 4 && lo == b & 0x0F
    ensures hi * 16 + lo == b
  {
  }

  /** `ToHex` output is made of valid pairs that parse back to the bytes. */
  lemma ParseToHex(s: seq<Byte>)
    ensures PairsValid(ToHex(s)) && ParsePairs(ToHex(s)) == s
  {
    var h := ToHex(s);
    forall i | 0 <= i < |s|
      ensures ParsePair(h[2 * i], h[2 * i + 1]) == Some(s[i])
    {
      PairAt(s, i);
    }
    assert |h| / 2 == |s|;
    var r := ParsePairs(h);
    forall i | 0 <= i < |s|
      ensures r[i] == s[i]
    {
      assert r[i] == ParsePair(h[2 * i], h[2 * i + 1]).value;
    }
    assert r == s;
  }

  /** Pair `i` of `ToHex(s)` parses to byte `i`. */
  lemma PairAt(s: seq<Byte>, i: nat)
    requires i < |s|
    ensures ParsePair(ToHex(s)[2 * i], ToHex(s)[2 * i + 1]) == Some(s[i])
  {
    ToHexIndex(s, i);
    PairRoundTrip(s[i]);
  }

  /** `ToHex` output never starts with "0x": its second character is a
      hex digit. */
  lemma ToHexUnprefixed(s: seq<Byte>)
    ensures StripHexPrefix(ToHex(s)) == ToHex(s)
    ensures StripHexPrefix([ZeroChar, XChar] + ToHex(s)) == ToHex(s)
  {
    var h := ToHex(s);
    if |s| > 0 {
      ToHexIndex(s, 0);
      assert h[1] != XChar;
    }
    assert ([ZeroChar, XChar] + h)[2..] == h;
  }

  /** `hex_to_bytes` of an even-length string whose stripped form parses. */
  lemma HexToBytesOf(s: seq<Byte>, h: seq<Byte>, bytes: seq<Byte>, m: nat)
    requires |s| == 2 * m && StripHexPrefix(s) == h
    requires PairsValid(h) && ParsePairs(h) == bytes
    ensures HexToBytes(s) == Ok(bytes)
  {
    assert |s| % 2 == 0;
  }

  /** A hex string written by `ToHex`, with or without the "0x" prefix,
      is accepted by `hex_to_bytes` and parses back to the bytes. */
  lemma HexRoundTrip(s: seq<Byte>)
    ensures PairsValid(StripHexPrefix(ToHex(s)))
    ensures HexToBytes(ToHex(s)) == Ok(s)
    ensures PairsValid(StripHexPrefix([ZeroChar, XChar] + ToHex(s)))
    ensures HexToBytes([ZeroChar, XChar] + ToHex(s)) == Ok(s)
  {
    var h := ToHex(s);
    ParseToHex(s);
    ToHexUnprefixed(s);
    HexToBytesOf(h, h, s, |s|);
    var prefixed := [ZeroChar, XChar] + h;
    HexToBytesOf(prefixed, h, s, |s| + 1);
  }

  // ---------------------------------------------------------------------
  // bitvec_to_base64
  // ---------------------------------------------------------------------

  /** The grouping loop of `bitvec_to_base64`: at every multiple of six,
      six bits are read most significant first; reading past the end is
      `Overflow`. So the result is `Overflow` exactly when the length is not
      a multiple of six, and otherwise the values of the 6-bit groups. */
  method GroupsOfSix(bits: seq<bool>) returns (r: Result<seq<Byte>, Error>)
    ensures r.Ok? <==> |bits| % 6 == 0
    ensures r.Ok? ==> r.value == Sextets(bits)
    ensures r.Err? ==> r.error == Overflow
  {
    var base64: seq<Byte> := [];
    for x := 0 to |bits|
      invariant x <= 6 * |base64| <= |bits|
      invariant 6 * |base64| < x + 6
      invariant forall j :: 0 <= j < |base64| ==> base64[j] == PackBits(bits[6 * j .. 6 * j + 6])
    {
      if x % 6 != 0 {
        NotMultiple(x, |base64|);
        continue;
      }
      Multiple(x, |base64|);
      var read := ReadSextet(bits, x);
      if read.Err? {
        ShortTail(x, |bits|);
        return Err(read.error);
      }
      base64 := base64 + [read.value];
    }
    SextetsOfGroups(bits, base64);
    return Ok(base64);
  }

  /** The inner loop of `bitvec_to_base64`: the six bits from `x` shifted
      in most significant first, or `Overflow` at the first missing bit. */
  method ReadSextet(bits: seq<bool>, x: nat) returns (r: Result<Byte, Error>)
    requires x < |bits|
    ensures r.Ok? <==> x + 6 <= |bits|
    ensures r.Ok? ==> r.value == PackBits(bits[x .. x + 6])
    ensures r.Err? ==> r.error == Overflow
  {
    var byte: Byte := 0;
    for y := 0 to 6
      invariant x + y <= |bits|
      invariant byte == PackBits(bits[x .. x + y])
    {
      var i := x + y;
      if i >= |bits| {
        return Err(Overflow);
      }
      ghost var read := bits[x .. x + y + 1];
      assert read[..y] == bits[x .. x + y] && read[y] == bits[i];
      byte := (byte << 1) | BitByte(bits[i]);
    }
    return Ok(byte);
  }

  /** A position that is not a multiple of six is not the start of the
      next group. */
  lemma NotMultiple(x: nat, groups: nat)
    requires x % 6 != 0
    ensures 6 * groups != x
  {
  }

  /** A multiple of six in [6g - 5, 6g] is 6g. */
  lemma Multiple(x: nat, groups: nat)
    requires x % 6 == 0 && x <= 6 * groups < x + 6
    ensures 6 * groups == x
  {
    var q := x / 6;
    assert x == 6 * q;
  }

  /** A length strictly between two consecutive multiples of six. */
  lemma ShortTail(x: nat, n: nat)
    requires x % 6 == 0 && x < n < x + 6
    ensures n % 6 != 0
  {
    var q := x / 6;
    assert x == 6 * q;
  }

  /** Values that agree with every 6-bit group are the `Sextets`. */
  lemma SextetsOfGroups(bits: seq<bool>, values: seq<Byte>)
    requires 6 * |values| == |bits|
    requires forall j :: 0 <= j < |values| ==> values[j] == PackBits(bits[6 * j .. 6 * j + 6])
    ensures |bits| % 6 == 0 && values == Sextets(bits)
  {
    forall j | 0 <= j < |values|
      ensures values[j] == Sextets(bits)[j]
    {
      SextetsIndex(bits, j);
    }
  }

  /** `bitvec_to_base64`: the input is zero-extended by `6 - len % 6` bits
      unless that is 6, then grouped. The result is never an error; it
      holds the groups of the input followed by fewer than six zero bits,
      each value below 64, and its low six bits give back those bits. */
  method BitvecToBase64(bits: seq<bool>) returns (r: Result<seq<Byte>, Error>)
    ensures r.Ok?
    ensures |bits| <= 6 * |r.value| < |bits| + 6
    ensures r.value == Sextets(bits + Zeros(6 * |r.value| - |bits|))
    ensures forall i :: 0 <= i < |r.value| ==> r.value[i] < 64
    ensures LowSixBits(r.value) == bits + Zeros(6 * |r.value| - |bits|)
  {
    var padded := bits;
    var padLength := 6 - |bits| % 6;
    if padLength != 6 {
      padded := bits + Zeros(padLength);
    } else {
      padLength := 0;
      assert padded == bits + Zeros(0);
    }
    assert padded == bits + Zeros(padLength);
    assert |padded| % 6 == 0;
    r := GroupsOfSix(padded);
    assert 6 * |r.value| - |bits| == padLength;
    AllSextetsBelow64(padded);
    LowSixBitsOfSextets(padded);
  }

  // ---------------------------------------------------------------------
  // base64_lookup and from_hex
  // ---------------------------------------------------------------------

  /** `base64_lookup`: the table character of a value below 64,
      `LookupFailed` otherwise. */
  function Base64Lookup(byte: Byte): (r: Result<Byte, Error>)
    ensures r.Ok? <==> byte < 64
    ensures r.Ok? ==> r.value == AlphabetByte(byte) && InAlphabet(r.value)
    ensures r.Err? ==> r.error == LookupFailed
  {
    if byte < 64 then
      TableByteAt(byte);
      AlphabetRoundTrip(byte);
      Ok(TableBytes()[byte as int])
    else Err(LookupFailed)
  }

  /** The codec's `reverse_lookup` undoes `base64_lookup`. */
  lemma Base64LookupInverse(v: Byte)
    requires v < 64
    ensures Base64.ReverseLookup(Base64Lookup(v).value) == Ok(v)
  {
    Base64.LookupUnfold(v);
    Base64.ReverseLookupOfLookup(v);
  }

  /** `from_hex`: `hex_to_bytes`, then `bitvec_to_base64` on the bytes'
      bits, then `base64_lookup` of every value. Its output is the
      codec's `encode` of the parsed bytes with the '=' characters left
      off. The `expect` on each lookup cannot fire (every value is below
      64), and as every character is ASCII, `from_utf8_lossy` returns the
      bytes unchanged. */
  method FromHex(hex: seq<Byte>) returns (r: Result<seq<Byte>, Error>)
    requires |hex| % 2 == 0 ==> PairsValid(StripHexPrefix(hex))
    ensures r.Ok? <==> |hex| % 2 == 0
    ensures r.Err? ==> r.error == InvalidHexString
    ensures r.Ok? ==> var bytes := HexToBytes(hex).value;
      Base64.Encode(bytes) == Ok(r.value + Base64.Padding(Base64.PadLength(|bytes|)))
    ensures r.Ok? ==> forall i :: 0 <= i < |r.value| ==> InAlphabet(r.value[i]) && r.value[i] != Base64.PadByte
  {
    var bytes :- HexToBytes(hex);
    var bitvec := BytesToBits(bytes);
    var grouped := BitvecToBase64(bitvec);
    var values := grouped.value;
    var chars := seq(|values|, i requires 0 <= i < |values| => Base64Lookup(values[i]).value);
    EncodeWithoutPadding(bytes, bitvec + Zeros(6 * |values| - |bitvec|), values, chars);
    CharsInAlphabet(values, chars);
    return Ok(chars);
  }

  /** The grouped bits of `bytes`, looked up, are the codec's encoding of
      `bytes` before its '=' characters. */
  lemma EncodeWithoutPadding(bytes: seq<Byte>, padded: seq<bool>, values: seq<Byte>, chars: seq<Byte>)
    requires 8 * |bytes| <= 6 * |values| < 8 * |bytes| + 6
    requires padded == BytesToBits(bytes) + Zeros(6 * |values| - 8 * |bytes|)
    requires |padded| == 6 * |values| && |padded| % 6 == 0 && values == Sextets(padded)
    requires forall i :: 0 <= i < |values| ==> values[i] < 64
    requires |chars| == |values|
    requires forall i :: 0 <= i < |values| ==> chars[i] == AlphabetByte(values[i])
    ensures Base64.Encode(bytes) == Ok(chars + Base64.Padding(Base64.PadLength(|bytes|)))
  {
    var n := |bytes|;
    var p := Base64.PadLength(n);
    var q := PadGroups(n);
    SameFill(n, 6 * |values| - 8 * n, 2 * p, |values|, q);
    Base64.EncodeParts(bytes);
    LookupAllOf(values, chars);
  }

  /** Table characters are alphabet characters, none of them '='. */
  lemma CharsInAlphabet(values: seq<Byte>, chars: seq<Byte>)
    requires forall i :: 0 <= i < |values| ==> values[i] < 64
    requires |chars| == |values|
    requires forall i :: 0 <= i < |values| ==> chars[i] == AlphabetByte(values[i])
    ensures forall i :: 0 <= i < |chars| ==> InAlphabet(chars[i]) && chars[i] != Base64.PadByte
  {
    PadNotInAlphabet();
    forall i | 0 <= i < |chars|
      ensures InAlphabet(chars[i])
    {
      AlphabetRoundTrip(values[i]);
    }
  }

  /** The codec's `lookup` of values below 64 gives their table
      characters. */
  lemma LookupAllOf(values: seq<Byte>, chars: seq<Byte>)
    requires forall i :: 0 <= i < |values| ==> values[i] < 64
    requires |chars| == |values|
    requires forall i :: 0 <= i < |values| ==> chars[i] == AlphabetByte(values[i])
    ensures Base64.LookupAll(values) == Ok(chars)
  {
    var looked := Base64.LookupAll(values);
    forall i | 0 <= i < |values|
      ensures looked.value[i] == chars[i]
    {
      Base64.LookupUnfold(values[i]);
    }
    assert looked.value == chars;
  }

  /** For `n` bytes, bits and '=' characters' worth of zero bits together
      make `q` whole 6-bit groups. */
  lemma PadGroups(n: nat) returns (q: nat)
    ensures 8 * n + 2 * Base64.PadLength(n) == 6 * q && Base64.PadLength(n) < 3
  {
    Base64.FillFacts(n);
    q := (8 * n + 2 * Base64.PadLength(n)) / 6;
  }

  /** The zero fill that brings 8n bits to a multiple of six is unique. */
  lemma SameFill(n: nat, k: nat, f: nat, q: nat, q2: nat)
    requires k < 6 && f < 6
    requires 8 * n + k == 6 * q && 8 * n + f == 6 * q2
    ensures k == f
  {
  }
}
