/** `Base64` of the `base64` tool: padded encoding and decoding of byte
    vectors over the alphabet of section 4 of RFC 4648. Bits are taken
    most significant first (`BitVec<u8, Msb0>`). */
module Base64 {
  import opened Bits
  import opened Results
  import opened Base64Alphabet
  import opened BitGroups

  /** The `Base64Error` the codec itself raises. */
  datatype Error = LookupFailed

  /** `'=' as u8`. */
  const PadByte: Byte := 0x3D

  // ---------------------------------------------------------------------
  // lookup and reverse_lookup
  // ---------------------------------------------------------------------

  /** `lookup`: table entry `index` as a byte, or `LookupFailed` past the
      end of the table. Kept behind three steps of recursion, like
      `ReverseLookup` below; `LookupUnfold` gives the entry. */
  function Lookup(index: Byte): (r: Result<Byte, Error>)
    ensures r.Ok? <==> index < 64
  {
    LookupAt(index, 3)
  }

  function LookupAt(index: Byte, depth: nat): (r: Result<Byte, Error>)
    ensures r.Ok? <==> index < 64
  {
    if depth > 0 then LookupAt(index, depth - 1)
    else if index < 64 then Ok(TableBytes()[index as int]) else Err(LookupFailed)
  }

  /** The entry `lookup` returns is the alphabet character of the index. */
  lemma LookupUnfold(index: Byte)
    requires index < 64
    ensures Lookup(index) == Ok(AlphabetByte(index))
  {
    assert Lookup(index) == LookupAt(index, 2);
    assert LookupAt(index, 2) == LookupAt(index, 0);
    TableByteAt(index);
  }

  /** `reverse_lookup`: 65 for '=', the table position of a table
      character, `LookupFailed` for anything else. The search is kept
      behind three steps of recursion, as `ToBeBytes` is, so that proofs
      about decoding see it only through `ReverseLookupCases` and
      `ReverseLookupOfLookup`. */
  function ReverseLookup(output: Byte): (r: Result<Byte, Error>)
  {
    ReverseLookupAt(output, 3)
  }

  function ReverseLookupAt(output: Byte, depth: nat): (r: Result<Byte, Error>)
  {
    if depth > 0 then ReverseLookupAt(output, depth - 1)
    else if output == PadByte then Ok(65)
    else match Position(TableBytes(), output)
      case None => Err(LookupFailed)
      case Some(p) => Ok(p as Byte)
  }

  lemma ReverseLookupUnfold(output: Byte)
    ensures ReverseLookup(output) ==
      if output == PadByte then Ok(65)
      else match Position(TableBytes(), output)
        case None => Err(LookupFailed)
        case Some(p) => Ok(p as Byte)
  {
    assert ReverseLookup(output) == ReverseLookupAt(output, 2);
    assert ReverseLookupAt(output, 2) == ReverseLookupAt(output, 0);
  }

  /** `reverse_lookup` succeeds exactly on '=' and the table characters,
      and for a table character it gives the index `lookup` maps back to
      that character. */
  lemma ReverseLookupCases(output: Byte)
    ensures ReverseLookup(output).Ok? <==> output == PadByte || InAlphabet(output)
    ensures output == PadByte ==> ReverseLookup(output) == Ok(65)
    ensures output != PadByte && ReverseLookup(output).Ok?
        ==> ReverseLookup(output).value < 64 && Lookup(ReverseLookup(output).value) == Ok(output)
  {
    ReverseLookupUnfold(output);
    PadNotInAlphabet();
    PositionInTable(output);
    if output != PadByte && InAlphabet(output) {
      LookupUnfold(AlphabetIndex(output));
    }
  }

  /** `reverse_lookup` inverts `lookup` on 0 .. 63. */
  lemma ReverseLookupOfLookup(index: Byte)
    requires index < 64
    ensures ReverseLookup(Lookup(index).value) == Ok(index)
  {
    LookupUnfold(index);
    var c := Lookup(index).value;
    ReverseLookupUnfold(c);
    AlphabetRoundTrip(index);
    PadNotInAlphabet();
    PositionInTable(c);
  }

  // ---------------------------------------------------------------------
  // encode
  // ---------------------------------------------------------------------

  /** The number of zero bits `encode` pushes onto a bit string of length
      `n` to reach a multiple of 6. */
  function FillBits(n: nat): (r: nat)
    ensures r < 6
  {
    if n % 6 != 0 then 6 - n % 6 else 0
  }

  /** `n` padding characters. */
  function Padding(n: nat): (r: seq<Byte>)
    ensures |r| == n && forall i :: 0 <= i < n ==> r[i] == PadByte
  {
    seq(n, _ => PadByte)
  }

  /** `lookup` of each value in order; the first failure is returned. */
  function LookupAll(values: seq<Byte>): (r: Result<seq<Byte>, Error>)
    ensures r.Ok? <==> forall i :: 0 <= i < |values| ==> values[i] < 64
    ensures r.Ok? ==> |r.value| == |values|
    ensures r.Ok? ==> forall i :: 0 <= i < |values| ==> Lookup(values[i]) == Ok(r.value[i])
  {
    if values == [] then Ok([])
    else
      var c :- Lookup(values[0]);
      var rest :- LookupAll(values[1..]);
      assert forall i :: 1 <= i < |values| ==> values[1..][i - 1] == values[i];
      Ok([c] + rest)
  }

  /** `encode`: the input's bits, zero bits up to a multiple of 6, one
      character per 6-bit group, then one '=' per two zero bits. */
  function Encode(input: seq<Byte>): (r: Result<seq<Byte>, Error>)
  {
    var bits := BytesToBits(input);
    var fill := FillBits(|bits|);
    var paddingLength := fill / 2;
    var output :- LookupAll(Sextets(bits + Zeros(fill)));
    Ok(output + Padding(paddingLength))
  }

  /** The number of '=' characters for an input of `n` bytes. */
  function PadLength(n: nat): nat
  {
    if n % 3 == 0 then 0 else 3 - n % 3
  }

  /** For `n` bytes: 0, 4 or 2 zero bits when n % 3 is 0, 1 or 2; the bits
      then split into groups of 6, and groups plus padding characters come
      to 4 * ceil(n / 3). */
  lemma FillFacts(n: nat)
    ensures FillBits(8 * n) == 2 * PadLength(n)
    ensures (8 * n + FillBits(8 * n)) % 6 == 0
    ensures (8 * n + 2 * PadLength(n)) % 6 == 0
    ensures (8 * n + FillBits(8 * n)) / 6 + PadLength(n) == 4 * ((n + 2) / 3)
  {
    var q := n / 3;
    if n % 3 == 0 {
      FillFactsCase(n, q, 0);
    } else if n % 3 == 1 {
      FillFactsCase(n, q, 1);
    } else {
      FillFactsCase(n, q, 2);
    }
  }

  /** `FillFacts` for one residue `r` of `n` modulo 3. */
  lemma FillFactsCase(n: nat, q: nat, r: nat)
    requires n == 3 * q + r && r < 3
    ensures FillBits(8 * n) == 2 * PadLength(n)
    ensures (8 * n + FillBits(8 * n)) % 6 == 0
    ensures (8 * n + 2 * PadLength(n)) % 6 == 0
    ensures (8 * n + FillBits(8 * n)) / 6 + PadLength(n) == 4 * ((n + 2) / 3)
  {
    DivMod3(n, q, r);
    if r == 0 {
      DivMod6(8 * n, 4 * q, 0);
      DivMod3(n + 2, q, 2);
    } else if r == 1 {
      DivMod6(8 * n, 4 * q + 1, 2);
      DivMod6(8 * n + 4, 4 * q + 2, 0);
      DivMod3(n + 2, q + 1, 0);
    } else {
      DivMod6(8 * n, 4 * q + 2, 4);
      DivMod6(8 * n + 2, 4 * q + 3, 0);
      DivMod3(n + 2, q + 1, 1);
    }
  }

  /** Euclidean division by 6 has a unique quotient and remainder. */
  lemma DivMod6(x: int, k: int, m: int)
    requires x == 6 * k + m && 0 <= m < 6
    ensures x / 6 == k && x % 6 == m
  {
  }

  /** Euclidean division by 3 has a unique quotient and remainder. */
  lemma DivMod3(x: int, k: int, m: int)
    requires x == 3 * k + m && 0 <= m < 3
    ensures x / 3 == k && x % 3 == m
  {
  }

  /** `encode` never fails, and its output is the characters of the 6-bit
      groups followed by the padding: `"=="` when n % 3 == 1, `"="` when
      n % 3 == 2, none otherwise, for 4 * ceil(n / 3) characters in all. */
  lemma EncodeShape(input: seq<Byte>)
    ensures Encode(input).Ok?
    ensures var out, k := Encode(input).value, PadLength(|input|);
      |out| == 4 * ((|input| + 2) / 3)
      && (forall i :: 0 <= i < |out| - k ==> InAlphabet(out[i]))
      && (forall i :: |out| - k <= i < |out| ==> out[i] == PadByte)
  {
    var bits := BytesToBits(input);
    FillFacts(|input|);
    var padded := bits + Zeros(FillBits(|bits|));
    var values := Sextets(padded);
    AllSextetsBelow64(padded);
    var chars := LookupAll(values).value;
    forall i | 0 <= i < |chars|
      ensures InAlphabet(chars[i])
    {
      LookupUnfold(values[i]);
      AlphabetRoundTrip(values[i]);
    }
  }

  /** Character `i` before the padding encodes bits 6i .. 6i + 5 of the
      input's bits followed by the zero fill, most significant first. */
  lemma EncodedChar(input: seq<Byte>, i: nat)
    requires i < 4 * ((|input| + 2) / 3) - PadLength(|input|)
    ensures Encode(input).Ok? && i < |Encode(input).value|
    ensures ReverseLookup(Encode(input).value[i]).Ok?
    ensures var bits := BytesToBits(input) + Zeros(FillBits(8 * |input|));
      6 * i + 6 <= |bits|
      && ByteBits(ReverseLookup(Encode(input).value[i]).value)[2..] == bits[6 * i .. 6 * i + 6]
  {
    EncodeShape(input);
    FillFacts(|input|);
    var padded := BytesToBits(input) + Zeros(FillBits(8 * |input|));
    var values := Sextets(padded);
    SextetsBelow64(padded, i);
    SextetsIndex(padded, i);
    PackSixBits(padded[6 * i .. 6 * i + 6]);
    ReverseLookupOfLookup(values[i]);
  }

  // ---------------------------------------------------------------------
  // decode
  // ---------------------------------------------------------------------

  /** The number of characters from the first '=' on, zero without one;
      `decode` sets `padding_length` to twice this. */
  function PadCount(input: seq<Byte>): (k: nat)
    ensures k <= |input|
  {
    match Position(input, PadByte)
      case None => 0
      case Some(p) => |input| - p
  }

  /** The length conditions under which the bit phase of `decode` does not
      panic, for `n` looked-up values of which the last `k` are padding:
      the dropped filler bits do not exceed the kept bits (else
      `tmp_input.len() - padding_length` underflows), and the last 8-bit
      group read lies inside the kept bits (else the index panics). */
  predicate BitsFit(n: nat, k: nat)
  {
    k <= n && 2 * k <= 6 * (n - k) && 8 * Groups(6 * (n - k) - 2 * k) <= 6 * (n - k)
  }

  /** The inputs `decode` accepts without panicking: every character is a
      table character or '=' (else the `unwrap` of `reverse_lookup`
      panics), and the bit phase fits. */
  predicate Decodable(input: seq<Byte>)
  {
    (forall i :: 0 <= i < |input| ==> ReverseLookup(input[i]).Ok?)
    && BitsFit(|input|, PadCount(input))
  }

  /** `decode` accepts only table characters and '='. */
  lemma DecodableChars(input: seq<Byte>)
    requires Decodable(input)
    ensures forall i :: 0 <= i < |input| ==> input[i] == PadByte || InAlphabet(input[i])
  {
    forall i | 0 <= i < |input|
      ensures input[i] == PadByte || InAlphabet(input[i])
    {
      ReverseLookupCases(input[i]);
    }
  }

  /** The looked-up value of every character; `decode` unwraps each. */
  function DecodeValues(input: seq<Byte>): (r: seq<Byte>)
    requires forall i :: 0 <= i < |input| ==> ReverseLookup(input[i]).Ok?
    ensures |r| == |input|
    ensures forall i :: 0 <= i < |input| ==> Ok(r[i]) == ReverseLookup(input[i])
  {
    seq(|input|, i requires 0 <= i < |input| => ReverseLookup(input[i]).value)
  }

  /** The bit phase of `decode`, on the looked-up values with
      `padding_length` = 2k: the low six bits of every value, without the
      last 6k of them, read in 8-bit groups up to 2k bits before the end. */
  function DecodeBits(values: seq<Byte>, k: nat): (r: seq<Byte>)
    requires BitsFit(|values|, k)
  {
    DecodeBitsAt(values, k, 3)
  }

  /** `DecodeBits` behind three steps of recursion, as `ToBeBytes` is:
      proofs see the bit groups only through `DecodeBitsUnfold`. */
  function DecodeBitsAt(values: seq<Byte>, k: nat, depth: nat): (r: seq<Byte>)
    requires BitsFit(|values|, k)
  {
    if depth > 0 then DecodeBitsAt(values, k, depth - 1)
    else
      var paddingLength := 2 * k;
      var low := LowSixBits(values);
      var kept := low[..|low| - (paddingLength / 2) * 6];
      Octets(kept, |kept| - paddingLength)
  }

  /** The bit phase keeps the first 6(n - k) low bits of the `n` values
      and reads them in 8-bit groups up to 2k bits before their end. */
  lemma DecodeBitsUnfold(values: seq<Byte>, k: nat)
    requires BitsFit(|values|, k)
    ensures var m := 6 * (|values| - k);
      m <= |LowSixBits(values)| && 2 * k <= m && 8 * Groups(m - 2 * k) <= m
      && DecodeBits(values, k) == Octets(LowSixBits(values)[..m], m - 2 * k)
  {
    assert DecodeBits(values, k) == DecodeBitsAt(values, k, 2);
    assert DecodeBitsAt(values, k, 2) == DecodeBitsAt(values, k, 0);
    assert (2 * k) / 2 * 6 == 6 * k;
  }

  /** `decode`: look up every character, then the bit phase with twice the
      pad count as `padding_length`. */
  function Decode(input: seq<Byte>): (r: Result<seq<Byte>, Error>)
    requires Decodable(input)
  {
    Ok(DecodeBits(DecodeValues(input), PadCount(input)))
  }

  /** The empty input decodes to the empty output. */
  lemma DecodeEmpty()
    ensures Decodable([]) && Decode([]) == Ok([])
  {
    assert PadCount([]) == 0;
    assert Decodable([]);
    assert DecodeValues([]) == [];
    DecodeBitsUnfold([], 0);
  }

  /** Characters followed by `p` padding characters, none of the
      characters being '=', have a pad count of `p`. */
  lemma PadCountPadded(chars: seq<Byte>, p: nat)
    requires forall j :: 0 <= j < |chars| ==> chars[j] != PadByte
    ensures PadCount(chars + Padding(p)) == p
  {
    var out := chars + Padding(p);
    assert forall j :: 0 <= j < |chars| ==> out[j] != PadByte;
    if p > 0 {
      assert out[|chars|] == PadByte;
    }
  }

  /** What `reverse_lookup` gives for `p` padding characters. */
  function PadValues(p: nat): (r: seq<Byte>)
    ensures |r| == p && forall i :: 0 <= i < p ==> r[i] == 65
  {
    seq(p, _ => 65)
  }

  /** The characters of 6-bit values followed by `p` padding characters
      look up to the values followed by `p` times 65. */
  lemma DecodeValuesPadded(values: seq<Byte>, p: nat)
    requires forall i :: 0 <= i < |values| ==> values[i] < 64
    ensures var out := LookupAll(values).value + Padding(p);
      (forall i :: 0 <= i < |out| ==> ReverseLookup(out[i]).Ok?)
      && DecodeValues(out) == values + PadValues(p)
  {
    var chars := LookupAll(values).value;
    var out := chars + Padding(p);
    forall i | 0 <= i < |out|
      ensures ReverseLookup(out[i]) == Ok((values + PadValues(p))[i])
    {
      if i < |chars| {
        ReverseLookupOfLookup(values[i]);
      } else {
        ReverseLookupCases(PadByte);
      }
    }
  }

  /** Lookups of 6-bit values are never '='. */
  lemma LookupsNotPad(values: seq<Byte>)
    requires forall i :: 0 <= i < |values| ==> values[i] < 64
    ensures forall j :: 0 <= j < |LookupAll(values).value| ==> LookupAll(values).value[j] != PadByte
  {
    var chars := LookupAll(values).value;
    forall j | 0 <= j < |chars|
      ensures chars[j] != PadByte
    {
      ReverseLookupOfLookup(values[j]);
    }
  }

  /** `BitsFit` in terms of the kept bit count `len` and the bit count
      `m` read in groups. */
  lemma BitsFitOf(n: nat, k: nat, len: nat, m: nat)
    requires k <= n && 6 * (n - k) == len
    requires m + 2 * k == len && 8 * Groups(m) <= len
    ensures BitsFit(n, k)
  {
    assert 6 * (n - k) - 2 * k == m;
  }

  /** Equal bit strings read up to equal lengths give equal groups. */
  lemma OctetsCongruent(a: seq<bool>, b: seq<bool>, m: nat, m': nat)
    requires a == b && m == m' && 8 * Groups(m) <= |a|
    ensures Octets(a, m) == Octets(b, m')
  {
  }

  /** The bit phase, given the kept bits and the count read in groups. */
  lemma DecodeBitsOf(values: seq<Byte>, k: nat, kept: seq<bool>, m: nat)
    requires BitsFit(|values|, k)
    requires 6 * (|values| - k) <= |LowSixBits(values)|
    requires LowSixBits(values)[..6 * (|values| - k)] == kept
    requires 6 * (|values| - k) - 2 * k == m
    ensures 8 * Groups(m) <= |kept|
    ensures DecodeBits(values, k) == Octets(kept, m)
  {
    DecodeBitsUnfold(values, k);
    OctetsCongruent(LowSixBits(values)[..6 * (|values| - k)], kept, 6 * (|values| - k) - 2 * k, m);
  }

  /** The bit phase on 6-bit values whose low bits are `padded`, followed
      by `p` pad values, drops exactly the pad values' bits and reads
      `padded` up to `m` = |padded| - 2p bits. */
  lemma DecodeBitsPadded(values: seq<Byte>, padded: seq<bool>, p: nat, m: nat)
    requires LowSixBits(values) == padded
    requires m + 2 * p == |padded| && 8 * Groups(m) <= |padded|
    ensures BitsFit(|values + PadValues(p)|, p)
    ensures DecodeBits(values + PadValues(p), p) == Octets(padded, m)
  {
    var q := values + PadValues(p);
    var n := |q|;
    assert 6 * (n - p) == |padded|;
    BitsFitOf(n, p, |padded|, m);
    LowSixBitsAppend(values, PadValues(p));
    assert LowSixBits(q)[..6 * (n - p)] == padded;
    DecodeBitsOf(q, p, padded, m);
  }

  /** `decode` of characters that all look up, with pad count `k` and
      looked-up values `values`, is the bit phase on those values. */
  lemma DecodeIs(out: seq<Byte>, values: seq<Byte>, k: nat)
    requires forall i :: 0 <= i < |out| ==> ReverseLookup(out[i]).Ok?
    requires PadCount(out) == k && DecodeValues(out) == values && BitsFit(|values|, k)
    ensures Decodable(out) && Decode(out) == Ok(DecodeBits(values, k))
  {
  }

  /** The characters of 6-bit values followed by `p` padding characters:
      every one looks up, `p` of them are padding, and the looked-up
      values are the 6-bit values followed by `p` pad values. */
  lemma EncodedValues(values: seq<Byte>, p: nat)
    requires forall i :: 0 <= i < |values| ==> values[i] < 64
    ensures var out := LookupAll(values).value + Padding(p);
      (forall i :: 0 <= i < |out| ==> ReverseLookup(out[i]).Ok?)
      && PadCount(out) == p
      && DecodeValues(out) == values + PadValues(p)
  {
    LookupsNotPad(values);
    PadCountPadded(LookupAll(values).value, p);
    DecodeValuesPadded(values, p);
  }

  /** The encoding of a bit string whose length is a multiple of 6,
      followed by `p` padding characters, decodes to the string's 8-bit
      groups up to `m` = |padded| - 2p bits, when those groups fit. */
  lemma DecodeSextets(padded: seq<bool>, p: nat, m: nat)
    requires |padded| % 6 == 0
    requires m + 2 * p == |padded| && 8 * Groups(m) <= |padded|
    ensures LookupAll(Sextets(padded)).Ok?
    ensures var out := LookupAll(Sextets(padded)).value + Padding(p);
      Decodable(out) && Decode(out) == Ok(Octets(padded, m))
  {
    var sextets := Sextets(padded);
    AllSextetsBelow64(padded);
    EncodedValues(sextets, p);
    var out := LookupAll(sextets).value + Padding(p);
    LowSixBitsOfSextets(padded);
    DecodeBitsPadded(sextets, padded, p, m);
    DecodeIs(out, sextets + PadValues(p), p);
  }

  /** `encode`'s output is the characters of the 6-bit groups of the
      zero-filled bits followed by `PadLength` padding characters. */
  lemma EncodeParts(input: seq<Byte>)
    ensures var padded := BytesToBits(input) + Zeros(2 * PadLength(|input|));
      |padded| % 6 == 0 && LookupAll(Sextets(padded)).Ok?
      && Encode(input) == Ok(LookupAll(Sextets(padded)).value + Padding(PadLength(|input|)))
  {
    var bits := BytesToBits(input);
    var p := PadLength(|input|);
    FillFacts(|input|);
    assert |bits| == 8 * |input|;
    assert FillBits(|bits|) == 2 * p;
    var padded := bits + Zeros(2 * p);
    assert |padded| == 8 * |input| + 2 * p;
    AllSextetsBelow64(padded);
    assert (2 * p) / 2 == p;
  }

  /** Decoding undoes encoding, for every byte sequence. */
  lemma DecodeEncode(input: seq<Byte>)
    ensures Encode(input).Ok?
    ensures Decodable(Encode(input).value)
    ensures Decode(Encode(input).value) == Ok(input)
  {
    var p := PadLength(|input|);
    var padded := BytesToBits(input) + Zeros(2 * p);
    EncodeParts(input);
    GroupsOfBytes(|input|);
    OctetsOfBytes(input, Zeros(2 * p));
    DecodeSextets(padded, p, 8 * |input|);
  }
}
