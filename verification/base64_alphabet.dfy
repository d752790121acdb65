/** The base64 alphabet of section 4 of RFC 4648 (Table 1), as both
    codecs of the repository spell it out in a 64-entry table, and the
    `position` search the decoder runs over it. */
module Base64Alphabet {
  import opened Bits
  import opened Results

  /** Entry `i` of the table: 'A'..'Z', 'a'..'z', '0'..'9', '+', '/'. */
  function AlphabetChar(i: nat): char
    requires i < 64
  {
    if i < 26 then ('A' as int + i) as char
    else if i < 52 then ('a' as int + (i - 26)) as char
    else if i < 62 then ('0' as int + (i - 52)) as char
    else if i == 62 then '+'
    else '/'
  }

  /** `BASE64_LOOKUP_TABLE` (and the local `table` of `base64_lookup`). */
  function Table(): (r: seq<char>)
    ensures |r| == 64
    ensures forall i :: 0 <= i < 64 ==> r[i] == AlphabetChar(i)
  {
    seq(64, i requires 0 <= i < 64 => AlphabetChar(i))
  }

  /** The table written out: the 26 capitals, */
  lemma TableUpper()
    ensures Table()[..26] == "ABCDEFGHIJKLMNOPQRSTUVWXYZ"
  {
  }

  /** the 26 small letters, */
  lemma TableLower()
    ensures Table()[26..52] == "abcdefghijklmnopqrstuvwxyz"
  {
  }

  /** then the digits, '+' and '/'. */
  lemma TableDigits()
    ensures Table()[52..] == "0123456789+/"
  {
  }

  /** Table entry `v` as a byte (`as u8`): the same ranges in ASCII. */
  function AlphabetByte(v: Byte): Byte
    requires v < 64
  {
    if v < 26 then 0x41 + v
    else if v < 52 then 0x61 + (v - 26)
    else if v < 62 then 0x30 + (v - 52)
    else if v == 62 then 0x2B
    else 0x2F
  }

  /** The byte is the code of the table's character. */
  lemma AlphabetByteIsTableChar(v: Byte)
    requires v < 64
    ensures AlphabetByte(v) as int == Table()[v as int] as int
  {
  }

  /** The table as bytes, which is how both codecs compare and emit its
      characters (all of them ASCII). */
  function TableBytes(): (r: seq<Byte>)
    ensures |r| == 64
    ensures forall i :: 0 <= i < 64 ==> r[i] == AlphabetByte(i as Byte)
  {
    seq(64, i requires 0 <= i < 64 => AlphabetByte(i as Byte))
  }

  /** The bytes of the table's characters. */
  predicate InAlphabet(b: Byte)
  {
    0x41 <= b <= 0x5A || 0x61 <= b <= 0x7A || 0x30 <= b <= 0x39 || b == 0x2B || b == 0x2F
  }

  /** Where a table byte sits in the table. */
  function AlphabetIndex(b: Byte): (r: Byte)
    requires InAlphabet(b)
    ensures r < 64 && AlphabetByte(r) == b
  {
    if 0x41 <= b <= 0x5A then b - 0x41
    else if 0x61 <= b <= 0x7A then b - 0x61 + 26
    else if 0x30 <= b <= 0x39 then b - 0x30 + 52
    else if b == 0x2B then 62
    else 63
  }

  /** Every entry is a table byte and no byte occurs twice, so
      `AlphabetIndex` inverts `AlphabetByte`. */
  lemma AlphabetRoundTrip(v: Byte)
    requires v < 64
    ensures InAlphabet(AlphabetByte(v)) && AlphabetIndex(AlphabetByte(v)) == v
  {
  }

  /** The padding character '=' (0x3D) is not in the table. */
  lemma PadNotInAlphabet()
    ensures !InAlphabet(0x3D)
  {
  }

  /** `iter().position(|&x| x == v)`: the first index holding `v`. */
  function Position<T(==)>(s: seq<T>, v: T): (r: Option<nat>)
    ensures r.Some? ==> r.value < |s| && s[r.value] == v
    ensures r.Some? ==> forall j :: 0 <= j < r.value ==> s[j] != v
    ensures r.None? <==> forall j :: 0 <= j < |s| ==> s[j] != v
  {
    if s == [] then None
    else if s[0] == v then Some(0)
    else match Position(s[1..], v)
      case None => None
      case Some(p) => Some(p + 1)
  }

  /** Searching the table finds exactly the table bytes, at their index. */
  lemma PositionInTable(b: Byte)
    ensures Position(TableBytes(), b) == if InAlphabet(b) then Some(AlphabetIndex(b) as nat) else None
  {
    if InAlphabet(b) {
      PositionOfTableByte(b);
    } else {
      forall j | 0 <= j < 64
        ensures TableBytes()[j] != b
      {
        TableByteInAlphabet(j);
      }
    }
  }

  lemma PositionOfTableByte(b: Byte)
    requires InAlphabet(b)
    ensures Position(TableBytes(), b) == Some(AlphabetIndex(b) as nat)
  {
    var k := AlphabetIndex(b);
    TableByteAt(k);
    var p := Position(TableBytes(), b).value;
    TableByteInAlphabet(p);
  }

  lemma TableByteAt(v: Byte)
    requires v < 64
    ensures TableBytes()[v as int] == AlphabetByte(v)
  {
  }

  lemma TableByteInAlphabet(j: nat)
    requires j < 64
    ensures InAlphabet(TableBytes()[j]) && AlphabetIndex(TableBytes()[j]) as nat == j
  {
    var v := j as Byte;
    NatByteNat(j);
    TableByteAt(v);
    AlphabetRoundTrip(v);
  }

  lemma NatByteNat(j: nat)
    requires j < 64
    ensures (j as Byte) as nat == j
  {
  }
}
