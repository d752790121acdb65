/** Regrouping bit strings the way both base64 codecs do: the 6-bit groups
    the encoders accumulate, the low six bits of each decoded value, and
    the 8-bit groups the decoder accumulates. */
module BitGroups {
  import opened Bits

  /** The values of the consecutive 6-bit groups of `bits`, each
      accumulated most significant bit first. */
  function Sextets(bits: seq<bool>): (r: seq<Byte>)
    requires |bits| % 6 == 0
    ensures |r| == |bits| / 6
    decreases |bits|
  {
    if bits == [] then [] else [PackBits(bits[..6])] + Sextets(bits[6..])
  }

  /** Value `i` comes from bits 6i .. 6i + 5. */
  lemma {:induction false} SextetsIndex(bits: seq<bool>, i: nat)
    requires |bits| % 6 == 0 && i < |bits| / 6
    ensures Sextets(bits)[i] == PackBits(bits[6 * i .. 6 * i + 6])
  {
    var q := |bits| / 6;
    assert |bits| == 6 * q;
    if i > 0 {
      var rest := bits[6..];
      assert |rest| == 6 * (q - 1);
      assert |rest| % 6 == 0 && |rest| / 6 == q - 1;
      SextetsIndex(rest, i - 1);
      assert 6 * i == 6 * (i - 1) + 6;
      assert rest[6 * (i - 1) .. 6 * (i - 1) + 6] == bits[6 * i .. 6 * i + 6];
    }
  }

  /** Every value is below 64, so it indexes the alphabet. */
  lemma SextetsBelow64(bits: seq<bool>, i: nat)
    requires |bits| % 6 == 0 && i < |bits| / 6
    ensures Sextets(bits)[i] < 64
  {
    SextetsIndex(bits, i);
    PackSixBits(bits[6 * i .. 6 * i + 6]);
  }

  lemma AllSextetsBelow64(bits: seq<bool>)
    requires |bits| % 6 == 0
    ensures forall i :: 0 <= i < |Sextets(bits)| ==> Sextets(bits)[i] < 64
  {
    forall i | 0 <= i < |Sextets(bits)|
      ensures Sextets(bits)[i] < 64
    {
      SextetsBelow64(bits, i);
    }
  }

  /** Bits 2 .. 7 of every value, concatenated: what the decoder keeps of
      each looked-up character. */
  function LowSixBits(values: seq<Byte>): (r: seq<bool>)
    ensures |r| == 6 * |values|
  {
    if values == [] then [] else ByteBits(values[0])[2..] + LowSixBits(values[1..])
  }

  lemma {:induction false} LowSixBitsAppend(a: seq<Byte>, b: seq<Byte>)
    ensures LowSixBits(a + b) == LowSixBits(a) + LowSixBits(b)
  {
    if a == [] {
      assert a + b == b;
    } else {
      assert (a + b)[0] == a[0];
      assert (a + b)[1..] == a[1..] + b;
      LowSixBitsAppend(a[1..], b);
    }
  }

  /** Keeping the low six bits of each 6-bit group value gives back the
      bits the groups were read from. */
  lemma {:induction false} LowSixBitsOfSextets(bits: seq<bool>)
    requires |bits| % 6 == 0
    ensures LowSixBits(Sextets(bits)) == bits
    decreases |bits|
  {
    if bits != [] {
      var v := Sextets(bits);
      assert v[0] == PackBits(bits[..6]);
      assert v[1..] == Sextets(bits[6..]);
      PackSixBits(bits[..6]);
      LowSixBitsOfSextets(bits[6..]);
      assert bits == bits[..6] + bits[6..];
    }
  }

  /** The number of 8-bit groups the loop `for x in (0..m).step_by(8)`
      visits: one for each of x = 0, 8, 16, ... below `m`. */
  function Groups(m: nat): (g: nat)
    decreases m
  {
    if m == 0 then 0 else 1 + Groups(if m <= 8 then 0 else m - 8)
  }

  /** The group count is `m` divided by 8, rounded up. */
  lemma {:induction false} GroupsIsCeiling(m: nat)
    ensures Groups(m) == (m + 7) / 8
    decreases m
  {
    if m > 8 {
      GroupsIsCeiling(m - 8);
    }
  }

  /** A whole number of bytes' worth of bits is that many groups. */
  lemma {:induction false} GroupsOfBytes(n: nat)
    ensures Groups(8 * n) == n
  {
    if n > 0 {
      GroupsOfBytes(n - 1);
      assert 8 * n - 8 == 8 * (n - 1);
    }
  }

  /** The values of the 8-bit groups that start at bits 0, 8, 16, ... below
      `m` (the loop `for x in (0..m).step_by(8)` reading bits x .. x + 7),
      each accumulated most significant bit first. A group may run past
      `m` but not past the end of `bits`. */
  function Octets(bits: seq<bool>, m: nat): (r: seq<Byte>)
    requires 8 * Groups(m) <= |bits|
    ensures |r| == Groups(m)
    decreases m
  {
    if m == 0 then [] else [PackBits(bits[..8])] + Octets(bits[8..], if m <= 8 then 0 else m - 8)
  }

  /** Reading the bits of a byte sequence back in 8-bit groups gives the
      bytes, whatever follows them. */
  lemma {:induction false} OctetsOfBytes(s: seq<Byte>, extra: seq<bool>)
    ensures 8 * Groups(8 * |s|) <= |BytesToBits(s) + extra|
    ensures Octets(BytesToBits(s) + extra, 8 * |s|) == s
  {
    GroupsOfBytes(|s|);
    if s != [] {
      var bits, tail := BytesToBits(s) + extra, BytesToBits(s[1..]) + extra;
      assert bits == ByteBits(s[0]) + tail;
      OctetsCons(bits, 8 * |s|, s[0], tail);
      OctetsOfBytes(s[1..], extra);
    }
  }

  /** One byte's bits in front: the first group is that byte. */
  lemma OctetsCons(bits: seq<bool>, m: nat, b: Byte, tail: seq<bool>)
    requires m >= 8 && 8 * Groups(m) <= |bits|
    requires bits == ByteBits(b) + tail
    ensures Octets(bits, m) == [b] + Octets(tail, m - 8)
  {
    assert bits[..8] == ByteBits(b) && bits[8..] == tail;
    PackByteBits(b);
  }
}
