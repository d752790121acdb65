/** `split_into_blocks` of the ECB script (set-1/challenge-7.py): the
    plaintext, when its length is not a multiple of the block length, is
    padded in place with copies of the pad count, then cut into slices of
    the block length. */
module BlockSplit {
  import opened Bits
  import opened ByteBlocks

  /** Consecutive slices of width `w`, the last one shorter when `w` does
      not divide the length: the list comprehension
      `[s[x : x + w] for x in range(0, len(s), w)]`. */
  function Slices(s: seq<Byte>, w: nat): (r: seq<seq<Byte>>)
    requires w > 0
    ensures Flatten(r) == s
    ensures forall i :: 0 <= i < |r| ==> 0 < |r[i]| <= w
    ensures forall i :: 0 <= i < |r| - 1 ==> |r[i]| == w
    decreases |s|
  {
    if s == [] then []
    else if |s| <= w then
      FlattenCons(s, []);
      [s]
    else
      var rest := Slices(s[w..], w);
      FlattenCons(s[..w], rest);
      assert s == s[..w] + s[w..];
      [s[..w]] + rest
  }

  /** A length of `n` whole blocks gives exactly `n` slices. */
  lemma {:induction false} SlicesOfMultiple(s: seq<Byte>, w: nat, n: nat)
    requires w > 0 && |s| == n * w
    ensures |Slices(s, w)| == n
    ensures forall i :: 0 <= i < n ==> |Slices(s, w)[i]| == w
    decreases n
  {
    if n == 1 {
      assert |s| == w;
    } else if n > 1 {
      var m := n - 1;
      assert n * w == m * w + w;
      MulMono(1, m, w);
      SlicesStep(s, w);
      SlicesOfMultiple(s[w..], w, m);
    }
  }

  /** The caller's bytearray after the call (it is padded in place) and
      the returned blocks. */
  datatype Split = Split(plaintext: seq<Byte>, blocks: seq<seq<Byte>>)

  /** `n` copies of the byte `n`. */
  function PadBytes(n: nat): (r: seq<Byte>)
    requires n < 256
    ensures |r| == n
  {
    seq(n, _ => n as Byte)
  }

  /** The plaintext followed by `missing` copies of `missing`. */
  lemma PaddedFacts(plaintext: seq<Byte>, missing: nat, padded: seq<Byte>)
    requires missing < 256 && padded == plaintext + PadBytes(missing)
    ensures |padded| == |plaintext| + missing && padded[..|plaintext|] == plaintext
    ensures forall i :: |plaintext| <= i < |padded| ==> padded[i] == missing as Byte
  {
    assert padded[..|plaintext|] == plaintext;
  }

  /** `split_into_blocks` as written: the pad count is `16 - len %
      byteLength` whatever the block length is. Python's `%` by a negative
      length is never positive and `range` with a negative step from 0
      up to the length is empty, so a negative length pads nothing and
      gives no blocks; a zero length raises in the source. A pad count
      that is not positive appends nothing, as `range` of it is empty. The
      result keeps the plaintext as a prefix, pads with copies of the
      count, and its blocks are the slices of the padded plaintext. */
  function SplitIntoBlocks(plaintext: seq<Byte>, byteLength: int): (r: Split)
    requires byteLength != 0
    ensures |plaintext| <= |r.plaintext| < |plaintext| + 16 && r.plaintext[..|plaintext|] == plaintext
    ensures forall i :: |plaintext| <= i < |r.plaintext| ==> r.plaintext[i] == (|r.plaintext| - |plaintext|) as Byte
    ensures byteLength > 0 ==>
      |r.plaintext| == |plaintext| + (if 0 < |plaintext| % byteLength < 16 then 16 - |plaintext| % byteLength else 0)
    ensures byteLength > 0 ==> r.blocks == Slices(r.plaintext, byteLength)
    ensures byteLength > 0 ==> Flatten(r.blocks) == r.plaintext
    ensures byteLength < 0 ==> r == Split(plaintext, [])
  {
    if byteLength < 0 then
      assert plaintext[..|plaintext|] == plaintext;
      Split(plaintext, [])
    else
      var rem := |plaintext| % byteLength;
      var missing := if rem > 0 && 16 - rem > 0 then 16 - rem else 0;
      var padded := plaintext + PadBytes(missing);
      PaddedFacts(plaintext, missing, padded);
      Split(padded, Slices(padded, byteLength))
  }

  /** One slice of width `w` is cut off the front of a longer string. */
  lemma SlicesStep(s: seq<Byte>, w: nat)
    requires 0 < w < |s|
    ensures Slices(s, w) == [s[..w]] + Slices(s[w..], w)
  {
  }

  /** The hard-coded 16 breaks other block lengths: three bytes cut into
      5-byte blocks are padded to 16 bytes, so the last block holds a
      single byte. */
  lemma SplitShortLastBlock()
    ensures var r := SplitIntoBlocks([0x61, 0x62, 0x63], 5);
      |r.plaintext| == 16 && |r.blocks| == 4 && |r.blocks[3]| == 1
  {
    var r := SplitIntoBlocks([0x61, 0x62, 0x63], 5);
    var p := r.plaintext;
    assert |p| == 16;
    SlicesStep(p, 5);
    SlicesStep(p[5..], 5);
    SlicesStep(p[5..][5..], 5);
    var last := p[5..][5..][5..];
    assert |last| == 1 && Slices(last, 5) == [last];
  }

  /** `split_into_blocks` with the pad count `byteLength - len %
      byteLength` it evidently means (and with which it coincides for the
      default length 16). Every block is then exactly `byteLength` long,
      and there are `len / byteLength` of them, rounded up. */
  function SplitIntoBlocksFixed(plaintext: seq<Byte>, byteLength: nat): (r: Split)
    requires 0 < byteLength <= 256
    ensures |plaintext| <= |r.plaintext| < |plaintext| + byteLength
    ensures r.plaintext[..|plaintext|] == plaintext
    ensures |r.plaintext| % byteLength == 0
    ensures forall i :: |plaintext| <= i < |r.plaintext| ==> r.plaintext[i] == (|r.plaintext| - |plaintext|) as Byte
    ensures Flatten(r.blocks) == r.plaintext
    ensures |r.blocks| * byteLength == |r.plaintext|
    ensures forall i :: 0 <= i < |r.blocks| ==> |r.blocks[i]| == byteLength
  {
    var rem := |plaintext| % byteLength;
    var missing := if rem > 0 then byteLength - rem else 0;
    var padded := plaintext + PadBytes(missing);
    PaddedFacts(plaintext, missing, padded);
    FixedBlocks(|plaintext|, byteLength, missing, padded);
    Split(padded, Slices(padded, byteLength))
  }

  /** The corrected padding reaches a multiple of the block length, so
      every slice is a whole block. */
  lemma FixedBlocks(len: nat, w: nat, missing: nat, padded: seq<Byte>)
    requires 0 < w && missing == (if len % w > 0 then w - len % w else 0)
    requires |padded| == len + missing
    ensures |padded| % w == 0
    ensures |Slices(padded, w)| * w == |padded|
    ensures forall i :: 0 <= i < |Slices(padded, w)| ==> |Slices(padded, w)[i]| == w
  {
    var n := if len % w > 0 then len / w + 1 else len / w;
    RoundUp(len, w, n);
    DivOf(|padded|, w, n, 0);
    SlicesOfMultiple(padded, w, n);
  }

  /** Filling `len` up to the next multiple of `w` gives `n` whole
      blocks. */
  lemma RoundUp(len: nat, w: nat, n: nat)
    requires w > 0 && n == if len % w > 0 then len / w + 1 else len / w
    ensures n * w == len + (if len % w > 0 then w - len % w else 0)
  {
    var q := len / w;
    assert len == q * w + len % w;
    if len % w > 0 {
      assert n * w == q * w + w;
    }
  }

  /** With the default length the script is right: both agree. */
  lemma SplitAgreesAt16(plaintext: seq<Byte>)
    ensures SplitIntoBlocks(plaintext, 16) == SplitIntoBlocksFixed(plaintext, 16)
  {
  }
}
