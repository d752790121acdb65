/** Byte strings cut into blocks, and the arithmetic of block offsets
    shared by the block splitters. */
module ByteBlocks {
  import opened Bits

  /** The blocks written one after another. */
  function Flatten(blocks: seq<seq<Byte>>): seq<Byte>
  {
    if blocks == [] then [] else Flatten(blocks[..|blocks| - 1]) + blocks[|blocks| - 1]
  }

  /** Appending a block appends its bytes. */
  lemma FlattenSnoc(blocks: seq<seq<Byte>>, b: seq<Byte>)
    ensures Flatten(blocks + [b]) == Flatten(blocks) + b
  {
    assert (blocks + [b])[..|blocks|] == blocks;
  }

  /** Prepending a block prepends its bytes. */
  lemma {:induction false} FlattenCons(b: seq<Byte>, blocks: seq<seq<Byte>>)
    ensures Flatten([b] + blocks) == b + Flatten(blocks)
    decreases |blocks|
  {
    if blocks == [] {
      assert [b] + blocks == [] + [b];
      FlattenSnoc([], b);
    } else {
      var n := |blocks| - 1;
      var init := blocks[..n];
      FlattenCons(b, init);
      assert [b] + blocks == ([b] + init) + [blocks[n]];
      FlattenSnoc([b] + init, blocks[n]);
      assert blocks == init + [blocks[n]];
      FlattenSnoc(init, blocks[n]);
    }
  }

  /** `n` zero bytes. */
  function ZeroBytes(n: nat): (r: seq<Byte>)
    ensures |r| == n && forall i :: 0 <= i < n ==> r[i] == 0
  {
    seq(n, _ => 0)
  }

  /** Block `j` is bytes `j * w .. j * w + w - 1` of `s`. */
  predicate BlockAt(s: seq<Byte>, w: nat, blocks: seq<seq<Byte>>, j: nat)
    requires j < |blocks|
  {
    j * w + w <= |s| && blocks[j] == s[j * w .. j * w + w]
  }

  /** Blocks `0 .. i - 1` of width `w` cut from the front of `s`
      concatenate to its first `i * w` bytes. */
  lemma {:induction false} FlattenFullBlocks(s: seq<Byte>, w: nat, blocks: seq<seq<Byte>>, i: nat)
    requires i <= |blocks| && i * w <= |s|
    requires forall j :: 0 <= j < i ==> BlockAt(s, w, blocks, j)
    ensures Flatten(blocks[..i]) == s[..i * w]
  {
    if i > 0 {
      var k := i - 1;
      assert k * w + w == i * w;
      assert BlockAt(s, w, blocks, k);
      FlattenFullBlocks(s, w, blocks, k);
      assert blocks[..i] == blocks[..k] + [blocks[k]];
      FlattenSnoc(blocks[..k], blocks[k]);
      assert s[..i * w] == s[..k * w] + s[k * w .. k * w + w];
    }
  }

  /** `len` divided by `w` is `q` with remainder `rem`. */
  lemma DivOf(len: nat, w: nat, q: nat, rem: nat)
    requires 0 < w && rem < w && len == q * w + rem
    ensures len / w == q && len % w == rem
  {
    var q2 := len / w;
    var r2 := len % w;
    assert len == q2 * w + r2;
    MulCancelLt(q, q2 + 1, w);
    MulCancelLt(q2, q + 1, w);
  }

  /** A multiple of `w` that does not pass `len` is at most `len / w`
      times `w`. */
  lemma MulBelow(a: nat, w: nat, len: nat)
    requires 0 < w && a * w <= len
    ensures a <= len / w
  {
    var q := len / w;
    assert len == q * w + len % w;
    assert (q + 1) * w == q * w + w;
    MulCancelLt(a, q + 1, w);
  }

  /** Multiplication by a positive number keeps strict order. */
  lemma MulCancelLt(a: int, b: int, w: int)
    requires w > 0 && a * w < b * w
    ensures a < b
  {
    if a >= b {
      MulMono(b, a, w);
    }
  }

  /** Multiplication by a positive number keeps order. */
  lemma MulMono(a: int, b: int, w: int)
    requires w > 0 && a <= b
    ensures a * w <= b * w
  {
    assert b * w - a * w == (b - a) * w;
  }
}
