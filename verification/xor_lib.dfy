/** The exclusive-or helpers of the shared xor library (`Xor` of
    one/lib/xor): equal-length XOR, repeating-key XOR with zero padding,
    bit Hamming distance, cutting a ciphertext into blocks and
    transposing blocks. Bit vectors are `seq<bool>`. */
module XorLib {
  import opened Bits
  import opened Results
  import opened ByteBlocks

  /** The `XorError` the modelled helpers return. */
  datatype Error = LengthNotEqual

  /** XOR is undone by XOR with the same byte. */
  lemma XorCancel(a: Byte, b: Byte)
    ensures (a ^ b) ^ b == a
  {
  }

  // ---------------------------------------------------------------------
  // vec
  // ---------------------------------------------------------------------

  /** `vec`: `LengthNotEqual` when the lengths differ, otherwise the
      position-wise XOR. */
  function Vec(lvalue: seq<Byte>, rvalue: seq<Byte>): (r: Result<seq<Byte>, Error>)
    ensures r.Err? <==> |lvalue| != |rvalue|
    ensures r.Err? ==> r.error == LengthNotEqual
    ensures r.Ok? ==> |r.value| == |lvalue| && forall i :: 0 <= i < |lvalue| ==> r.value[i] == lvalue[i] ^ rvalue[i]
  {
    if |lvalue| != |rvalue| then Err(LengthNotEqual)
    else Ok(XorBytes(lvalue, rvalue))
  }

  /** XOR with the same right operand twice gives back the left one. */
  lemma VecTwice(lvalue: seq<Byte>, rvalue: seq<Byte>)
    requires |lvalue| == |rvalue|
    ensures Vec(Vec(lvalue, rvalue).value, rvalue) == Ok(lvalue)
  {
    var once := Vec(lvalue, rvalue).value;
    var twice := Vec(once, rvalue).value;
    forall i | 0 <= i < |lvalue|
      ensures twice[i] == lvalue[i]
    {
      XorCancel(lvalue[i], rvalue[i]);
    }
    assert twice == lvalue;
  }

  // ---------------------------------------------------------------------
  // variable_vec
  // ---------------------------------------------------------------------

  /** The zero padding of `variable_vec` (and of the xor tool's
      `repeated`): `k - len % k` zero bytes unless `len` is already a
      multiple of `k`. The result is the shortest extension of the input by
      zero bytes whose length is a multiple of `k`. */
  function ZeroPad(plaintext: seq<Byte>, k: nat): (r: seq<Byte>)
    requires k > 0
    ensures |r| % k == 0 && |plaintext| <= |r| < |plaintext| + k
    ensures r[..|plaintext|] == plaintext
    ensures forall i :: |plaintext| <= i < |r| ==> r[i] == 0
  {
    if |plaintext| % k != 0 then
      var r := plaintext + ZeroBytes(k - |plaintext| % k);
      FillToMultiple(|plaintext|, k, |plaintext| / k, |plaintext| % k);
      assert r[..|plaintext|] == plaintext;
      r
    else plaintext
  }

  /** `len` plus `k - len % k` is the next multiple of `k`. */
  lemma FillToMultiple(len: nat, k: nat, q: nat, rem: nat)
    requires 0 < rem < k && len == q * k + rem
    ensures (len + (k - rem)) % k == 0
  {
    assert len + (k - rem) == (q + 1) * k + 0;
    DivOf(len + (k - rem), k, q + 1, 0);
  }

  /** Padding an aligned input changes nothing, so padding is
      idempotent. */
  lemma ZeroPadAligned(plaintext: seq<Byte>, k: nat)
    requires k > 0 && |plaintext| % k == 0
    ensures ZeroPad(plaintext, k) == plaintext
  {
  }

  /** The plaintext after the call (padded in place) and the result. */
  datatype KeyedXor = KeyedXor(plaintext: seq<Byte>, ciphertext: seq<Byte>)

  /** `variable_vec`: the caller's plaintext is zero-padded in place to a
      multiple of the key length, then byte `i` is XORed with key byte
      `i % |key|`. An empty key divides by zero in the source. */
  method VariableVec(plaintext: seq<Byte>, key: seq<Byte>) returns (r: KeyedXor)
    requires |key| > 0
    ensures r.plaintext == ZeroPad(plaintext, |key|)
    ensures |r.ciphertext| == |r.plaintext|
    ensures forall i :: 0 <= i < |r.ciphertext| ==> r.ciphertext[i] == r.plaintext[i] ^ key[i % |key|]
    ensures forall i :: 0 <= i < |plaintext| ==> r.ciphertext[i] ^ key[i % |key|] == plaintext[i]
  {
    var padded := plaintext;
    if |plaintext| % |key| != 0 {
      padded := plaintext + ZeroBytes(|key| - |plaintext| % |key|);
    }
    var ciphertext: seq<Byte> := [];
    for i := 0 to |padded|
      invariant |ciphertext| == i
      invariant forall j :: 0 <= j < i ==> ciphertext[j] == padded[j] ^ key[j % |key|]
    {
      ciphertext := ciphertext + [padded[i] ^ key[i % |key|]];
    }
    r := KeyedXor(padded, ciphertext);
    forall i | 0 <= i < |plaintext|
      ensures r.ciphertext[i] ^ key[i % |key|] == plaintext[i]
    {
      assert padded[i] == plaintext[i];
      XorCancel(plaintext[i], key[i % |key|]);
    }
  }

  // ---------------------------------------------------------------------
  // hamming_distance
  // ---------------------------------------------------------------------

  /** The number of positions where two equally long bit strings differ. */
  function Differences(lvalue: seq<bool>, rvalue: seq<bool>): nat
    requires |lvalue| == |rvalue|
  {
    if lvalue == [] then 0
    else
      var n := |lvalue| - 1;
      Differences(lvalue[..n], rvalue[..n]) + (if lvalue[n] != rvalue[n] then 1 else 0)
  }

  /** `hamming_distance`: `LengthNotEqual` when the lengths differ,
      otherwise the number of differing bits, counted in a `u32` that the
      source does not let overflow. */
  method HammingDistance(lvalue: seq<bool>, rvalue: seq<bool>) returns (r: Result<nat, Error>)
    requires |lvalue| == |rvalue| ==> Differences(lvalue, rvalue) < 0x1_0000_0000
    ensures r.Err? <==> |lvalue| != |rvalue|
    ensures r.Err? ==> r.error == LengthNotEqual
    ensures r.Ok? ==> r.value == Differences(lvalue, rvalue)
  {
    if |lvalue| != |rvalue| {
      return Err(LengthNotEqual);
    }
    var distance: nat := 0;
    for x := 0 to |lvalue|
      invariant distance == Differences(lvalue[..x], rvalue[..x])
    {
      assert lvalue[..x + 1][..x] == lvalue[..x] && rvalue[..x + 1][..x] == rvalue[..x];
      if lvalue[x] != rvalue[x] {
        distance := distance + 1;
      }
    }
    assert lvalue[..|lvalue|] == lvalue && rvalue[..|rvalue|] == rvalue;
    return Ok(distance);
  }

  /** The distance is at most the length, and it is zero exactly for
      equal strings. */
  lemma {:induction false} DifferencesBounds(lvalue: seq<bool>, rvalue: seq<bool>)
    requires |lvalue| == |rvalue|
    ensures Differences(lvalue, rvalue) <= |lvalue|
    ensures Differences(lvalue, rvalue) == 0 <==> lvalue == rvalue
  {
    if lvalue != [] {
      var n := |lvalue| - 1;
      DifferencesBounds(lvalue[..n], rvalue[..n]);
      assert lvalue == lvalue[..n] + [lvalue[n]];
      assert rvalue == rvalue[..n] + [rvalue[n]];
    }
  }

  /** The distance does not depend on the order of the operands. */
  lemma {:induction false} DifferencesSymmetric(lvalue: seq<bool>, rvalue: seq<bool>)
    requires |lvalue| == |rvalue|
    ensures Differences(lvalue, rvalue) == Differences(rvalue, lvalue)
  {
    if lvalue != [] {
      var n := |lvalue| - 1;
      DifferencesSymmetric(lvalue[..n], rvalue[..n]);
    }
  }

  // ---------------------------------------------------------------------
  // block_ciphertext
  // ---------------------------------------------------------------------

  /** `block_ciphertext`: `len / w + 1` blocks, all `w` bytes long but
      the last, which holds the `len % w` remaining bytes (empty when `w`
      divides `len`); together they are the ciphertext. Block `x / w` is
      written at offset `x`; the source computes that index as the
      ceiling of a float quotient, which is exact because `x` is a multiple
      of `w`. A zero `w` divides by zero in the source. */
  method BlockCiphertext(ciphertext: seq<Byte>, w: nat) returns (blocks: seq<seq<Byte>>)
    requires w > 0
    ensures |blocks| == |ciphertext| / w + 1
    ensures forall i :: 0 <= i < |blocks| - 1 ==> |blocks[i]| == w
    ensures |blocks[|blocks| - 1]| == |ciphertext| % w
    ensures Flatten(blocks) == ciphertext
  {
    var len := |ciphertext|;
    var n := len / w;
    blocks := seq(n + 1, _ => []);
    var x := 0;
    ghost var idx := 0;
    while x < len
      invariant x == idx * w && x <= len && idx <= n
      invariant |blocks| == n + 1
      invariant forall j :: 0 <= j < idx ==> BlockAt(ciphertext, w, blocks, j)
      invariant forall j :: idx <= j <= n ==> blocks[j] == []
      decreases len - x
    {
      DivOf(x, w, idx, 0);
      ghost var before := blocks;
      if len - x < w {
        blocks := blocks[x / w := ciphertext[x..]];
        BlocksKept(ciphertext, w, before, blocks, idx);
        break;
      }
      blocks := blocks[x / w := ciphertext[x .. x + w]];
      BlocksKept(ciphertext, w, before, blocks, idx);
      assert BlockAt(ciphertext, w, blocks, idx);
      MulBelow(idx + 1, w, len);
      x := x + w;
      idx := idx + 1;
    }
    DivOf(len, w, idx, len - x);
    assert blocks[idx] == ciphertext[idx * w ..];
    BlocksShape(ciphertext, w, blocks, idx);
  }

  /** Writing block `idx` keeps the blocks before it. */
  lemma BlocksKept(s: seq<Byte>, w: nat, before: seq<seq<Byte>>, after: seq<seq<Byte>>, idx: nat)
    requires idx < |before| == |after| && after == before[idx := after[idx]]
    requires forall j :: 0 <= j < idx ==> BlockAt(s, w, before, j)
    ensures forall j :: 0 <= j < idx ==> BlockAt(s, w, after, j)
  {
    forall j | 0 <= j < idx
      ensures BlockAt(s, w, after, j)
    {
      assert BlockAt(s, w, before, j);
    }
  }

  /** Full blocks followed by the tail make up the ciphertext. */
  lemma BlocksShape(s: seq<Byte>, w: nat, blocks: seq<seq<Byte>>, n: nat)
    requires |blocks| == n + 1 && n * w <= |s|
    requires forall j :: 0 <= j < n ==> BlockAt(s, w, blocks, j)
    requires blocks[n] == s[n * w ..]
    ensures forall i :: 0 <= i < |blocks| - 1 ==> |blocks[i]| == w
    ensures Flatten(blocks) == s
  {
    BlocksWidth(s, w, blocks, n);
    FlattenFullBlocks(s, w, blocks, n);
    var full := blocks[..n];
    assert blocks == full + [blocks[n]];
    FlattenSnoc(full, blocks[n]);
    assert s == s[..n * w] + s[n * w ..];
  }

  /** Every block before `n` is `w` bytes long. */
  lemma BlocksWidth(s: seq<Byte>, w: nat, blocks: seq<seq<Byte>>, n: nat)
    requires n <= |blocks|
    requires forall j :: 0 <= j < n ==> BlockAt(s, w, blocks, j)
    ensures forall i :: 0 <= i < n ==> |blocks[i]| == w
  {
    forall i | 0 <= i < n
      ensures |blocks[i]| == w
    {
      assert BlockAt(s, w, blocks, i);
    }
  }

  // ---------------------------------------------------------------------
  // transpose_blocks
  // ---------------------------------------------------------------------

  /** Byte `y` of every block that has one, in block order. */
  function Column(blocks: seq<seq<Byte>>, y: nat): seq<Byte>
  {
    if blocks == [] then []
    else
      var last := blocks[|blocks| - 1];
      Column(blocks[..|blocks| - 1], y) + (if y < |last| then [last[y]] else [])
  }

  /** `transpose_blocks`: `length` rows, row `y` holding byte `y` of each
      block in order. A block longer than `length` indexes past the rows,
      which panics in the source. */
  method TransposeBlocks(blocks: seq<seq<Byte>>, length: nat) returns (rows: seq<seq<Byte>>)
    requires forall j :: 0 <= j < |blocks| ==> |blocks[j]| <= length
    ensures |rows| == length
    ensures forall y :: 0 <= y < length ==> rows[y] == Column(blocks, y)
  {
    rows := seq(length, _ => []);
    for j := 0 to |blocks|
      invariant |rows| == length
      invariant forall y :: 0 <= y < length ==> rows[y] == Column(blocks[..j], y)
    {
      var x := blocks[j];
      assert blocks[..j + 1][..j] == blocks[..j];
      for y := 0 to |x|
        invariant |rows| == length
        invariant forall z :: 0 <= z < y ==> rows[z] == Column(blocks[..j + 1], z)
        invariant forall z :: y <= z < length ==> rows[z] == Column(blocks[..j], z)
      {
        rows := rows[y := rows[y] + [x[y]]];
      }
    }
    assert blocks[..|blocks|] == blocks;
  }

  /** When every block is exactly `length` long, row `y` has one byte per
      block and its byte `j` is byte `y` of block `j`. */
  lemma {:induction false} ColumnOfFull(blocks: seq<seq<Byte>>, length: nat, y: nat)
    requires y < length
    requires forall j :: 0 <= j < |blocks| ==> |blocks[j]| == length
    ensures |Column(blocks, y)| == |blocks|
    ensures forall j :: 0 <= j < |blocks| ==> Column(blocks, y)[j] == blocks[j][y]
  {
    if blocks != [] {
      var n := |blocks| - 1;
      ColumnOfFull(blocks[..n], length, y);
    }
  }
}
