/** The exclusive-or command's own `Xor` (one/xor): zip XOR of two byte
    strings and repeating-key XOR. */
module XorTool {
  import opened Bits
  import opened Results
  import XorLib

  function Min(a: nat, b: nat): nat
  {
    if a <= b then a else b
  }

  /** `hex`: `zip` stops at the shorter input, so the result is as long as
      the shorter one, byte `i` being the XOR of the two bytes `i`. */
  function Hex(lvalue: seq<Byte>, rvalue: seq<Byte>): (r: seq<Byte>)
    ensures |r| == Min(|lvalue|, |rvalue|)
  {
    seq(Min(|lvalue|, |rvalue|), i requires 0 <= i < Min(|lvalue|, |rvalue|) => lvalue[i] ^ rvalue[i])
  }

  /** XOR of a string with itself is all zeros. */
  lemma HexSelf(a: seq<Byte>)
    ensures |Hex(a, a)| == |a| && forall i :: 0 <= i < |a| ==> Hex(a, a)[i] == 0
  {
  }

  /** XOR with the same key twice gives back the common prefix. */
  lemma HexTwice(lvalue: seq<Byte>, rvalue: seq<Byte>)
    ensures Hex(Hex(lvalue, rvalue), rvalue) == lvalue[..Min(|lvalue|, |rvalue|)]
  {
    var once := Hex(lvalue, rvalue);
    var twice := Hex(once, rvalue);
    var m := Min(|lvalue|, |rvalue|);
    forall i | 0 <= i < m
      ensures twice[i] == lvalue[i]
    {
      var a, b := lvalue[i], rvalue[i];
      assert once[i] == a ^ b;
      assert twice[i] == once[i] ^ b;
      XorLib.XorCancel(a, b);
    }
    assert twice == lvalue[..m];
  }

  /** On equal lengths `hex` is the library's `vec`; otherwise it is `vec`
      of the two prefixes as long as the shorter input. */
  lemma HexIsVec(lvalue: seq<Byte>, rvalue: seq<Byte>)
    ensures var m := Min(|lvalue|, |rvalue|);
      XorLib.Vec(lvalue[..m], rvalue[..m]) == Ok(Hex(lvalue, rvalue))
    ensures |lvalue| == |rvalue| ==> XorLib.Vec(lvalue, rvalue) == Ok(Hex(lvalue, rvalue))
  {
    var m := Min(|lvalue|, |rvalue|);
    var v := XorLib.Vec(lvalue[..m], rvalue[..m]);
    assert v.value == Hex(lvalue, rvalue);
    if |lvalue| == |rvalue| {
      assert lvalue[..m] == lvalue && rvalue[..m] == rvalue;
    }
  }

  /** `repeated`: the plaintext is zero-padded to a multiple of the key
      length, then byte `i` is XORed with key byte `i % |key|`. So byte
      `i` of the plaintext is encrypted with key byte `i % |key|`, and each
      padding byte comes out as its key byte. An empty key divides by zero
      in the source. */
  function Repeated(plaintext: seq<Byte>, key: seq<Byte>): (r: seq<Byte>)
    requires |key| > 0
    ensures |r| % |key| == 0 && |plaintext| <= |r| < |plaintext| + |key|
    ensures forall i :: 0 <= i < |plaintext| ==> r[i] == plaintext[i] ^ key[i % |key|]
    ensures forall i :: |plaintext| <= i < |r| ==> r[i] == key[i % |key|]
  {
    var padded := XorLib.ZeroPad(plaintext, |key|);
    seq(|padded|, i requires 0 <= i < |padded| => padded[i] ^ key[i % |key|])
  }

  /** `repeated` twice with the same key gives the zero-padded
      plaintext. */
  lemma RepeatedTwice(plaintext: seq<Byte>, key: seq<Byte>)
    requires |key| > 0
    ensures Repeated(Repeated(plaintext, key), key) == XorLib.ZeroPad(plaintext, |key|)
  {
    var once := Repeated(plaintext, key);
    var twice := Repeated(once, key);
    var padded := XorLib.ZeroPad(plaintext, |key|);
    XorLib.ZeroPadAligned(once, |key|);
    assert |twice| == |once| == |padded|;
    forall i | 0 <= i < |twice|
      ensures twice[i] == padded[i]
    {
      var k := key[i % |key|];
      if i < |plaintext| {
        XorLib.XorCancel(plaintext[i], k);
      } else {
        XorLib.XorCancel(0, k);
      }
    }
  }
}
