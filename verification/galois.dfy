/** Arithmetic in GF(2^8) as the `GaloisField<u8>` type of
    one/lib/aes/src/galois.rs provides it: bytes read as polynomials of
    degree at most 7 over GF(2), added with exclusive-or and multiplied
    modulo the AES polynomial m(x) = x^8 + x^4 + x^3 + x + 1 (0x11B), as in
    section 4.2 of FIPS-197.

    The reference definitions are `XTime` (multiplication by x, section
    4.2.1 of FIPS-197) and `FieldMul` (the sum of x^i * a over the set bits
    i of b). The source's branch-free "peasant" loop is `PeasantMul`, and
    `PeasantIsFieldMul` proves that the two agree on every pair of bytes.
    The algebra is stated on the `Gf` wrapper rather than on raw bytes: the
    field laws are then equalities between field elements, which keeps the
    bit-vector reasoning inside small byte-level lemmas. */
module Galois {
  import opened Bits

  /** `GaloisField<u8>`: a byte read as a field element. */
  datatype Gf = Gf(val: Byte)

  /** `impl Add for GaloisField<u8>` (and `AddAssign`): field addition is
      exclusive-or. */
  function Add(x: Gf, y: Gf): Gf
  {
    Gf(x.val ^ y.val)
  }

  // ---------------------------------------------------------------------
  // Reference definitions
  // ---------------------------------------------------------------------

  /** Multiplication of a byte by x modulo m(x). */
  function XTimeByte(b: Byte): Byte
  {
    if b & 0x80 == 0 then b << 1 else (b << 1) ^ 0x1B
  }

  /** `XTimeByte(b)` is x * b reduced modulo m(x): the doubled polynomial,
      9 bits wide, differs from the result by nothing or by m(x) itself. */
  lemma XTimeIsReduction(b: Byte)
    ensures var d := ((b as bv16) << 1) ^ (XTimeByte(b) as bv16); d == 0 || d == 0x11B
  {
  }

  /** Multiplication of a field element by x. */
  function XTime(a: Gf): Gf
  {
    Gf(XTimeByte(a.val))
  }

  /** `a` if `bit` is set, otherwise zero. */
  function Select(a: Gf, bit: bool): Gf
  {
    if bit then a else Gf(0)
  }

  /** The sum, over the set bits i < n of `b`, of x^i * a. */
  function Product(a: Gf, b: Byte, n: nat): Gf
    decreases n
  {
    if n == 0 then Gf(0)
    else Add(Select(a, b & 1 == 1), Product(XTime(a), b >> 1, n - 1))
  }

  /** The degree of m(x): a byte has this many bits. */
  const Degree: nat := 8

  /** The field product. */
  function FieldMul(a: Gf, b: Gf): Gf
  {
    Product(a, b.val, Degree)
  }

  /** x^j * a, by j repeated multiplications by x. */
  function XTimePow(a: Gf, j: nat): Gf
    decreases j
  {
    if j == 0 then a else XTimePow(XTime(a), j - 1)
  }

  /** The byte with only bit `j` set: the polynomial x^j. */
  function Bit(j: nat): Byte
    requires j < 8
  {
    [0x01, 0x02, 0x04, 0x08, 0x10, 0x20, 0x40, 0x80][j]
  }

  /** The `k` low bits of `a`, one bit at a time. */
  function Low(a: Byte, k: nat): Byte
    requires k <= 8
  {
    if k == 0 then 0 else Low(a, k - 1) ^ (a & Bit(k - 1))
  }

  // ---------------------------------------------------------------------
  // The loop as the source writes it
  // ---------------------------------------------------------------------

  /** `(((v & 1) as i8) << 7).wrapping_shr(7) as u8`, with the `i8`
      arithmetic written out: the low bit is moved into the sign position,
      an arithmetic right shift by 7 copies the sign into every bit, and the
      value is reinterpreted as unsigned. */
  function Mask(v: Byte): (r: Byte)
    ensures r == if v & 1 == 1 then 0xFF else 0x00
  {
    MaskAt(v, 3)
  }

  /** The arithmetic of `Mask`, behind `depth` steps of recursion: the
      verifier unfolds a recursive function only a bounded number of times,
      so proofs that mention a mask see its contract and not the integer
      arithmetic. */
  function MaskAt(v: Byte, depth: nat): (r: Byte)
    ensures r == if v & 1 == 1 then 0xFF else 0x00
  {
    if depth > 0 then MaskAt(v, depth - 1) else
    var bits := (v & 1) << 7;
    var signed: int := if bits < 0x80 then bits as int else bits as int - 256;
    var shifted := signed / 128;
    (shifted % 256) as Byte
  }

  /** The update of the running `a` (`self`) in one iteration. */
  function PeasantA(a: Byte): Byte
  {
    var carry := (a >> 7) & 1;
    (a << 1) ^ (Mask(carry & 1) & 0x1B)
  }

  /** `n` further iterations of the loop from state (a, b, p): `b` is `rhs`
      and `p` the accumulator. */
  function PeasantLoop(a: Byte, b: Byte, p: Byte, n: nat): Byte
    decreases n
  {
    if n == 0 then p
    else PeasantLoop(PeasantA(a), b >> 1, p ^ (Mask(b & 1) & a), n - 1)
  }

  /** The `Mul` impls: eight iterations from an accumulator of zero. */
  function PeasantMul(a: Byte, b: Byte): Byte
  {
    PeasantLoop(a, b, 0, 8)
  }

  /** The carry step of the loop is multiplication by x. */
  lemma PeasantAIsXTime(a: Byte)
    ensures PeasantA(a) == XTimeByte(a)
  {
  }

  /** The masked accumulation adds `a` exactly when the low bit of `b` is
      set. */
  lemma MaskSelects(a: Byte, b: Byte, p: Byte)
    ensures Gf(p ^ (Mask(b & 1) & a)) == Add(Gf(p), Select(Gf(a), b & 1 == 1))
  {
  }

  /** The loop adds the reference product of what is left of `a` and `b`
      to its accumulator. */
  lemma {:induction false} PeasantLoopProduct(a: Byte, b: Byte, p: Byte, n: nat)
    ensures Gf(PeasantLoop(a, b, p, n)) == Add(Gf(p), Product(Gf(a), b, n))
    decreases n
  {
    if n == 0 {
      AddZero(Gf(p));
    } else {
      var p' := p ^ (Mask(b & 1) & a);
      PeasantAIsXTime(a);
      PeasantLoopProduct(XTimeByte(a), b >> 1, p', n - 1);
      MaskSelects(a, b, p);
      AddAssoc(Gf(p), Select(Gf(a), b & 1 == 1), Product(XTime(Gf(a)), b >> 1, n - 1));
    }
  }

  /** The source's loop computes the field product. */
  lemma PeasantIsFieldMul(a: Byte, b: Byte)
    ensures Gf(PeasantMul(a, b)) == FieldMul(Gf(a), Gf(b))
  {
    PeasantLoopProduct(a, b, 0, 8);
    ZeroAdd(Product(Gf(a), b, 8));
  }

  /** The loop of the `Mul` and `MulAssign` impls, written as the source
      writes it: eight iterations updating `p`, `rhs` and `self` in place. */
  method PeasantMulInPlace(a: Byte, b: Byte) returns (p: Byte)
    ensures Gf(p) == FieldMul(Gf(a), Gf(b))
  {
    var x, y := a, b;
    p := 0;
    for i := 0 to 8
      invariant PeasantLoop(x, y, p, 8 - i) == PeasantMul(a, b)
    {
      PeasantStep(x, y, p, 8 - i);
      p := p ^ (Mask(y & 1) & x);
      y := y >> 1;
      PeasantAIsXTime(x);
      x := ShiftAndReduce(x);
    }
    PeasantIsFieldMul(a, b);
  }

  /** The last three statements of an iteration, on `self`: the carry out
      of bit 7, the shift, and the masked reduction by 0x1B. Together they
      multiply by x. */
  method ShiftAndReduce(a: Byte) returns (r: Byte)
    ensures r == XTimeByte(a)
  {
    var carry := (a >> 7) & 1;
    r := a << 1;
    r := r ^ (Mask(carry & 1) & 0x1B);
  }

  /** One iteration of the loop. */
  lemma PeasantStep(a: Byte, b: Byte, p: Byte, n: nat)
    requires n > 0
    ensures PeasantLoop(a, b, p, n) == PeasantLoop(PeasantA(a), b >> 1, p ^ (Mask(b & 1) & a), n - 1)
  {
  }

  // ---------------------------------------------------------------------
  // Laws of field addition
  // ---------------------------------------------------------------------

  lemma AddZero(a: Gf)
    ensures Add(a, Gf(0)) == a
  {
  }

  lemma ZeroAdd(a: Gf)
    ensures Add(Gf(0), a) == a
  {
  }

  lemma AddAssoc(a: Gf, b: Gf, c: Gf)
    ensures Add(Add(a, b), c) == Add(a, Add(b, c))
  {
  }

  /** (s + t) + (p + q) == (s + p) + (t + q). */
  lemma AddShuffle(s: Gf, t: Gf, p: Gf, q: Gf)
    ensures Add(Add(s, t), Add(p, q)) == Add(Add(s, p), Add(t, q))
  {
  }

  // ---------------------------------------------------------------------
  // Algebra of the reference product
  // ---------------------------------------------------------------------

  lemma XTimeByteLinear(a: Byte, c: Byte)
    ensures XTimeByte(a ^ c) == XTimeByte(a) ^ XTimeByte(c)
  {
    if a & 0x80 == 0 {
      if c & 0x80 == 0 {
        assert (a ^ c) & 0x80 == 0;
      } else {
        assert (a ^ c) & 0x80 != 0;
      }
    } else {
      if c & 0x80 == 0 {
        assert (a ^ c) & 0x80 != 0;
      } else {
        assert (a ^ c) & 0x80 == 0;
      }
    }
  }

  /** Multiplication by x distributes over addition. */
  lemma XTimeLinear(a: Gf, c: Gf)
    ensures XTime(Add(a, c)) == Add(XTime(a), XTime(c))
  {
    XTimeGfLinear(a.val, c.val);
  }

  lemma XTimeGfLinear(x: Byte, y: Byte)
    ensures XTime(Gf(x ^ y)) == Add(XTime(Gf(x)), XTime(Gf(y)))
  {
    XTimeByteLinear(x, y);
  }

  lemma SelectLinearLeft(a: Gf, c: Gf, bit: bool)
    ensures Select(Add(a, c), bit) == Add(Select(a, bit), Select(c, bit))
  {
  }

  lemma SelectLinearRight(a: Gf, b: Byte, d: Byte)
    ensures Select(a, (b ^ d) & 1 == 1) == Add(Select(a, b & 1 == 1), Select(a, d & 1 == 1))
  {
    if b & 1 == 1 {
      if d & 1 == 1 { assert (b ^ d) & 1 == 0; } else { assert (b ^ d) & 1 == 1; }
    } else {
      if d & 1 == 1 { assert (b ^ d) & 1 == 1; } else { assert (b ^ d) & 1 == 0; }
    }
  }

  lemma ShiftXor(b: Byte, d: Byte)
    ensures (b ^ d) >> 1 == (b >> 1) ^ (d >> 1)
  {
  }

  lemma {:induction false} ProductZeroLeft(b: Byte, n: nat)
    ensures Product(Gf(0), b, n) == Gf(0)
    decreases n
  {
    if n > 0 {
      assert XTime(Gf(0)) == Gf(0);
      ProductZeroLeft(b >> 1, n - 1);
    }
  }

  lemma {:induction false} ProductZeroRight(a: Gf, n: nat)
    ensures Product(a, 0, n) == Gf(0)
    decreases n
  {
    if n > 0 {
      ProductZeroRight(XTime(a), n - 1);
    }
  }

  lemma {:induction false} ProductLinearLeft(a: Gf, c: Gf, b: Byte, n: nat)
    ensures Product(Add(a, c), b, n) == Add(Product(a, b, n), Product(c, b, n))
    decreases n
  {
    if n > 0 {
      var bit := b & 1 == 1;
      ProductLinearLeft(XTime(a), XTime(c), b >> 1, n - 1);
      XTimeLinear(a, c);
      SelectLinearLeft(a, c, bit);
      AddShuffle(Select(a, bit), Select(c, bit),
                 Product(XTime(a), b >> 1, n - 1), Product(XTime(c), b >> 1, n - 1));
    }
  }

  lemma {:induction false} ProductLinearRight(a: Gf, b: Byte, d: Byte, n: nat)
    ensures Product(a, b ^ d, n) == Add(Product(a, b, n), Product(a, d, n))
    decreases n
  {
    if n > 0 {
      ProductLinearRight(XTime(a), b >> 1, d >> 1, n - 1);
      ShiftXor(b, d);
      SelectLinearRight(a, b, d);
      AddShuffle(Select(a, b & 1 == 1), Select(a, d & 1 == 1),
                 Product(XTime(a), b >> 1, n - 1), Product(XTime(a), d >> 1, n - 1));
    }
  }

  /** Multiplying by x^j is j-fold multiplication by x. */
  lemma {:induction false} ProductOfBit(a: Gf, j: nat, n: nat)
    requires j < n <= 8
    ensures Product(a, Bit(j), n) == XTimePow(a, j)
    decreases j
  {
    if j == 0 {
      ProductZeroRight(XTime(a), n - 1);
      AddZero(a);
    } else {
      BitStep(j);
      ProductOfBit(XTime(a), j - 1, n - 1);
      ZeroAdd(XTimePow(XTime(a), j - 1));
    }
  }

  lemma BitStep(j: nat)
    requires 0 < j < 8
    ensures Bit(j) & 1 == 0 && Bit(j) >> 1 == Bit(j - 1)
  {
  }

  lemma {:induction false} XTimePowAdd(a: Gf, i: nat, j: nat)
    ensures XTimePow(XTimePow(a, i), j) == XTimePow(a, i + j)
    decreases i
  {
    if i > 0 {
      XTimePowAdd(XTime(a), i - 1, j);
    }
  }

  /** Below x^8 no reduction happens: x^j is bit j. */
  lemma {:induction false} BitIsPower(j: nat)
    requires j < 8
    ensures XTimePow(Gf(1), j) == Gf(Bit(j))
  {
    if j > 0 {
      BitIsPower(j - 1);
      XTimePowAdd(Gf(1), j - 1, 1);
      BitDoubles(j);
    }
  }

  lemma BitDoubles(j: nat)
    requires 0 < j < 8
    ensures XTime(Gf(Bit(j - 1))) == Gf(Bit(j))
  {
  }

  /** x^i * x^j == x^j * x^i. */
  lemma BitsCommute(i: nat, j: nat)
    requires i < 8 && j < 8
    ensures FieldMul(Gf(Bit(i)), Gf(Bit(j))) == FieldMul(Gf(Bit(j)), Gf(Bit(i)))
  {
    ProductOfBit(Gf(Bit(i)), j, Degree);
    ProductOfBit(Gf(Bit(j)), i, Degree);
    BitIsPower(i);
    BitIsPower(j);
    XTimePowAdd(Gf(1), i, j);
    XTimePowAdd(Gf(1), j, i);
  }

  lemma LowStep(a: Byte, k: nat)
    requires k < 8
    ensures a & Bit(k) == 0 || a & Bit(k) == Bit(k)
  {
  }

  /** The mask of the `k` low bits. */
  function LowMask(k: nat): Byte
    requires k <= 8
  {
    [0x00, 0x01, 0x03, 0x07, 0x0F, 0x1F, 0x3F, 0x7F, 0xFF][k]
  }

  lemma {:induction false} LowIsMasked(a: Byte, k: nat)
    requires k <= 8
    ensures Low(a, k) == a & LowMask(k)
  {
    if k > 0 {
      LowIsMasked(a, k - 1);
      LowMaskStep(k);
      AndXor(a, LowMask(k - 1), Bit(k - 1));
    }
  }

  lemma LowMaskStep(k: nat)
    requires 0 < k <= 8
    ensures LowMask(k - 1) ^ Bit(k - 1) == LowMask(k)
  {
  }

  lemma AndXor(a: Byte, m: Byte, n: Byte)
    ensures (a & m) ^ (a & n) == a & (m ^ n)
  {
  }

  lemma LowAll(a: Byte)
    ensures Low(a, 8) == a
  {
    LowIsMasked(a, 8);
  }

  /** `a` and `b` commute under the field product. */
  predicate Commute(a: Gf, b: Gf)
  {
    FieldMul(a, b) == FieldMul(b, a)
  }

  /** What commutes with `b` and with `c` commutes with `b + c`. */
  lemma CommuteSum(a: Gf, b: Gf, c: Gf)
    requires Commute(a, b) && Commute(a, c)
    ensures Commute(a, Add(b, c))
  {
    MulDistributes(a, b, c);
  }

  /** If `x` commutes with every x^j, j < k, it commutes with the `k` low
      bits of any `y`. */
  lemma {:induction false} CommuteFromBits(x: Gf, y: Byte, k: nat)
    requires k <= 8
    requires forall j :: 0 <= j < k ==> Commute(x, Gf(Bit(j)))
    ensures Commute(x, Gf(Low(y, k)))
  {
    if k == 0 {
      MulZeroAbsorbing(x);
    } else {
      CommuteFromBits(x, y, k - 1);
      CommuteTopBit(x, y, k - 1);
      CommuteSum(x, Gf(Low(y, k - 1)), Gf(y & Bit(k - 1)));
      LowSplit(y, k);
    }
  }

  lemma LowSplit(y: Byte, k: nat)
    requires 0 < k <= 8
    ensures Gf(Low(y, k)) == Add(Gf(Low(y, k - 1)), Gf(y & Bit(k - 1)))
  {
  }

  /** Bit `j` of `y`, as a field element, commutes with `x` when x^j does. */
  lemma CommuteTopBit(x: Gf, y: Byte, j: nat)
    requires j < 8
    requires Commute(x, Gf(Bit(j)))
    ensures Commute(x, Gf(y & Bit(j)))
  {
    LowStep(y, j);
    if y & Bit(j) == 0 {
      MulZeroAbsorbing(x);
    }
  }

  /** Every x^j commutes with every field element. */
  lemma BitCommutesWithAll(j: nat, y: Gf)
    requires j < 8
    ensures FieldMul(Gf(Bit(j)), y) == FieldMul(y, Gf(Bit(j)))
  {
    forall i | 0 <= i < 8
      ensures Commute(Gf(Bit(j)), Gf(Bit(i)))
    {
      BitsCommute(j, i);
    }
    CommuteFromBits(Gf(Bit(j)), y.val, 8);
    LowAll(y.val);
    assert Commute(Gf(Bit(j)), y);
  }

  // ---------------------------------------------------------------------
  // Field laws
  // ---------------------------------------------------------------------

  lemma MulCommutative(a: Gf, b: Gf)
    ensures FieldMul(a, b) == FieldMul(b, a)
  {
    forall j | 0 <= j < 8
      ensures Commute(a, Gf(Bit(j)))
    {
      BitCommutesWithAll(j, a);
    }
    CommuteFromBits(a, b.val, 8);
    LowAll(b.val);
  }

  lemma MulOneIdentity(a: Gf)
    ensures FieldMul(a, Gf(1)) == a && FieldMul(Gf(1), a) == a
  {
    ProductOfBit(a, 0, Degree);
    MulCommutative(a, Gf(1));
  }

  lemma MulZeroAbsorbing(a: Gf)
    ensures FieldMul(a, Gf(0)) == Gf(0) && FieldMul(Gf(0), a) == Gf(0)
  {
    ProductZeroRight(a, Degree);
    ProductZeroLeft(a.val, Degree);
  }

  /** Multiplication distributes over field addition, on either side. */
  lemma MulDistributes(a: Gf, b: Gf, c: Gf)
    ensures FieldMul(a, Add(b, c)) == Add(FieldMul(a, b), FieldMul(a, c))
    ensures FieldMul(Add(b, c), a) == Add(FieldMul(b, a), FieldMul(c, a))
  {
    ProductLinearRight(a, b.val, c.val, Degree);
    ProductLinearLeft(b, c, a.val, Degree);
  }

  /** Multiplication by {02} and {03}, the constants of MixColumns. */
  lemma MulByTwo(a: Gf)
    ensures FieldMul(a, Gf(2)) == XTime(a)
  {
    ProductOfBit(a, 1, Degree);
    assert Bit(1) == 2;
  }

  lemma MulByThree(a: Gf)
    ensures FieldMul(a, Gf(3)) == Add(XTime(a), a)
  {
    MulByTwo(a);
    MulOneIdentity(a);
    MulDistributes(a, Gf(2), Gf(1));
    assert Add(Gf(2), Gf(1)) == Gf(3);
  }

  // ---------------------------------------------------------------------
  // The operator impls
  // ---------------------------------------------------------------------

  /** `impl Add<u8> for GaloisField<u8>` (and `AddAssign<u8>`): field
      addition of the byte, which subtracting the byte undoes. */
  function AddByte(x: Gf, y: Byte): (r: Gf)
    ensures r == Add(x, Gf(y))
    ensures Sub(r, Gf(y)) == x
  {
    Gf(x.val ^ y)
  }

  /** `impl Add<GaloisField<u8>> for u8` (and `AddAssign`): yields a plain
      byte, from which subtracting `y` gives `x` back. */
  function ByteAdd(x: Byte, y: Gf): (r: Byte)
    ensures Gf(r) == Add(Gf(x), y)
    ensures Sub(Gf(r), y) == Gf(x)
  {
    x ^ y.val
  }

  /** `impl Sub for GaloisField<u8>` (and `SubAssign`): in characteristic
      two subtraction is addition, and it undoes addition. */
  function Sub(x: Gf, y: Gf): (r: Gf)
    ensures Add(r, y) == x
    ensures r == Add(x, y)
  {
    Gf(x.val ^ y.val)
  }

  /** `impl Sub<u8> for GaloisField<u8>` (and `SubAssign<u8>`): adding
      the byte back gives `x`. */
  function SubByte(x: Gf, y: Byte): (r: Gf)
    ensures r == Sub(x, Gf(y))
    ensures Add(r, Gf(y)) == x
  {
    Gf(x.val ^ y)
  }

  /** `impl Sub<GaloisField<u8>> for u8` (and `SubAssign`): adding `y`
      back gives `x`. */
  function ByteSub(x: Byte, y: Gf): (r: Byte)
    ensures Gf(r) == Sub(Gf(x), y)
    ensures Add(Gf(r), y) == Gf(x)
  {
    x ^ y.val
  }

  lemma AddCommutes(a: Gf, b: Gf)
    ensures Add(a, b) == Add(b, a)
  {
  }

  lemma AddSelfInverse(a: Gf)
    ensures Add(a, a) == Gf(0)
  {
  }

  /** Addition adds the coefficients bit by bit. */
  lemma AddBits(x: Gf, y: Gf)
    ensures forall i :: 0 <= i < 8 ==> BitAt(Add(x, y).val, i) == (BitAt(x.val, i) != BitAt(y.val, i))
  {
    XorBits(x.val, y.val, x.val ^ y.val);
  }

  /** Subtracting what was added gives the element back. */
  lemma AddUndo(x: Gf, y: Gf)
    ensures Sub(Add(x, y), y) == x
  {
  }

  /** Addition is associative with 0 as identity: with `AddCommutes` and
      `AddSelfInverse`, the field's additive group. */
  lemma AddGroup(a: Gf, b: Gf, c: Gf)
    ensures Add(Add(a, b), c) == Add(a, Add(b, c))
    ensures Add(a, Gf(0)) == a && Add(Gf(0), a) == a
  {
  }

  /** `impl Mul for GaloisField<u8>`. */
  function Mul(x: Gf, y: Gf): (r: Gf)
    ensures r == FieldMul(x, y)
  {
    PeasantIsFieldMul(x.val, y.val);
    Gf(PeasantMul(x.val, y.val))
  }

  /** `impl Mul<u8> for GaloisField<u8>`. */
  function MulByte(x: Gf, y: Byte): (r: Gf)
    ensures r == FieldMul(x, Gf(y))
  {
    PeasantIsFieldMul(x.val, y);
    Gf(PeasantMul(x.val, y))
  }

  /** `impl Mul<GaloisField<u8>> for u8`: yields a plain byte. */
  function ByteMul(x: Byte, y: Gf): (r: Byte)
    ensures Gf(r) == FieldMul(Gf(x), y)
  {
    PeasantIsFieldMul(x, y.val);
    PeasantMul(x, y.val)
  }

  /** `impl MulAssign for GaloisField<u8>`: the new value of `self`. */
  method MulAssign(x: Gf, y: Gf) returns (r: Gf)
    ensures r == FieldMul(x, y)
  {
    var p := PeasantMulInPlace(x.val, y.val);
    r := Gf(p);
  }

  /** `impl MulAssign<u8> for GaloisField<u8>`. */
  method MulAssignByte(x: Gf, y: Byte) returns (r: Gf)
    ensures r == FieldMul(x, Gf(y))
  {
    var p := PeasantMulInPlace(x.val, y);
    r := Gf(p);
  }

  /** `impl MulAssign<GaloisField<u8>> for u8`. */
  method ByteMulAssign(x: Byte, y: Gf) returns (r: Byte)
    ensures Gf(r) == FieldMul(Gf(x), y)
  {
    r := PeasantMulInPlace(x, y.val);
  }

  /** All three `Mul` forms agree, and each is commutative with 1 as
      identity and 0 as absorbing element. */
  lemma MulVariantsAgree(a: Byte, b: Byte)
    ensures Mul(Gf(a), Gf(b)) == MulByte(Gf(a), b) == Gf(ByteMul(a, Gf(b)))
    ensures Mul(Gf(a), Gf(b)) == Mul(Gf(b), Gf(a))
    ensures Mul(Gf(a), Gf(1)) == Gf(a) && Mul(Gf(a), Gf(0)) == Gf(0)
  {
    MulCommutative(Gf(a), Gf(b));
    MulOneIdentity(Gf(a));
    MulZeroAbsorbing(Gf(a));
  }

  /** The bitwise impls (`BitOr`, `BitAnd`, `BitXor` and their `*Assign`
      forms, in every operand order) are the plain byte operations, stated
      bit by bit. A bit of `x | y` is set when it is set in either
      operand. */
  function Or(x: Gf, y: Gf): (r: Gf)
    ensures forall i :: 0 <= i < 8 ==> BitAt(r.val, i) == (BitAt(x.val, i) || BitAt(y.val, i))
  {
    OrBits(x.val, y.val, x.val | y.val);
    Gf(x.val | y.val)
  }

  /** A bit of `x & y` is set when it is set in both operands. */
  function And(x: Gf, y: Gf): (r: Gf)
    ensures forall i :: 0 <= i < 8 ==> BitAt(r.val, i) == (BitAt(x.val, i) && BitAt(y.val, i))
  {
    AndBits(x.val, y.val, x.val & y.val);
    Gf(x.val & y.val)
  }

  /** A bit of `x ^ y` is set when the operands differ there; `^` is field
      addition, so subtracting `y` gives `x` back. */
  function Xor(x: Gf, y: Gf): (r: Gf)
    ensures forall i :: 0 <= i < 8 ==> BitAt(r.val, i) == (BitAt(x.val, i) != BitAt(y.val, i))
    ensures r == Add(x, y)
    ensures Sub(r, y) == x
  {
    AddBits(x, y);
    AddUndo(x, y);
    Add(x, y)
  }

  /** One bit of an OR, for any mask. */
  lemma OrMask(a: Byte, b: Byte, c: Byte, m: Byte)
    requires c == a | b
    ensures c & m != 0 <==> (a & m != 0 || b & m != 0)
  {
  }

  /** One bit of an AND, for a single-bit mask. */
  lemma AndMask(a: Byte, b: Byte, c: Byte, m: Byte)
    requires c == a & b
    requires m == 0x80 || m == 0x40 || m == 0x20 || m == 0x10 || m == 0x08 || m == 0x04 || m == 0x02 || m == 0x01
    ensures c & m != 0 <==> (a & m != 0 && b & m != 0)
  {
  }

  /** One bit of an exclusive-or, for a single-bit mask. */
  lemma XorMask(a: Byte, b: Byte, c: Byte, m: Byte)
    requires c == a ^ b
    requires m == 0x80 || m == 0x40 || m == 0x20 || m == 0x10 || m == 0x08 || m == 0x04 || m == 0x02 || m == 0x01
    ensures c & m != 0 <==> (a & m != 0) != (b & m != 0)
  {
  }

  lemma OrBits(a: Byte, b: Byte, c: Byte)
    requires c == a | b
    ensures forall i :: 0 <= i < 8 ==> BitAt(c, i) == (BitAt(a, i) || BitAt(b, i))
  {
    forall i | 0 <= i < 8
      ensures BitAt(c, i) == (BitAt(a, i) || BitAt(b, i))
    {
      OrMask(a, b, c, BitMask(i));
    }
  }

  lemma AndBits(a: Byte, b: Byte, c: Byte)
    requires c == a & b
    ensures forall i :: 0 <= i < 8 ==> BitAt(c, i) == (BitAt(a, i) && BitAt(b, i))
  {
    forall i | 0 <= i < 8
      ensures BitAt(c, i) == (BitAt(a, i) && BitAt(b, i))
    {
      AndMask(a, b, c, BitMask(i));
    }
  }

  lemma XorBits(a: Byte, b: Byte, c: Byte)
    requires c == a ^ b
    ensures forall i :: 0 <= i < 8 ==> BitAt(c, i) == (BitAt(a, i) != BitAt(b, i))
  {
    forall i | 0 <= i < 8
      ensures BitAt(c, i) == (BitAt(a, i) != BitAt(b, i))
    {
      XorMask(a, b, c, BitMask(i));
    }
  }

  /** OR and AND absorb each other, and the bits set in exactly one of
      the operands, OR minus AND, are their field sum. */
  lemma OrAndLaws(x: Gf, y: Gf)
    ensures And(x, Or(x, y)) == x && Or(x, And(x, y)) == x
    ensures Add(Or(x, y), And(x, y)) == Add(x, y)
  {
  }

  /** `Shr`: the logical right shift. Rust panics on a shift by 8 or more
      ("attempt to shift right with overflow"). */
  function Shr(x: Gf, y: Gf): Gf
    requires y.val < 8
  {
    Gf(x.val >> y.val)
  }

  /** `Shl`: the left shift, dropping the bits pushed past bit 7. Rust
      panics on a shift by 8 or more. */
  function Shl(x: Gf, y: Gf): Gf
    requires y.val < 8
  {
    Gf(x.val << y.val)
  }

  /** A right shift by `s` pushes `s` zero bits in at the top and drops
      the `s` lowest bits. */
  lemma ShrMovesBits(x: Gf, s: Byte)
    requires s < 8
    ensures ByteBits(Shr(x, Gf(s)).val) == Zeros(s as nat) + ByteBits(x.val)[..8 - s as nat]
  {
    if s < 4 { ShrLow(x, s); } else { ShrHigh(x, s); }
  }

  /** A left shift by `s` drops the `s` highest bits and pushes `s` zero
      bits in at the bottom. */
  lemma ShlMovesBits(x: Gf, s: Byte)
    requires s < 8
    ensures ByteBits(Shl(x, Gf(s)).val) == ByteBits(x.val)[s..] + Zeros(s as nat)
  {
    if s < 4 { ShlLow(x, s); } else { ShlHigh(x, s); }
  }

  lemma ShrLow(x: Gf, s: Byte)
    requires 0 <= s <= 3
    ensures ByteBits(Shr(x, Gf(s)).val) == Zeros(s as nat) + ByteBits(x.val)[..8 - s as nat]
  {
    if s < 2 { Shr01(x, s); } else { Shr23(x, s); }
  }

  lemma ShrHigh(x: Gf, s: Byte)
    requires 4 <= s <= 7
    ensures ByteBits(Shr(x, Gf(s)).val) == Zeros(s as nat) + ByteBits(x.val)[..8 - s as nat]
  {
    if s < 6 { Shr45(x, s); } else { Shr67(x, s); }
  }

  lemma Shr01(x: Gf, s: Byte)
    requires 0 <= s <= 1
    ensures ByteBits(Shr(x, Gf(s)).val) == Zeros(s as nat) + ByteBits(x.val)[..8 - s as nat]
  {
    if s == 0 { ShrBits0(x.val); } else { ShrBits1(x.val); }
  }

  lemma Shr23(x: Gf, s: Byte)
    requires 2 <= s <= 3
    ensures ByteBits(Shr(x, Gf(s)).val) == Zeros(s as nat) + ByteBits(x.val)[..8 - s as nat]
  {
    if s == 2 { ShrBits2(x.val); } else { ShrBits3(x.val); }
  }

  lemma Shr45(x: Gf, s: Byte)
    requires 4 <= s <= 5
    ensures ByteBits(Shr(x, Gf(s)).val) == Zeros(s as nat) + ByteBits(x.val)[..8 - s as nat]
  {
    if s == 4 { ShrBits4(x.val); } else { ShrBits5(x.val); }
  }

  lemma Shr67(x: Gf, s: Byte)
    requires 6 <= s <= 7
    ensures ByteBits(Shr(x, Gf(s)).val) == Zeros(s as nat) + ByteBits(x.val)[..8 - s as nat]
  {
    if s == 6 { ShrBits6(x.val); } else { ShrBits7(x.val); }
  }

  lemma ShlLow(x: Gf, s: Byte)
    requires 0 <= s <= 3
    ensures ByteBits(Shl(x, Gf(s)).val) == ByteBits(x.val)[s..] + Zeros(s as nat)
  {
    if s < 2 { Shl01(x, s); } else { Shl23(x, s); }
  }

  lemma ShlHigh(x: Gf, s: Byte)
    requires 4 <= s <= 7
    ensures ByteBits(Shl(x, Gf(s)).val) == ByteBits(x.val)[s..] + Zeros(s as nat)
  {
    if s < 6 { Shl45(x, s); } else { Shl67(x, s); }
  }

  lemma Shl01(x: Gf, s: Byte)
    requires 0 <= s <= 1
    ensures ByteBits(Shl(x, Gf(s)).val) == ByteBits(x.val)[s..] + Zeros(s as nat)
  {
    if s == 0 { ShlBits0(x.val); } else { ShlBits1(x.val); }
  }

  lemma Shl23(x: Gf, s: Byte)
    requires 2 <= s <= 3
    ensures ByteBits(Shl(x, Gf(s)).val) == ByteBits(x.val)[s..] + Zeros(s as nat)
  {
    if s == 2 { ShlBits2(x.val); } else { ShlBits3(x.val); }
  }

  lemma Shl45(x: Gf, s: Byte)
    requires 4 <= s <= 5
    ensures ByteBits(Shl(x, Gf(s)).val) == ByteBits(x.val)[s..] + Zeros(s as nat)
  {
    if s == 4 { ShlBits4(x.val); } else { ShlBits5(x.val); }
  }

  lemma Shl67(x: Gf, s: Byte)
    requires 6 <= s <= 7
    ensures ByteBits(Shl(x, Gf(s)).val) == ByteBits(x.val)[s..] + Zeros(s as nat)
  {
    if s == 6 { ShlBits6(x.val); } else { ShlBits7(x.val); }
  }

  lemma ShrBits0(a: Byte)
    ensures ByteBits(a >> 0) == Zeros(0) + ByteBits(a)[..8]
  {
    var b := ByteBits(a);
    assert Zeros(0) + b[..8] == [b[0], b[1], b[2], b[3], b[4], b[5], b[6], b[7]];
  }

  lemma ShrBits1(a: Byte)
    ensures ByteBits(a >> 1) == Zeros(1) + ByteBits(a)[..7]
  {
    var b := ByteBits(a);
    assert b[..7] == [b[0], b[1], b[2], b[3], b[4], b[5], b[6]];
    assert Zeros(1) == [false];
    assert Zeros(1) + b[..7] == [false, b[0], b[1], b[2], b[3], b[4], b[5], b[6]];
  }

  lemma ShrBits2(a: Byte)
    ensures ByteBits(a >> 2) == Zeros(2) + ByteBits(a)[..6]
  {
    var b := ByteBits(a);
    assert b[..6] == [b[0], b[1], b[2], b[3], b[4], b[5]];
    assert Zeros(2) == [false, false];
    assert Zeros(2) + b[..6] == [false, false, b[0], b[1], b[2], b[3], b[4], b[5]];
  }

  lemma ShrBits3(a: Byte)
    ensures ByteBits(a >> 3) == Zeros(3) + ByteBits(a)[..5]
  {
    var b := ByteBits(a);
    assert b[..5] == [b[0], b[1], b[2], b[3], b[4]];
    assert Zeros(3) == [false, false, false];
    assert Zeros(3) + b[..5] == [false, false, false, b[0], b[1], b[2], b[3], b[4]];
  }

  lemma ShrBits4(a: Byte)
    ensures ByteBits(a >> 4) == Zeros(4) + ByteBits(a)[..4]
  {
    var b := ByteBits(a);
    assert b[..4] == [b[0], b[1], b[2], b[3]];
    assert Zeros(4) == [false, false, false, false];
    assert Zeros(4) + b[..4] == [false, false, false, false, b[0], b[1], b[2], b[3]];
  }

  lemma ShrBits5(a: Byte)
    ensures ByteBits(a >> 5) == Zeros(5) + ByteBits(a)[..3]
  {
    var b := ByteBits(a);
    assert b[..3] == [b[0], b[1], b[2]];
    assert Zeros(5) == [false, false, false, false, false];
    assert Zeros(5) + b[..3] == [false, false, false, false, false, b[0], b[1], b[2]];
  }

  lemma ShrBits6(a: Byte)
    ensures ByteBits(a >> 6) == Zeros(6) + ByteBits(a)[..2]
  {
    var b := ByteBits(a);
    assert b[..2] == [b[0], b[1]];
    assert Zeros(6) == [false, false, false, false, false, false];
    assert Zeros(6) + b[..2] == [false, false, false, false, false, false, b[0], b[1]];
  }

  lemma ShrBits7(a: Byte)
    ensures ByteBits(a >> 7) == Zeros(7) + ByteBits(a)[..1]
  {
    var b := ByteBits(a);
    assert b[..1] == [b[0]];
    assert Zeros(7) == [false, false, false, false, false, false, false];
    assert Zeros(7) + b[..1] == [false, false, false, false, false, false, false, b[0]];
  }

  lemma ShlBits0(a: Byte)
    ensures ByteBits(a << 0) == ByteBits(a)[0..] + Zeros(0)
  {
    var b := ByteBits(a);
    assert b[0..] + Zeros(0) == [b[0], b[1], b[2], b[3], b[4], b[5], b[6], b[7]];
  }

  lemma ShlBits1(a: Byte)
    ensures ByteBits(a << 1) == ByteBits(a)[1..] + Zeros(1)
  {
    var b := ByteBits(a);
    assert b[1..] + Zeros(1) == [b[1], b[2], b[3], b[4], b[5], b[6], b[7], false];
  }

  lemma ShlBits2(a: Byte)
    ensures ByteBits(a << 2) == ByteBits(a)[2..] + Zeros(2)
  {
    var b := ByteBits(a);
    assert b[2..] + Zeros(2) == [b[2], b[3], b[4], b[5], b[6], b[7], false, false];
  }

  lemma ShlBits3(a: Byte)
    ensures ByteBits(a << 3) == ByteBits(a)[3..] + Zeros(3)
  {
    var b := ByteBits(a);
    assert b[3..] + Zeros(3) == [b[3], b[4], b[5], b[6], b[7], false, false, false];
  }

  lemma ShlBits4(a: Byte)
    ensures ByteBits(a << 4) == ByteBits(a)[4..] + Zeros(4)
  {
    var b := ByteBits(a);
    assert b[4..] + Zeros(4) == [b[4], b[5], b[6], b[7], false, false, false, false];
  }

  lemma ShlBits5(a: Byte)
    ensures ByteBits(a << 5) == ByteBits(a)[5..] + Zeros(5)
  {
    var b := ByteBits(a);
    assert b[5..] + Zeros(5) == [b[5], b[6], b[7], false, false, false, false, false];
  }

  lemma ShlBits6(a: Byte)
    ensures ByteBits(a << 6) == ByteBits(a)[6..] + Zeros(6)
  {
    var b := ByteBits(a);
    assert b[6..] + Zeros(6) == [b[6], b[7], false, false, false, false, false, false];
  }

  lemma ShlBits7(a: Byte)
    ensures ByteBits(a << 7) == ByteBits(a)[7..] + Zeros(7)
  {
    var b := ByteBits(a);
    assert b[7..] + Zeros(7) == [b[7], false, false, false, false, false, false, false];
  }

  // ---------------------------------------------------------------------
  // The repository's unit tests
  // ---------------------------------------------------------------------

  lemma AddAndSubVectors()
    ensures Add(Gf(5), Gf(7)) == Gf(2) && AddByte(Gf(5), 7) == Gf(2) && ByteAdd(7, Gf(5)) == 2
    ensures Sub(Gf(5), Gf(7)) == Gf(2) && SubByte(Gf(5), 7) == Gf(2) && ByteSub(7, Gf(5)) == 2
  {
  }

  lemma MulVectors()
    ensures Mul(Gf(5), Gf(7)) == Gf(27) && MulByte(Gf(5), 7) == Gf(27) && ByteMul(7, Gf(5)) == 27
  {
    assert PeasantMul(5, 7) == 27;
    assert PeasantMul(7, 5) == 27;
    PeasantIsFieldMul(5, 7);
    PeasantIsFieldMul(7, 5);
  }

  lemma BitwiseVectors()
    ensures Or(Gf(5), Gf(7)) == Gf(7) && And(Gf(5), Gf(7)) == Gf(5) && Xor(Gf(5), Gf(7)) == Gf(2)
    ensures Shr(Gf(5), Gf(7)) == Gf(0) && Shl(Gf(5), Gf(2)) == Gf(20)
  {
  }
}
