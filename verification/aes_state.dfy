/** The cipher state (`AesState`) and the four transformations of
    FIPS-197 section 5.1 that `AesStateOps<4>` implements on it. The state
    holds four columns as big-endian words, so the byte in row `r` and
    column `c` is byte `r` of word `c`. */
module AesState {
  import opened Bits
  import opened AesTables
  import opened AesKey
  import Galois

  /** `AesState`: four column words. */
  datatype State = State(cols: Quad)

  /** The byte in row `r`, column `c`. */
  function Cell(s: State, r: nat, c: nat): Byte
    requires r < 4 && c < 4
  {
    ToBeBytes(s.cols[c])[r]
  }

  /** Two states are equal when all sixteen cells are. */
  lemma StatesEqualByCells(s: State, t: State)
    requires forall r, c :: 0 <= r < 4 && 0 <= c < 4 ==> Cell(s, r, c) == Cell(t, r, c)
    ensures s == t
  {
    forall c | 0 <= c < 4
      ensures s.cols[c] == t.cols[c]
    {
      assert Cell(s, 0, c) == Cell(t, 0, c) && Cell(s, 1, c) == Cell(t, 1, c);
      assert Cell(s, 2, c) == Cell(t, 2, c) && Cell(s, 3, c) == Cell(t, 3, c);
      assert ToBeBytes(s.cols[c]) == ToBeBytes(t.cols[c]);
      ToBeBytesInjective(s.cols[c], t.cols[c]);
    }
  }

  /** A column is the word whose big-endian bytes are its four cells. */
  lemma ColumnOfCells(s: State, c: nat)
    requires c < 4
    ensures s.cols[c] == FromBeBytes([Cell(s, 0, c), Cell(s, 1, c), Cell(s, 2, c), Cell(s, 3, c)])
  {
    var b := ToBeBytes(s.cols[c]);
    assert b == [b[0], b[1], b[2], b[3]];
    FromBeBytesOfToBeBytes(s.cols[c]);
  }

  // ---------------------------------------------------------------------
  // Rows
  // ---------------------------------------------------------------------

  /** `row`: byte `index` of every column. */
  function Row(s: State, index: nat): (r: seq<Byte>)
    requires index < 4
    ensures |r| == 4
  {
    [Cell(s, index, 0), Cell(s, index, 1), Cell(s, index, 2), Cell(s, index, 3)]
  }

  /** The word `w` with big-endian byte `i` replaced by `b`: the body of the
      loop of `set_row`. Kept behind recursion like the other word
      functions. */
  function SetByte(w: Word, i: nat, b: Byte): Word
    requires i < 4
  {
    SetByteAt(w, i, b, 3)
  }

  function SetByteAt(w: Word, i: nat, b: Byte, depth: nat): Word
    requires i < 4
  {
    if depth > 0 then SetByteAt(w, i, b, depth - 1) else FromBeBytes(ToBeBytes(w)[i := b])
  }

  /** Replacing a byte changes that byte and no other. */
  lemma SetByteBytes(w: Word, i: nat, b: Byte)
    requires i < 4
    ensures ToBeBytes(SetByte(w, i, b)) == ToBeBytes(w)[i := b]
  {
    assert SetByte(w, i, b) == SetByteAt(w, i, b, 2);
    assert SetByteAt(w, i, b, 2) == SetByteAt(w, i, b, 0);
  }

  /** `set_row`: byte `index` of column `x` becomes `row[x]`. */
  function SetRow(s: State, index: nat, row: seq<Byte>): State
    requires index < 4 && |row| == 4
  {
    State(seq(4, x requires 0 <= x < 4 => SetByte(s.cols[x], index, row[x])))
  }

  /** After `set_row(index, row)` the cells of row `index` are `row` and
      every other cell is unchanged. */
  lemma SetRowCell(s: State, index: nat, row: seq<Byte>, r: nat, c: nat)
    requires index < 4 && |row| == 4 && r < 4 && c < 4
    ensures Cell(SetRow(s, index, row), r, c) == if r == index then row[c] else Cell(s, r, c)
  {
    SetByteBytes(s.cols[c], index, row[c]);
  }

  /** Reading back a row just set gives the row. */
  lemma RowOfSetRow(s: State, index: nat, row: seq<Byte>)
    requires index < 4 && |row| == 4
    ensures Row(SetRow(s, index, row), index) == row
  {
    var t := SetRow(s, index, row);
    SetRowCell(s, index, row, index, 0);
    SetRowCell(s, index, row, index, 1);
    SetRowCell(s, index, row, index, 2);
    SetRowCell(s, index, row, index, 3);
  }

  /** Setting one row leaves the other rows alone. */
  lemma RowOfSetOtherRow(s: State, index: nat, row: seq<Byte>, other: nat)
    requires index < 4 && |row| == 4 && other < 4 && other != index
    ensures Row(SetRow(s, index, row), other) == Row(s, other)
  {
    SetRowCell(s, index, row, other, 0);
    SetRowCell(s, index, row, other, 1);
    SetRowCell(s, index, row, other, 2);
    SetRowCell(s, index, row, other, 3);
  }

  /** Writing back a row as it was read changes nothing. */
  lemma SetRowOfRow(s: State, index: nat)
    requires index < 4
    ensures SetRow(s, index, Row(s, index)) == s
  {
    var t := SetRow(s, index, Row(s, index));
    forall r, c | 0 <= r < 4 && 0 <= c < 4
      ensures Cell(t, r, c) == Cell(s, r, c)
    {
      SetRowCell(s, index, Row(s, index), r, c);
    }
    StatesEqualByCells(t, s);
  }

  /** `row` as the source writes it: a zeroed array filled from the
      columns. */
  method ReadRow(s: State, index: nat) returns (row: seq<Byte>)
    requires index < 4
    ensures row == Row(s, index)
  {
    row := [0, 0, 0, 0];
    for x := 0 to 4
      invariant |row| == 4
      invariant forall k :: 0 <= k < x ==> row[k] == Cell(s, index, k)
    {
      row := row[x := ToBeBytes(s.cols[x])[index]];
    }
  }

  // ---------------------------------------------------------------------
  // SubBytes and MixColumns: one word function applied to every column
  // ---------------------------------------------------------------------

  /** The state with `f` applied to every column, as the loops of
      `sub_bytes` and `mix_columns` do. */
  function MapColumns(s: State, f: Word -> Word): (r: State)
    ensures forall c :: 0 <= c < 4 ==> r.cols[c] == f(s.cols[c])
  {
    State(seq(4, x requires 0 <= x < 4 => f(s.cols[x])))
  }

  /** `sub_bytes` of the state: each column's bytes through the S-box, by
      the same lookup `AesKey::sub_bytes` uses on a word. */
  function SubBytes(s: State): State
  {
    MapColumns(s, SubWord)
  }

  /** SubBytes substitutes every cell independently (FIPS-197 equation
      5.2 with the S-box of Figure 7). */
  lemma SubBytesCell(s: State, r: nat, c: nat)
    requires r < 4 && c < 4
    ensures Cell(SubBytes(s), r, c) == SBox(Cell(s, r, c))
  {
    SubWordBytes(s.cols[c]);
  }

  /** `GaloisField::<u8>(b) * m`, the `Mul<u8>` impl. */
  function Times(b: Byte, m: Byte): Galois.Gf
  {
    Galois.MulByte(Galois.Gf(b), m)
  }

  /** One output byte of `mix_column`: the field products of the column's
      bytes `v0 .. v3` with a row `m0 .. m3` of `MATRIX`, summed with the
      `^` of `GaloisField<u8>`. */
  function MixRow(v0: Byte, v1: Byte, v2: Byte, v3: Byte, m0: Byte, m1: Byte, m2: Byte, m3: Byte): Byte
  {
    Galois.Xor(Galois.Xor(Galois.Xor(Times(v0, m0), Times(v1, m1)), Times(v2, m2)), Times(v3, m3)).val
  }

  /** `mix_column`: the column's bytes times `MATRIX`, the circulant matrix
      of FIPS-197 equation 5.6 with rows (02 03 01 01), (01 02 03 01),
      (01 01 02 03) and (03 01 01 02), repacked. */
  function MixColumn(a: Word): Word
  {
    MixColumnAt(a, 3)
  }

  function MixColumnAt(a: Word, depth: nat): Word
  {
    if depth > 0 then MixColumnAt(a, depth - 1) else
    var v := ToBeBytes(a);
    FromBeBytes([MixRow(v[0], v[1], v[2], v[3], 0x02, 0x03, 0x01, 0x01),
                 MixRow(v[0], v[1], v[2], v[3], 0x01, 0x02, 0x03, 0x01),
                 MixRow(v[0], v[1], v[2], v[3], 0x01, 0x01, 0x02, 0x03),
                 MixRow(v[0], v[1], v[2], v[3], 0x03, 0x01, 0x01, 0x02)])
  }

  lemma MixColumnUnfold(a: Word)
    ensures var v := ToBeBytes(a);
      ToBeBytes(MixColumn(a)) == [MixRow(v[0], v[1], v[2], v[3], 0x02, 0x03, 0x01, 0x01),
                                  MixRow(v[0], v[1], v[2], v[3], 0x01, 0x02, 0x03, 0x01),
                                  MixRow(v[0], v[1], v[2], v[3], 0x01, 0x01, 0x02, 0x03),
                                  MixRow(v[0], v[1], v[2], v[3], 0x03, 0x01, 0x01, 0x02)]
  {
    assert MixColumn(a) == MixColumnAt(a, 2);
    assert MixColumnAt(a, 2) == MixColumnAt(a, 0);
  }

  /** {03} times a byte: xtime of it plus itself (FIPS-197 section 4.2.1). */
  function XTimePlus(b: Byte): Byte
  {
    Galois.XTimeByte(b) ^ b
  }

  /** The sum of four field elements, as bytes. */
  function Sum4(a: Byte, b: Byte, c: Byte, d: Byte): Byte
  {
    a ^ b ^ c ^ d
  }

  /** MixColumns on one column as FIPS-197 section 5.1.3 writes it, with
      {02} as xtime and {03} as xtime plus the byte: s'0 = {02}s0 + {03}s1
      + s2 + s3, and each further row rotates the coefficients right. */
  function MixColumnXTime(a: Word): Word
  {
    var s := ToBeBytes(a);
    FromBeBytes([Sum4(Galois.XTimeByte(s[0]), XTimePlus(s[1]), s[2], s[3]),
                 Sum4(s[0], Galois.XTimeByte(s[1]), XTimePlus(s[2]), s[3]),
                 Sum4(s[0], s[1], Galois.XTimeByte(s[2]), XTimePlus(s[3])),
                 Sum4(XTimePlus(s[0]), s[1], s[2], Galois.XTimeByte(s[3]))])
  }

  /** The coefficient {01} leaves a byte as it is. */
  lemma TimesOne(b: Byte)
    ensures Times(b, 0x01).val == b
  {
    Galois.MulOneIdentity(Galois.Gf(b));
  }

  /** The coefficient {02} is xtime. */
  lemma TimesTwo(b: Byte)
    ensures Times(b, 0x02).val == Galois.XTimeByte(b)
  {
    Galois.MulByTwo(Galois.Gf(b));
  }

  /** The coefficient {03} is xtime plus the byte. */
  lemma TimesThree(b: Byte)
    ensures Times(b, 0x03).val == XTimePlus(b)
  {
    Galois.MulByThree(Galois.Gf(b));
  }

  /** Field addition of four products whose bytes are known. */
  lemma SumOfProducts(t0: Galois.Gf, t1: Galois.Gf, t2: Galois.Gf, t3: Galois.Gf, c0: Byte, c1: Byte, c2: Byte, c3: Byte)
    requires t0.val == c0 && t1.val == c1 && t2.val == c2 && t3.val == c3
    ensures Galois.Xor(Galois.Xor(Galois.Xor(t0, t1), t2), t3).val == Sum4(c0, c1, c2, c3)
  {
    XorFour(t0, t1, t2, t3, c0, c1, c2, c3);
  }

  lemma XorFour(t0: Galois.Gf, t1: Galois.Gf, t2: Galois.Gf, t3: Galois.Gf, c0: Byte, c1: Byte, c2: Byte, c3: Byte)
    requires t0.val == c0 && t1.val == c1 && t2.val == c2 && t3.val == c3
    ensures Galois.Xor(Galois.Xor(Galois.Xor(t0, t1), t2), t3).val == c0 ^ c1 ^ c2 ^ c3
  {
  }

  /** Row 0 of the matrix, (02 03 01 01). */
  lemma MixRow0(v0: Byte, v1: Byte, v2: Byte, v3: Byte)
    ensures MixRow(v0, v1, v2, v3, 0x02, 0x03, 0x01, 0x01) == Sum4(Galois.XTimeByte(v0), XTimePlus(v1), v2, v3)
  {
    TimesTwo(v0); TimesThree(v1); TimesOne(v2); TimesOne(v3);
    SumOfProducts(Times(v0, 0x02), Times(v1, 0x03), Times(v2, 0x01), Times(v3, 0x01),
                  Galois.XTimeByte(v0), XTimePlus(v1), v2, v3);
  }

  /** Row 1 of the matrix, (01 02 03 01). */
  lemma MixRow1(v0: Byte, v1: Byte, v2: Byte, v3: Byte)
    ensures MixRow(v0, v1, v2, v3, 0x01, 0x02, 0x03, 0x01) == Sum4(v0, Galois.XTimeByte(v1), XTimePlus(v2), v3)
  {
    TimesOne(v0); TimesTwo(v1); TimesThree(v2); TimesOne(v3);
    SumOfProducts(Times(v0, 0x01), Times(v1, 0x02), Times(v2, 0x03), Times(v3, 0x01),
                  v0, Galois.XTimeByte(v1), XTimePlus(v2), v3);
  }

  /** Row 2 of the matrix, (01 01 02 03). */
  lemma MixRow2(v0: Byte, v1: Byte, v2: Byte, v3: Byte)
    ensures MixRow(v0, v1, v2, v3, 0x01, 0x01, 0x02, 0x03) == Sum4(v0, v1, Galois.XTimeByte(v2), XTimePlus(v3))
  {
    TimesOne(v0); TimesOne(v1); TimesTwo(v2); TimesThree(v3);
    SumOfProducts(Times(v0, 0x01), Times(v1, 0x01), Times(v2, 0x02), Times(v3, 0x03),
                  v0, v1, Galois.XTimeByte(v2), XTimePlus(v3));
  }

  /** Row 3 of the matrix, (03 01 01 02). */
  lemma MixRow3(v0: Byte, v1: Byte, v2: Byte, v3: Byte)
    ensures MixRow(v0, v1, v2, v3, 0x03, 0x01, 0x01, 0x02) == Sum4(XTimePlus(v0), v1, v2, Galois.XTimeByte(v3))
  {
    TimesThree(v0); TimesOne(v1); TimesOne(v2); TimesTwo(v3);
    SumOfProducts(Times(v0, 0x03), Times(v1, 0x01), Times(v2, 0x01), Times(v3, 0x02),
                  XTimePlus(v0), v1, v2, Galois.XTimeByte(v3));
  }

  /** The source's matrix product over the field is the xtime form of
      FIPS-197. */
  lemma MixColumnIsXTimeForm(a: Word)
    ensures MixColumn(a) == MixColumnXTime(a)
  {
    var v := ToBeBytes(a);
    MixColumnUnfold(a);
    MixRow0(v[0], v[1], v[2], v[3]);
    MixRow1(v[0], v[1], v[2], v[3]);
    MixRow2(v[0], v[1], v[2], v[3]);
    MixRow3(v[0], v[1], v[2], v[3]);
    ToBeBytesInjective(MixColumn(a), MixColumnXTime(a));
  }

  /** `mix_columns`: `mix_column` on every column. */
  function MixColumns(s: State): State
  {
    MapColumns(s, MixColumn)
  }

  // ---------------------------------------------------------------------
  // ShiftRows
  // ---------------------------------------------------------------------

  /** `<[u8]>::rotate_left(n)`: the first `n` elements move to the end. */
  function RotateLeft(row: seq<Byte>, n: nat): (r: seq<Byte>)
    requires n <= |row|
    ensures |r| == |row|
    ensures forall k :: 0 <= k < |row| - n ==> r[k] == row[k + n]
    ensures forall k :: |row| - n <= k < |row| ==> r[k] == row[k + n - |row|]
  {
    row[n..] + row[..n]
  }

  /** One iteration of the loop of `shift_rows`: row `x` is read, rotated
      left by `x` and written back. */
  function ShiftStep(s: State, x: nat): State
    requires x < 4
  {
    ShiftStepAt(s, x, 3)
  }

  function ShiftStepAt(s: State, x: nat, depth: nat): State
    requires x < 4
  {
    if depth > 0 then ShiftStepAt(s, x, depth - 1) else SetRow(s, x, RotateLeft(Row(s, x), x))
  }

  lemma ShiftStepUnfold(s: State, x: nat)
    requires x < 4
    ensures ShiftStep(s, x) == SetRow(s, x, RotateLeft(Row(s, x), x))
  {
    assert ShiftStep(s, x) == ShiftStepAt(s, x, 2);
    assert ShiftStepAt(s, x, 2) == ShiftStepAt(s, x, 0);
  }

  /** The iterations `x`, `x + 1`, ..., 3 of the loop of `shift_rows`. */
  function ShiftRowsFrom(s: State, x: nat): State
    requires x <= 4
    decreases 4 - x
  {
    if x == 4 then s else ShiftRowsFrom(ShiftStep(s, x), x + 1)
  }

  /** `shift_rows`. */
  function ShiftRows(s: State): State
  {
    ShiftRowsFrom(s, 0)
  }

  /** Iterations `x` to 3 rotate rows `x` to 3 and leave the rows before
      `x` as they were. */
  lemma {:induction false} ShiftRowsFromCell(s: State, x: nat, r: nat, c: nat)
    requires x <= 4 && r < 4 && c < 4
    ensures Cell(ShiftRowsFrom(s, x), r, c) == if r < x then Cell(s, r, c) else Cell(s, r, (c + r) % 4)
    decreases 4 - x
  {
    if x < 4 {
      var t := ShiftStep(s, x);
      ShiftRowsFromCell(t, x + 1, r, c);
      if r <= x {
        ShiftStepCell(s, x, r, c);
      } else {
        ShiftStepCell(s, x, r, (c + r) % 4);
      }
    }
  }

  /** One iteration: row `x`, rotated left by `x`, takes column `c` from
      column `(c + x) mod 4`; the other rows stay. */
  lemma ShiftStepCell(s: State, x: nat, r: nat, c: nat)
    requires x < 4 && r < 4 && c < 4
    ensures Cell(ShiftStep(s, x), r, c) == if r == x then Cell(s, x, (c + x) % 4) else Cell(s, r, c)
  {
    ShiftStepUnfold(s, x);
    SetRowCell(s, x, RotateLeft(Row(s, x), x), r, c);
    if r == x {
      RotateLeftIndex(Row(s, x), x, c);
      RowCell(s, x, (c + x) % 4);
    }
  }

  /** Element `c` of a four-byte row rotated left by `n` is element
      `(c + n) mod 4` of the row. */
  lemma RotateLeftIndex(row: seq<Byte>, n: nat, c: nat)
    requires |row| == 4 && n < 4 && c < 4
    ensures RotateLeft(row, n)[c] == row[(c + n) % 4]
  {
    if c + n < 4 {
      assert (c + n) % 4 == c + n;
    } else {
      assert (c + n) % 4 == c + n - 4;
    }
  }

  lemma RowCell(s: State, index: nat, k: nat)
    requires index < 4 && k < 4
    ensures Row(s, index)[k] == Cell(s, index, k)
  {
  }

  /** ShiftRows as FIPS-197 equation 5.3 defines it: row `r` is rotated
      left by `r`, so the cell in column `c` comes from column
      `(c + r) mod 4`. */
  lemma ShiftRowsCell(s: State, r: nat, c: nat)
    requires r < 4 && c < 4
    ensures Cell(ShiftRows(s), r, c) == Cell(s, r, (c + r) % 4)
  {
    ShiftRowsFromCell(s, 0, r, c);
  }

  /** Column `c` after ShiftRows gathers the diagonal that starts at row 0,
      column `c`. */
  lemma ShiftRowsColumn(s: State, c: nat)
    requires c < 4
    ensures ShiftRows(s).cols[c]
         == FromBeBytes([Cell(s, 0, c), Cell(s, 1, (c + 1) % 4), Cell(s, 2, (c + 2) % 4), Cell(s, 3, (c + 3) % 4)])
  {
    var t := ShiftRows(s);
    ShiftRowsCell(s, 0, c);
    ShiftRowsCell(s, 1, c);
    ShiftRowsCell(s, 2, c);
    ShiftRowsCell(s, 3, c);
    assert (c + 0) % 4 == c;
    ColumnOfCells(t, c);
  }

  /** `shift_rows` as the source writes it, a loop over the rows. */
  method ShiftRowsInPlace(s: State) returns (t: State)
    ensures t == ShiftRows(s)
  {
    t := s;
    for x := 0 to 4
      invariant ShiftRowsFrom(t, x) == ShiftRows(s)
    {
      var row := ReadRow(t, x);
      row := RotateLeft(row, x);
      ShiftStepUnfold(t, x);
      t := SetRow(t, x, row);
    }
  }

  // ---------------------------------------------------------------------
  // AddRoundKey
  // ---------------------------------------------------------------------

  /** `add_round_key`: each column exclusive-or the matching key word. */
  function AddRoundKey(s: State, key: RoundKey): State
  {
    State(seq(4, x requires 0 <= x < 4 => s.cols[x] ^ key.data[x]))
  }

  /** Each cell is combined with the key byte in the same position
      (FIPS-197 equation 5.7): the bytes of column `c` of the result are the
      column's bytes exclusive-or the key word's bytes. */
  lemma AddRoundKeyColumn(s: State, key: RoundKey, c: nat)
    requires c < 4
    ensures ToBeBytes(AddRoundKey(s, key).cols[c]) == XorBytes(ToBeBytes(s.cols[c]), ToBeBytes(key.data[c]))
  {
    var v, w := s.cols[c], key.data[c];
    assert AddRoundKey(s, key).cols[c] == v ^ w;
    ToBeBytesXor(v, w);
  }

  /** Column `c` of AddRoundKey, for a column already known to be `d`. */
  lemma AddRoundKeyColumnWord(s: State, key: RoundKey, c: nat, d: Word)
    requires c < 4 && s.cols[c] == d
    ensures AddRoundKey(s, key).cols[c] == d ^ key.data[c]
  {
  }

  /** Adding the same round key twice restores the state. */
  lemma AddRoundKeyInvolution(s: State, key: RoundKey)
    ensures AddRoundKey(AddRoundKey(s, key), key) == s
  {
    var t := AddRoundKey(AddRoundKey(s, key), key);
    assert t.cols == s.cols;
  }
}
