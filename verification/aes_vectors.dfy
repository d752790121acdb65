/** The known-answer values of the unit tests in `aes.rs`, for the
    operations small enough to evaluate. */
module AesVectors {
  import opened Bits
  import opened AesTables
  import opened AesKey
  import opened AesState

  /** A word whose bytes are `w`'s rotated by one is `RotWord(w)`. */
  lemma RotWordOf(w: Word, e: Word)
    requires ToBeBytes(e) == [ToBeBytes(w)[1], ToBeBytes(w)[2], ToBeBytes(w)[3], ToBeBytes(w)[0]]
    ensures RotWord(w) == e
  {
    RotWordBytes(w);
    ToBeBytesInjective(RotWord(w), e);
  }

  /** `rot_bytes(0x01020304)` for every key length. */
  lemma RotWordVector()
    ensures RotWord(0x01020304) == 0x02030401
  {
    RotWordBytes(0x01020304);
    ToBeBytesInjective(RotWord(0x01020304), 0x02030401);
  }

  /** A word whose bytes are the S-box images of `w`'s bytes is `SubWord(w)`. */
  lemma SubWordOf(w: Word, e: Word)
    requires ToBeBytes(e) == [SBox(ToBeBytes(w)[0]), SBox(ToBeBytes(w)[1]), SBox(ToBeBytes(w)[2]), SBox(ToBeBytes(w)[3])]
    ensures SubWord(w) == e
  {
    SubWordBytes(w);
    ToBeBytesInjective(SubWord(w), e);
  }

  /** `sub_bytes(0x01200340)` for every key length. */
  lemma SubWordVector()
    ensures SubWord(0x01200340) == 0x7CB77B09
  {
    SubWordOf(0x01200340, 0x7CB77B09);
  }

  /** `sub_byte` of 0xFF, 0x00, 0xE2 and 0x7B. */
  lemma SubByteVectors()
    ensures SubByte(0xFF) == 0x16 && SubByte(0x00) == 0x63
    ensures SubByte(0xE2) == 0x98 && SubByte(0x7B) == 0x21
  {
  }

  /** `row(1)` and `row(3)` of the test state. */
  lemma RowVectors()
    ensures Row(State([0x01020304, 0x05060708, 0x090A0B0C, 0x0D0E0F00]), 1) == [0x02, 0x06, 0x0A, 0x0E]
    ensures Row(State([0x01020304, 0x05060708, 0x090A0B0C, 0x0D0E0F00]), 3) == [0x04, 0x08, 0x0C, 0x00]
  {
  }

  /** `set_row(1, ..)` then `set_row(3, ..)`, read back. */
  lemma SetRowVectors(s: State)
    ensures var t := SetRow(SetRow(s, 1, [0x10, 0x20, 0x30, 0x40]), 3, [0x00, 0x00, 0x00, 0x00]);
      Row(t, 1) == [0x10, 0x20, 0x30, 0x40] && Row(t, 3) == [0x00, 0x00, 0x00, 0x00]
  {
    var u := SetRow(s, 1, [0x10, 0x20, 0x30, 0x40]);
    RowOfSetRow(s, 1, [0x10, 0x20, 0x30, 0x40]);
    RowOfSetOtherRow(u, 3, [0x00, 0x00, 0x00, 0x00], 1);
    RowOfSetRow(u, 3, [0x00, 0x00, 0x00, 0x00]);
  }

  /** `sub_bytes` of the test state. */
  lemma SubBytesVector()
    ensures SubBytes(State([0x01020304, 0x05060708, 0x090A0B0C, 0x0D0E0F00]))
         == State([0x7c777bf2, 0x6b6fc530, 0x01672bfe, 0xd7ab7663])
  {
    SubWordOf(0x01020304, 0x7c777bf2);
    SubWordOf(0x05060708, 0x6b6fc530);
    SubWordOf(0x090A0B0C, 0x01672bfe);
    SubWordOf(0x0D0E0F00, 0xd7ab7663);
  }

  /** `mix_column` of the three test columns, and of a column it fixes. */
  lemma MixColumnVector0()
    ensures MixColumn(0xDB135345) == 0x8E4DA1BC
  {
    MixColumnIsXTimeForm(0xDB135345);
  }

  lemma MixColumnVector1()
    ensures MixColumn(0xF20A225C) == 0x9FDC589D
  {
    MixColumnIsXTimeForm(0xF20A225C);
  }

  lemma MixColumnVector2()
    ensures MixColumn(0x2D26314C) == 0x4D7EBDF8
  {
    MixColumnIsXTimeForm(0x2D26314C);
  }

  lemma MixColumnVector3()
    ensures MixColumn(0xC6C6C6C6) == 0xC6C6C6C6
  {
    MixColumnIsXTimeForm(0xC6C6C6C6);
  }

  /** `mix_columns` of the test state: `mix_column` on each column. */
  lemma MixColumnsVector()
    ensures MixColumns(State([0xDB135345, 0xF20A225C, 0x2D26314C, 0xC6C6C6C6]))
         == State([0x8E4DA1BC, 0x9FDC589D, 0x4D7EBDF8, 0xC6C6C6C6])
  {
    MixColumnVector0();
    MixColumnVector1();
    MixColumnVector2();
    MixColumnVector3();
    MixColumnsOf(0xDB135345, 0xF20A225C, 0x2D26314C, 0xC6C6C6C6, 0x8E4DA1BC, 0x9FDC589D, 0x4D7EBDF8, 0xC6C6C6C6);
  }

  /** `mix_columns` maps each column through `mix_column`. */
  lemma MixColumnsOf(a0: Word, a1: Word, a2: Word, a3: Word, e0: Word, e1: Word, e2: Word, e3: Word)
    requires MixColumn(a0) == e0 && MixColumn(a1) == e1 && MixColumn(a2) == e2 && MixColumn(a3) == e3
    ensures MixColumns(State([a0, a1, a2, a3])) == State([e0, e1, e2, e3])
  {
    var t := MixColumns(State([a0, a1, a2, a3]));
    assert t.cols == [e0, e1, e2, e3];
  }

  /** `shift_rows` moves byte `r` of column `c` to column `c - r`. */
  lemma ShiftRowsOf(s: State, e: State)
    requires ToBeBytes(e.cols[0]) == [Cell(s, 0, 0), Cell(s, 1, 1), Cell(s, 2, 2), Cell(s, 3, 3)]
    requires ToBeBytes(e.cols[1]) == [Cell(s, 0, 1), Cell(s, 1, 2), Cell(s, 2, 3), Cell(s, 3, 0)]
    requires ToBeBytes(e.cols[2]) == [Cell(s, 0, 2), Cell(s, 1, 3), Cell(s, 2, 0), Cell(s, 3, 1)]
    requires ToBeBytes(e.cols[3]) == [Cell(s, 0, 3), Cell(s, 1, 0), Cell(s, 2, 1), Cell(s, 3, 2)]
    ensures ShiftRows(s) == e
  {
    ShiftRowsColumnOf(s, 0, 1, 2, 3, e.cols[0]);
    ShiftRowsColumnOf(s, 1, 2, 3, 0, e.cols[1]);
    ShiftRowsColumnOf(s, 2, 3, 0, 1, e.cols[2]);
    ShiftRowsColumnOf(s, 3, 0, 1, 2, e.cols[3]);
    assert ShiftRows(s).cols == e.cols;
  }

  /** Column `c` of ShiftRows is the word `e` whose bytes are the cells of
      the diagonal starting at column `c`. */
  lemma ShiftRowsColumnOf(s: State, c: nat, c1: nat, c2: nat, c3: nat, e: Word)
    requires c < 4 && c1 == (c + 1) % 4 && c2 == (c + 2) % 4 && c3 == (c + 3) % 4
    requires ToBeBytes(e) == [Cell(s, 0, c), Cell(s, 1, c1), Cell(s, 2, c2), Cell(s, 3, c3)]
    ensures ShiftRows(s).cols[c] == e
  {
    ShiftRowsColumn(s, c);
    ToBeBytesInjective(ShiftRows(s).cols[c], e);
  }

  /** `shift_rows` of the test state. */
  lemma ShiftRowsVector()
    ensures ShiftRows(State([0xD42711AE, 0xE0BF98F1, 0xB8B45DE5, 0x1E415230]))
         == State([0xD4BF5D30, 0xE0B452AE, 0xB84111F1, 0x1E2798E5])
  {
    ToBeBytesUnfold(0xD42711AE);
    ToBeBytesUnfold(0xE0BF98F1);
    ToBeBytesUnfold(0xB8B45DE5);
    ToBeBytesUnfold(0x1E415230);
    ToBeBytesUnfold(0xD4BF5D30);
    ToBeBytesUnfold(0xE0B452AE);
    ToBeBytesUnfold(0xB84111F1);
    ToBeBytesUnfold(0x1E2798E5);
    ShiftRowsOf(State([0xD42711AE, 0xE0BF98F1, 0xB8B45DE5, 0x1E415230]),
                State([0xD4BF5D30, 0xE0B452AE, 0xB84111F1, 0x1E2798E5]));
  }

  /** `add_round_key` of the test state and round key. */
  lemma AddRoundKeyVector()
    ensures AddRoundKey(State([0xB9945775, 0xE48E1651, 0x47209A3F, 0xC5D6F53B]),
                        RoundKey([0xDC9B9738, 0x9049FE81, 0x37DF7215, 0xB0E93FA7]))
         == State([0x650FC04D, 0x74C7E8D0, 0x70FFE82A, 0x753FCA9C])
  {
  }
}
