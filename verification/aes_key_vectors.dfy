/** The key expansions of the `aes.rs` unit tests, evaluated on their
    constants: the three `derive_round_keys` tests and the keys of the three
    `encrypt_block` tests. Each expansion is proved one period (`Nk` words)
    at a time, each period resting on the one before, so no single proof
    evaluates more than a few words. */
module AesKeyVectors {
  import opened Bits
  import opened AesTables
  import opened AesKey
  import opened AesVectors

  /** One step of the expansion: word `i` from words `i - 1` and `i - Nk`. */
  lemma ScheduleAtStep(key: Key, i: nat, prev: Word, back: Word, e: Word)
    requires ValidKey(key) && |key.data| <= i < ScheduleLength(|key.data|)
    requires ScheduleAt(key, i - 1) == prev && ScheduleAt(key, i - |key.data|) == back
    requires ScheduleWord(|key.data|, i, prev, back) == e
    ensures ScheduleAt(key, i) == e
  {
  }

  /** Round key `j` is schedule words `4 * j` to `4 * j + 3`. */
  lemma RoundKeyOf(key: Key, j: nat, k0: Word, k1: Word, k2: Word, k3: Word)
    requires ValidKey(key) && j <= Rounds(|key.data|)
    requires ScheduleAt(key, 4 * j) == k0 && ScheduleAt(key, 4 * j + 1) == k1
    requires ScheduleAt(key, 4 * j + 2) == k2 && ScheduleAt(key, 4 * j + 3) == k3
    ensures RoundKeys(key)[j].data == [k0, k1, k2, k3]
  {
    var w := Schedule(key);
    QuadOf(w, 4 * j, k0, k1, k2, k3);
  }

  /** Four known words in a row form a slice. */
  lemma QuadOf(w: seq<Word>, i: nat, k0: Word, k1: Word, k2: Word, k3: Word)
    requires i + 4 <= |w| && w[i] == k0 && w[i + 1] == k1 && w[i + 2] == k2 && w[i + 3] == k3
    ensures w[i .. i + 4] == [k0, k1, k2, k3]
  {
  }

  /** The key of `key_128_derive_round_keys`. */
  predicate IsDeriveKey128(key: Key)
  {
    key.data == [0x0F1571C9, 0x47D9E859, 0x0CB7ADD6, 0xAF7F6798]
  }

  /** A word of the expansion that passes through `SubWord`. */
  lemma DeriveKey128Word4()
    ensures ScheduleWord(4, 4, 0xAF7F6798, 0x0F1571C9) == 0xDC9037B0
  {
    ScheduleWordCases(4, 4, 0xAF7F6798, 0x0F1571C9);
    ToBeBytesUnfold(0xAF7F6798);
    RotWordOf(0xAF7F6798, 0x7F6798AF);
    assert SBox(0x7F) == 0xD2 && SBox(0x67) == 0x85 && SBox(0x98) == 0x46 && SBox(0xAF) == 0x79;
    ToBeBytesUnfold(0x7F6798AF);
    ToBeBytesUnfold(0xD2854679);
    SubWordOf(0x7F6798AF, 0xD2854679);
  }

  /** Words 4 to 7 of its expansion. */
  lemma DeriveKey128Period1(key: Key)
    requires IsDeriveKey128(key)
    ensures ScheduleAt(key, 4) == 0xDC9037B0 && ScheduleAt(key, 5) == 0x9B49DFE9
    ensures ScheduleAt(key, 6) == 0x97FE723F && ScheduleAt(key, 7) == 0x388115A7
  {
    DeriveKey128Word4();
    ScheduleAtStep(key, 4, 0xAF7F6798, 0x0F1571C9, 0xDC9037B0);
    ScheduleAtStep(key, 5, 0xDC9037B0, 0x47D9E859, 0x9B49DFE9);
    ScheduleAtStep(key, 6, 0x9B49DFE9, 0x0CB7ADD6, 0x97FE723F);
    ScheduleAtStep(key, 7, 0x97FE723F, 0xAF7F6798, 0x388115A7);
  }

  /** A word of the expansion that passes through `SubWord`. */
  lemma DeriveKey128Word8()
    ensures ScheduleWord(4, 8, 0x388115A7, 0xDC9037B0) == 0xD2C96BB7
  {
    ScheduleWordCases(4, 8, 0x388115A7, 0xDC9037B0);
    ToBeBytesUnfold(0x388115A7);
    RotWordOf(0x388115A7, 0x8115A738);
    assert SBox(0x81) == 0x0C && SBox(0x15) == 0x59 && SBox(0xA7) == 0x5C && SBox(0x38) == 0x07;
    ToBeBytesUnfold(0x8115A738);
    ToBeBytesUnfold(0x0C595C07);
    SubWordOf(0x8115A738, 0x0C595C07);
  }

  /** Words 8 to 11 of its expansion. */
  lemma DeriveKey128Period2(key: Key)
    requires IsDeriveKey128(key)
    ensures ScheduleAt(key, 8) == 0xD2C96BB7 && ScheduleAt(key, 9) == 0x4980B45E
    ensures ScheduleAt(key, 10) == 0xDE7EC661 && ScheduleAt(key, 11) == 0xE6FFD3C6
  {
    DeriveKey128Period1(key);
    DeriveKey128Word8();
    ScheduleAtStep(key, 8, 0x388115A7, 0xDC9037B0, 0xD2C96BB7);
    ScheduleAtStep(key, 9, 0xD2C96BB7, 0x9B49DFE9, 0x4980B45E);
    ScheduleAtStep(key, 10, 0x4980B45E, 0x97FE723F, 0xDE7EC661);
    ScheduleAtStep(key, 11, 0xDE7EC661, 0x388115A7, 0xE6FFD3C6);
  }

  /** A word of the expansion that passes through `SubWord`. */
  lemma DeriveKey128Word12()
    ensures ScheduleWord(4, 12, 0xE6FFD3C6, 0xD2C96BB7) == 0xC0AFDF39
  {
    ScheduleWordCases(4, 12, 0xE6FFD3C6, 0xD2C96BB7);
    ToBeBytesUnfold(0xE6FFD3C6);
    RotWordOf(0xE6FFD3C6, 0xFFD3C6E6);
    assert SBox(0xFF) == 0x16 && SBox(0xD3) == 0x66 && SBox(0xC6) == 0xB4 && SBox(0xE6) == 0x8E;
    ToBeBytesUnfold(0xFFD3C6E6);
    ToBeBytesUnfold(0x1666B48E);
    SubWordOf(0xFFD3C6E6, 0x1666B48E);
  }

  /** Words 12 to 15 of its expansion. */
  lemma DeriveKey128Period3(key: Key)
    requires IsDeriveKey128(key)
    ensures ScheduleAt(key, 12) == 0xC0AFDF39 && ScheduleAt(key, 13) == 0x892F6B67
    ensures ScheduleAt(key, 14) == 0x5751AD06 && ScheduleAt(key, 15) == 0xB1AE7EC0
  {
    DeriveKey128Period2(key);
    DeriveKey128Word12();
    ScheduleAtStep(key, 12, 0xE6FFD3C6, 0xD2C96BB7, 0xC0AFDF39);
    ScheduleAtStep(key, 13, 0xC0AFDF39, 0x4980B45E, 0x892F6B67);
    ScheduleAtStep(key, 14, 0x892F6B67, 0xDE7EC661, 0x5751AD06);
    ScheduleAtStep(key, 15, 0x5751AD06, 0xE6FFD3C6, 0xB1AE7EC0);
  }

  /** A word of the expansion that passes through `SubWord`. */
  lemma DeriveKey128Word16()
    ensures ScheduleWord(4, 16, 0xB1AE7EC0, 0xC0AFDF39) == 0x2C5C65F1
  {
    ScheduleWordCases(4, 16, 0xB1AE7EC0, 0xC0AFDF39);
    ToBeBytesUnfold(0xB1AE7EC0);
    RotWordOf(0xB1AE7EC0, 0xAE7EC0B1);
    assert SBox(0xAE) == 0xE4 && SBox(0x7E) == 0xF3 && SBox(0xC0) == 0xBA && SBox(0xB1) == 0xC8;
    ToBeBytesUnfold(0xAE7EC0B1);
    ToBeBytesUnfold(0xE4F3BAC8);
    SubWordOf(0xAE7EC0B1, 0xE4F3BAC8);
  }

  /** Words 16 to 19 of its expansion. */
  lemma DeriveKey128Period4(key: Key)
    requires IsDeriveKey128(key)
    ensures ScheduleAt(key, 16) == 0x2C5C65F1 && ScheduleAt(key, 17) == 0xA5730E96
    ensures ScheduleAt(key, 18) == 0xF222A390 && ScheduleAt(key, 19) == 0x438CDD50
  {
    DeriveKey128Period3(key);
    DeriveKey128Word16();
    ScheduleAtStep(key, 16, 0xB1AE7EC0, 0xC0AFDF39, 0x2C5C65F1);
    ScheduleAtStep(key, 17, 0x2C5C65F1, 0x892F6B67, 0xA5730E96);
    ScheduleAtStep(key, 18, 0xA5730E96, 0x5751AD06, 0xF222A390);
    ScheduleAtStep(key, 19, 0xF222A390, 0xB1AE7EC0, 0x438CDD50);
  }

  /** A word of the expansion that passes through `SubWord`. */
  lemma DeriveKey128Word20()
    ensures ScheduleWord(4, 20, 0x438CDD50, 0x2C5C65F1) == 0x589D36EB
  {
    ScheduleWordCases(4, 20, 0x438CDD50, 0x2C5C65F1);
    ToBeBytesUnfold(0x438CDD50);
    RotWordOf(0x438CDD50, 0x8CDD5043);
    assert SBox(0x8C) == 0x64 && SBox(0xDD) == 0xC1 && SBox(0x50) == 0x53 && SBox(0x43) == 0x1A;
    ToBeBytesUnfold(0x8CDD5043);
    ToBeBytesUnfold(0x64C1531A);
    SubWordOf(0x8CDD5043, 0x64C1531A);
  }

  /** Words 20 to 23 of its expansion. */
  lemma DeriveKey128Period5(key: Key)
    requires IsDeriveKey128(key)
    ensures ScheduleAt(key, 20) == 0x589D36EB && ScheduleAt(key, 21) == 0xFDEE387D
    ensures ScheduleAt(key, 22) == 0x0FCC9BED && ScheduleAt(key, 23) == 0x4C4046BD
  {
    DeriveKey128Period4(key);
    DeriveKey128Word20();
    ScheduleAtStep(key, 20, 0x438CDD50, 0x2C5C65F1, 0x589D36EB);
    ScheduleAtStep(key, 21, 0x589D36EB, 0xA5730E96, 0xFDEE387D);
    ScheduleAtStep(key, 22, 0xFDEE387D, 0xF222A390, 0x0FCC9BED);
    ScheduleAtStep(key, 23, 0x0FCC9BED, 0x438CDD50, 0x4C4046BD);
  }

  /** A word of the expansion that passes through `SubWord`. */
  lemma DeriveKey128Word24()
    ensures ScheduleWord(4, 24, 0x4C4046BD, 0x589D36EB) == 0x71C74CC2
  {
    ScheduleWordCases(4, 24, 0x4C4046BD, 0x589D36EB);
    ToBeBytesUnfold(0x4C4046BD);
    RotWordOf(0x4C4046BD, 0x4046BD4C);
    assert SBox(0x40) == 0x09 && SBox(0x46) == 0x5A && SBox(0xBD) == 0x7A && SBox(0x4C) == 0x29;
    ToBeBytesUnfold(0x4046BD4C);
    ToBeBytesUnfold(0x095A7A29);
    SubWordOf(0x4046BD4C, 0x095A7A29);
  }

  /** Words 24 to 27 of its expansion. */
  lemma DeriveKey128Period6(key: Key)
    requires IsDeriveKey128(key)
    ensures ScheduleAt(key, 24) == 0x71C74CC2 && ScheduleAt(key, 25) == 0x8C2974BF
    ensures ScheduleAt(key, 26) == 0x83E5EF52 && ScheduleAt(key, 27) == 0xCFA5A9EF
  {
    DeriveKey128Period5(key);
    DeriveKey128Word24();
    ScheduleAtStep(key, 24, 0x4C4046BD, 0x589D36EB, 0x71C74CC2);
    ScheduleAtStep(key, 25, 0x71C74CC2, 0xFDEE387D, 0x8C2974BF);
    ScheduleAtStep(key, 26, 0x8C2974BF, 0x0FCC9BED, 0x83E5EF52);
    ScheduleAtStep(key, 27, 0x83E5EF52, 0x4C4046BD, 0xCFA5A9EF);
  }

  /** A word of the expansion that passes through `SubWord`. */
  lemma DeriveKey128Word28()
    ensures ScheduleWord(4, 28, 0xCFA5A9EF, 0x71C74CC2) == 0x37149348
  {
    ScheduleWordCases(4, 28, 0xCFA5A9EF, 0x71C74CC2);
    ToBeBytesUnfold(0xCFA5A9EF);
    RotWordOf(0xCFA5A9EF, 0xA5A9EFCF);
    assert SBox(0xA5) == 0x06 && SBox(0xA9) == 0xD3 && SBox(0xEF) == 0xDF && SBox(0xCF) == 0x8A;
    ToBeBytesUnfold(0xA5A9EFCF);
    ToBeBytesUnfold(0x06D3DF8A);
    SubWordOf(0xA5A9EFCF, 0x06D3DF8A);
  }

  /** Words 28 to 31 of its expansion. */
  lemma DeriveKey128Period7(key: Key)
    requires IsDeriveKey128(key)
    ensures ScheduleAt(key, 28) == 0x37149348 && ScheduleAt(key, 29) == 0xBB3DE7F7
    ensures ScheduleAt(key, 30) == 0x38D808A5 && ScheduleAt(key, 31) == 0xF77DA14A
  {
    DeriveKey128Period6(key);
    DeriveKey128Word28();
    ScheduleAtStep(key, 28, 0xCFA5A9EF, 0x71C74CC2, 0x37149348);
    ScheduleAtStep(key, 29, 0x37149348, 0x8C2974BF, 0xBB3DE7F7);
    ScheduleAtStep(key, 30, 0xBB3DE7F7, 0x83E5EF52, 0x38D808A5);
    ScheduleAtStep(key, 31, 0x38D808A5, 0xCFA5A9EF, 0xF77DA14A);
  }

  /** A word of the expansion that passes through `SubWord`. */
  lemma DeriveKey128Word32()
    ensures ScheduleWord(4, 32, 0xF77DA14A, 0x37149348) == 0x48264520
  {
    ScheduleWordCases(4, 32, 0xF77DA14A, 0x37149348);
    ToBeBytesUnfold(0xF77DA14A);
    RotWordOf(0xF77DA14A, 0x7DA14AF7);
    assert SBox(0x7D) == 0xFF && SBox(0xA1) == 0x32 && SBox(0x4A) == 0xD6 && SBox(0xF7) == 0x68;
    ToBeBytesUnfold(0x7DA14AF7);
    ToBeBytesUnfold(0xFF32D668);
    SubWordOf(0x7DA14AF7, 0xFF32D668);
  }

  /** Words 32 to 35 of its expansion. */
  lemma DeriveKey128Period8(key: Key)
    requires IsDeriveKey128(key)
    ensures ScheduleAt(key, 32) == 0x48264520 && ScheduleAt(key, 33) == 0xF31BA2D7
    ensures ScheduleAt(key, 34) == 0xCBC3AA72 && ScheduleAt(key, 35) == 0x3CBE0B38
  {
    DeriveKey128Period7(key);
    DeriveKey128Word32();
    ScheduleAtStep(key, 32, 0xF77DA14A, 0x37149348, 0x48264520);
    ScheduleAtStep(key, 33, 0x48264520, 0xBB3DE7F7, 0xF31BA2D7);
    ScheduleAtStep(key, 34, 0xF31BA2D7, 0x38D808A5, 0xCBC3AA72);
    ScheduleAtStep(key, 35, 0xCBC3AA72, 0xF77DA14A, 0x3CBE0B38);
  }

  /** A word of the expansion that passes through `SubWord`. */
  lemma DeriveKey128Word36()
    ensures ScheduleWord(4, 36, 0x3CBE0B38, 0x48264520) == 0xFD0D42CB
  {
    ScheduleWordCases(4, 36, 0x3CBE0B38, 0x48264520);
    ToBeBytesUnfold(0x3CBE0B38);
    RotWordOf(0x3CBE0B38, 0xBE0B383C);
    assert SBox(0xBE) == 0xAE && SBox(0x0B) == 0x2B && SBox(0x38) == 0x07 && SBox(0x3C) == 0xEB;
    ToBeBytesUnfold(0xBE0B383C);
    ToBeBytesUnfold(0xAE2B07EB);
    SubWordOf(0xBE0B383C, 0xAE2B07EB);
  }

  /** Words 36 to 39 of its expansion. */
  lemma DeriveKey128Period9(key: Key)
    requires IsDeriveKey128(key)
    ensures ScheduleAt(key, 36) == 0xFD0D42CB && ScheduleAt(key, 37) == 0x0E16E01C
    ensures ScheduleAt(key, 38) == 0xC5D54A6E && ScheduleAt(key, 39) == 0xF96B4156
  {
    DeriveKey128Period8(key);
    DeriveKey128Word36();
    ScheduleAtStep(key, 36, 0x3CBE0B38, 0x48264520, 0xFD0D42CB);
    ScheduleAtStep(key, 37, 0xFD0D42CB, 0xF31BA2D7, 0x0E16E01C);
    ScheduleAtStep(key, 38, 0x0E16E01C, 0xCBC3AA72, 0xC5D54A6E);
    ScheduleAtStep(key, 39, 0xC5D54A6E, 0x3CBE0B38, 0xF96B4156);
  }

  /** A word of the expansion that passes through `SubWord`. */
  lemma DeriveKey128Word40()
    ensures ScheduleWord(4, 40, 0xF96B4156, 0xFD0D42CB) == 0xB48EF352
  {
    ScheduleWordCases(4, 40, 0xF96B4156, 0xFD0D42CB);
    ToBeBytesUnfold(0xF96B4156);
    RotWordOf(0xF96B4156, 0x6B4156F9);
    assert SBox(0x6B) == 0x7F && SBox(0x41) == 0x83 && SBox(0x56) == 0xB1 && SBox(0xF9) == 0x99;
    ToBeBytesUnfold(0x6B4156F9);
    ToBeBytesUnfold(0x7F83B199);
    SubWordOf(0x6B4156F9, 0x7F83B199);
  }

  /** Words 40 to 43 of its expansion. */
  lemma DeriveKey128Period10(key: Key)
    requires IsDeriveKey128(key)
    ensures ScheduleAt(key, 40) == 0xB48EF352 && ScheduleAt(key, 41) == 0xBA98134E
    ensures ScheduleAt(key, 42) == 0x7F4D5920 && ScheduleAt(key, 43) == 0x86261876
  {
    DeriveKey128Period9(key);
    DeriveKey128Word40();
    ScheduleAtStep(key, 40, 0xF96B4156, 0xFD0D42CB, 0xB48EF352);
    ScheduleAtStep(key, 41, 0xB48EF352, 0x0E16E01C, 0xBA98134E);
    ScheduleAtStep(key, 42, 0xBA98134E, 0xC5D54A6E, 0x7F4D5920);
    ScheduleAtStep(key, 43, 0x7F4D5920, 0xF96B4156, 0x86261876);
  }

  /** `key_128_derive_round_keys`: the last of the 11 round keys. */
  lemma DeriveKey128Vector(key: Key)
    requires IsDeriveKey128(key)
    ensures var ks := RoundKeys(key); ks[|ks| - 1] == RoundKey([0xB48EF352, 0xBA98134E, 0x7F4D5920, 0x86261876])
  {
    DeriveKey128Period10(key);
    RoundKeyOf(key, 10, 0xB48EF352, 0xBA98134E, 0x7F4D5920, 0x86261876);
  }

  /** The key of `key_192_derive_round_keys`. */
  predicate IsDeriveKey192(key: Key)
  {
    key.data == [0x8E73B0F7, 0xDA0E6452, 0xC810F32B, 0x809079E5, 0x62F8EAD2, 0x522C6B7B]
  }

  /** A word of the expansion that passes through `SubWord`. */
  lemma DeriveKey192Word6()
    ensures ScheduleWord(6, 6, 0x522C6B7B, 0x8E73B0F7) == 0xFE0C91F7
  {
    ScheduleWordCases(6, 6, 0x522C6B7B, 0x8E73B0F7);
    ToBeBytesUnfold(0x522C6B7B);
    RotWordOf(0x522C6B7B, 0x2C6B7B52);
    assert SBox(0x2C) == 0x71 && SBox(0x6B) == 0x7F && SBox(0x7B) == 0x21 && SBox(0x52) == 0x00;
    ToBeBytesUnfold(0x2C6B7B52);
    ToBeBytesUnfold(0x717F2100);
    SubWordOf(0x2C6B7B52, 0x717F2100);
  }

  /** Words 6 to 11 of its expansion. */
  lemma DeriveKey192Period1(key: Key)
    requires IsDeriveKey192(key)
    ensures ScheduleAt(key, 6) == 0xFE0C91F7 && ScheduleAt(key, 7) == 0x2402F5A5
    ensures ScheduleAt(key, 8) == 0xEC12068E && ScheduleAt(key, 9) == 0x6C827F6B
    ensures ScheduleAt(key, 10) == 0x0E7A95B9 && ScheduleAt(key, 11) == 0x5C56FEC2
  {
    DeriveKey192Word6();
    ScheduleAtStep(key, 6, 0x522C6B7B, 0x8E73B0F7, 0xFE0C91F7);
    ScheduleAtStep(key, 7, 0xFE0C91F7, 0xDA0E6452, 0x2402F5A5);
    ScheduleAtStep(key, 8, 0x2402F5A5, 0xC810F32B, 0xEC12068E);
    ScheduleAtStep(key, 9, 0xEC12068E, 0x809079E5, 0x6C827F6B);
    ScheduleAtStep(key, 10, 0x6C827F6B, 0x62F8EAD2, 0x0E7A95B9);
    ScheduleAtStep(key, 11, 0x0E7A95B9, 0x522C6B7B, 0x5C56FEC2);
  }

  /** A word of the expansion that passes through `SubWord`. */
  lemma DeriveKey192Word12()
    ensures ScheduleWord(6, 12, 0x5C56FEC2, 0xFE0C91F7) == 0x4DB7B4BD
  {
    ScheduleWordCases(6, 12, 0x5C56FEC2, 0xFE0C91F7);
    ToBeBytesUnfold(0x5C56FEC2);
    RotWordOf(0x5C56FEC2, 0x56FEC25C);
    assert SBox(0x56) == 0xB1 && SBox(0xFE) == 0xBB && SBox(0xC2) == 0x25 && SBox(0x5C) == 0x4A;
    ToBeBytesUnfold(0x56FEC25C);
    ToBeBytesUnfold(0xB1BB254A);
    SubWordOf(0x56FEC25C, 0xB1BB254A);
  }

  /** Words 12 to 17 of its expansion. */
  lemma DeriveKey192Period2(key: Key)
    requires IsDeriveKey192(key)
    ensures ScheduleAt(key, 12) == 0x4DB7B4BD && ScheduleAt(key, 13) == 0x69B54118
    ensures ScheduleAt(key, 14) == 0x85A74796 && ScheduleAt(key, 15) == 0xE92538FD
    ensures ScheduleAt(key, 16) == 0xE75FAD44 && ScheduleAt(key, 17) == 0xBB095386
  {
    DeriveKey192Period1(key);
    DeriveKey192Word12();
    ScheduleAtStep(key, 12, 0x5C56FEC2, 0xFE0C91F7, 0x4DB7B4BD);
    ScheduleAtStep(key, 13, 0x4DB7B4BD, 0x2402F5A5, 0x69B54118);
    ScheduleAtStep(key, 14, 0x69B54118, 0xEC12068E, 0x85A74796);
    ScheduleAtStep(key, 15, 0x85A74796, 0x6C827F6B, 0xE92538FD);
    ScheduleAtStep(key, 16, 0xE92538FD, 0x0E7A95B9, 0xE75FAD44);
    ScheduleAtStep(key, 17, 0xE75FAD44, 0x5C56FEC2, 0xBB095386);
  }

  /** A word of the expansion that passes through `SubWord`. */
  lemma DeriveKey192Word18()
    ensures ScheduleWord(6, 18, 0xBB095386, 0x4DB7B4BD) == 0x485AF057
  {
    ScheduleWordCases(6, 18, 0xBB095386, 0x4DB7B4BD);
    ToBeBytesUnfold(0xBB095386);
    RotWordOf(0xBB095386, 0x095386BB);
    assert SBox(0x09) == 0x01 && SBox(0x53) == 0xED && SBox(0x86) == 0x44 && SBox(0xBB) == 0xEA;
    ToBeBytesUnfold(0x095386BB);
    ToBeBytesUnfold(0x01ED44EA);
    SubWordOf(0x095386BB, 0x01ED44EA);
  }

  /** Words 18 to 23 of its expansion. */
  lemma DeriveKey192Period3(key: Key)
    requires IsDeriveKey192(key)
    ensures ScheduleAt(key, 18) == 0x485AF057 && ScheduleAt(key, 19) == 0x21EFB14F
    ensures ScheduleAt(key, 20) == 0xA448F6D9 && ScheduleAt(key, 21) == 0x4D6DCE24
    ensures ScheduleAt(key, 22) == 0xAA326360 && ScheduleAt(key, 23) == 0x113B30E6
  {
    DeriveKey192Period2(key);
    DeriveKey192Word18();
    ScheduleAtStep(key, 18, 0xBB095386, 0x4DB7B4BD, 0x485AF057);
    ScheduleAtStep(key, 19, 0x485AF057, 0x69B54118, 0x21EFB14F);
    ScheduleAtStep(key, 20, 0x21EFB14F, 0x85A74796, 0xA448F6D9);
    ScheduleAtStep(key, 21, 0xA448F6D9, 0xE92538FD, 0x4D6DCE24);
    ScheduleAtStep(key, 22, 0x4D6DCE24, 0xE75FAD44, 0xAA326360);
    ScheduleAtStep(key, 23, 0xAA326360, 0xBB095386, 0x113B30E6);
  }

  /** A word of the expansion that passes through `SubWord`. */
  lemma DeriveKey192Word24()
    ensures ScheduleWord(6, 24, 0x113B30E6, 0x485AF057) == 0xA25E7ED5
  {
    ScheduleWordCases(6, 24, 0x113B30E6, 0x485AF057);
    ToBeBytesUnfold(0x113B30E6);
    RotWordOf(0x113B30E6, 0x3B30E611);
    assert SBox(0x3B) == 0xE2 && SBox(0x30) == 0x04 && SBox(0xE6) == 0x8E && SBox(0x11) == 0x82;
    ToBeBytesUnfold(0x3B30E611);
    ToBeBytesUnfold(0xE2048E82);
    SubWordOf(0x3B30E611, 0xE2048E82);
  }

  /** Words 24 to 29 of its expansion. */
  lemma DeriveKey192Period4(key: Key)
    requires IsDeriveKey192(key)
    ensures ScheduleAt(key, 24) == 0xA25E7ED5 && ScheduleAt(key, 25) == 0x83B1CF9A
    ensures ScheduleAt(key, 26) == 0x27F93943 && ScheduleAt(key, 27) == 0x6A94F767
    ensures ScheduleAt(key, 28) == 0xC0A69407 && ScheduleAt(key, 29) == 0xD19DA4E1
  {
    DeriveKey192Period3(key);
    DeriveKey192Word24();
    ScheduleAtStep(key, 24, 0x113B30E6, 0x485AF057, 0xA25E7ED5);
    ScheduleAtStep(key, 25, 0xA25E7ED5, 0x21EFB14F, 0x83B1CF9A);
    ScheduleAtStep(key, 26, 0x83B1CF9A, 0xA448F6D9, 0x27F93943);
    ScheduleAtStep(key, 27, 0x27F93943, 0x4D6DCE24, 0x6A94F767);
    ScheduleAtStep(key, 28, 0x6A94F767, 0xAA326360, 0xC0A69407);
    ScheduleAtStep(key, 29, 0xC0A69407, 0x113B30E6, 0xD19DA4E1);
  }

  /** A word of the expansion that passes through `SubWord`. */
  lemma DeriveKey192Word30()
    ensures ScheduleWord(6, 30, 0xD19DA4E1, 0xA25E7ED5) == 0xEC1786EB
  {
    ScheduleWordCases(6, 30, 0xD19DA4E1, 0xA25E7ED5);
    ToBeBytesUnfold(0xD19DA4E1);
    RotWordOf(0xD19DA4E1, 0x9DA4E1D1);
    assert SBox(0x9D) == 0x5E && SBox(0xA4) == 0x49 && SBox(0xE1) == 0xF8 && SBox(0xD1) == 0x3E;
    ToBeBytesUnfold(0x9DA4E1D1);
    ToBeBytesUnfold(0x5E49F83E);
    SubWordOf(0x9DA4E1D1, 0x5E49F83E);
  }

  /** Words 30 to 35 of its expansion. */
  lemma DeriveKey192Period5(key: Key)
    requires IsDeriveKey192(key)
    ensures ScheduleAt(key, 30) == 0xEC1786EB && ScheduleAt(key, 31) == 0x6FA64971
    ensures ScheduleAt(key, 32) == 0x485F7032 && ScheduleAt(key, 33) == 0x22CB8755
    ensures ScheduleAt(key, 34) == 0xE26D1352 && ScheduleAt(key, 35) == 0x33F0B7B3
  {
    DeriveKey192Period4(key);
    DeriveKey192Word30();
    ScheduleAtStep(key, 30, 0xD19DA4E1, 0xA25E7ED5, 0xEC1786EB);
    ScheduleAtStep(key, 31, 0xEC1786EB, 0x83B1CF9A, 0x6FA64971);
    ScheduleAtStep(key, 32, 0x6FA64971, 0x27F93943, 0x485F7032);
    ScheduleAtStep(key, 33, 0x485F7032, 0x6A94F767, 0x22CB8755);
    ScheduleAtStep(key, 34, 0x22CB8755, 0xC0A69407, 0xE26D1352);
    ScheduleAtStep(key, 35, 0xE26D1352, 0xD19DA4E1, 0x33F0B7B3);
  }

  /** A word of the expansion that passes through `SubWord`. */
  lemma DeriveKey192Word36()
    ensures ScheduleWord(6, 36, 0x33F0B7B3, 0xEC1786EB) == 0x40BEEB28
  {
    ScheduleWordCases(6, 36, 0x33F0B7B3, 0xEC1786EB);
    ToBeBytesUnfold(0x33F0B7B3);
    RotWordOf(0x33F0B7B3, 0xF0B7B333);
    assert SBox(0xF0) == 0x8C && SBox(0xB7) == 0xA9 && SBox(0xB3) == 0x6D && SBox(0x33) == 0xC3;
    ToBeBytesUnfold(0xF0B7B333);
    ToBeBytesUnfold(0x8CA96DC3);
    SubWordOf(0xF0B7B333, 0x8CA96DC3);
  }

  /** Words 36 to 41 of its expansion. */
  lemma DeriveKey192Period6(key: Key)
    requires IsDeriveKey192(key)
    ensures ScheduleAt(key, 36) == 0x40BEEB28 && ScheduleAt(key, 37) == 0x2F18A259
    ensures ScheduleAt(key, 38) == 0x6747D26B && ScheduleAt(key, 39) == 0x458C553E
    ensures ScheduleAt(key, 40) == 0xA7E1466C && ScheduleAt(key, 41) == 0x9411F1DF
  {
    DeriveKey192Period5(key);
    DeriveKey192Word36();
    ScheduleAtStep(key, 36, 0x33F0B7B3, 0xEC1786EB, 0x40BEEB28);
    ScheduleAtStep(key, 37, 0x40BEEB28, 0x6FA64971, 0x2F18A259);
    ScheduleAtStep(key, 38, 0x2F18A259, 0x485F7032, 0x6747D26B);
    ScheduleAtStep(key, 39, 0x6747D26B, 0x22CB8755, 0x458C553E);
    ScheduleAtStep(key, 40, 0x458C553E, 0xE26D1352, 0xA7E1466C);
    ScheduleAtStep(key, 41, 0xA7E1466C, 0x33F0B7B3, 0x9411F1DF);
  }

  /** A word of the expansion that passes through `SubWord`. */
  lemma DeriveKey192Word42()
    ensures ScheduleWord(6, 42, 0x9411F1DF, 0x40BEEB28) == 0x821F750A
  {
    ScheduleWordCases(6, 42, 0x9411F1DF, 0x40BEEB28);
    ToBeBytesUnfold(0x9411F1DF);
    RotWordOf(0x9411F1DF, 0x11F1DF94);
    assert SBox(0x11) == 0x82 && SBox(0xF1) == 0xA1 && SBox(0xDF) == 0x9E && SBox(0x94) == 0x22;
    ToBeBytesUnfold(0x11F1DF94);
    ToBeBytesUnfold(0x82A19E22);
    SubWordOf(0x11F1DF94, 0x82A19E22);
  }

  /** Words 42 to 47 of its expansion. */
  lemma DeriveKey192Period7(key: Key)
    requires IsDeriveKey192(key)
    ensures ScheduleAt(key, 42) == 0x821F750A && ScheduleAt(key, 43) == 0xAD07D753
    ensures ScheduleAt(key, 44) == 0xCA400538 && ScheduleAt(key, 45) == 0x8FCC5006
    ensures ScheduleAt(key, 46) == 0x282D166A && ScheduleAt(key, 47) == 0xBC3CE7B5
  {
    DeriveKey192Period6(key);
    DeriveKey192Word42();
    ScheduleAtStep(key, 42, 0x9411F1DF, 0x40BEEB28, 0x821F750A);
    ScheduleAtStep(key, 43, 0x821F750A, 0x2F18A259, 0xAD07D753);
    ScheduleAtStep(key, 44, 0xAD07D753, 0x6747D26B, 0xCA400538);
    ScheduleAtStep(key, 45, 0xCA400538, 0x458C553E, 0x8FCC5006);
    ScheduleAtStep(key, 46, 0x8FCC5006, 0xA7E1466C, 0x282D166A);
    ScheduleAtStep(key, 47, 0x282D166A, 0x9411F1DF, 0xBC3CE7B5);
  }

  /** A word of the expansion that passes through `SubWord`. */
  lemma DeriveKey192Word48()
    ensures ScheduleWord(6, 48, 0xBC3CE7B5, 0x821F750A) == 0xE98BA06F
  {
    ScheduleWordCases(6, 48, 0xBC3CE7B5, 0x821F750A);
    ToBeBytesUnfold(0xBC3CE7B5);
    RotWordOf(0xBC3CE7B5, 0x3CE7B5BC);
    assert SBox(0x3C) == 0xEB && SBox(0xE7) == 0x94 && SBox(0xB5) == 0xD5 && SBox(0xBC) == 0x65;
    ToBeBytesUnfold(0x3CE7B5BC);
    ToBeBytesUnfold(0xEB94D565);
    SubWordOf(0x3CE7B5BC, 0xEB94D565);
  }

  /** Words 48 to 51 of its expansion. */
  lemma DeriveKey192Period8(key: Key)
    requires IsDeriveKey192(key)
    ensures ScheduleAt(key, 48) == 0xE98BA06F && ScheduleAt(key, 49) == 0x448C773C
    ensures ScheduleAt(key, 50) == 0x8ECC7204 && ScheduleAt(key, 51) == 0x01002202
  {
    DeriveKey192Period7(key);
    DeriveKey192Word48();
    ScheduleAtStep(key, 48, 0xBC3CE7B5, 0x821F750A, 0xE98BA06F);
    ScheduleAtStep(key, 49, 0xE98BA06F, 0xAD07D753, 0x448C773C);
    ScheduleAtStep(key, 50, 0x448C773C, 0xCA400538, 0x8ECC7204);
    ScheduleAtStep(key, 51, 0x8ECC7204, 0x8FCC5006, 0x01002202);
  }

  /** `key_192_derive_round_keys`: the last of the 13 round keys. */
  lemma DeriveKey192Vector(key: Key)
    requires IsDeriveKey192(key)
    ensures var ks := RoundKeys(key); ks[|ks| - 1] == RoundKey([0xE98BA06F, 0x448C773C, 0x8ECC7204, 0x01002202])
  {
    DeriveKey192Period8(key);
    RoundKeyOf(key, 12, 0xE98BA06F, 0x448C773C, 0x8ECC7204, 0x01002202);
  }

  /** The key of `key_256_derive_round_keys`. */
  predicate IsDeriveKey256(key: Key)
  {
    key.data == [0x603DEB10, 0x15CA71BE, 0x2B73AEF0, 0x857D7781, 0x1F352C07, 0x3B6108D7, 0x2D9810A3, 0x0914DFF4]
  }

  /** A word of the expansion that passes through `SubWord`. */
  lemma DeriveKey256Word8()
    ensures ScheduleWord(8, 8, 0x0914DFF4, 0x603DEB10) == 0x9BA35411
  {
    ScheduleWordCases(8, 8, 0x0914DFF4, 0x603DEB10);
    ToBeBytesUnfold(0x0914DFF4);
    RotWordOf(0x0914DFF4, 0x14DFF409);
    assert SBox(0x14) == 0xFA && SBox(0xDF) == 0x9E && SBox(0xF4) == 0xBF && SBox(0x09) == 0x01;
    ToBeBytesUnfold(0x14DFF409);
    ToBeBytesUnfold(0xFA9EBF01);
    SubWordOf(0x14DFF409, 0xFA9EBF01);
  }

  /** A word of the expansion that passes through `SubWord`. */
  lemma DeriveKey256Word12()
    ensures ScheduleWord(8, 12, 0x2067FCDE, 0x1F352C07) == 0xA8B09C1A
  {
    ScheduleWordCases(8, 12, 0x2067FCDE, 0x1F352C07);
    assert SBox(0x20) == 0xB7 && SBox(0x67) == 0x85 && SBox(0xFC) == 0xB0 && SBox(0xDE) == 0x1D;
    ToBeBytesUnfold(0x2067FCDE);
    ToBeBytesUnfold(0xB785B01D);
    SubWordOf(0x2067FCDE, 0xB785B01D);
  }

  /** Words 8 to 15 of its expansion. */
  lemma DeriveKey256Period1(key: Key)
    requires IsDeriveKey256(key)
    ensures ScheduleAt(key, 8) == 0x9BA35411 && ScheduleAt(key, 9) == 0x8E6925AF
    ensures ScheduleAt(key, 10) == 0xA51A8B5F && ScheduleAt(key, 11) == 0x2067FCDE
    ensures ScheduleAt(key, 12) == 0xA8B09C1A && ScheduleAt(key, 13) == 0x93D194CD
    ensures ScheduleAt(key, 14) == 0xBE49846E && ScheduleAt(key, 15) == 0xB75D5B9A
  {
    DeriveKey256Word8();
    ScheduleAtStep(key, 8, 0x0914DFF4, 0x603DEB10, 0x9BA35411);
    ScheduleAtStep(key, 9, 0x9BA35411, 0x15CA71BE, 0x8E6925AF);
    ScheduleAtStep(key, 10, 0x8E6925AF, 0x2B73AEF0, 0xA51A8B5F);
    ScheduleAtStep(key, 11, 0xA51A8B5F, 0x857D7781, 0x2067FCDE);
    DeriveKey256Word12();
    ScheduleAtStep(key, 12, 0x2067FCDE, 0x1F352C07, 0xA8B09C1A);
    ScheduleAtStep(key, 13, 0xA8B09C1A, 0x3B6108D7, 0x93D194CD);
    ScheduleAtStep(key, 14, 0x93D194CD, 0x2D9810A3, 0xBE49846E);
    ScheduleAtStep(key, 15, 0xBE49846E, 0x0914DFF4, 0xB75D5B9A);
  }

  /** A word of the expansion that passes through `SubWord`. */
  lemma DeriveKey256Word16()
    ensures ScheduleWord(8, 16, 0xB75D5B9A, 0x9BA35411) == 0xD59AECB8
  {
    ScheduleWordCases(8, 16, 0xB75D5B9A, 0x9BA35411);
    ToBeBytesUnfold(0xB75D5B9A);
    RotWordOf(0xB75D5B9A, 0x5D5B9AB7);
    assert SBox(0x5D) == 0x4C && SBox(0x5B) == 0x39 && SBox(0x9A) == 0xB8 && SBox(0xB7) == 0xA9;
    ToBeBytesUnfold(0x5D5B9AB7);
    ToBeBytesUnfold(0x4C39B8A9);
    SubWordOf(0x5D5B9AB7, 0x4C39B8A9);
  }

  /** A word of the expansion that passes through `SubWord`. */
  lemma DeriveKey256Word20()
    ensures ScheduleWord(8, 20, 0xDE8EBE96, 0xA8B09C1A) == 0xB5A9328A
  {
    ScheduleWordCases(8, 20, 0xDE8EBE96, 0xA8B09C1A);
    assert SBox(0xDE) == 0x1D && SBox(0x8E) == 0x19 && SBox(0xBE) == 0xAE && SBox(0x96) == 0x90;
    ToBeBytesUnfold(0xDE8EBE96);
    ToBeBytesUnfold(0x1D19AE90);
    SubWordOf(0xDE8EBE96, 0x1D19AE90);
  }

  /** Words 16 to 23 of its expansion. */
  lemma DeriveKey256Period2(key: Key)
    requires IsDeriveKey256(key)
    ensures ScheduleAt(key, 16) == 0xD59AECB8 && ScheduleAt(key, 17) == 0x5BF3C917
    ensures ScheduleAt(key, 18) == 0xFEE94248 && ScheduleAt(key, 19) == 0xDE8EBE96
    ensures ScheduleAt(key, 20) == 0xB5A9328A && ScheduleAt(key, 21) == 0x2678A647
    ensures ScheduleAt(key, 22) == 0x98312229 && ScheduleAt(key, 23) == 0x2F6C79B3
  {
    DeriveKey256Period1(key);
    DeriveKey256Word16();
    ScheduleAtStep(key, 16, 0xB75D5B9A, 0x9BA35411, 0xD59AECB8);
    ScheduleAtStep(key, 17, 0xD59AECB8, 0x8E6925AF, 0x5BF3C917);
    ScheduleAtStep(key, 18, 0x5BF3C917, 0xA51A8B5F, 0xFEE94248);
    ScheduleAtStep(key, 19, 0xFEE94248, 0x2067FCDE, 0xDE8EBE96);
    DeriveKey256Word20();
    ScheduleAtStep(key, 20, 0xDE8EBE96, 0xA8B09C1A, 0xB5A9328A);
    ScheduleAtStep(key, 21, 0xB5A9328A, 0x93D194CD, 0x2678A647);
    ScheduleAtStep(key, 22, 0x2678A647, 0xBE49846E, 0x98312229);
    ScheduleAtStep(key, 23, 0x98312229, 0xB75D5B9A, 0x2F6C79B3);
  }

  /** A word of the expansion that passes through `SubWord`. */
  lemma DeriveKey256Word24()
    ensures ScheduleWord(8, 24, 0x2F6C79B3, 0xD59AECB8) == 0x812C81AD
  {
    ScheduleWordCases(8, 24, 0x2F6C79B3, 0xD59AECB8);
    ToBeBytesUnfold(0x2F6C79B3);
    RotWordOf(0x2F6C79B3, 0x6C79B32F);
    assert SBox(0x6C) == 0x50 && SBox(0x79) == 0xB6 && SBox(0xB3) == 0x6D && SBox(0x2F) == 0x15;
    ToBeBytesUnfold(0x6C79B32F);
    ToBeBytesUnfold(0x50B66D15);
    SubWordOf(0x6C79B32F, 0x50B66D15);
  }

  /** A word of the expansion that passes through `SubWord`. */
  lemma DeriveKey256Word28()
    ensures ScheduleWord(8, 28, 0xFAB8B464, 0xB5A9328A) == 0x98C5BFC9
  {
    ScheduleWordCases(8, 28, 0xFAB8B464, 0xB5A9328A);
    assert SBox(0xFA) == 0x2D && SBox(0xB8) == 0x6C && SBox(0xB4) == 0x8D && SBox(0x64) == 0x43;
    ToBeBytesUnfold(0xFAB8B464);
    ToBeBytesUnfold(0x2D6C8D43);
    SubWordOf(0xFAB8B464, 0x2D6C8D43);
  }

  /** Words 24 to 31 of its expansion. */
  lemma DeriveKey256Period3(key: Key)
    requires IsDeriveKey256(key)
    ensures ScheduleAt(key, 24) == 0x812C81AD && ScheduleAt(key, 25) == 0xDADF48BA
    ensures ScheduleAt(key, 26) == 0x24360AF2 && ScheduleAt(key, 27) == 0xFAB8B464
    ensures ScheduleAt(key, 28) == 0x98C5BFC9 && ScheduleAt(key, 29) == 0xBEBD198E
    ensures ScheduleAt(key, 30) == 0x268C3BA7 && ScheduleAt(key, 31) == 0x09E04214
  {
    DeriveKey256Period2(key);
    DeriveKey256Word24();
    ScheduleAtStep(key, 24, 0x2F6C79B3, 0xD59AECB8, 0x812C81AD);
    ScheduleAtStep(key, 25, 0x812C81AD, 0x5BF3C917, 0xDADF48BA);
    ScheduleAtStep(key, 26, 0xDADF48BA, 0xFEE94248, 0x24360AF2);
    ScheduleAtStep(key, 27, 0x24360AF2, 0xDE8EBE96, 0xFAB8B464);
    DeriveKey256Word28();
    ScheduleAtStep(key, 28, 0xFAB8B464, 0xB5A9328A, 0x98C5BFC9);
    ScheduleAtStep(key, 29, 0x98C5BFC9, 0x2678A647, 0xBEBD198E);
    ScheduleAtStep(key, 30, 0xBEBD198E, 0x98312229, 0x268C3BA7);
    ScheduleAtStep(key, 31, 0x268C3BA7, 0x2F6C79B3, 0x09E04214);
  }

  /** A word of the expansion that passes through `SubWord`. */
  lemma DeriveKey256Word32()
    ensures ScheduleWord(8, 32, 0x09E04214, 0x812C81AD) == 0x68007BAC
  {
    ScheduleWordCases(8, 32, 0x09E04214, 0x812C81AD);
    ToBeBytesUnfold(0x09E04214);
    RotWordOf(0x09E04214, 0xE0421409);
    assert SBox(0xE0) == 0xE1 && SBox(0x42) == 0x2C && SBox(0x14) == 0xFA && SBox(0x09) == 0x01;
    ToBeBytesUnfold(0xE0421409);
    ToBeBytesUnfold(0xE12CFA01);
    SubWordOf(0xE0421409, 0xE12CFA01);
  }

  /** A word of the expansion that passes through `SubWord`. */
  lemma DeriveKey256Word36()
    ensures ScheduleWord(8, 36, 0x6C518D80, 0x98C5BFC9) == 0xC814E204
  {
    ScheduleWordCases(8, 36, 0x6C518D80, 0x98C5BFC9);
    assert SBox(0x6C) == 0x50 && SBox(0x51) == 0xD1 && SBox(0x8D) == 0x5D && SBox(0x80) == 0xCD;
    ToBeBytesUnfold(0x6C518D80);
    ToBeBytesUnfold(0x50D15DCD);
    SubWordOf(0x6C518D80, 0x50D15DCD);
  }

  /** Words 32 to 39 of its expansion. */
  lemma DeriveKey256Period4(key: Key)
    requires IsDeriveKey256(key)
    ensures ScheduleAt(key, 32) == 0x68007BAC && ScheduleAt(key, 33) == 0xB2DF3316
    ensures ScheduleAt(key, 34) == 0x96E939E4 && ScheduleAt(key, 35) == 0x6C518D80
    ensures ScheduleAt(key, 36) == 0xC814E204 && ScheduleAt(key, 37) == 0x76A9FB8A
    ensures ScheduleAt(key, 38) == 0x5025C02D && ScheduleAt(key, 39) == 0x59C58239
  {
    DeriveKey256Period3(key);
    DeriveKey256Word32();
    ScheduleAtStep(key, 32, 0x09E04214, 0x812C81AD, 0x68007BAC);
    ScheduleAtStep(key, 33, 0x68007BAC, 0xDADF48BA, 0xB2DF3316);
    ScheduleAtStep(key, 34, 0xB2DF3316, 0x24360AF2, 0x96E939E4);
    ScheduleAtStep(key, 35, 0x96E939E4, 0xFAB8B464, 0x6C518D80);
    DeriveKey256Word36();
    ScheduleAtStep(key, 36, 0x6C518D80, 0x98C5BFC9, 0xC814E204);
    ScheduleAtStep(key, 37, 0xC814E204, 0xBEBD198E, 0x76A9FB8A);
    ScheduleAtStep(key, 38, 0x76A9FB8A, 0x268C3BA7, 0x5025C02D);
    ScheduleAtStep(key, 39, 0x5025C02D, 0x09E04214, 0x59C58239);
  }

  /** A word of the expansion that passes through `SubWord`. */
  lemma DeriveKey256Word40()
    ensures ScheduleWord(8, 40, 0x59C58239, 0x68007BAC) == 0xDE136967
  {
    ScheduleWordCases(8, 40, 0x59C58239, 0x68007BAC);
    ToBeBytesUnfold(0x59C58239);
    RotWordOf(0x59C58239, 0xC5823959);
    assert SBox(0xC5) == 0xA6 && SBox(0x82) == 0x13 && SBox(0x39) == 0x12 && SBox(0x59) == 0xCB;
    ToBeBytesUnfold(0xC5823959);
    ToBeBytesUnfold(0xA61312CB);
    SubWordOf(0xC5823959, 0xA61312CB);
  }

  /** A word of the expansion that passes through `SubWord`. */
  lemma DeriveKey256Word44()
    ensures ScheduleWord(8, 44, 0x9674EE15, 0xC814E204) == 0x5886CA5D
  {
    ScheduleWordCases(8, 44, 0x9674EE15, 0xC814E204);
    assert SBox(0x96) == 0x90 && SBox(0x74) == 0x92 && SBox(0xEE) == 0x28 && SBox(0x15) == 0x59;
    ToBeBytesUnfold(0x9674EE15);
    ToBeBytesUnfold(0x90922859);
    SubWordOf(0x9674EE15, 0x90922859);
  }

  /** Words 40 to 47 of its expansion. */
  lemma DeriveKey256Period5(key: Key)
    requires IsDeriveKey256(key)
    ensures ScheduleAt(key, 40) == 0xDE136967 && ScheduleAt(key, 41) == 0x6CCC5A71
    ensures ScheduleAt(key, 42) == 0xFA256395 && ScheduleAt(key, 43) == 0x9674EE15
    ensures ScheduleAt(key, 44) == 0x5886CA5D && ScheduleAt(key, 45) == 0x2E2F31D7
    ensures ScheduleAt(key, 46) == 0x7E0AF1FA && ScheduleAt(key, 47) == 0x27CF73C3
  {
    DeriveKey256Period4(key);
    DeriveKey256Word40();
    ScheduleAtStep(key, 40, 0x59C58239, 0x68007BAC, 0xDE136967);
    ScheduleAtStep(key, 41, 0xDE136967, 0xB2DF3316, 0x6CCC5A71);
    ScheduleAtStep(key, 42, 0x6CCC5A71, 0x96E939E4, 0xFA256395);
    ScheduleAtStep(key, 43, 0xFA256395, 0x6C518D80, 0x9674EE15);
    DeriveKey256Word44();
    ScheduleAtStep(key, 44, 0x9674EE15, 0xC814E204, 0x5886CA5D);
    ScheduleAtStep(key, 45, 0x5886CA5D, 0x76A9FB8A, 0x2E2F31D7);
    ScheduleAtStep(key, 46, 0x2E2F31D7, 0x5025C02D, 0x7E0AF1FA);
    ScheduleAtStep(key, 47, 0x7E0AF1FA, 0x59C58239, 0x27CF73C3);
  }

  /** A word of the expansion that passes through `SubWord`. */
  lemma DeriveKey256Word48()
    ensures ScheduleWord(8, 48, 0x27CF73C3, 0xDE136967) == 0x749C47AB
  {
    ScheduleWordCases(8, 48, 0x27CF73C3, 0xDE136967);
    ToBeBytesUnfold(0x27CF73C3);
    RotWordOf(0x27CF73C3, 0xCF73C327);
    assert SBox(0xCF) == 0x8A && SBox(0x73) == 0x8F && SBox(0xC3) == 0x2E && SBox(0x27) == 0xCC;
    ToBeBytesUnfold(0xCF73C327);
    ToBeBytesUnfold(0x8A8F2ECC);
    SubWordOf(0xCF73C327, 0x8A8F2ECC);
  }

  /** A word of the expansion that passes through `SubWord`. */
  lemma DeriveKey256Word52()
    ensures ScheduleWord(8, 52, 0x7401905A, 0x5886CA5D) == 0xCAFAAAE3
  {
    ScheduleWordCases(8, 52, 0x7401905A, 0x5886CA5D);
    assert SBox(0x74) == 0x92 && SBox(0x01) == 0x7C && SBox(0x90) == 0x60 && SBox(0x5A) == 0xBE;
    ToBeBytesUnfold(0x7401905A);
    ToBeBytesUnfold(0x927C60BE);
    SubWordOf(0x7401905A, 0x927C60BE);
  }

  /** Words 48 to 55 of its expansion. */
  lemma DeriveKey256Period6(key: Key)
    requires IsDeriveKey256(key)
    ensures ScheduleAt(key, 48) == 0x749C47AB && ScheduleAt(key, 49) == 0x18501DDA
    ensures ScheduleAt(key, 50) == 0xE2757E4F && ScheduleAt(key, 51) == 0x7401905A
    ensures ScheduleAt(key, 52) == 0xCAFAAAE3 && ScheduleAt(key, 53) == 0xE4D59B34
    ensures ScheduleAt(key, 54) == 0x9ADF6ACE && ScheduleAt(key, 55) == 0xBD10190D
  {
    DeriveKey256Period5(key);
    DeriveKey256Word48();
    ScheduleAtStep(key, 48, 0x27CF73C3, 0xDE136967, 0x749C47AB);
    ScheduleAtStep(key, 49, 0x749C47AB, 0x6CCC5A71, 0x18501DDA);
    ScheduleAtStep(key, 50, 0x18501DDA, 0xFA256395, 0xE2757E4F);
    ScheduleAtStep(key, 51, 0xE2757E4F, 0x9674EE15, 0x7401905A);
    DeriveKey256Word52();
    ScheduleAtStep(key, 52, 0x7401905A, 0x5886CA5D, 0xCAFAAAE3);
    ScheduleAtStep(key, 53, 0xCAFAAAE3, 0x2E2F31D7, 0xE4D59B34);
    ScheduleAtStep(key, 54, 0xE4D59B34, 0x7E0AF1FA, 0x9ADF6ACE);
    ScheduleAtStep(key, 55, 0x9ADF6ACE, 0x27CF73C3, 0xBD10190D);
  }

  /** A word of the expansion that passes through `SubWord`. */
  lemma DeriveKey256Word56()
    ensures ScheduleWord(8, 56, 0xBD10190D, 0x749C47AB) == 0xFE4890D1
  {
    ScheduleWordCases(8, 56, 0xBD10190D, 0x749C47AB);
    ToBeBytesUnfold(0xBD10190D);
    RotWordOf(0xBD10190D, 0x10190DBD);
    assert SBox(0x10) == 0xCA && SBox(0x19) == 0xD4 && SBox(0x0D) == 0xD7 && SBox(0xBD) == 0x7A;
    ToBeBytesUnfold(0x10190DBD);
    ToBeBytesUnfold(0xCAD4D77A);
    SubWordOf(0x10190DBD, 0xCAD4D77A);
  }

  /** Words 56 to 59 of its expansion. */
  lemma DeriveKey256Period7(key: Key)
    requires IsDeriveKey256(key)
    ensures ScheduleAt(key, 56) == 0xFE4890D1 && ScheduleAt(key, 57) == 0xE6188D0B
    ensures ScheduleAt(key, 58) == 0x046DF344 && ScheduleAt(key, 59) == 0x706C631E
  {
    DeriveKey256Period6(key);
    DeriveKey256Word56();
    ScheduleAtStep(key, 56, 0xBD10190D, 0x749C47AB, 0xFE4890D1);
    ScheduleAtStep(key, 57, 0xFE4890D1, 0x18501DDA, 0xE6188D0B);
    ScheduleAtStep(key, 58, 0xE6188D0B, 0xE2757E4F, 0x046DF344);
    ScheduleAtStep(key, 59, 0x046DF344, 0x7401905A, 0x706C631E);
  }

  /** `key_256_derive_round_keys`: the last of the 15 round keys. */
  lemma DeriveKey256Vector(key: Key)
    requires IsDeriveKey256(key)
    ensures var ks := RoundKeys(key); ks[|ks| - 1] == RoundKey([0xFE4890D1, 0xE6188D0B, 0x046DF344, 0x706C631E])
  {
    DeriveKey256Period7(key);
    RoundKeyOf(key, 14, 0xFE4890D1, 0xE6188D0B, 0x046DF344, 0x706C631E);
  }

  /** The key of the `aes_encrypt_block_128` test. */
  predicate IsCipherKey128(key: Key)
  {
    key.data == [0x2B7E1516, 0x28AED2A6, 0xABF71588, 0x09CF4F3C]
  }

  /** A word of the expansion that passes through `SubWord`. */
  lemma CipherKey128Word4()
    ensures ScheduleWord(4, 4, 0x09CF4F3C, 0x2B7E1516) == 0xA0FAFE17
  {
    ScheduleWordCases(4, 4, 0x09CF4F3C, 0x2B7E1516);
    ToBeBytesUnfold(0x09CF4F3C);
    RotWordOf(0x09CF4F3C, 0xCF4F3C09);
    assert SBox(0xCF) == 0x8A && SBox(0x4F) == 0x84 && SBox(0x3C) == 0xEB && SBox(0x09) == 0x01;
    ToBeBytesUnfold(0xCF4F3C09);
    ToBeBytesUnfold(0x8A84EB01);
    SubWordOf(0xCF4F3C09, 0x8A84EB01);
  }

  /** Words 4 to 7 of its expansion. */
  lemma CipherKey128Period1(key: Key)
    requires IsCipherKey128(key)
    ensures ScheduleAt(key, 4) == 0xA0FAFE17 && ScheduleAt(key, 5) == 0x88542CB1
    ensures ScheduleAt(key, 6) == 0x23A33939 && ScheduleAt(key, 7) == 0x2A6C7605
  {
    CipherKey128Word4();
    ScheduleAtStep(key, 4, 0x09CF4F3C, 0x2B7E1516, 0xA0FAFE17);
    ScheduleAtStep(key, 5, 0xA0FAFE17, 0x28AED2A6, 0x88542CB1);
    ScheduleAtStep(key, 6, 0x88542CB1, 0xABF71588, 0x23A33939);
    ScheduleAtStep(key, 7, 0x23A33939, 0x09CF4F3C, 0x2A6C7605);
  }

  /** A word of the expansion that passes through `SubWord`. */
  lemma CipherKey128Word8()
    ensures ScheduleWord(4, 8, 0x2A6C7605, 0xA0FAFE17) == 0xF2C295F2
  {
    ScheduleWordCases(4, 8, 0x2A6C7605, 0xA0FAFE17);
    ToBeBytesUnfold(0x2A6C7605);
    RotWordOf(0x2A6C7605, 0x6C76052A);
    assert SBox(0x6C) == 0x50 && SBox(0x76) == 0x38 && SBox(0x05) == 0x6B && SBox(0x2A) == 0xE5;
    ToBeBytesUnfold(0x6C76052A);
    ToBeBytesUnfold(0x50386BE5);
    SubWordOf(0x6C76052A, 0x50386BE5);
  }

  /** Words 8 to 11 of its expansion. */
  lemma CipherKey128Period2(key: Key)
    requires IsCipherKey128(key)
    ensures ScheduleAt(key, 8) == 0xF2C295F2 && ScheduleAt(key, 9) == 0x7A96B943
    ensures ScheduleAt(key, 10) == 0x5935807A && ScheduleAt(key, 11) == 0x7359F67F
  {
    CipherKey128Period1(key);
    CipherKey128Word8();
    ScheduleAtStep(key, 8, 0x2A6C7605, 0xA0FAFE17, 0xF2C295F2);
    ScheduleAtStep(key, 9, 0xF2C295F2, 0x88542CB1, 0x7A96B943);
    ScheduleAtStep(key, 10, 0x7A96B943, 0x23A33939, 0x5935807A);
    ScheduleAtStep(key, 11, 0x5935807A, 0x2A6C7605, 0x7359F67F);
  }

  /** A word of the expansion that passes through `SubWord`. */
  lemma CipherKey128Word12()
    ensures ScheduleWord(4, 12, 0x7359F67F, 0xF2C295F2) == 0x3D80477D
  {
    ScheduleWordCases(4, 12, 0x7359F67F, 0xF2C295F2);
    ToBeBytesUnfold(0x7359F67F);
    RotWordOf(0x7359F67F, 0x59F67F73);
    assert SBox(0x59) == 0xCB && SBox(0xF6) == 0x42 && SBox(0x7F) == 0xD2 && SBox(0x73) == 0x8F;
    ToBeBytesUnfold(0x59F67F73);
    ToBeBytesUnfold(0xCB42D28F);
    SubWordOf(0x59F67F73, 0xCB42D28F);
  }

  /** Words 12 to 15 of its expansion. */
  lemma CipherKey128Period3(key: Key)
    requires IsCipherKey128(key)
    ensures ScheduleAt(key, 12) == 0x3D80477D && ScheduleAt(key, 13) == 0x4716FE3E
    ensures ScheduleAt(key, 14) == 0x1E237E44 && ScheduleAt(key, 15) == 0x6D7A883B
  {
    CipherKey128Period2(key);
    CipherKey128Word12();
    ScheduleAtStep(key, 12, 0x7359F67F, 0xF2C295F2, 0x3D80477D);
    ScheduleAtStep(key, 13, 0x3D80477D, 0x7A96B943, 0x4716FE3E);
    ScheduleAtStep(key, 14, 0x4716FE3E, 0x5935807A, 0x1E237E44);
    ScheduleAtStep(key, 15, 0x1E237E44, 0x7359F67F, 0x6D7A883B);
  }

  /** A word of the expansion that passes through `SubWord`. */
  lemma CipherKey128Word16()
    ensures ScheduleWord(4, 16, 0x6D7A883B, 0x3D80477D) == 0xEF44A541
  {
    ScheduleWordCases(4, 16, 0x6D7A883B, 0x3D80477D);
    ToBeBytesUnfold(0x6D7A883B);
    RotWordOf(0x6D7A883B, 0x7A883B6D);
    assert SBox(0x7A) == 0xDA && SBox(0x88) == 0xC4 && SBox(0x3B) == 0xE2 && SBox(0x6D) == 0x3C;
    ToBeBytesUnfold(0x7A883B6D);
    ToBeBytesUnfold(0xDAC4E23C);
    SubWordOf(0x7A883B6D, 0xDAC4E23C);
  }

  /** Words 16 to 19 of its expansion. */
  lemma CipherKey128Period4(key: Key)
    requires IsCipherKey128(key)
    ensures ScheduleAt(key, 16) == 0xEF44A541 && ScheduleAt(key, 17) == 0xA8525B7F
    ensures ScheduleAt(key, 18) == 0xB671253B && ScheduleAt(key, 19) == 0xDB0BAD00
  {
    CipherKey128Period3(key);
    CipherKey128Word16();
    ScheduleAtStep(key, 16, 0x6D7A883B, 0x3D80477D, 0xEF44A541);
    ScheduleAtStep(key, 17, 0xEF44A541, 0x4716FE3E, 0xA8525B7F);
    ScheduleAtStep(key, 18, 0xA8525B7F, 0x1E237E44, 0xB671253B);
    ScheduleAtStep(key, 19, 0xB671253B, 0x6D7A883B, 0xDB0BAD00);
  }

  /** A word of the expansion that passes through `SubWord`. */
  lemma CipherKey128Word20()
    ensures ScheduleWord(4, 20, 0xDB0BAD00, 0xEF44A541) == 0xD4D1C6F8
  {
    ScheduleWordCases(4, 20, 0xDB0BAD00, 0xEF44A541);
    ToBeBytesUnfold(0xDB0BAD00);
    RotWordOf(0xDB0BAD00, 0x0BAD00DB);
    assert SBox(0x0B) == 0x2B && SBox(0xAD) == 0x95 && SBox(0x00) == 0x63 && SBox(0xDB) == 0xB9;
    ToBeBytesUnfold(0x0BAD00DB);
    ToBeBytesUnfold(0x2B9563B9);
    SubWordOf(0x0BAD00DB, 0x2B9563B9);
  }

  /** Words 20 to 23 of its expansion. */
  lemma CipherKey128Period5(key: Key)
    requires IsCipherKey128(key)
    ensures ScheduleAt(key, 20) == 0xD4D1C6F8 && ScheduleAt(key, 21) == 0x7C839D87
    ensures ScheduleAt(key, 22) == 0xCAF2B8BC && ScheduleAt(key, 23) == 0x11F915BC
  {
    CipherKey128Period4(key);
    CipherKey128Word20();
    ScheduleAtStep(key, 20, 0xDB0BAD00, 0xEF44A541, 0xD4D1C6F8);
    ScheduleAtStep(key, 21, 0xD4D1C6F8, 0xA8525B7F, 0x7C839D87);
    ScheduleAtStep(key, 22, 0x7C839D87, 0xB671253B, 0xCAF2B8BC);
    ScheduleAtStep(key, 23, 0xCAF2B8BC, 0xDB0BAD00, 0x11F915BC);
  }

  /** A word of the expansion that passes through `SubWord`. */
  lemma CipherKey128Word24()
    ensures ScheduleWord(4, 24, 0x11F915BC, 0xD4D1C6F8) == 0x6D88A37A
  {
    ScheduleWordCases(4, 24, 0x11F915BC, 0xD4D1C6F8);
    ToBeBytesUnfold(0x11F915BC);
    RotWordOf(0x11F915BC, 0xF915BC11);
    assert SBox(0xF9) == 0x99 && SBox(0x15) == 0x59 && SBox(0xBC) == 0x65 && SBox(0x11) == 0x82;
    ToBeBytesUnfold(0xF915BC11);
    ToBeBytesUnfold(0x99596582);
    SubWordOf(0xF915BC11, 0x99596582);
  }

  /** Words 24 to 27 of its expansion. */
  lemma CipherKey128Period6(key: Key)
    requires IsCipherKey128(key)
    ensures ScheduleAt(key, 24) == 0x6D88A37A && ScheduleAt(key, 25) == 0x110B3EFD
    ensures ScheduleAt(key, 26) == 0xDBF98641 && ScheduleAt(key, 27) == 0xCA0093FD
  {
    CipherKey128Period5(key);
    CipherKey128Word24();
    ScheduleAtStep(key, 24, 0x11F915BC, 0xD4D1C6F8, 0x6D88A37A);
    ScheduleAtStep(key, 25, 0x6D88A37A, 0x7C839D87, 0x110B3EFD);
    ScheduleAtStep(key, 26, 0x110B3EFD, 0xCAF2B8BC, 0xDBF98641);
    ScheduleAtStep(key, 27, 0xDBF98641, 0x11F915BC, 0xCA0093FD);
  }

  /** A word of the expansion that passes through `SubWord`. */
  lemma CipherKey128Word28()
    ensures ScheduleWord(4, 28, 0xCA0093FD, 0x6D88A37A) == 0x4E54F70E
  {
    ScheduleWordCases(4, 28, 0xCA0093FD, 0x6D88A37A);
    ToBeBytesUnfold(0xCA0093FD);
    RotWordOf(0xCA0093FD, 0x0093FDCA);
    assert SBox(0x00) == 0x63 && SBox(0x93) == 0xDC && SBox(0xFD) == 0x54 && SBox(0xCA) == 0x74;
    ToBeBytesUnfold(0x0093FDCA);
    ToBeBytesUnfold(0x63DC5474);
    SubWordOf(0x0093FDCA, 0x63DC5474);
  }

  /** Words 28 to 31 of its expansion. */
  lemma CipherKey128Period7(key: Key)
    requires IsCipherKey128(key)
    ensures ScheduleAt(key, 28) == 0x4E54F70E && ScheduleAt(key, 29) == 0x5F5FC9F3
    ensures ScheduleAt(key, 30) == 0x84A64FB2 && ScheduleAt(key, 31) == 0x4EA6DC4F
  {
    CipherKey128Period6(key);
    CipherKey128Word28();
    ScheduleAtStep(key, 28, 0xCA0093FD, 0x6D88A37A, 0x4E54F70E);
    ScheduleAtStep(key, 29, 0x4E54F70E, 0x110B3EFD, 0x5F5FC9F3);
    ScheduleAtStep(key, 30, 0x5F5FC9F3, 0xDBF98641, 0x84A64FB2);
    ScheduleAtStep(key, 31, 0x84A64FB2, 0xCA0093FD, 0x4EA6DC4F);
  }

  /** A word of the expansion that passes through `SubWord`. */
  lemma CipherKey128Word32()
    ensures ScheduleWord(4, 32, 0x4EA6DC4F, 0x4E54F70E) == 0xEAD27321
  {
    ScheduleWordCases(4, 32, 0x4EA6DC4F, 0x4E54F70E);
    ToBeBytesUnfold(0x4EA6DC4F);
    RotWordOf(0x4EA6DC4F, 0xA6DC4F4E);
    assert SBox(0xA6) == 0x24 && SBox(0xDC) == 0x86 && SBox(0x4F) == 0x84 && SBox(0x4E) == 0x2F;
    ToBeBytesUnfold(0xA6DC4F4E);
    ToBeBytesUnfold(0x2486842F);
    SubWordOf(0xA6DC4F4E, 0x2486842F);
  }

  /** Words 32 to 35 of its expansion. */
  lemma CipherKey128Period8(key: Key)
    requires IsCipherKey128(key)
    ensures ScheduleAt(key, 32) == 0xEAD27321 && ScheduleAt(key, 33) == 0xB58DBAD2
    ensures ScheduleAt(key, 34) == 0x312BF560 && ScheduleAt(key, 35) == 0x7F8D292F
  {
    CipherKey128Period7(key);
    CipherKey128Word32();
    ScheduleAtStep(key, 32, 0x4EA6DC4F, 0x4E54F70E, 0xEAD27321);
    ScheduleAtStep(key, 33, 0xEAD27321, 0x5F5FC9F3, 0xB58DBAD2);
    ScheduleAtStep(key, 34, 0xB58DBAD2, 0x84A64FB2, 0x312BF560);
    ScheduleAtStep(key, 35, 0x312BF560, 0x4EA6DC4F, 0x7F8D292F);
  }

  /** A word of the expansion that passes through `SubWord`. */
  lemma CipherKey128Word36()
    ensures ScheduleWord(4, 36, 0x7F8D292F, 0xEAD27321) == 0xAC7766F3
  {
    ScheduleWordCases(4, 36, 0x7F8D292F, 0xEAD27321);
    ToBeBytesUnfold(0x7F8D292F);
    RotWordOf(0x7F8D292F, 0x8D292F7F);
    assert SBox(0x8D) == 0x5D && SBox(0x29) == 0xA5 && SBox(0x2F) == 0x15 && SBox(0x7F) == 0xD2;
    ToBeBytesUnfold(0x8D292F7F);
    ToBeBytesUnfold(0x5DA515D2);
    SubWordOf(0x8D292F7F, 0x5DA515D2);
  }

  /** Words 36 to 39 of its expansion. */
  lemma CipherKey128Period9(key: Key)
    requires IsCipherKey128(key)
    ensures ScheduleAt(key, 36) == 0xAC7766F3 && ScheduleAt(key, 37) == 0x19FADC21
    ensures ScheduleAt(key, 38) == 0x28D12941 && ScheduleAt(key, 39) == 0x575C006E
  {
    CipherKey128Period8(key);
    CipherKey128Word36();
    ScheduleAtStep(key, 36, 0x7F8D292F, 0xEAD27321, 0xAC7766F3);
    ScheduleAtStep(key, 37, 0xAC7766F3, 0xB58DBAD2, 0x19FADC21);
    ScheduleAtStep(key, 38, 0x19FADC21, 0x312BF560, 0x28D12941);
    ScheduleAtStep(key, 39, 0x28D12941, 0x7F8D292F, 0x575C006E);
  }

  /** A word of the expansion that passes through `SubWord`. */
  lemma CipherKey128Word40()
    ensures ScheduleWord(4, 40, 0x575C006E, 0xAC7766F3) == 0xD014F9A8
  {
    ScheduleWordCases(4, 40, 0x575C006E, 0xAC7766F3);
    ToBeBytesUnfold(0x575C006E);
    RotWordOf(0x575C006E, 0x5C006E57);
    assert SBox(0x5C) == 0x4A && SBox(0x00) == 0x63 && SBox(0x6E) == 0x9F && SBox(0x57) == 0x5B;
    ToBeBytesUnfold(0x5C006E57);
    ToBeBytesUnfold(0x4A639F5B);
    SubWordOf(0x5C006E57, 0x4A639F5B);
  }

  /** Words 40 to 43 of its expansion. */
  lemma CipherKey128Period10(key: Key)
    requires IsCipherKey128(key)
    ensures ScheduleAt(key, 40) == 0xD014F9A8 && ScheduleAt(key, 41) == 0xC9EE2589
    ensures ScheduleAt(key, 42) == 0xE13F0CC8 && ScheduleAt(key, 43) == 0xB6630CA6
  {
    CipherKey128Period9(key);
    CipherKey128Word40();
    ScheduleAtStep(key, 40, 0x575C006E, 0xAC7766F3, 0xD014F9A8);
    ScheduleAtStep(key, 41, 0xD014F9A8, 0x19FADC21, 0xC9EE2589);
    ScheduleAtStep(key, 42, 0xC9EE2589, 0x28D12941, 0xE13F0CC8);
    ScheduleAtStep(key, 43, 0xE13F0CC8, 0x575C006E, 0xB6630CA6);
  }

  /** The key of the `aes_encrypt_block_192` test. */
  predicate IsCipherKey192(key: Key)
  {
    key.data == [0x00010203, 0x04050607, 0x08090A0B, 0x0C0D0E0F, 0x10111213, 0x14151617]
  }

  /** A word of the expansion that passes through `SubWord`. */
  lemma CipherKey192Word6()
    ensures ScheduleWord(6, 6, 0x14151617, 0x00010203) == 0x5846F2F9
  {
    ScheduleWordCases(6, 6, 0x14151617, 0x00010203);
    ToBeBytesUnfold(0x14151617);
    RotWordOf(0x14151617, 0x15161714);
    assert SBox(0x15) == 0x59 && SBox(0x16) == 0x47 && SBox(0x17) == 0xF0 && SBox(0x14) == 0xFA;
    ToBeBytesUnfold(0x15161714);
    ToBeBytesUnfold(0x5947F0FA);
    SubWordOf(0x15161714, 0x5947F0FA);
  }

  /** Words 6 to 11 of its expansion. */
  lemma CipherKey192Period1(key: Key)
    requires IsCipherKey192(key)
    ensures ScheduleAt(key, 6) == 0x5846F2F9 && ScheduleAt(key, 7) == 0x5C43F4FE
    ensures ScheduleAt(key, 8) == 0x544AFEF5 && ScheduleAt(key, 9) == 0x5847F0FA
    ensures ScheduleAt(key, 10) == 0x4856E2E9 && ScheduleAt(key, 11) == 0x5C43F4FE
  {
    CipherKey192Word6();
    ScheduleAtStep(key, 6, 0x14151617, 0x00010203, 0x5846F2F9);
    ScheduleAtStep(key, 7, 0x5846F2F9, 0x04050607, 0x5C43F4FE);
    ScheduleAtStep(key, 8, 0x5C43F4FE, 0x08090A0B, 0x544AFEF5);
    ScheduleAtStep(key, 9, 0x544AFEF5, 0x0C0D0E0F, 0x5847F0FA);
    ScheduleAtStep(key, 10, 0x5847F0FA, 0x10111213, 0x4856E2E9);
    ScheduleAtStep(key, 11, 0x4856E2E9, 0x14151617, 0x5C43F4FE);
  }

  /** A word of the expansion that passes through `SubWord`. */
  lemma CipherKey192Word12()
    ensures ScheduleWord(6, 12, 0x5C43F4FE, 0x5846F2F9) == 0x40F949B3
  {
    ScheduleWordCases(6, 12, 0x5C43F4FE, 0x5846F2F9);
    ToBeBytesUnfold(0x5C43F4FE);
    RotWordOf(0x5C43F4FE, 0x43F4FE5C);
    assert SBox(0x43) == 0x1A && SBox(0xF4) == 0xBF && SBox(0xFE) == 0xBB && SBox(0x5C) == 0x4A;
    ToBeBytesUnfold(0x43F4FE5C);
    ToBeBytesUnfold(0x1ABFBB4A);
    SubWordOf(0x43F4FE5C, 0x1ABFBB4A);
  }

  /** Words 12 to 17 of its expansion. */
  lemma CipherKey192Period2(key: Key)
    requires IsCipherKey192(key)
    ensures ScheduleAt(key, 12) == 0x40F949B3 && ScheduleAt(key, 13) == 0x1CBABD4D
    ensures ScheduleAt(key, 14) == 0x48F043B8 && ScheduleAt(key, 15) == 0x10B7B342
    ensures ScheduleAt(key, 16) == 0x58E151AB && ScheduleAt(key, 17) == 0x04A2A555
  {
    CipherKey192Period1(key);
    CipherKey192Word12();
    ScheduleAtStep(key, 12, 0x5C43F4FE, 0x5846F2F9, 0x40F949B3);
    ScheduleAtStep(key, 13, 0x40F949B3, 0x5C43F4FE, 0x1CBABD4D);
    ScheduleAtStep(key, 14, 0x1CBABD4D, 0x544AFEF5, 0x48F043B8);
    ScheduleAtStep(key, 15, 0x48F043B8, 0x5847F0FA, 0x10B7B342);
    ScheduleAtStep(key, 16, 0x10B7B342, 0x4856E2E9, 0x58E151AB);
    ScheduleAtStep(key, 17, 0x58E151AB, 0x5C43F4FE, 0x04A2A555);
  }

  /** A word of the expansion that passes through `SubWord`. */
  lemma CipherKey192Word18()
    ensures ScheduleWord(6, 18, 0x04A2A555, 0x40F949B3) == 0x7EFFB541
  {
    ScheduleWordCases(6, 18, 0x04A2A555, 0x40F949B3);
    ToBeBytesUnfold(0x04A2A555);
    RotWordOf(0x04A2A555, 0xA2A55504);
    assert SBox(0xA2) == 0x3A && SBox(0xA5) == 0x06 && SBox(0x55) == 0xFC && SBox(0x04) == 0xF2;
    ToBeBytesUnfold(0xA2A55504);
    ToBeBytesUnfold(0x3A06FCF2);
    SubWordOf(0xA2A55504, 0x3A06FCF2);
  }

  /** Words 18 to 23 of its expansion. */
  lemma CipherKey192Period3(key: Key)
    requires IsCipherKey192(key)
    ensures ScheduleAt(key, 18) == 0x7EFFB541 && ScheduleAt(key, 19) == 0x6245080C
    ensures ScheduleAt(key, 20) == 0x2AB54BB4 && ScheduleAt(key, 21) == 0x3A02F8F6
    ensures ScheduleAt(key, 22) == 0x62E3A95D && ScheduleAt(key, 23) == 0x66410C08
  {
    CipherKey192Period2(key);
    CipherKey192Word18();
    ScheduleAtStep(key, 18, 0x04A2A555, 0x40F949B3, 0x7EFFB541);
    ScheduleAtStep(key, 19, 0x7EFFB541, 0x1CBABD4D, 0x6245080C);
    ScheduleAtStep(key, 20, 0x6245080C, 0x48F043B8, 0x2AB54BB4);
    ScheduleAtStep(key, 21, 0x2AB54BB4, 0x10B7B342, 0x3A02F8F6);
    ScheduleAtStep(key, 22, 0x3A02F8F6, 0x58E151AB, 0x62E3A95D);
    ScheduleAtStep(key, 23, 0x62E3A95D, 0x04A2A555, 0x66410C08);
  }

  /** A word of the expansion that passes through `SubWord`. */
  lemma CipherKey192Word24()
    ensures ScheduleWord(6, 24, 0x66410C08, 0x7EFFB541) == 0xF5018572
  {
    ScheduleWordCases(6, 24, 0x66410C08, 0x7EFFB541);
    ToBeBytesUnfold(0x66410C08);
    RotWordOf(0x66410C08, 0x410C0866);
    assert SBox(0x41) == 0x83 && SBox(0x0C) == 0xFE && SBox(0x08) == 0x30 && SBox(0x66) == 0x33;
    ToBeBytesUnfold(0x410C0866);
    ToBeBytesUnfold(0x83FE3033);
    SubWordOf(0x410C0866, 0x83FE3033);
  }

  /** Words 24 to 29 of its expansion. */
  lemma CipherKey192Period4(key: Key)
    requires IsCipherKey192(key)
    ensures ScheduleAt(key, 24) == 0xF5018572 && ScheduleAt(key, 25) == 0x97448D7E
    ensures ScheduleAt(key, 26) == 0xBDF1C6CA && ScheduleAt(key, 27) == 0x87F33E3C
    ensures ScheduleAt(key, 28) == 0xE5109761 && ScheduleAt(key, 29) == 0x83519B69
  {
    CipherKey192Period3(key);
    CipherKey192Word24();
    ScheduleAtStep(key, 24, 0x66410C08, 0x7EFFB541, 0xF5018572);
    ScheduleAtStep(key, 25, 0xF5018572, 0x6245080C, 0x97448D7E);
    ScheduleAtStep(key, 26, 0x97448D7E, 0x2AB54BB4, 0xBDF1C6CA);
    ScheduleAtStep(key, 27, 0xBDF1C6CA, 0x3A02F8F6, 0x87F33E3C);
    ScheduleAtStep(key, 28, 0x87F33E3C, 0x62E3A95D, 0xE5109761);
    ScheduleAtStep(key, 29, 0xE5109761, 0x66410C08, 0x83519B69);
  }

  /** A word of the expansion that passes through `SubWord`. */
  lemma CipherKey192Word30()
    ensures ScheduleWord(6, 30, 0x83519B69, 0xF5018572) == 0x34157C9E
  {
    ScheduleWordCases(6, 30, 0x83519B69, 0xF5018572);
    ToBeBytesUnfold(0x83519B69);
    RotWordOf(0x83519B69, 0x519B6983);
    assert SBox(0x51) == 0xD1 && SBox(0x9B) == 0x14 && SBox(0x69) == 0xF9 && SBox(0x83) == 0xEC;
    ToBeBytesUnfold(0x519B6983);
    ToBeBytesUnfold(0xD114F9EC);
    SubWordOf(0x519B6983, 0xD114F9EC);
  }

  /** Words 30 to 35 of its expansion. */
  lemma CipherKey192Period5(key: Key)
    requires IsCipherKey192(key)
    ensures ScheduleAt(key, 30) == 0x34157C9E && ScheduleAt(key, 31) == 0xA351F1E0
    ensures ScheduleAt(key, 32) == 0x1EA0372A && ScheduleAt(key, 33) == 0x99530916
    ensures ScheduleAt(key, 34) == 0x7C439E77 && ScheduleAt(key, 35) == 0xFF12051E
  {
    CipherKey192Period4(key);
    CipherKey192Word30();
    ScheduleAtStep(key, 30, 0x83519B69, 0xF5018572, 0x34157C9E);
    ScheduleAtStep(key, 31, 0x34157C9E, 0x97448D7E, 0xA351F1E0);
    ScheduleAtStep(key, 32, 0xA351F1E0, 0xBDF1C6CA, 0x1EA0372A);
    ScheduleAtStep(key, 33, 0x1EA0372A, 0x87F33E3C, 0x99530916);
    ScheduleAtStep(key, 34, 0x99530916, 0xE5109761, 0x7C439E77);
    ScheduleAtStep(key, 35, 0x7C439E77, 0x83519B69, 0xFF12051E);
  }

  /** A word of the expansion that passes through `SubWord`. */
  lemma CipherKey192Word36()
    ensures ScheduleWord(6, 36, 0xFF12051E, 0x34157C9E) == 0xDD7E0E88
  {
    ScheduleWordCases(6, 36, 0xFF12051E, 0x34157C9E);
    ToBeBytesUnfold(0xFF12051E);
    RotWordOf(0xFF12051E, 0x12051EFF);
    assert SBox(0x12) == 0xC9 && SBox(0x05) == 0x6B && SBox(0x1E) == 0x72 && SBox(0xFF) == 0x16;
    ToBeBytesUnfold(0x12051EFF);
    ToBeBytesUnfold(0xC96B7216);
    SubWordOf(0x12051EFF, 0xC96B7216);
  }

  /** Words 36 to 41 of its expansion. */
  lemma CipherKey192Period6(key: Key)
    requires IsCipherKey192(key)
    ensures ScheduleAt(key, 36) == 0xDD7E0E88 && ScheduleAt(key, 37) == 0x7E2FFF68
    ensures ScheduleAt(key, 38) == 0x608FC842 && ScheduleAt(key, 39) == 0xF9DCC154
    ensures ScheduleAt(key, 40) == 0x859F5F23 && ScheduleAt(key, 41) == 0x7A8D5A3D
  {
    CipherKey192Period5(key);
    CipherKey192Word36();
    ScheduleAtStep(key, 36, 0xFF12051E, 0x34157C9E, 0xDD7E0E88);
    ScheduleAtStep(key, 37, 0xDD7E0E88, 0xA351F1E0, 0x7E2FFF68);
    ScheduleAtStep(key, 38, 0x7E2FFF68, 0x1EA0372A, 0x608FC842);
    ScheduleAtStep(key, 39, 0x608FC842, 0x99530916, 0xF9DCC154);
    ScheduleAtStep(key, 40, 0xF9DCC154, 0x7C439E77, 0x859F5F23);
    ScheduleAtStep(key, 41, 0x859F5F23, 0xFF12051E, 0x7A8D5A3D);
  }

  /** A word of the expansion that passes through `SubWord`. */
  lemma CipherKey192Word42()
    ensures ScheduleWord(6, 42, 0x7A8D5A3D, 0xDD7E0E88) == 0xC0C02952
  {
    ScheduleWordCases(6, 42, 0x7A8D5A3D, 0xDD7E0E88);
    ToBeBytesUnfold(0x7A8D5A3D);
    RotWordOf(0x7A8D5A3D, 0x8D5A3D7A);
    assert SBox(0x8D) == 0x5D && SBox(0x5A) == 0xBE && SBox(0x3D) == 0x27 && SBox(0x7A) == 0xDA;
    ToBeBytesUnfold(0x8D5A3D7A);
    ToBeBytesUnfold(0x5DBE27DA);
    SubWordOf(0x8D5A3D7A, 0x5DBE27DA);
  }

  /** Words 42 to 47 of its expansion. */
  lemma CipherKey192Period7(key: Key)
    requires IsCipherKey192(key)
    ensures ScheduleAt(key, 42) == 0xC0C02952 && ScheduleAt(key, 43) == 0xBEEFD63A
    ensures ScheduleAt(key, 44) == 0xDE601E78 && ScheduleAt(key, 45) == 0x27BCDF2C
    ensures ScheduleAt(key, 46) == 0xA223800F && ScheduleAt(key, 47) == 0xD8AEDA32
  {
    CipherKey192Period6(key);
    CipherKey192Word42();
    ScheduleAtStep(key, 42, 0x7A8D5A3D, 0xDD7E0E88, 0xC0C02952);
    ScheduleAtStep(key, 43, 0xC0C02952, 0x7E2FFF68, 0xBEEFD63A);
    ScheduleAtStep(key, 44, 0xBEEFD63A, 0x608FC842, 0xDE601E78);
    ScheduleAtStep(key, 45, 0xDE601E78, 0xF9DCC154, 0x27BCDF2C);
    ScheduleAtStep(key, 46, 0x27BCDF2C, 0x859F5F23, 0xA223800F);
    ScheduleAtStep(key, 47, 0xA223800F, 0x7A8D5A3D, 0xD8AEDA32);
  }

  /** A word of the expansion that passes through `SubWord`. */
  lemma CipherKey192Word48()
    ensures ScheduleWord(6, 48, 0xD8AEDA32, 0xC0C02952) == 0xA4970A33
  {
    ScheduleWordCases(6, 48, 0xD8AEDA32, 0xC0C02952);
    ToBeBytesUnfold(0xD8AEDA32);
    RotWordOf(0xD8AEDA32, 0xAEDA32D8);
    assert SBox(0xAE) == 0xE4 && SBox(0xDA) == 0x57 && SBox(0x32) == 0x23 && SBox(0xD8) == 0x61;
    ToBeBytesUnfold(0xAEDA32D8);
    ToBeBytesUnfold(0xE4572361);
    SubWordOf(0xAEDA32D8, 0xE4572361);
  }

  /** Words 48 to 51 of its expansion. */
  lemma CipherKey192Period8(key: Key)
    requires IsCipherKey192(key)
    ensures ScheduleAt(key, 48) == 0xA4970A33 && ScheduleAt(key, 49) == 0x1A78DC09
    ensures ScheduleAt(key, 50) == 0xC418C271 && ScheduleAt(key, 51) == 0xE3A41D5D
  {
    CipherKey192Period7(key);
    CipherKey192Word48();
    ScheduleAtStep(key, 48, 0xD8AEDA32, 0xC0C02952, 0xA4970A33);
    ScheduleAtStep(key, 49, 0xA4970A33, 0xBEEFD63A, 0x1A78DC09);
    ScheduleAtStep(key, 50, 0x1A78DC09, 0xDE601E78, 0xC418C271);
    ScheduleAtStep(key, 51, 0xC418C271, 0x27BCDF2C, 0xE3A41D5D);
  }

  /** The key of the `aes_encrypt_block_256` test. */
  predicate IsCipherKey256(key: Key)
  {
    key.data == [0x00010203, 0x04050607, 0x08090A0B, 0x0C0D0E0F, 0x10111213, 0x14151617, 0x18191A1B, 0x1C1D1E1F]
  }

  /** A word of the expansion that passes through `SubWord`. */
  lemma CipherKey256Word8()
    ensures ScheduleWord(8, 8, 0x1C1D1E1F, 0x00010203) == 0xA573C29F
  {
    ScheduleWordCases(8, 8, 0x1C1D1E1F, 0x00010203);
    ToBeBytesUnfold(0x1C1D1E1F);
    RotWordOf(0x1C1D1E1F, 0x1D1E1F1C);
    assert SBox(0x1D) == 0xA4 && SBox(0x1E) == 0x72 && SBox(0x1F) == 0xC0 && SBox(0x1C) == 0x9C;
    ToBeBytesUnfold(0x1D1E1F1C);
    ToBeBytesUnfold(0xA472C09C);
    SubWordOf(0x1D1E1F1C, 0xA472C09C);
  }

  /** A word of the expansion that passes through `SubWord`. */
  lemma CipherKey256Word12()
    ensures ScheduleWord(8, 12, 0xA572C09C, 0x10111213) == 0x1651A8CD
  {
    ScheduleWordCases(8, 12, 0xA572C09C, 0x10111213);
    assert SBox(0xA5) == 0x06 && SBox(0x72) == 0x40 && SBox(0xC0) == 0xBA && SBox(0x9C) == 0xDE;
    ToBeBytesUnfold(0xA572C09C);
    ToBeBytesUnfold(0x0640BADE);
    SubWordOf(0xA572C09C, 0x0640BADE);
  }

  /** Words 8 to 15 of its expansion. */
  lemma CipherKey256Period1(key: Key)
    requires IsCipherKey256(key)
    ensures ScheduleAt(key, 8) == 0xA573C29F && ScheduleAt(key, 9) == 0xA176C498
    ensures ScheduleAt(key, 10) == 0xA97FCE93 && ScheduleAt(key, 11) == 0xA572C09C
    ensures ScheduleAt(key, 12) == 0x1651A8CD && ScheduleAt(key, 13) == 0x0244BEDA
    ensures ScheduleAt(key, 14) == 0x1A5DA4C1 && ScheduleAt(key, 15) == 0x0640BADE
  {
    CipherKey256Word8();
    ScheduleAtStep(key, 8, 0x1C1D1E1F, 0x00010203, 0xA573C29F);
    ScheduleAtStep(key, 9, 0xA573C29F, 0x04050607, 0xA176C498);
    ScheduleAtStep(key, 10, 0xA176C498, 0x08090A0B, 0xA97FCE93);
    ScheduleAtStep(key, 11, 0xA97FCE93, 0x0C0D0E0F, 0xA572C09C);
    CipherKey256Word12();
    ScheduleAtStep(key, 12, 0xA572C09C, 0x10111213, 0x1651A8CD);
    ScheduleAtStep(key, 13, 0x1651A8CD, 0x14151617, 0x0244BEDA);
    ScheduleAtStep(key, 14, 0x0244BEDA, 0x18191A1B, 0x1A5DA4C1);
    ScheduleAtStep(key, 15, 0x1A5DA4C1, 0x1C1D1E1F, 0x0640BADE);
  }

  /** A word of the expansion that passes through `SubWord`. */
  lemma CipherKey256Word16()
    ensures ScheduleWord(8, 16, 0x0640BADE, 0xA573C29F) == 0xAE87DFF0
  {
    ScheduleWordCases(8, 16, 0x0640BADE, 0xA573C29F);
    ToBeBytesUnfold(0x0640BADE);
    RotWordOf(0x0640BADE, 0x40BADE06);
    assert SBox(0x40) == 0x09 && SBox(0xBA) == 0xF4 && SBox(0xDE) == 0x1D && SBox(0x06) == 0x6F;
    ToBeBytesUnfold(0x40BADE06);
    ToBeBytesUnfold(0x09F41D6F);
    SubWordOf(0x40BADE06, 0x09F41D6F);
  }

  /** A word of the expansion that passes through `SubWord`. */
  lemma CipherKey256Word20()
    ensures ScheduleWord(8, 20, 0x03FC1567, 0x1651A8CD) == 0x6DE1F148
  {
    ScheduleWordCases(8, 20, 0x03FC1567, 0x1651A8CD);
    assert SBox(0x03) == 0x7B && SBox(0xFC) == 0xB0 && SBox(0x15) == 0x59 && SBox(0x67) == 0x85;
    ToBeBytesUnfold(0x03FC1567);
    ToBeBytesUnfold(0x7BB05985);
    SubWordOf(0x03FC1567, 0x7BB05985);
  }

  /** Words 16 to 23 of its expansion. */
  lemma CipherKey256Period2(key: Key)
    requires IsCipherKey256(key)
    ensures ScheduleAt(key, 16) == 0xAE87DFF0 && ScheduleAt(key, 17) == 0x0FF11B68
    ensures ScheduleAt(key, 18) == 0xA68ED5FB && ScheduleAt(key, 19) == 0x03FC1567
    ensures ScheduleAt(key, 20) == 0x6DE1F148 && ScheduleAt(key, 21) == 0x6FA54F92
    ensures ScheduleAt(key, 22) == 0x75F8EB53 && ScheduleAt(key, 23) == 0x73B8518D
  {
    CipherKey256Period1(key);
    CipherKey256Word16();
    ScheduleAtStep(key, 16, 0x0640BADE, 0xA573C29F, 0xAE87DFF0);
    ScheduleAtStep(key, 17, 0xAE87DFF0, 0xA176C498, 0x0FF11B68);
    ScheduleAtStep(key, 18, 0x0FF11B68, 0xA97FCE93, 0xA68ED5FB);
    ScheduleAtStep(key, 19, 0xA68ED5FB, 0xA572C09C, 0x03FC1567);
    CipherKey256Word20();
    ScheduleAtStep(key, 20, 0x03FC1567, 0x1651A8CD, 0x6DE1F148);
    ScheduleAtStep(key, 21, 0x6DE1F148, 0x0244BEDA, 0x6FA54F92);
    ScheduleAtStep(key, 22, 0x6FA54F92, 0x1A5DA4C1, 0x75F8EB53);
    ScheduleAtStep(key, 23, 0x75F8EB53, 0x0640BADE, 0x73B8518D);
  }

  /** A word of the expansion that passes through `SubWord`. */
  lemma CipherKey256Word24()
    ensures ScheduleWord(8, 24, 0x73B8518D, 0xAE87DFF0) == 0xC656827F
  {
    ScheduleWordCases(8, 24, 0x73B8518D, 0xAE87DFF0);
    ToBeBytesUnfold(0x73B8518D);
    RotWordOf(0x73B8518D, 0xB8518D73);
    assert SBox(0xB8) == 0x6C && SBox(0x51) == 0xD1 && SBox(0x8D) == 0x5D && SBox(0x73) == 0x8F;
    ToBeBytesUnfold(0xB8518D73);
    ToBeBytesUnfold(0x6CD15D8F);
    SubWordOf(0xB8518D73, 0x6CD15D8F);
  }

  /** A word of the expansion that passes through `SubWord`. */
  lemma CipherKey256Word28()
    ensures ScheduleWord(8, 28, 0x6CD5598B, 0x6DE1F148) == 0x3DE23A75
  {
    ScheduleWordCases(8, 28, 0x6CD5598B, 0x6DE1F148);
    assert SBox(0x6C) == 0x50 && SBox(0xD5) == 0x03 && SBox(0x59) == 0xCB && SBox(0x8B) == 0x3D;
    ToBeBytesUnfold(0x6CD5598B);
    ToBeBytesUnfold(0x5003CB3D);
    SubWordOf(0x6CD5598B, 0x5003CB3D);
  }

  /** Words 24 to 31 of its expansion. */
  lemma CipherKey256Period3(key: Key)
    requires IsCipherKey256(key)
    ensures ScheduleAt(key, 24) == 0xC656827F && ScheduleAt(key, 25) == 0xC9A79917
    ensures ScheduleAt(key, 26) == 0x6F294CEC && ScheduleAt(key, 27) == 0x6CD5598B
    ensures ScheduleAt(key, 28) == 0x3DE23A75 && ScheduleAt(key, 29) == 0x524775E7
    ensures ScheduleAt(key, 30) == 0x27BF9EB4 && ScheduleAt(key, 31) == 0x5407CF39
  {
    CipherKey256Period2(key);
    CipherKey256Word24();
    ScheduleAtStep(key, 24, 0x73B8518D, 0xAE87DFF0, 0xC656827F);
    ScheduleAtStep(key, 25, 0xC656827F, 0x0FF11B68, 0xC9A79917);
    ScheduleAtStep(key, 26, 0xC9A79917, 0xA68ED5FB, 0x6F294CEC);
    ScheduleAtStep(key, 27, 0x6F294CEC, 0x03FC1567, 0x6CD5598B);
    CipherKey256Word28();
    ScheduleAtStep(key, 28, 0x6CD5598B, 0x6DE1F148, 0x3DE23A75);
    ScheduleAtStep(key, 29, 0x3DE23A75, 0x6FA54F92, 0x524775E7);
    ScheduleAtStep(key, 30, 0x524775E7, 0x75F8EB53, 0x27BF9EB4);
    ScheduleAtStep(key, 31, 0x27BF9EB4, 0x73B8518D, 0x5407CF39);
  }

  /** A word of the expansion that passes through `SubWord`. */
  lemma CipherKey256Word32()
    ensures ScheduleWord(8, 32, 0x5407CF39, 0xC656827F) == 0x0BDC905F
  {
    ScheduleWordCases(8, 32, 0x5407CF39, 0xC656827F);
    ToBeBytesUnfold(0x5407CF39);
    RotWordOf(0x5407CF39, 0x07CF3954);
    assert SBox(0x07) == 0xC5 && SBox(0xCF) == 0x8A && SBox(0x39) == 0x12 && SBox(0x54) == 0x20;
    ToBeBytesUnfold(0x07CF3954);
    ToBeBytesUnfold(0xC58A1220);
    SubWordOf(0x07CF3954, 0xC58A1220);
  }

  /** A word of the expansion that passes through `SubWord`. */
  lemma CipherKey256Word36()
    ensures ScheduleWord(8, 36, 0xC1871C2F, 0x3DE23A75) == 0x45F5A660
  {
    ScheduleWordCases(8, 36, 0xC1871C2F, 0x3DE23A75);
    assert SBox(0xC1) == 0x78 && SBox(0x87) == 0x17 && SBox(0x1C) == 0x9C && SBox(0x2F) == 0x15;
    ToBeBytesUnfold(0xC1871C2F);
    ToBeBytesUnfold(0x78179C15);
    SubWordOf(0xC1871C2F, 0x78179C15);
  }

  /** Words 32 to 39 of its expansion. */
  lemma CipherKey256Period4(key: Key)
    requires IsCipherKey256(key)
    ensures ScheduleAt(key, 32) == 0x0BDC905F && ScheduleAt(key, 33) == 0xC27B0948
    ensures ScheduleAt(key, 34) == 0xAD5245A4 && ScheduleAt(key, 35) == 0xC1871C2F
    ensures ScheduleAt(key, 36) == 0x45F5A660 && ScheduleAt(key, 37) == 0x17B2D387
    ensures ScheduleAt(key, 38) == 0x300D4D33 && ScheduleAt(key, 39) == 0x640A820A
  {
    CipherKey256Period3(key);
    CipherKey256Word32();
    ScheduleAtStep(key, 32, 0x5407CF39, 0xC656827F, 0x0BDC905F);
    ScheduleAtStep(key, 33, 0x0BDC905F, 0xC9A79917, 0xC27B0948);
    ScheduleAtStep(key, 34, 0xC27B0948, 0x6F294CEC, 0xAD5245A4);
    ScheduleAtStep(key, 35, 0xAD5245A4, 0x6CD5598B, 0xC1871C2F);
    CipherKey256Word36();
    ScheduleAtStep(key, 36, 0xC1871C2F, 0x3DE23A75, 0x45F5A660);
    ScheduleAtStep(key, 37, 0x45F5A660, 0x524775E7, 0x17B2D387);
    ScheduleAtStep(key, 38, 0x17B2D387, 0x27BF9EB4, 0x300D4D33);
    ScheduleAtStep(key, 39, 0x300D4D33, 0x5407CF39, 0x640A820A);
  }

  /** A word of the expansion that passes through `SubWord`. */
  lemma CipherKey256Word40()
    ensures ScheduleWord(8, 40, 0x640A820A, 0x0BDC905F) == 0x7CCFF71C
  {
    ScheduleWordCases(8, 40, 0x640A820A, 0x0BDC905F);
    ToBeBytesUnfold(0x640A820A);
    RotWordOf(0x640A820A, 0x0A820A64);
    assert SBox(0x0A) == 0x67 && SBox(0x82) == 0x13 && SBox(0x0A) == 0x67 && SBox(0x64) == 0x43;
    ToBeBytesUnfold(0x0A820A64);
    ToBeBytesUnfold(0x67136743);
    SubWordOf(0x0A820A64, 0x67136743);
  }

  /** A word of the expansion that passes through `SubWord`. */
  lemma CipherKey256Word44()
    ensures ScheduleWord(8, 44, 0xD261A7DF, 0x45F5A660) == 0xF01AFAFE
  {
    ScheduleWordCases(8, 44, 0xD261A7DF, 0x45F5A660);
    assert SBox(0xD2) == 0xB5 && SBox(0x61) == 0xEF && SBox(0xA7) == 0x5C && SBox(0xDF) == 0x9E;
    ToBeBytesUnfold(0xD261A7DF);
    ToBeBytesUnfold(0xB5EF5C9E);
    SubWordOf(0xD261A7DF, 0xB5EF5C9E);
  }

  /** Words 40 to 47 of its expansion. */
  lemma CipherKey256Period5(key: Key)
    requires IsCipherKey256(key)
    ensures ScheduleAt(key, 40) == 0x7CCFF71C && ScheduleAt(key, 41) == 0xBEB4FE54
    ensures ScheduleAt(key, 42) == 0x13E6BBF0 && ScheduleAt(key, 43) == 0xD261A7DF
    ensures ScheduleAt(key, 44) == 0xF01AFAFE && ScheduleAt(key, 45) == 0xE7A82979
    ensures ScheduleAt(key, 46) == 0xD7A5644A && ScheduleAt(key, 47) == 0xB3AFE640
  {
    CipherKey256Period4(key);
    CipherKey256Word40();
    ScheduleAtStep(key, 40, 0x640A820A, 0x0BDC905F, 0x7CCFF71C);
    ScheduleAtStep(key, 41, 0x7CCFF71C, 0xC27B0948, 0xBEB4FE54);
    ScheduleAtStep(key, 42, 0xBEB4FE54, 0xAD5245A4, 0x13E6BBF0);
    ScheduleAtStep(key, 43, 0x13E6BBF0, 0xC1871C2F, 0xD261A7DF);
    CipherKey256Word44();
    ScheduleAtStep(key, 44, 0xD261A7DF, 0x45F5A660, 0xF01AFAFE);
    ScheduleAtStep(key, 45, 0xF01AFAFE, 0x17B2D387, 0xE7A82979);
    ScheduleAtStep(key, 46, 0xE7A82979, 0x300D4D33, 0xD7A5644A);
    ScheduleAtStep(key, 47, 0xD7A5644A, 0x640A820A, 0xB3AFE640);
  }

  /** A word of the expansion that passes through `SubWord`. */
  lemma CipherKey256Word48()
    ensures ScheduleWord(8, 48, 0xB3AFE640, 0x7CCFF71C) == 0x2541FE71
  {
    ScheduleWordCases(8, 48, 0xB3AFE640, 0x7CCFF71C);
    ToBeBytesUnfold(0xB3AFE640);
    RotWordOf(0xB3AFE640, 0xAFE640B3);
    assert SBox(0xAF) == 0x79 && SBox(0xE6) == 0x8E && SBox(0x40) == 0x09 && SBox(0xB3) == 0x6D;
    ToBeBytesUnfold(0xAFE640B3);
    ToBeBytesUnfold(0x798E096D);
    SubWordOf(0xAFE640B3, 0x798E096D);
  }

  /** A word of the expansion that passes through `SubWord`. */
  lemma CipherKey256Word52()
    ensures ScheduleWord(8, 52, 0x5A721C0A, 0xF01AFAFE) == 0x4E5A6699
  {
    ScheduleWordCases(8, 52, 0x5A721C0A, 0xF01AFAFE);
    assert SBox(0x5A) == 0xBE && SBox(0x72) == 0x40 && SBox(0x1C) == 0x9C && SBox(0x0A) == 0x67;
    ToBeBytesUnfold(0x5A721C0A);
    ToBeBytesUnfold(0xBE409C67);
    SubWordOf(0x5A721C0A, 0xBE409C67);
  }

  /** Words 48 to 55 of its expansion. */
  lemma CipherKey256Period6(key: Key)
    requires IsCipherKey256(key)
    ensures ScheduleAt(key, 48) == 0x2541FE71 && ScheduleAt(key, 49) == 0x9BF50025
    ensures ScheduleAt(key, 50) == 0x8813BBD5 && ScheduleAt(key, 51) == 0x5A721C0A
    ensures ScheduleAt(key, 52) == 0x4E5A6699 && ScheduleAt(key, 53) == 0xA9F24FE0
    ensures ScheduleAt(key, 54) == 0x7E572BAA && ScheduleAt(key, 55) == 0xCDF8CDEA
  {
    CipherKey256Period5(key);
    CipherKey256Word48();
    ScheduleAtStep(key, 48, 0xB3AFE640, 0x7CCFF71C, 0x2541FE71);
    ScheduleAtStep(key, 49, 0x2541FE71, 0xBEB4FE54, 0x9BF50025);
    ScheduleAtStep(key, 50, 0x9BF50025, 0x13E6BBF0, 0x8813BBD5);
    ScheduleAtStep(key, 51, 0x8813BBD5, 0xD261A7DF, 0x5A721C0A);
    CipherKey256Word52();
    ScheduleAtStep(key, 52, 0x5A721C0A, 0xF01AFAFE, 0x4E5A6699);
    ScheduleAtStep(key, 53, 0x4E5A6699, 0xE7A82979, 0xA9F24FE0);
    ScheduleAtStep(key, 54, 0xA9F24FE0, 0xD7A5644A, 0x7E572BAA);
    ScheduleAtStep(key, 55, 0x7E572BAA, 0xB3AFE640, 0xCDF8CDEA);
  }

  /** A word of the expansion that passes through `SubWord`. */
  lemma CipherKey256Word56()
    ensures ScheduleWord(8, 56, 0xCDF8CDEA, 0x2541FE71) == 0x24FC79CC
  {
    ScheduleWordCases(8, 56, 0xCDF8CDEA, 0x2541FE71);
    ToBeBytesUnfold(0xCDF8CDEA);
    RotWordOf(0xCDF8CDEA, 0xF8CDEACD);
    assert SBox(0xF8) == 0x41 && SBox(0xCD) == 0xBD && SBox(0xEA) == 0x87 && SBox(0xCD) == 0xBD;
    ToBeBytesUnfold(0xF8CDEACD);
    ToBeBytesUnfold(0x41BD87BD);
    SubWordOf(0xF8CDEACD, 0x41BD87BD);
  }

  /** Words 56 to 59 of its expansion. */
  lemma CipherKey256Period7(key: Key)
    requires IsCipherKey256(key)
    ensures ScheduleAt(key, 56) == 0x24FC79CC && ScheduleAt(key, 57) == 0xBF0979E9
    ensures ScheduleAt(key, 58) == 0x371AC23C && ScheduleAt(key, 59) == 0x6D68DE36
  {
    CipherKey256Period6(key);
    CipherKey256Word56();
    ScheduleAtStep(key, 56, 0xCDF8CDEA, 0x2541FE71, 0x24FC79CC);
    ScheduleAtStep(key, 57, 0x24FC79CC, 0x9BF50025, 0xBF0979E9);
    ScheduleAtStep(key, 58, 0xBF0979E9, 0x8813BBD5, 0x371AC23C);
    ScheduleAtStep(key, 59, 0x371AC23C, 0x5A721C0A, 0x6D68DE36);
  }
}
