/** The full-block tests of `aes.rs` (`aes_encrypt_block_128/192/256`,
    the examples of FIPS-197 appendix C), evaluated on their constants. The
    cipher is followed round by round and column by column: each column
    lemma evaluates one diagonal, one `MixColumn` and one round key word,
    and each `After` lemma rests on the round before. */
module AesCipherVectors {
  import opened Bits
  import opened AesTables
  import opened AesKey
  import opened AesState
  import opened AesCipher
  import opened AesKeyVectors

  /** A state is its four columns. */
  lemma StateOfColumns(t: State, e0: Word, e1: Word, e2: Word, e3: Word)
    requires t.cols[0] == e0 && t.cols[1] == e1 && t.cols[2] == e2 && t.cols[3] == e3
    ensures t == State([e0, e1, e2, e3])
  {
    assert t.cols == [e0, e1, e2, e3];
  }

  /** One column of `AddRoundKey` on known words. */
  lemma AddRoundKeyColumnOf(s: State, key: RoundKey, c: nat, v: Word, k: Word, e: Word)
    requires c < 4 && s.cols[c] == v && key.data[c] == k && e == v ^ k
    ensures AddRoundKey(s, key).cols[c] == e
  {
  }

  /** The S-box images of a diagonal, on known cells. */
  lemma DiagonalIs(s: State, c: nat, c1: nat, c2: nat, c3: nat, x0: Byte, x1: Byte, x2: Byte, x3: Byte, d: Word)
    requires c < 4 && c1 == (c + 1) % 4 && c2 == (c + 2) % 4 && c3 == (c + 3) % 4
    requires Cell(s, 0, c) == x0 && Cell(s, 1, c1) == x1 && Cell(s, 2, c2) == x2 && Cell(s, 3, c3) == x3
    requires d == FromBeBytes([SBox(x0), SBox(x1), SBox(x2), SBox(x3)])
    ensures Diagonal(s, c) == d
  {
  }

  /** `MixColumn` through its `xtime` form. */
  lemma MixColumnOf(a: Word, e: Word)
    requires MixColumnXTime(a) == e
    ensures MixColumn(a) == e
  {
    MixColumnIsXTimeForm(a);
  }

  /** One column of a middle round, from its mixed diagonal. */
  lemma RoundColumnOf(s: State, key: RoundKey, c: nat, k: Word, m: Word, e: Word)
    requires c < 4 && key.data[c] == k && MixColumn(Diagonal(s, c)) == m && e == m ^ k
    ensures Round(s, key).cols[c] == e
  {
    RoundColumn(s, key, c);
  }

  /** One column of a middle round on known cells: the diagonal's S-box
      images `d`, mixed to `m`, plus the round key word `k`. */
  lemma RoundColumnStep(s: State, key: RoundKey, c: nat, c1: nat, c2: nat, c3: nat,
                        x0: Byte, x1: Byte, x2: Byte, x3: Byte, d: Word, m: Word, k: Word, e: Word)
    requires c < 4 && c1 == (c + 1) % 4 && c2 == (c + 2) % 4 && c3 == (c + 3) % 4
    requires Cell(s, 0, c) == x0 && Cell(s, 1, c1) == x1 && Cell(s, 2, c2) == x2 && Cell(s, 3, c3) == x3
    requires d == FromBeBytes([SBox(x0), SBox(x1), SBox(x2), SBox(x3)])
    requires MixColumnXTime(d) == m
    requires key.data[c] == k && e == m ^ k
    ensures Round(s, key).cols[c] == e
  {
    DiagonalIs(s, c, c1, c2, c3, x0, x1, x2, x3, d);
    MixColumnOf(d, m);
    RoundColumnOf(s, key, c, k, m, e);
  }

  /** One column of the final round, from its diagonal. */
  lemma FinalColumnOf(s: State, key: RoundKey, c: nat, k: Word, d: Word, e: Word)
    requires c < 4 && key.data[c] == k && Diagonal(s, c) == d && e == d ^ k
    ensures FinalRound(s, key).cols[c] == e
  {
    FinalRoundColumn(s, key, c);
  }

  /** One column of the final round on known cells: the diagonal's
      S-box images `d` plus the round key word `k`. */
  lemma FinalColumnStep(s: State, key: RoundKey, c: nat, c1: nat, c2: nat, c3: nat,
                        x0: Byte, x1: Byte, x2: Byte, x3: Byte, d: Word, k: Word, e: Word)
    requires c < 4 && c1 == (c + 1) % 4 && c2 == (c + 2) % 4 && c3 == (c + 3) % 4
    requires Cell(s, 0, c) == x0 && Cell(s, 1, c1) == x1 && Cell(s, 2, c2) == x2 && Cell(s, 3, c3) == x3
    requires d == FromBeBytes([SBox(x0), SBox(x1), SBox(x2), SBox(x3)])
    requires key.data[c] == k && e == d ^ k
    ensures FinalRound(s, key).cols[c] == e
  {
    DiagonalIs(s, c, c1, c2, c3, x0, x1, x2, x3, d);
    FinalColumnOf(s, key, c, k, d, e);
  }

  /** The plaintext block of the `aes_encrypt_block_128` test. */
  predicate IsEncrypt128Input(s: State)
  {
    s.cols == [0x3243F6A8, 0x885A308D, 0x313198A2, 0xE0370734]
  }

  /** The state after the initial `AddRoundKey`. */
  lemma Encrypt128Start(key: Key, input: State)
    requires IsCipherKey128(key) && IsEncrypt128Input(input)
    ensures AddRoundKey(input, RoundKeys(key)[0]).cols[0] == 0x193DE3BE
    ensures AddRoundKey(input, RoundKeys(key)[0]).cols[1] == 0xA0F4E22B
    ensures AddRoundKey(input, RoundKeys(key)[0]).cols[2] == 0x9AC68D2A
    ensures AddRoundKey(input, RoundKeys(key)[0]).cols[3] == 0xE9F84808
  {
    RoundKeyOf(key, 0, 0x2B7E1516, 0x28AED2A6, 0xABF71588, 0x09CF4F3C);
    AddRoundKeyColumnOf(input, RoundKeys(key)[0], 0, 0x3243F6A8, 0x2B7E1516, 0x193DE3BE);
    AddRoundKeyColumnOf(input, RoundKeys(key)[0], 1, 0x885A308D, 0x28AED2A6, 0xA0F4E22B);
    AddRoundKeyColumnOf(input, RoundKeys(key)[0], 2, 0x313198A2, 0xABF71588, 0x9AC68D2A);
    AddRoundKeyColumnOf(input, RoundKeys(key)[0], 3, 0xE0370734, 0x09CF4F3C, 0xE9F84808);
  }

  /** Round 1, column by column. */
  lemma Encrypt128Round1Column0(s: State, rk: RoundKey)
    requires s.cols[0] == 0x193DE3BE && s.cols[1] == 0xA0F4E22B && s.cols[2] == 0x9AC68D2A && s.cols[3] == 0xE9F84808
    requires rk.data[0] == 0xA0FAFE17
    ensures Round(s, rk).cols[0] == 0xA49C7FF2
  {
    assert SBox(0x19) == 0xD4 && SBox(0xF4) == 0xBF && SBox(0x8D) == 0x5D && SBox(0x08) == 0x30;
    RoundColumnStep(s, rk, 0, 1, 2, 3, 0x19, 0xF4, 0x8D, 0x08, 0xD4BF5D30, 0x046681E5, 0xA0FAFE17, 0xA49C7FF2);
  }

  lemma Encrypt128Round1Column1(s: State, rk: RoundKey)
    requires s.cols[0] == 0x193DE3BE && s.cols[1] == 0xA0F4E22B && s.cols[2] == 0x9AC68D2A && s.cols[3] == 0xE9F84808
    requires rk.data[1] == 0x88542CB1
    ensures Round(s, rk).cols[1] == 0x689F352B
  {
    assert SBox(0xA0) == 0xE0 && SBox(0xC6) == 0xB4 && SBox(0x48) == 0x52 && SBox(0xBE) == 0xAE;
    RoundColumnStep(s, rk, 1, 2, 3, 0, 0xA0, 0xC6, 0x48, 0xBE, 0xE0B452AE, 0xE0CB199A, 0x88542CB1, 0x689F352B);
  }

  lemma Encrypt128Round1Column2(s: State, rk: RoundKey)
    requires s.cols[0] == 0x193DE3BE && s.cols[1] == 0xA0F4E22B && s.cols[2] == 0x9AC68D2A && s.cols[3] == 0xE9F84808
    requires rk.data[2] == 0x23A33939
    ensures Round(s, rk).cols[2] == 0x6B5BEA43
  {
    assert SBox(0x9A) == 0xB8 && SBox(0xF8) == 0x41 && SBox(0xE3) == 0x11 && SBox(0x2B) == 0xF1;
    RoundColumnStep(s, rk, 2, 3, 0, 1, 0x9A, 0xF8, 0xE3, 0x2B, 0xB84111F1, 0x48F8D37A, 0x23A33939, 0x6B5BEA43);
  }

  lemma Encrypt128Round1Column3(s: State, rk: RoundKey)
    requires s.cols[0] == 0x193DE3BE && s.cols[1] == 0xA0F4E22B && s.cols[2] == 0x9AC68D2A && s.cols[3] == 0xE9F84808
    requires rk.data[3] == 0x2A6C7605
    ensures Round(s, rk).cols[3] == 0x026A5049
  {
    assert SBox(0xE9) == 0x1E && SBox(0x3D) == 0x27 && SBox(0xE2) == 0x98 && SBox(0x2A) == 0xE5;
    RoundColumnStep(s, rk, 3, 0, 1, 2, 0xE9, 0x3D, 0xE2, 0x2A, 0x1E2798E5, 0x2806264C, 0x2A6C7605, 0x026A5049);
  }

  /** The state after round 1. */
  lemma Encrypt128After1(key: Key, input: State)
    requires IsCipherKey128(key) && IsEncrypt128Input(input)
    ensures MiddleRounds(AddRoundKey(input, RoundKeys(key)[0]), RoundKeys(key), 1).cols[0] == 0xA49C7FF2
    ensures MiddleRounds(AddRoundKey(input, RoundKeys(key)[0]), RoundKeys(key), 1).cols[1] == 0x689F352B
    ensures MiddleRounds(AddRoundKey(input, RoundKeys(key)[0]), RoundKeys(key), 1).cols[2] == 0x6B5BEA43
    ensures MiddleRounds(AddRoundKey(input, RoundKeys(key)[0]), RoundKeys(key), 1).cols[3] == 0x026A5049
  {
    Encrypt128Start(key, input);
    CipherKey128Period1(key);
    RoundKeyOf(key, 1, 0xA0FAFE17, 0x88542CB1, 0x23A33939, 0x2A6C7605);
    var s := MiddleRounds(AddRoundKey(input, RoundKeys(key)[0]), RoundKeys(key), 0);
    var rk := RoundKeys(key)[1];
    Encrypt128Round1Column0(s, rk);
    Encrypt128Round1Column1(s, rk);
    Encrypt128Round1Column2(s, rk);
    Encrypt128Round1Column3(s, rk);
  }

  /** Round 2, column by column. */
  lemma Encrypt128Round2Column0(s: State, rk: RoundKey)
    requires s.cols[0] == 0xA49C7FF2 && s.cols[1] == 0x689F352B && s.cols[2] == 0x6B5BEA43 && s.cols[3] == 0x026A5049
    requires rk.data[0] == 0xF2C295F2
    ensures Round(s, rk).cols[0] == 0xAA8F5F03
  {
    assert SBox(0xA4) == 0x49 && SBox(0x9F) == 0xDB && SBox(0xEA) == 0x87 && SBox(0x49) == 0x3B;
    RoundColumnStep(s, rk, 0, 1, 2, 3, 0xA4, 0x9F, 0xEA, 0x49, 0x49DB873B, 0x584DCAF1, 0xF2C295F2, 0xAA8F5F03);
  }

  lemma Encrypt128Round2Column1(s: State, rk: RoundKey)
    requires s.cols[0] == 0xA49C7FF2 && s.cols[1] == 0x689F352B && s.cols[2] == 0x6B5BEA43 && s.cols[3] == 0x026A5049
    requires rk.data[1] == 0x7A96B943
    ensures Round(s, rk).cols[1] == 0x61DDE3EF
  {
    assert SBox(0x68) == 0x45 && SBox(0x5B) == 0x39 && SBox(0x50) == 0x53 && SBox(0xF2) == 0x89;
    RoundColumnStep(s, rk, 1, 2, 3, 0, 0x68, 0x5B, 0x50, 0xF2, 0x45395389, 0x1B4B5AAC, 0x7A96B943, 0x61DDE3EF);
  }

  lemma Encrypt128Round2Column2(s: State, rk: RoundKey)
    requires s.cols[0] == 0xA49C7FF2 && s.cols[1] == 0x689F352B && s.cols[2] == 0x6B5BEA43 && s.cols[3] == 0x026A5049
    requires rk.data[2] == 0x5935807A
    ensures Round(s, rk).cols[2] == 0x82D24AD2
  {
    assert SBox(0x6B) == 0x7F && SBox(0x6A) == 0x02 && SBox(0x7F) == 0xD2 && SBox(0x2B) == 0xF1;
    RoundColumnStep(s, rk, 2, 3, 0, 1, 0x6B, 0x6A, 0x7F, 0x2B, 0x7F02D2F1, 0xDBE7CAA8, 0x5935807A, 0x82D24AD2);
  }

  lemma Encrypt128Round2Column3(s: State, rk: RoundKey)
    requires s.cols[0] == 0xA49C7FF2 && s.cols[1] == 0x689F352B && s.cols[2] == 0x6B5BEA43 && s.cols[3] == 0x026A5049
    requires rk.data[3] == 0x7359F67F
    ensures Round(s, rk).cols[3] == 0x6832469A
  {
    assert SBox(0x02) == 0x77 && SBox(0x9C) == 0xDE && SBox(0x35) == 0x96 && SBox(0x43) == 0x1A;
    RoundColumnStep(s, rk, 3, 0, 1, 2, 0x02, 0x9C, 0x35, 0x43, 0x77DE961A, 0x1B6BB0E5, 0x7359F67F, 0x6832469A);
  }

  /** The state after round 2. */
  lemma Encrypt128After2(key: Key, input: State)
    requires IsCipherKey128(key) && IsEncrypt128Input(input)
    ensures MiddleRounds(AddRoundKey(input, RoundKeys(key)[0]), RoundKeys(key), 2).cols[0] == 0xAA8F5F03
    ensures MiddleRounds(AddRoundKey(input, RoundKeys(key)[0]), RoundKeys(key), 2).cols[1] == 0x61DDE3EF
    ensures MiddleRounds(AddRoundKey(input, RoundKeys(key)[0]), RoundKeys(key), 2).cols[2] == 0x82D24AD2
    ensures MiddleRounds(AddRoundKey(input, RoundKeys(key)[0]), RoundKeys(key), 2).cols[3] == 0x6832469A
  {
    Encrypt128After1(key, input);
    CipherKey128Period2(key);
    RoundKeyOf(key, 2, 0xF2C295F2, 0x7A96B943, 0x5935807A, 0x7359F67F);
    var s := MiddleRounds(AddRoundKey(input, RoundKeys(key)[0]), RoundKeys(key), 1);
    var rk := RoundKeys(key)[2];
    Encrypt128Round2Column0(s, rk);
    Encrypt128Round2Column1(s, rk);
    Encrypt128Round2Column2(s, rk);
    Encrypt128Round2Column3(s, rk);
  }

  /** Round 3, column by column. */
  lemma Encrypt128Round3Column0(s: State, rk: RoundKey)
    requires s.cols[0] == 0xAA8F5F03 && s.cols[1] == 0x61DDE3EF && s.cols[2] == 0x82D24AD2 && s.cols[3] == 0x6832469A
    requires rk.data[0] == 0x3D80477D
    ensures Round(s, rk).cols[0] == 0x486C4EEE
  {
    assert SBox(0xAA) == 0xAC && SBox(0xDD) == 0xC1 && SBox(0x4A) == 0xD6 && SBox(0x9A) == 0xB8;
    RoundColumnStep(s, rk, 0, 1, 2, 3, 0xAA, 0xDD, 0x4A, 0x9A, 0xACC1D6B8, 0x75EC0993, 0x3D80477D, 0x486C4EEE);
  }

  lemma Encrypt128Round3Column1(s: State, rk: RoundKey)
    requires s.cols[0] == 0xAA8F5F03 && s.cols[1] == 0x61DDE3EF && s.cols[2] == 0x82D24AD2 && s.cols[3] == 0x6832469A
    requires rk.data[1] == 0x4716FE3E
    ensures Round(s, rk).cols[1] == 0x671D9D0D
  {
    assert SBox(0x61) == 0xEF && SBox(0xD2) == 0xB5 && SBox(0x46) == 0x5A && SBox(0x03) == 0x7B;
    RoundColumnStep(s, rk, 1, 2, 3, 0, 0x61, 0xD2, 0x46, 0x03, 0xEFB55A7B, 0x200B6333, 0x4716FE3E, 0x671D9D0D);
  }

  lemma Encrypt128Round3Column2(s: State, rk: RoundKey)
    requires s.cols[0] == 0xAA8F5F03 && s.cols[1] == 0x61DDE3EF && s.cols[2] == 0x82D24AD2 && s.cols[3] == 0x6832469A
    requires rk.data[2] == 0x1E237E44
    ensures Round(s, rk).cols[2] == 0x4DE3B138
  {
    assert SBox(0x82) == 0x13 && SBox(0x32) == 0x23 && SBox(0x5F) == 0xCF && SBox(0xEF) == 0xDF;
    RoundColumnStep(s, rk, 2, 3, 0, 1, 0x82, 0x32, 0x5F, 0xEF, 0x1323CFDF, 0x53C0CF7C, 0x1E237E44, 0x4DE3B138);
  }

  lemma Encrypt128Round3Column3(s: State, rk: RoundKey)
    requires s.cols[0] == 0xAA8F5F03 && s.cols[1] == 0x61DDE3EF && s.cols[2] == 0x82D24AD2 && s.cols[3] == 0x6832469A
    requires rk.data[3] == 0x6D7A883B
    ensures Round(s, rk).cols[3] == 0xD65F58E7
  {
    assert SBox(0x68) == 0x45 && SBox(0x8F) == 0x73 && SBox(0xE3) == 0x11 && SBox(0xD2) == 0xB5;
    RoundColumnStep(s, rk, 3, 0, 1, 2, 0x68, 0x8F, 0xE3, 0xD2, 0x457311B5, 0xBB25D0DC, 0x6D7A883B, 0xD65F58E7);
  }

  /** The state after round 3. */
  lemma Encrypt128After3(key: Key, input: State)
    requires IsCipherKey128(key) && IsEncrypt128Input(input)
    ensures MiddleRounds(AddRoundKey(input, RoundKeys(key)[0]), RoundKeys(key), 3).cols[0] == 0x486C4EEE
    ensures MiddleRounds(AddRoundKey(input, RoundKeys(key)[0]), RoundKeys(key), 3).cols[1] == 0x671D9D0D
    ensures MiddleRounds(AddRoundKey(input, RoundKeys(key)[0]), RoundKeys(key), 3).cols[2] == 0x4DE3B138
    ensures MiddleRounds(AddRoundKey(input, RoundKeys(key)[0]), RoundKeys(key), 3).cols[3] == 0xD65F58E7
  {
    Encrypt128After2(key, input);
    CipherKey128Period3(key);
    RoundKeyOf(key, 3, 0x3D80477D, 0x4716FE3E, 0x1E237E44, 0x6D7A883B);
    var s := MiddleRounds(AddRoundKey(input, RoundKeys(key)[0]), RoundKeys(key), 2);
    var rk := RoundKeys(key)[3];
    Encrypt128Round3Column0(s, rk);
    Encrypt128Round3Column1(s, rk);
    Encrypt128Round3Column2(s, rk);
    Encrypt128Round3Column3(s, rk);
  }

  /** Round 4, column by column. */
  lemma Encrypt128Round4Column0(s: State, rk: RoundKey)
    requires s.cols[0] == 0x486C4EEE && s.cols[1] == 0x671D9D0D && s.cols[2] == 0x4DE3B138 && s.cols[3] == 0xD65F58E7
    requires rk.data[0] == 0xEF44A541
    ensures Round(s, rk).cols[0] == 0xE0927FE8
  {
    assert SBox(0x48) == 0x52 && SBox(0x1D) == 0xA4 && SBox(0xB1) == 0xC8 && SBox(0xE7) == 0x94;
    RoundColumnStep(s, rk, 0, 1, 2, 3, 0x48, 0x1D, 0xB1, 0xE7, 0x52A4C894, 0x0FD6DAA9, 0xEF44A541, 0xE0927FE8);
  }

  lemma Encrypt128Round4Column1(s: State, rk: RoundKey)
    requires s.cols[0] == 0x486C4EEE && s.cols[1] == 0x671D9D0D && s.cols[2] == 0x4DE3B138 && s.cols[3] == 0xD65F58E7
    requires rk.data[1] == 0xA8525B7F
    ensures Round(s, rk).cols[1] == 0xC86363C0
  {
    assert SBox(0x67) == 0x85 && SBox(0xE3) == 0x11 && SBox(0x58) == 0x6A && SBox(0xEE) == 0x28;
    RoundColumnStep(s, rk, 1, 2, 3, 0, 0x67, 0xE3, 0x58, 0xEE, 0x85116A28, 0x603138BF, 0xA8525B7F, 0xC86363C0);
  }

  lemma Encrypt128Round4Column2(s: State, rk: RoundKey)
    requires s.cols[0] == 0x486C4EEE && s.cols[1] == 0x671D9D0D && s.cols[2] == 0x4DE3B138 && s.cols[3] == 0xD65F58E7
    requires rk.data[2] == 0xB671253B
    ensures Round(s, rk).cols[2] == 0xD9B13550
  {
    assert SBox(0x4D) == 0xE3 && SBox(0x5F) == 0xCF && SBox(0x4E) == 0x2F && SBox(0x0D) == 0xD7;
    RoundColumnStep(s, rk, 2, 3, 0, 1, 0x4D, 0x5F, 0x4E, 0x0D, 0xE3CF2FD7, 0x6FC0106B, 0xB671253B, 0xD9B13550);
  }

  lemma Encrypt128Round4Column3(s: State, rk: RoundKey)
    requires s.cols[0] == 0x486C4EEE && s.cols[1] == 0x671D9D0D && s.cols[2] == 0x4DE3B138 && s.cols[3] == 0xD65F58E7
    requires rk.data[3] == 0xDB0BAD00
    ensures Round(s, rk).cols[3] == 0x85B8BE01
  {
    assert SBox(0xD6) == 0xF6 && SBox(0x6C) == 0x50 && SBox(0x9D) == 0x5E && SBox(0x38) == 0x07;
    RoundColumnStep(s, rk, 3, 0, 1, 2, 0xD6, 0x6C, 0x9D, 0x38, 0xF6505E07, 0x5EB31301, 0xDB0BAD00, 0x85B8BE01);
  }

  /** The state after round 4. */
  lemma Encrypt128After4(key: Key, input: State)
    requires IsCipherKey128(key) && IsEncrypt128Input(input)
    ensures MiddleRounds(AddRoundKey(input, RoundKeys(key)[0]), RoundKeys(key), 4).cols[0] == 0xE0927FE8
    ensures MiddleRounds(AddRoundKey(input, RoundKeys(key)[0]), RoundKeys(key), 4).cols[1] == 0xC86363C0
    ensures MiddleRounds(AddRoundKey(input, RoundKeys(key)[0]), RoundKeys(key), 4).cols[2] == 0xD9B13550
    ensures MiddleRounds(AddRoundKey(input, RoundKeys(key)[0]), RoundKeys(key), 4).cols[3] == 0x85B8BE01
  {
    Encrypt128After3(key, input);
    CipherKey128Period4(key);
    RoundKeyOf(key, 4, 0xEF44A541, 0xA8525B7F, 0xB671253B, 0xDB0BAD00);
    var s := MiddleRounds(AddRoundKey(input, RoundKeys(key)[0]), RoundKeys(key), 3);
    var rk := RoundKeys(key)[4];
    Encrypt128Round4Column0(s, rk);
    Encrypt128Round4Column1(s, rk);
    Encrypt128Round4Column2(s, rk);
    Encrypt128Round4Column3(s, rk);
  }

  /** Round 5, column by column. */
  lemma Encrypt128Round5Column0(s: State, rk: RoundKey)
    requires s.cols[0] == 0xE0927FE8 && s.cols[1] == 0xC86363C0 && s.cols[2] == 0xD9B13550 && s.cols[3] == 0x85B8BE01
    requires rk.data[0] == 0xD4D1C6F8
    ensures Round(s, rk).cols[0] == 0xF1006F55
  {
    assert SBox(0xE0) == 0xE1 && SBox(0x63) == 0xFB && SBox(0x35) == 0x96 && SBox(0x01) == 0x7C;
    RoundColumnStep(s, rk, 0, 1, 2, 3, 0xE0, 0x63, 0x35, 0x01, 0xE1FB967C, 0x25D1A9AD, 0xD4D1C6F8, 0xF1006F55);
  }

  lemma Encrypt128Round5Column1(s: State, rk: RoundKey)
    requires s.cols[0] == 0xE0927FE8 && s.cols[1] == 0xC86363C0 && s.cols[2] == 0xD9B13550 && s.cols[3] == 0x85B8BE01
    requires rk.data[1] == 0x7C839D87
    ensures Round(s, rk).cols[1] == 0xC1924CEF
  {
    assert SBox(0xC8) == 0xE8 && SBox(0xB1) == 0xC8 && SBox(0xBE) == 0xAE && SBox(0xE8) == 0x9B;
    RoundColumnStep(s, rk, 1, 2, 3, 0, 0xC8, 0xB1, 0xBE, 0xE8, 0xE8C8AE9B, 0xBD11D168, 0x7C839D87, 0xC1924CEF);
  }

  lemma Encrypt128Round5Column2(s: State, rk: RoundKey)
    requires s.cols[0] == 0xE0927FE8 && s.cols[1] == 0xC86363C0 && s.cols[2] == 0xD9B13550 && s.cols[3] == 0x85B8BE01
    requires rk.data[2] == 0xCAF2B8BC
    ensures Round(s, rk).cols[2] == 0x7CC88B32
  {
    assert SBox(0xD9) == 0x35 && SBox(0xB8) == 0x6C && SBox(0x7F) == 0xD2 && SBox(0xC0) == 0xBA;
    RoundColumnStep(s, rk, 2, 3, 0, 1, 0xD9, 0xB8, 0x7F, 0xC0, 0x356CD2BA, 0xB63A338E, 0xCAF2B8BC, 0x7CC88B32);
  }

  lemma Encrypt128Round5Column3(s: State, rk: RoundKey)
    requires s.cols[0] == 0xE0927FE8 && s.cols[1] == 0xC86363C0 && s.cols[2] == 0xD9B13550 && s.cols[3] == 0x85B8BE01
    requires rk.data[3] == 0x11F915BC
    ensures Round(s, rk).cols[3] == 0x5DB5D50C
  {
    assert SBox(0x85) == 0x97 && SBox(0x92) == 0x4F && SBox(0x63) == 0xFB && SBox(0x50) == 0x53;
    RoundColumnStep(s, rk, 3, 0, 1, 2, 0x85, 0x92, 0x63, 0x50, 0x974FFB53, 0x4C4CC0B0, 0x11F915BC, 0x5DB5D50C);
  }

  /** The state after round 5. */
  lemma Encrypt128After5(key: Key, input: State)
    requires IsCipherKey128(key) && IsEncrypt128Input(input)
    ensures MiddleRounds(AddRoundKey(input, RoundKeys(key)[0]), RoundKeys(key), 5).cols[0] == 0xF1006F55
    ensures MiddleRounds(AddRoundKey(input, RoundKeys(key)[0]), RoundKeys(key), 5).cols[1] == 0xC1924CEF
    ensures MiddleRounds(AddRoundKey(input, RoundKeys(key)[0]), RoundKeys(key), 5).cols[2] == 0x7CC88B32
    ensures MiddleRounds(AddRoundKey(input, RoundKeys(key)[0]), RoundKeys(key), 5).cols[3] == 0x5DB5D50C
  {
    Encrypt128After4(key, input);
    CipherKey128Period5(key);
    RoundKeyOf(key, 5, 0xD4D1C6F8, 0x7C839D87, 0xCAF2B8BC, 0x11F915BC);
    var s := MiddleRounds(AddRoundKey(input, RoundKeys(key)[0]), RoundKeys(key), 4);
    var rk := RoundKeys(key)[5];
    Encrypt128Round5Column0(s, rk);
    Encrypt128Round5Column1(s, rk);
    Encrypt128Round5Column2(s, rk);
    Encrypt128Round5Column3(s, rk);
  }

  /** Round 6, column by column. */
  lemma Encrypt128Round6Column0(s: State, rk: RoundKey)
    requires s.cols[0] == 0xF1006F55 && s.cols[1] == 0xC1924CEF && s.cols[2] == 0x7CC88B32 && s.cols[3] == 0x5DB5D50C
    requires rk.data[0] == 0x6D88A37A
    ensures Round(s, rk).cols[0] == 0x260E2E17
  {
    assert SBox(0xF1) == 0xA1 && SBox(0x92) == 0x4F && SBox(0x8B) == 0x3D && SBox(0x0C) == 0xFE;
    RoundColumnStep(s, rk, 0, 1, 2, 3, 0xF1, 0x92, 0x8B, 0x0C, 0xA14F3DFE, 0x4B868D6D, 0x6D88A37A, 0x260E2E17);
  }

  lemma Encrypt128Round6Column1(s: State, rk: RoundKey)
    requires s.cols[0] == 0xF1006F55 && s.cols[1] == 0xC1924CEF && s.cols[2] == 0x7CC88B32 && s.cols[3] == 0x5DB5D50C
    requires rk.data[1] == 0x110B3EFD
    ensures Round(s, rk).cols[1] == 0x3D41B77D
  {
    assert SBox(0xC1) == 0x78 && SBox(0xC8) == 0xE8 && SBox(0xD5) == 0x03 && SBox(0x55) == 0xFC;
    RoundColumnStep(s, rk, 1, 2, 3, 0, 0xC1, 0xC8, 0xD5, 0x55, 0x78E803FC, 0x2C4A8980, 0x110B3EFD, 0x3D41B77D);
  }

  lemma Encrypt128Round6Column2(s: State, rk: RoundKey)
    requires s.cols[0] == 0xF1006F55 && s.cols[1] == 0xC1924CEF && s.cols[2] == 0x7CC88B32 && s.cols[3] == 0x5DB5D50C
    requires rk.data[2] == 0xDBF98641
    ensures Round(s, rk).cols[2] == 0xE86472A9
  {
    assert SBox(0x7C) == 0x10 && SBox(0xB5) == 0xD5 && SBox(0x6F) == 0xA8 && SBox(0xEF) == 0xDF;
    RoundColumnStep(s, rk, 2, 3, 0, 1, 0x7C, 0xB5, 0x6F, 0xEF, 0x10D5A8DF, 0x339DF4E8, 0xDBF98641, 0xE86472A9);
  }

  lemma Encrypt128Round6Column3(s: State, rk: RoundKey)
    requires s.cols[0] == 0xF1006F55 && s.cols[1] == 0xC1924CEF && s.cols[2] == 0x7CC88B32 && s.cols[3] == 0x5DB5D50C
    requires rk.data[3] == 0xCA0093FD
    ensures Round(s, rk).cols[3] == 0xFDD28B25
  {
    assert SBox(0x5D) == 0x4C && SBox(0x00) == 0x63 && SBox(0x4C) == 0x29 && SBox(0x32) == 0x23;
    RoundColumnStep(s, rk, 3, 0, 1, 2, 0x5D, 0x00, 0x4C, 0x32, 0x4C632923, 0x37D218D8, 0xCA0093FD, 0xFDD28B25);
  }

  /** The state after round 6. */
  lemma Encrypt128After6(key: Key, input: State)
    requires IsCipherKey128(key) && IsEncrypt128Input(input)
    ensures MiddleRounds(AddRoundKey(input, RoundKeys(key)[0]), RoundKeys(key), 6).cols[0] == 0x260E2E17
    ensures MiddleRounds(AddRoundKey(input, RoundKeys(key)[0]), RoundKeys(key), 6).cols[1] == 0x3D41B77D
    ensures MiddleRounds(AddRoundKey(input, RoundKeys(key)[0]), RoundKeys(key), 6).cols[2] == 0xE86472A9
    ensures MiddleRounds(AddRoundKey(input, RoundKeys(key)[0]), RoundKeys(key), 6).cols[3] == 0xFDD28B25
  {
    Encrypt128After5(key, input);
    CipherKey128Period6(key);
    RoundKeyOf(key, 6, 0x6D88A37A, 0x110B3EFD, 0xDBF98641, 0xCA0093FD);
    var s := MiddleRounds(AddRoundKey(input, RoundKeys(key)[0]), RoundKeys(key), 5);
    var rk := RoundKeys(key)[6];
    Encrypt128Round6Column0(s, rk);
    Encrypt128Round6Column1(s, rk);
    Encrypt128Round6Column2(s, rk);
    Encrypt128Round6Column3(s, rk);
  }

  /** Round 7, column by column. */
  lemma Encrypt128Round7Column0(s: State, rk: RoundKey)
    requires s.cols[0] == 0x260E2E17 && s.cols[1] == 0x3D41B77D && s.cols[2] == 0xE86472A9 && s.cols[3] == 0xFDD28B25
    requires rk.data[0] == 0x4E54F70E
    ensures Round(s, rk).cols[0] == 0x5A4142B1
  {
    assert SBox(0x26) == 0xF7 && SBox(0x41) == 0x83 && SBox(0x72) == 0x40 && SBox(0x25) == 0x3F;
    RoundColumnStep(s, rk, 0, 1, 2, 3, 0x26, 0x41, 0x72, 0x25, 0xF783403F, 0x1415B5BF, 0x4E54F70E, 0x5A4142B1);
  }

  lemma Encrypt128Round7Column1(s: State, rk: RoundKey)
    requires s.cols[0] == 0x260E2E17 && s.cols[1] == 0x3D41B77D && s.cols[2] == 0xE86472A9 && s.cols[3] == 0xFDD28B25
    requires rk.data[1] == 0x5F5FC9F3
    ensures Round(s, rk).cols[1] == 0x1949DC1F
  {
    assert SBox(0x3D) == 0x27 && SBox(0x64) == 0x43 && SBox(0x8B) == 0x3D && SBox(0x17) == 0xF0;
    RoundColumnStep(s, rk, 1, 2, 3, 0, 0x3D, 0x64, 0x8B, 0x17, 0x27433DF0, 0x461615EC, 0x5F5FC9F3, 0x1949DC1F);
  }

  lemma Encrypt128Round7Column2(s: State, rk: RoundKey)
    requires s.cols[0] == 0x260E2E17 && s.cols[1] == 0x3D41B77D && s.cols[2] == 0xE86472A9 && s.cols[3] == 0xFDD28B25
    requires rk.data[2] == 0x84A64FB2
    ensures Round(s, rk).cols[2] == 0xA3E01965
  {
    assert SBox(0xE8) == 0x9B && SBox(0xD2) == 0xB5 && SBox(0x2E) == 0x31 && SBox(0x7D) == 0xFF;
    RoundColumnStep(s, rk, 2, 3, 0, 1, 0xE8, 0xD2, 0x2E, 0x7D, 0x9BB531FF, 0x274656D7, 0x84A64FB2, 0xA3E01965);
  }

  lemma Encrypt128Round7Column3(s: State, rk: RoundKey)
    requires s.cols[0] == 0x260E2E17 && s.cols[1] == 0x3D41B77D && s.cols[2] == 0xE86472A9 && s.cols[3] == 0xFDD28B25
    requires rk.data[3] == 0x4EA6DC4F
    ensures Round(s, rk).cols[3] == 0x7A8C040C
  {
    assert SBox(0xFD) == 0x54 && SBox(0x0E) == 0xAB && SBox(0xB7) == 0xA9 && SBox(0xA9) == 0xD3;
    RoundColumnStep(s, rk, 3, 0, 1, 2, 0xFD, 0x0E, 0xB7, 0xA9, 0x54ABA9D3, 0x342AD843, 0x4EA6DC4F, 0x7A8C040C);
  }

  /** The state after round 7. */
  lemma Encrypt128After7(key: Key, input: State)
    requires IsCipherKey128(key) && IsEncrypt128Input(input)
    ensures MiddleRounds(AddRoundKey(input, RoundKeys(key)[0]), RoundKeys(key), 7).cols[0] == 0x5A4142B1
    ensures MiddleRounds(AddRoundKey(input, RoundKeys(key)[0]), RoundKeys(key), 7).cols[1] == 0x1949DC1F
    ensures MiddleRounds(AddRoundKey(input, RoundKeys(key)[0]), RoundKeys(key), 7).cols[2] == 0xA3E01965
    ensures MiddleRounds(AddRoundKey(input, RoundKeys(key)[0]), RoundKeys(key), 7).cols[3] == 0x7A8C040C
  {
    Encrypt128After6(key, input);
    CipherKey128Period7(key);
    RoundKeyOf(key, 7, 0x4E54F70E, 0x5F5FC9F3, 0x84A64FB2, 0x4EA6DC4F);
    var s := MiddleRounds(AddRoundKey(input, RoundKeys(key)[0]), RoundKeys(key), 6);
    var rk := RoundKeys(key)[7];
    Encrypt128Round7Column0(s, rk);
    Encrypt128Round7Column1(s, rk);
    Encrypt128Round7Column2(s, rk);
    Encrypt128Round7Column3(s, rk);
  }

  /** Round 8, column by column. */
  lemma Encrypt128Round8Column0(s: State, rk: RoundKey)
    requires s.cols[0] == 0x5A4142B1 && s.cols[1] == 0x1949DC1F && s.cols[2] == 0xA3E01965 && s.cols[3] == 0x7A8C040C
    requires rk.data[0] == 0xEAD27321
    ensures Round(s, rk).cols[0] == 0xEA835CF0
  {
    assert SBox(0x5A) == 0xBE && SBox(0x49) == 0x3B && SBox(0x19) == 0xD4 && SBox(0x0C) == 0xFE;
    RoundColumnStep(s, rk, 0, 1, 2, 3, 0x5A, 0x49, 0x19, 0x0C, 0xBE3BD4FE, 0x00512FD1, 0xEAD27321, 0xEA835CF0);
  }

  lemma Encrypt128Round8Column1(s: State, rk: RoundKey)
    requires s.cols[0] == 0x5A4142B1 && s.cols[1] == 0x1949DC1F && s.cols[2] == 0xA3E01965 && s.cols[3] == 0x7A8C040C
    requires rk.data[1] == 0xB58DBAD2
    ensures Round(s, rk).cols[1] == 0x0445332D
  {
    assert SBox(0x19) == 0xD4 && SBox(0xE0) == 0xE1 && SBox(0x04) == 0xF2 && SBox(0xB1) == 0xC8;
    RoundColumnStep(s, rk, 1, 2, 3, 0, 0x19, 0xE0, 0x04, 0xB1, 0xD4E1F2C8, 0xB1C889FF, 0xB58DBAD2, 0x0445332D);
  }

  lemma Encrypt128Round8Column2(s: State, rk: RoundKey)
    requires s.cols[0] == 0x5A4142B1 && s.cols[1] == 0x1949DC1F && s.cols[2] == 0xA3E01965 && s.cols[3] == 0x7A8C040C
    requires rk.data[2] == 0x312BF560
    ensures Round(s, rk).cols[2] == 0x655D98AD
  {
    assert SBox(0xA3) == 0x0A && SBox(0x8C) == 0x64 && SBox(0x42) == 0x2C && SBox(0x1F) == 0xC0;
    RoundColumnStep(s, rk, 2, 3, 0, 1, 0xA3, 0x8C, 0x42, 0x1F, 0x0A642CC0, 0x54766DCD, 0x312BF560, 0x655D98AD);
  }

  lemma Encrypt128Round8Column3(s: State, rk: RoundKey)
    requires s.cols[0] == 0x5A4142B1 && s.cols[1] == 0x1949DC1F && s.cols[2] == 0xA3E01965 && s.cols[3] == 0x7A8C040C
    requires rk.data[3] == 0x7F8D292F
    ensures Round(s, rk).cols[3] == 0x8596B0C5
  {
    assert SBox(0x7A) == 0xDA && SBox(0x41) == 0x83 && SBox(0xDC) == 0x86 && SBox(0x65) == 0x4D;
    RoundColumnStep(s, rk, 3, 0, 1, 2, 0x7A, 0x41, 0xDC, 0x65, 0xDA83864D, 0xFA1B99EA, 0x7F8D292F, 0x8596B0C5);
  }

  /** The state after round 8. */
  lemma Encrypt128After8(key: Key, input: State)
    requires IsCipherKey128(key) && IsEncrypt128Input(input)
    ensures MiddleRounds(AddRoundKey(input, RoundKeys(key)[0]), RoundKeys(key), 8).cols[0] == 0xEA835CF0
    ensures MiddleRounds(AddRoundKey(input, RoundKeys(key)[0]), RoundKeys(key), 8).cols[1] == 0x0445332D
    ensures MiddleRounds(AddRoundKey(input, RoundKeys(key)[0]), RoundKeys(key), 8).cols[2] == 0x655D98AD
    ensures MiddleRounds(AddRoundKey(input, RoundKeys(key)[0]), RoundKeys(key), 8).cols[3] == 0x8596B0C5
  {
    Encrypt128After7(key, input);
    CipherKey128Period8(key);
    RoundKeyOf(key, 8, 0xEAD27321, 0xB58DBAD2, 0x312BF560, 0x7F8D292F);
    var s := MiddleRounds(AddRoundKey(input, RoundKeys(key)[0]), RoundKeys(key), 7);
    var rk := RoundKeys(key)[8];
    Encrypt128Round8Column0(s, rk);
    Encrypt128Round8Column1(s, rk);
    Encrypt128Round8Column2(s, rk);
    Encrypt128Round8Column3(s, rk);
  }

  /** Round 9, column by column. */
  lemma Encrypt128Round9Column0(s: State, rk: RoundKey)
    requires s.cols[0] == 0xEA835CF0 && s.cols[1] == 0x0445332D && s.cols[2] == 0x655D98AD && s.cols[3] == 0x8596B0C5
    requires rk.data[0] == 0xAC7766F3
    ensures Round(s, rk).cols[0] == 0xEB40F21E
  {
    assert SBox(0xEA) == 0x87 && SBox(0x45) == 0x6E && SBox(0x98) == 0x46 && SBox(0xC5) == 0xA6;
    RoundColumnStep(s, rk, 0, 1, 2, 3, 0xEA, 0x45, 0x98, 0xC5, 0x876E46A6, 0x473794ED, 0xAC7766F3, 0xEB40F21E);
  }

  lemma Encrypt128Round9Column1(s: State, rk: RoundKey)
    requires s.cols[0] == 0xEA835CF0 && s.cols[1] == 0x0445332D && s.cols[2] == 0x655D98AD && s.cols[3] == 0x8596B0C5
    requires rk.data[1] == 0x19FADC21
    ensures Round(s, rk).cols[1] == 0x592E3884
  {
    assert SBox(0x04) == 0xF2 && SBox(0x5D) == 0x4C && SBox(0xB0) == 0xE7 && SBox(0xF0) == 0x8C;
    RoundColumnStep(s, rk, 1, 2, 3, 0, 0x04, 0x5D, 0xB0, 0xF0, 0xF24CE78C, 0x40D4E4A5, 0x19FADC21, 0x592E3884);
  }

  lemma Encrypt128Round9Column2(s: State, rk: RoundKey)
    requires s.cols[0] == 0xEA835CF0 && s.cols[1] == 0x0445332D && s.cols[2] == 0x655D98AD && s.cols[3] == 0x8596B0C5
    requires rk.data[2] == 0x28D12941
    ensures Round(s, rk).cols[2] == 0x8BA113E7
  {
    assert SBox(0x65) == 0x4D && SBox(0x96) == 0x90 && SBox(0x5C) == 0x4A && SBox(0x2D) == 0xD8;
    RoundColumnStep(s, rk, 2, 3, 0, 1, 0x65, 0x96, 0x5C, 0x2D, 0x4D904AD8, 0xA3703AA6, 0x28D12941, 0x8BA113E7);
  }

  lemma Encrypt128Round9Column3(s: State, rk: RoundKey)
    requires s.cols[0] == 0xEA835CF0 && s.cols[1] == 0x0445332D && s.cols[2] == 0x655D98AD && s.cols[3] == 0x8596B0C5
    requires rk.data[3] == 0x575C006E
    ensures Round(s, rk).cols[3] == 0x1BC342D2
  {
    assert SBox(0x85) == 0x97 && SBox(0x83) == 0xEC && SBox(0x33) == 0xC3 && SBox(0xAD) == 0x95;
    RoundColumnStep(s, rk, 3, 0, 1, 2, 0x85, 0x83, 0x33, 0xAD, 0x97ECC395, 0x4C9F42BC, 0x575C006E, 0x1BC342D2);
  }

  /** The state after round 9. */
  lemma Encrypt128After9(key: Key, input: State)
    requires IsCipherKey128(key) && IsEncrypt128Input(input)
    ensures MiddleRounds(AddRoundKey(input, RoundKeys(key)[0]), RoundKeys(key), 9).cols[0] == 0xEB40F21E
    ensures MiddleRounds(AddRoundKey(input, RoundKeys(key)[0]), RoundKeys(key), 9).cols[1] == 0x592E3884
    ensures MiddleRounds(AddRoundKey(input, RoundKeys(key)[0]), RoundKeys(key), 9).cols[2] == 0x8BA113E7
    ensures MiddleRounds(AddRoundKey(input, RoundKeys(key)[0]), RoundKeys(key), 9).cols[3] == 0x1BC342D2
  {
    Encrypt128After8(key, input);
    CipherKey128Period9(key);
    RoundKeyOf(key, 9, 0xAC7766F3, 0x19FADC21, 0x28D12941, 0x575C006E);
    var s := MiddleRounds(AddRoundKey(input, RoundKeys(key)[0]), RoundKeys(key), 8);
    var rk := RoundKeys(key)[9];
    Encrypt128Round9Column0(s, rk);
    Encrypt128Round9Column1(s, rk);
    Encrypt128Round9Column2(s, rk);
    Encrypt128Round9Column3(s, rk);
  }

  /** The final round, column by column. */
  lemma Encrypt128FinalColumn0(s: State, rk: RoundKey)
    requires s.cols[0] == 0xEB40F21E && s.cols[1] == 0x592E3884 && s.cols[2] == 0x8BA113E7 && s.cols[3] == 0x1BC342D2
    requires rk.data[0] == 0xD014F9A8
    ensures FinalRound(s, rk).cols[0] == 0x3925841D
  {
    assert SBox(0xEB) == 0xE9 && SBox(0x2E) == 0x31 && SBox(0x13) == 0x7D && SBox(0xD2) == 0xB5;
    FinalColumnStep(s, rk, 0, 1, 2, 3, 0xEB, 0x2E, 0x13, 0xD2, 0xE9317DB5, 0xD014F9A8, 0x3925841D);
  }

  lemma Encrypt128FinalColumn1(s: State, rk: RoundKey)
    requires s.cols[0] == 0xEB40F21E && s.cols[1] == 0x592E3884 && s.cols[2] == 0x8BA113E7 && s.cols[3] == 0x1BC342D2
    requires rk.data[1] == 0xC9EE2589
    ensures FinalRound(s, rk).cols[1] == 0x02DC09FB
  {
    assert SBox(0x59) == 0xCB && SBox(0xA1) == 0x32 && SBox(0x42) == 0x2C && SBox(0x1E) == 0x72;
    FinalColumnStep(s, rk, 1, 2, 3, 0, 0x59, 0xA1, 0x42, 0x1E, 0xCB322C72, 0xC9EE2589, 0x02DC09FB);
  }

  lemma Encrypt128FinalColumn2(s: State, rk: RoundKey)
    requires s.cols[0] == 0xEB40F21E && s.cols[1] == 0x592E3884 && s.cols[2] == 0x8BA113E7 && s.cols[3] == 0x1BC342D2
    requires rk.data[2] == 0xE13F0CC8
    ensures FinalRound(s, rk).cols[2] == 0xDC118597
  {
    assert SBox(0x8B) == 0x3D && SBox(0xC3) == 0x2E && SBox(0xF2) == 0x89 && SBox(0x84) == 0x5F;
    FinalColumnStep(s, rk, 2, 3, 0, 1, 0x8B, 0xC3, 0xF2, 0x84, 0x3D2E895F, 0xE13F0CC8, 0xDC118597);
  }

  lemma Encrypt128FinalColumn3(s: State, rk: RoundKey)
    requires s.cols[0] == 0xEB40F21E && s.cols[1] == 0x592E3884 && s.cols[2] == 0x8BA113E7 && s.cols[3] == 0x1BC342D2
    requires rk.data[3] == 0xB6630CA6
    ensures FinalRound(s, rk).cols[3] == 0x196A0B32
  {
    assert SBox(0x1B) == 0xAF && SBox(0x40) == 0x09 && SBox(0x38) == 0x07 && SBox(0xE7) == 0x94;
    FinalColumnStep(s, rk, 3, 0, 1, 2, 0x1B, 0x40, 0x38, 0xE7, 0xAF090794, 0xB6630CA6, 0x196A0B32);
  }

  /** `aes_encrypt_block_128`: the ciphertext of the whole block. */
  lemma Encrypt128Vector(key: Key, input: State)
    requires IsCipherKey128(key) && IsEncrypt128Input(input)
    ensures Cipher(input, RoundKeys(key)) == State([0x3925841D, 0x02DC09FB, 0xDC118597, 0x196A0B32])
  {
    Encrypt128After9(key, input);
    CipherKey128Period10(key);
    RoundKeyOf(key, 10, 0xD014F9A8, 0xC9EE2589, 0xE13F0CC8, 0xB6630CA6);
    var s := MiddleRounds(AddRoundKey(input, RoundKeys(key)[0]), RoundKeys(key), 9);
    var rk := RoundKeys(key)[10];
    Encrypt128FinalColumn0(s, rk);
    Encrypt128FinalColumn1(s, rk);
    Encrypt128FinalColumn2(s, rk);
    Encrypt128FinalColumn3(s, rk);
    StateOfColumns(Cipher(input, RoundKeys(key)), 0x3925841D, 0x02DC09FB, 0xDC118597, 0x196A0B32);
  }

  /** The plaintext block of the `aes_encrypt_block_192` test. */
  predicate IsEncrypt192Input(s: State)
  {
    s.cols == [0x00112233, 0x44556677, 0x8899AABB, 0xCCDDEEFF]
  }

  /** The state after the initial `AddRoundKey`. */
  lemma Encrypt192Start(key: Key, input: State)
    requires IsCipherKey192(key) && IsEncrypt192Input(input)
    ensures AddRoundKey(input, RoundKeys(key)[0]).cols[0] == 0x00102030
    ensures AddRoundKey(input, RoundKeys(key)[0]).cols[1] == 0x40506070
    ensures AddRoundKey(input, RoundKeys(key)[0]).cols[2] == 0x8090A0B0
    ensures AddRoundKey(input, RoundKeys(key)[0]).cols[3] == 0xC0D0E0F0
  {
    RoundKeyOf(key, 0, 0x00010203, 0x04050607, 0x08090A0B, 0x0C0D0E0F);
    AddRoundKeyColumnOf(input, RoundKeys(key)[0], 0, 0x00112233, 0x00010203, 0x00102030);
    AddRoundKeyColumnOf(input, RoundKeys(key)[0], 1, 0x44556677, 0x04050607, 0x40506070);
    AddRoundKeyColumnOf(input, RoundKeys(key)[0], 2, 0x8899AABB, 0x08090A0B, 0x8090A0B0);
    AddRoundKeyColumnOf(input, RoundKeys(key)[0], 3, 0xCCDDEEFF, 0x0C0D0E0F, 0xC0D0E0F0);
  }

  /** Round 1, column by column. */
  lemma Encrypt192Round1Column0(s: State, rk: RoundKey)
    requires s.cols[0] == 0x00102030 && s.cols[1] == 0x40506070 && s.cols[2] == 0x8090A0B0 && s.cols[3] == 0xC0D0E0F0
    requires rk.data[0] == 0x10111213
    ensures Round(s, rk).cols[0] == 0x4F637606
  {
    assert SBox(0x00) == 0x63 && SBox(0x50) == 0x53 && SBox(0xA0) == 0xE0 && SBox(0xF0) == 0x8C;
    RoundColumnStep(s, rk, 0, 1, 2, 3, 0x00, 0x50, 0xA0, 0xF0, 0x6353E08C, 0x5F726415, 0x10111213, 0x4F637606);
  }

  lemma Encrypt192Round1Column1(s: State, rk: RoundKey)
    requires s.cols[0] == 0x00102030 && s.cols[1] == 0x40506070 && s.cols[2] == 0x8090A0B0 && s.cols[3] == 0xC0D0E0F0
    requires rk.data[1] == 0x14151617
    ensures Round(s, rk).cols[1] == 0x43E0AA85
  {
    assert SBox(0x40) == 0x09 && SBox(0x90) == 0x60 && SBox(0xE0) == 0xE1 && SBox(0x30) == 0x04;
    RoundColumnStep(s, rk, 1, 2, 3, 0, 0x40, 0x90, 0xE0, 0x30, 0x0960E104, 0x57F5BC92, 0x14151617, 0x43E0AA85);
  }

  lemma Encrypt192Round1Column2(s: State, rk: RoundKey)
    requires s.cols[0] == 0x00102030 && s.cols[1] == 0x40506070 && s.cols[2] == 0x8090A0B0 && s.cols[3] == 0xC0D0E0F0
    requires rk.data[2] == 0x5846F2F9
    ensures Round(s, rk).cols[2] == 0xAFF8C9D0
  {
    assert SBox(0x80) == 0xCD && SBox(0xD0) == 0x70 && SBox(0x20) == 0xB7 && SBox(0x70) == 0x51;
    RoundColumnStep(s, rk, 2, 3, 0, 1, 0x80, 0xD0, 0x20, 0x70, 0xCD70B751, 0xF7BE3B29, 0x5846F2F9, 0xAFF8C9D0);
  }

  lemma Encrypt192Round1Column3(s: State, rk: RoundKey)
    requires s.cols[0] == 0x00102030 && s.cols[1] == 0x40506070 && s.cols[2] == 0x8090A0B0 && s.cols[3] == 0xC0D0E0F0
    requires rk.data[3] == 0x5C43F4FE
    ensures Round(s, rk).cols[3] == 0x41FA0DE4
  {
    assert SBox(0xC0) == 0xBA && SBox(0x10) == 0xCA && SBox(0x60) == 0xD0 && SBox(0xB0) == 0xE7;
    RoundColumnStep(s, rk, 3, 0, 1, 2, 0xC0, 0x10, 0x60, 0xB0, 0xBACAD0E7, 0x1DB9F91A, 0x5C43F4FE, 0x41FA0DE4);
  }

  /** The state after round 1. */
  lemma Encrypt192After1(key: Key, input: State)
    requires IsCipherKey192(key) && IsEncrypt192Input(input)
    ensures MiddleRounds(AddRoundKey(input, RoundKeys(key)[0]), RoundKeys(key), 1).cols[0] == 0x4F637606
    ensures MiddleRounds(AddRoundKey(input, RoundKeys(key)[0]), RoundKeys(key), 1).cols[1] == 0x43E0AA85
    ensures MiddleRounds(AddRoundKey(input, RoundKeys(key)[0]), RoundKeys(key), 1).cols[2] == 0xAFF8C9D0
    ensures MiddleRounds(AddRoundKey(input, RoundKeys(key)[0]), RoundKeys(key), 1).cols[3] == 0x41FA0DE4
  {
    Encrypt192Start(key, input);
    CipherKey192Period1(key);
    RoundKeyOf(key, 1, 0x10111213, 0x14151617, 0x5846F2F9, 0x5C43F4FE);
    var s := MiddleRounds(AddRoundKey(input, RoundKeys(key)[0]), RoundKeys(key), 0);
    var rk := RoundKeys(key)[1];
    Encrypt192Round1Column0(s, rk);
    Encrypt192Round1Column1(s, rk);
    Encrypt192Round1Column2(s, rk);
    Encrypt192Round1Column3(s, rk);
  }

  /** Round 2, column by column. */
  lemma Encrypt192Round2Column0(s: State, rk: RoundKey)
    requires s.cols[0] == 0x4F637606 && s.cols[1] == 0x43E0AA85 && s.cols[2] == 0xAFF8C9D0 && s.cols[3] == 0x41FA0DE4
    requires rk.data[0] == 0x544AFEF5
    ensures Round(s, rk).cols[0] == 0xCB02818C
  {
    assert SBox(0x4F) == 0x84 && SBox(0xE0) == 0xE1 && SBox(0xC9) == 0xDD && SBox(0xE4) == 0x69;
    RoundColumnStep(s, rk, 0, 1, 2, 3, 0x4F, 0xE0, 0xC9, 0xE4, 0x84E1DD69, 0x9F487F79, 0x544AFEF5, 0xCB02818C);
  }

  lemma Encrypt192Round2Column1(s: State, rk: RoundKey)
    requires s.cols[0] == 0x4F637606 && s.cols[1] == 0x43E0AA85 && s.cols[2] == 0xAFF8C9D0 && s.cols[3] == 0x41FA0DE4
    requires rk.data[1] == 0x5847F0FA
    ensures Round(s, rk).cols[1] == 0x17D2AF9C
  {
    assert SBox(0x43) == 0x1A && SBox(0xF8) == 0x41 && SBox(0x0D) == 0xD7 && SBox(0x06) == 0x6F;
    RoundColumnStep(s, rk, 1, 2, 3, 0, 0x43, 0xF8, 0x0D, 0x06, 0x1A41D76F, 0x4F955F66, 0x5847F0FA, 0x17D2AF9C);
  }

  lemma Encrypt192Round2Column2(s: State, rk: RoundKey)
    requires s.cols[0] == 0x4F637606 && s.cols[1] == 0x43E0AA85 && s.cols[2] == 0xAFF8C9D0 && s.cols[3] == 0x41FA0DE4
    requires rk.data[2] == 0x4856E2E9
    ensures Round(s, rk).cols[2] == 0x62AA6442
  {
    assert SBox(0xAF) == 0x79 && SBox(0xFA) == 0x2D && SBox(0x76) == 0x38 && SBox(0x85) == 0x97;
    RoundColumnStep(s, rk, 2, 3, 0, 1, 0xAF, 0xFA, 0x76, 0x85, 0x792D3897, 0x2AFC86AB, 0x4856E2E9, 0x62AA6442);
  }

  lemma Encrypt192Round2Column3(s: State, rk: RoundKey)
    requires s.cols[0] == 0x4F637606 && s.cols[1] == 0x43E0AA85 && s.cols[2] == 0xAFF8C9D0 && s.cols[3] == 0x41FA0DE4
    requires rk.data[3] == 0x5C43F4FE
    ensures Round(s, rk).cols[3] == 0x8BB25FD7
  {
    assert SBox(0x41) == 0x83 && SBox(0x63) == 0xFB && SBox(0xAA) == 0xAC && SBox(0xD0) == 0x70;
    RoundColumnStep(s, rk, 3, 0, 1, 2, 0x41, 0x63, 0xAA, 0xD0, 0x83FBAC70, 0xD7F1AB29, 0x5C43F4FE, 0x8BB25FD7);
  }

  /** The state after round 2. */
  lemma Encrypt192After2(key: Key, input: State)
    requires IsCipherKey192(key) && IsEncrypt192Input(input)
    ensures MiddleRounds(AddRoundKey(input, RoundKeys(key)[0]), RoundKeys(key), 2).cols[0] == 0xCB02818C
    ensures MiddleRounds(AddRoundKey(input, RoundKeys(key)[0]), RoundKeys(key), 2).cols[1] == 0x17D2AF9C
    ensures MiddleRounds(AddRoundKey(input, RoundKeys(key)[0]), RoundKeys(key), 2).cols[2] == 0x62AA6442
    ensures MiddleRounds(AddRoundKey(input, RoundKeys(key)[0]), RoundKeys(key), 2).cols[3] == 0x8BB25FD7
  {
    Encrypt192After1(key, input);
    CipherKey192Period1(key);
    RoundKeyOf(key, 2, 0x544AFEF5, 0x5847F0FA, 0x4856E2E9, 0x5C43F4FE);
    var s := MiddleRounds(AddRoundKey(input, RoundKeys(key)[0]), RoundKeys(key), 1);
    var rk := RoundKeys(key)[2];
    Encrypt192Round2Column0(s, rk);
    Encrypt192Round2Column1(s, rk);
    Encrypt192Round2Column2(s, rk);
    Encrypt192Round2Column3(s, rk);
  }

  /** Round 3, column by column. */
  lemma Encrypt192Round3Column0(s: State, rk: RoundKey)
    requires s.cols[0] == 0xCB02818C && s.cols[1] == 0x17D2AF9C && s.cols[2] == 0x62AA6442 && s.cols[3] == 0x8BB25FD7
    requires rk.data[0] == 0x40F949B3
    ensures Round(s, rk).cols[0] == 0xF75C7778
  {
    assert SBox(0xCB) == 0x1F && SBox(0xD2) == 0xB5 && SBox(0x64) == 0x43 && SBox(0xD7) == 0x0E;
    RoundColumnStep(s, rk, 0, 1, 2, 3, 0xCB, 0xD2, 0x64, 0xD7, 0x1FB5430E, 0xB7A53ECB, 0x40F949B3, 0xF75C7778);
  }

  lemma Encrypt192Round3Column1(s: State, rk: RoundKey)
    requires s.cols[0] == 0xCB02818C && s.cols[1] == 0x17D2AF9C && s.cols[2] == 0x62AA6442 && s.cols[3] == 0x8BB25FD7
    requires rk.data[1] == 0x1CBABD4D
    ensures Round(s, rk).cols[1] == 0xA327C8ED
  {
    assert SBox(0x17) == 0xF0 && SBox(0xAA) == 0xAC && SBox(0x5F) == 0xCF && SBox(0x8C) == 0x64;
    RoundColumnStep(s, rk, 1, 2, 3, 0, 0x17, 0xAA, 0x5F, 0x8C, 0xF0ACCF64, 0xBF9D75A0, 0x1CBABD4D, 0xA327C8ED);
  }

  lemma Encrypt192Round3Column2(s: State, rk: RoundKey)
    requires s.cols[0] == 0xCB02818C && s.cols[1] == 0x17D2AF9C && s.cols[2] == 0x62AA6442 && s.cols[3] == 0x8BB25FD7
    requires rk.data[2] == 0x48F043B8
    ensures Round(s, rk).cols[2] == 0x8CFEBFC1
  {
    assert SBox(0x62) == 0xAA && SBox(0xB2) == 0x37 && SBox(0x81) == 0x0C && SBox(0x9C) == 0xDE;
    RoundColumnStep(s, rk, 2, 3, 0, 1, 0x62, 0xB2, 0x81, 0x9C, 0xAA370CDE, 0xC40EFC79, 0x48F043B8, 0x8CFEBFC1);
  }

  lemma Encrypt192Round3Column3(s: State, rk: RoundKey)
    requires s.cols[0] == 0xCB02818C && s.cols[1] == 0x17D2AF9C && s.cols[2] == 0x62AA6442 && s.cols[3] == 0x8BB25FD7
    requires rk.data[3] == 0x10B7B342
    ensures Round(s, rk).cols[3] == 0xA6C37F53
  {
    assert SBox(0x8B) == 0x3D && SBox(0x02) == 0x77 && SBox(0xAF) == 0x79 && SBox(0x42) == 0x2C;
    RoundColumnStep(s, rk, 3, 0, 1, 2, 0x8B, 0x02, 0xAF, 0x42, 0x3D77792C, 0xB674CC11, 0x10B7B342, 0xA6C37F53);
  }

  /** The state after round 3. */
  lemma Encrypt192After3(key: Key, input: State)
    requires IsCipherKey192(key) && IsEncrypt192Input(input)
    ensures MiddleRounds(AddRoundKey(input, RoundKeys(key)[0]), RoundKeys(key), 3).cols[0] == 0xF75C7778
    ensures MiddleRounds(AddRoundKey(input, RoundKeys(key)[0]), RoundKeys(key), 3).cols[1] == 0xA327C8ED
    ensures MiddleRounds(AddRoundKey(input, RoundKeys(key)[0]), RoundKeys(key), 3).cols[2] == 0x8CFEBFC1
    ensures MiddleRounds(AddRoundKey(input, RoundKeys(key)[0]), RoundKeys(key), 3).cols[3] == 0xA6C37F53
  {
    Encrypt192After2(key, input);
    CipherKey192Period2(key);
    RoundKeyOf(key, 3, 0x40F949B3, 0x1CBABD4D, 0x48F043B8, 0x10B7B342);
    var s := MiddleRounds(AddRoundKey(input, RoundKeys(key)[0]), RoundKeys(key), 2);
    var rk := RoundKeys(key)[3];
    Encrypt192Round3Column0(s, rk);
    Encrypt192Round3Column1(s, rk);
    Encrypt192Round3Column2(s, rk);
    Encrypt192Round3Column3(s, rk);
  }

  /** Round 4, column by column. */
  lemma Encrypt192Round4Column0(s: State, rk: RoundKey)
    requires s.cols[0] == 0xF75C7778 && s.cols[1] == 0xA327C8ED && s.cols[2] == 0x8CFEBFC1 && s.cols[3] == 0xA6C37F53
    requires rk.data[0] == 0x58E151AB
    ensures Round(s, rk).cols[0] == 0x22FFC916
  {
    assert SBox(0xF7) == 0x68 && SBox(0x27) == 0xCC && SBox(0xBF) == 0x08 && SBox(0x53) == 0xED;
    RoundColumnStep(s, rk, 0, 1, 2, 3, 0xF7, 0x27, 0xBF, 0x53, 0x68CC08ED, 0x7A1E98BD, 0x58E151AB, 0x22FFC916);
  }

  lemma Encrypt192Round4Column1(s: State, rk: RoundKey)
    requires s.cols[0] == 0xF75C7778 && s.cols[1] == 0xA327C8ED && s.cols[2] == 0x8CFEBFC1 && s.cols[3] == 0xA6C37F53
    requires rk.data[1] == 0x04A2A555
    ensures Round(s, rk).cols[1] == 0xA8147441
  {
    assert SBox(0xA3) == 0x0A && SBox(0xFE) == 0xBB && SBox(0x7F) == 0xD2 && SBox(0x78) == 0xBC;
    RoundColumnStep(s, rk, 1, 2, 3, 0, 0xA3, 0xFE, 0x7F, 0x78, 0x0ABBD2BC, 0xACB6D114, 0x04A2A555, 0xA8147441);
  }

  lemma Encrypt192Round4Column2(s: State, rk: RoundKey)
    requires s.cols[0] == 0xF75C7778 && s.cols[1] == 0xA327C8ED && s.cols[2] == 0x8CFEBFC1 && s.cols[3] == 0xA6C37F53
    requires rk.data[2] == 0x7EFFB541
    ensures Round(s, rk).cols[2] == 0x6496F19C
  {
    assert SBox(0x8C) == 0x64 && SBox(0xC3) == 0x2E && SBox(0x77) == 0xF5 && SBox(0xED) == 0x55;
    RoundColumnStep(s, rk, 2, 3, 0, 1, 0x8C, 0xC3, 0x77, 0xED, 0x642EF555, 0x1A6944DD, 0x7EFFB541, 0x6496F19C);
  }

  lemma Encrypt192Round4Column3(s: State, rk: RoundKey)
    requires s.cols[0] == 0xF75C7778 && s.cols[1] == 0xA327C8ED && s.cols[2] == 0x8CFEBFC1 && s.cols[3] == 0xA6C37F53
    requires rk.data[3] == 0x6245080C
    ensures Round(s, rk).cols[3] == 0x64AE2532
  {
    assert SBox(0xA6) == 0x24 && SBox(0x5C) == 0x4A && SBox(0xC8) == 0xE8 && SBox(0xC1) == 0x78;
    RoundColumnStep(s, rk, 3, 0, 1, 2, 0xA6, 0x5C, 0xC8, 0xC1, 0x244AE878, 0x06EB2D3E, 0x6245080C, 0x64AE2532);
  }

  /** The state after round 4. */
  lemma Encrypt192After4(key: Key, input: State)
    requires IsCipherKey192(key) && IsEncrypt192Input(input)
    ensures MiddleRounds(AddRoundKey(input, RoundKeys(key)[0]), RoundKeys(key), 4).cols[0] == 0x22FFC916
    ensures MiddleRounds(AddRoundKey(input, RoundKeys(key)[0]), RoundKeys(key), 4).cols[1] == 0xA8147441
    ensures MiddleRounds(AddRoundKey(input, RoundKeys(key)[0]), RoundKeys(key), 4).cols[2] == 0x6496F19C
    ensures MiddleRounds(AddRoundKey(input, RoundKeys(key)[0]), RoundKeys(key), 4).cols[3] == 0x64AE2532
  {
    Encrypt192After3(key, input);
    CipherKey192Period2(key);
    CipherKey192Period3(key);
    RoundKeyOf(key, 4, 0x58E151AB, 0x04A2A555, 0x7EFFB541, 0x6245080C);
    var s := MiddleRounds(AddRoundKey(input, RoundKeys(key)[0]), RoundKeys(key), 3);
    var rk := RoundKeys(key)[4];
    Encrypt192Round4Column0(s, rk);
    Encrypt192Round4Column1(s, rk);
    Encrypt192Round4Column2(s, rk);
    Encrypt192Round4Column3(s, rk);
  }

  /** Round 5, column by column. */
  lemma Encrypt192Round5Column0(s: State, rk: RoundKey)
    requires s.cols[0] == 0x22FFC916 && s.cols[1] == 0xA8147441 && s.cols[2] == 0x6496F19C && s.cols[3] == 0x64AE2532
    requires rk.data[0] == 0x2AB54BB4
    ensures Round(s, rk).cols[0] == 0x80121E07
  {
    assert SBox(0x22) == 0x93 && SBox(0x14) == 0xFA && SBox(0xF1) == 0xA1 && SBox(0x32) == 0x23;
    RoundColumnStep(s, rk, 0, 1, 2, 3, 0x22, 0x14, 0xF1, 0x32, 0x93FAA123, 0xAAA755B3, 0x2AB54BB4, 0x80121E07);
  }

  lemma Encrypt192Round5Column1(s: State, rk: RoundKey)
    requires s.cols[0] == 0x22FFC916 && s.cols[1] == 0xA8147441 && s.cols[2] == 0x6496F19C && s.cols[3] == 0x64AE2532
    requires rk.data[1] == 0x3A02F8F6
    ensures Round(s, rk).cols[1] == 0x76FD1D8A
  {
    assert SBox(0xA8) == 0xC2 && SBox(0x96) == 0x90 && SBox(0x25) == 0x3F && SBox(0x16) == 0x47;
    RoundColumnStep(s, rk, 1, 2, 3, 0, 0xA8, 0x96, 0x25, 0x16, 0xC2903F47, 0x4CFFE57C, 0x3A02F8F6, 0x76FD1D8A);
  }

  lemma Encrypt192Round5Column2(s: State, rk: RoundKey)
    requires s.cols[0] == 0x22FFC916 && s.cols[1] == 0xA8147441 && s.cols[2] == 0x6496F19C && s.cols[3] == 0x64AE2532
    requires rk.data[2] == 0x62E3A95D
    ensures Round(s, rk).cols[2] == 0x8D8C31BC
  {
    assert SBox(0x64) == 0x43 && SBox(0xAE) == 0xE4 && SBox(0xC9) == 0xDD && SBox(0x41) == 0x83;
    RoundColumnStep(s, rk, 2, 3, 0, 1, 0x64, 0xAE, 0xC9, 0x41, 0x43E4DD83, 0xEF6F98E1, 0x62E3A95D, 0x8D8C31BC);
  }

  lemma Encrypt192Round5Column3(s: State, rk: RoundKey)
    requires s.cols[0] == 0x22FFC916 && s.cols[1] == 0xA8147441 && s.cols[2] == 0x6496F19C && s.cols[3] == 0x64AE2532
    requires rk.data[3] == 0x66410C08
    ensures Round(s, rk).cols[3] == 0x965D1FEE
  {
    assert SBox(0x64) == 0x43 && SBox(0xFF) == 0x16 && SBox(0x74) == 0x92 && SBox(0x9C) == 0xDE;
    RoundColumnStep(s, rk, 3, 0, 1, 2, 0x64, 0xFF, 0x74, 0x9C, 0x431692DE, 0xF01C13E6, 0x66410C08, 0x965D1FEE);
  }

  /** The state after round 5. */
  lemma Encrypt192After5(key: Key, input: State)
    requires IsCipherKey192(key) && IsEncrypt192Input(input)
    ensures MiddleRounds(AddRoundKey(input, RoundKeys(key)[0]), RoundKeys(key), 5).cols[0] == 0x80121E07
    ensures MiddleRounds(AddRoundKey(input, RoundKeys(key)[0]), RoundKeys(key), 5).cols[1] == 0x76FD1D8A
    ensures MiddleRounds(AddRoundKey(input, RoundKeys(key)[0]), RoundKeys(key), 5).cols[2] == 0x8D8C31BC
    ensures MiddleRounds(AddRoundKey(input, RoundKeys(key)[0]), RoundKeys(key), 5).cols[3] == 0x965D1FEE
  {
    Encrypt192After4(key, input);
    CipherKey192Period3(key);
    RoundKeyOf(key, 5, 0x2AB54BB4, 0x3A02F8F6, 0x62E3A95D, 0x66410C08);
    var s := MiddleRounds(AddRoundKey(input, RoundKeys(key)[0]), RoundKeys(key), 4);
    var rk := RoundKeys(key)[5];
    Encrypt192Round5Column0(s, rk);
    Encrypt192Round5Column1(s, rk);
    Encrypt192Round5Column2(s, rk);
    Encrypt192Round5Column3(s, rk);
  }

  /** Round 6, column by column. */
  lemma Encrypt192Round6Column0(s: State, rk: RoundKey)
    requires s.cols[0] == 0x80121E07 && s.cols[1] == 0x76FD1D8A && s.cols[2] == 0x8D8C31BC && s.cols[3] == 0x965D1FEE
    requires rk.data[0] == 0xF5018572
    ensures Round(s, rk).cols[0] == 0x671EF1FD
  {
    assert SBox(0x80) == 0xCD && SBox(0xFD) == 0x54 && SBox(0x31) == 0xC7 && SBox(0xEE) == 0x28;
    RoundColumnStep(s, rk, 0, 1, 2, 3, 0x80, 0xFD, 0x31, 0xEE, 0xCD54C728, 0x921F748F, 0xF5018572, 0x671EF1FD);
  }

  lemma Encrypt192Round6Column1(s: State, rk: RoundKey)
    requires s.cols[0] == 0x80121E07 && s.cols[1] == 0x76FD1D8A && s.cols[2] == 0x8D8C31BC && s.cols[3] == 0x965D1FEE
    requires rk.data[1] == 0x97448D7E
    ensures Round(s, rk).cols[1] == 0x4E2A1E03
  {
    assert SBox(0x76) == 0x38 && SBox(0x8C) == 0x64 && SBox(0x1F) == 0xC0 && SBox(0x07) == 0xC5;
    RoundColumnStep(s, rk, 1, 2, 3, 0, 0x76, 0x8C, 0x1F, 0x07, 0x3864C0C5, 0xD96E937D, 0x97448D7E, 0x4E2A1E03);
  }

  lemma Encrypt192Round6Column2(s: State, rk: RoundKey)
    requires s.cols[0] == 0x80121E07 && s.cols[1] == 0x76FD1D8A && s.cols[2] == 0x8D8C31BC && s.cols[3] == 0x965D1FEE
    requires rk.data[2] == 0xBDF1C6CA
    ensures Round(s, rk).cols[2] == 0xDFDCB1EF
  {
    assert SBox(0x8D) == 0x5D && SBox(0x5D) == 0x4C && SBox(0x1E) == 0x72 && SBox(0x8A) == 0x7E;
    RoundColumnStep(s, rk, 2, 3, 0, 1, 0x8D, 0x5D, 0x1E, 0x8A, 0x5D4C727E, 0x622D7725, 0xBDF1C6CA, 0xDFDCB1EF);
  }

  lemma Encrypt192Round6Column3(s: State, rk: RoundKey)
    requires s.cols[0] == 0x80121E07 && s.cols[1] == 0x76FD1D8A && s.cols[2] == 0x8D8C31BC && s.cols[3] == 0x965D1FEE
    requires rk.data[3] == 0x87F33E3C
    ensures Round(s, rk).cols[3] == 0x3D789B30
  {
    assert SBox(0x96) == 0x90 && SBox(0x12) == 0xC9 && SBox(0x1D) == 0xA4 && SBox(0xBC) == 0x65;
    RoundColumnStep(s, rk, 3, 0, 1, 2, 0x96, 0x12, 0x1D, 0xBC, 0x90C9A465, 0xBA8BA50C, 0x87F33E3C, 0x3D789B30);
  }

  /** The state after round 6. */
  lemma Encrypt192After6(key: Key, input: State)
    requires IsCipherKey192(key) && IsEncrypt192Input(input)
    ensures MiddleRounds(AddRoundKey(input, RoundKeys(key)[0]), RoundKeys(key), 6).cols[0] == 0x671EF1FD
    ensures MiddleRounds(AddRoundKey(input, RoundKeys(key)[0]), RoundKeys(key), 6).cols[1] == 0x4E2A1E03
    ensures MiddleRounds(AddRoundKey(input, RoundKeys(key)[0]), RoundKeys(key), 6).cols[2] == 0xDFDCB1EF
    ensures MiddleRounds(AddRoundKey(input, RoundKeys(key)[0]), RoundKeys(key), 6).cols[3] == 0x3D789B30
  {
    Encrypt192After5(key, input);
    CipherKey192Period4(key);
    RoundKeyOf(key, 6, 0xF5018572, 0x97448D7E, 0xBDF1C6CA, 0x87F33E3C);
    var s := MiddleRounds(AddRoundKey(input, RoundKeys(key)[0]), RoundKeys(key), 5);
    var rk := RoundKeys(key)[6];
    Encrypt192Round6Column0(s, rk);
    Encrypt192Round6Column1(s, rk);
    Encrypt192Round6Column2(s, rk);
    Encrypt192Round6Column3(s, rk);
  }

  /** Round 7, column by column. */
  lemma Encrypt192Round7Column0(s: State, rk: RoundKey)
    requires s.cols[0] == 0x671EF1FD && s.cols[1] == 0x4E2A1E03 && s.cols[2] == 0xDFDCB1EF && s.cols[3] == 0x3D789B30
    requires rk.data[0] == 0xE5109761
    ensures Round(s, rk).cols[0] == 0x0C0370D0
  {
    assert SBox(0x67) == 0x85 && SBox(0x2A) == 0xE5 && SBox(0xB1) == 0xC8 && SBox(0x30) == 0x04;
    RoundColumnStep(s, rk, 0, 1, 2, 3, 0x67, 0x2A, 0xB1, 0x30, 0x85E5C804, 0xE913E7B1, 0xE5109761, 0x0C0370D0);
  }

  lemma Encrypt192Round7Column1(s: State, rk: RoundKey)
    requires s.cols[0] == 0x671EF1FD && s.cols[1] == 0x4E2A1E03 && s.cols[2] == 0xDFDCB1EF && s.cols[3] == 0x3D789B30
    requires rk.data[1] == 0x83519B69
    ensures Round(s, rk).cols[1] == 0x0C01E622
  {
    assert SBox(0x4E) == 0x2F && SBox(0xDC) == 0x86 && SBox(0x9B) == 0x14 && SBox(0xFD) == 0x54;
    RoundColumnStep(s, rk, 1, 2, 3, 0, 0x4E, 0xDC, 0x9B, 0xFD, 0x2F861454, 0x8F507D4B, 0x83519B69, 0x0C01E622);
  }

  lemma Encrypt192Round7Column2(s: State, rk: RoundKey)
    requires s.cols[0] == 0x671EF1FD && s.cols[1] == 0x4E2A1E03 && s.cols[2] == 0xDFDCB1EF && s.cols[3] == 0x3D789B30
    requires rk.data[2] == 0x34157C9E
    ensures Round(s, rk).cols[2] == 0x166B8ACC
  {
    assert SBox(0xDF) == 0x9E && SBox(0x78) == 0xBC && SBox(0xF1) == 0xA1 && SBox(0x03) == 0x7B;
    RoundColumnStep(s, rk, 2, 3, 0, 1, 0xDF, 0x78, 0xF1, 0x03, 0x9EBCA17B, 0x227EF652, 0x34157C9E, 0x166B8ACC);
  }

  lemma Encrypt192Round7Column3(s: State, rk: RoundKey)
    requires s.cols[0] == 0x671EF1FD && s.cols[1] == 0x4E2A1E03 && s.cols[2] == 0xDFDCB1EF && s.cols[3] == 0x3D789B30
    requires rk.data[3] == 0xA351F1E0
    ensures Round(s, rk).cols[3] == 0xD6DB3A2C
  {
    assert SBox(0x3D) == 0x27 && SBox(0x1E) == 0x72 && SBox(0x1E) == 0x72 && SBox(0xEF) == 0xDF;
    RoundColumnStep(s, rk, 3, 0, 1, 2, 0x3D, 0x1E, 0x1E, 0xEF, 0x277272DF, 0x758ACBCC, 0xA351F1E0, 0xD6DB3A2C);
  }

  /** The state after round 7. */
  lemma Encrypt192After7(key: Key, input: State)
    requires IsCipherKey192(key) && IsEncrypt192Input(input)
    ensures MiddleRounds(AddRoundKey(input, RoundKeys(key)[0]), RoundKeys(key), 7).cols[0] == 0x0C0370D0
    ensures MiddleRounds(AddRoundKey(input, RoundKeys(key)[0]), RoundKeys(key), 7).cols[1] == 0x0C01E622
    ensures MiddleRounds(AddRoundKey(input, RoundKeys(key)[0]), RoundKeys(key), 7).cols[2] == 0x166B8ACC
    ensures MiddleRounds(AddRoundKey(input, RoundKeys(key)[0]), RoundKeys(key), 7).cols[3] == 0xD6DB3A2C
  {
    Encrypt192After6(key, input);
    CipherKey192Period4(key);
    CipherKey192Period5(key);
    RoundKeyOf(key, 7, 0xE5109761, 0x83519B69, 0x34157C9E, 0xA351F1E0);
    var s := MiddleRounds(AddRoundKey(input, RoundKeys(key)[0]), RoundKeys(key), 6);
    var rk := RoundKeys(key)[7];
    Encrypt192Round7Column0(s, rk);
    Encrypt192Round7Column1(s, rk);
    Encrypt192Round7Column2(s, rk);
    Encrypt192Round7Column3(s, rk);
  }

  /** Round 8, column by column. */
  lemma Encrypt192Round8Column0(s: State, rk: RoundKey)
    requires s.cols[0] == 0x0C0370D0 && s.cols[1] == 0x0C01E622 && s.cols[2] == 0x166B8ACC && s.cols[3] == 0xD6DB3A2C
    requires rk.data[0] == 0x1EA0372A
    ensures Round(s, rk).cols[0] == 0x7255DAD3
  {
    assert SBox(0x0C) == 0xFE && SBox(0x01) == 0x7C && SBox(0x8A) == 0x7E && SBox(0x2C) == 0x71;
    RoundColumnStep(s, rk, 0, 1, 2, 3, 0x0C, 0x01, 0x8A, 0x2C, 0xFE7C7E71, 0x6CF5EDF9, 0x1EA0372A, 0x7255DAD3);
  }

  lemma Encrypt192Round8Column1(s: State, rk: RoundKey)
    requires s.cols[0] == 0x0C0370D0 && s.cols[1] == 0x0C01E622 && s.cols[2] == 0x166B8ACC && s.cols[3] == 0xD6DB3A2C
    requires rk.data[1] == 0x99530916
    ensures Round(s, rk).cols[1] == 0x0FB80310
  {
    assert SBox(0x0C) == 0xFE && SBox(0x6B) == 0x7F && SBox(0x3A) == 0x80 && SBox(0xD0) == 0x70;
    RoundColumnStep(s, rk, 1, 2, 3, 0, 0x0C, 0x6B, 0x3A, 0xD0, 0xFE7F8070, 0x96EB0A06, 0x99530916, 0x0FB80310);
  }

  lemma Encrypt192Round8Column2(s: State, rk: RoundKey)
    requires s.cols[0] == 0x0C0370D0 && s.cols[1] == 0x0C01E622 && s.cols[2] == 0x166B8ACC && s.cols[3] == 0xD6DB3A2C
    requires rk.data[2] == 0x7C439E77
    ensures Round(s, rk).cols[2] == 0xE00D6C6B
  {
    assert SBox(0x16) == 0x47 && SBox(0xDB) == 0xB9 && SBox(0x70) == 0x51 && SBox(0x22) == 0x93;
    RoundColumnStep(s, rk, 2, 3, 0, 1, 0x16, 0xDB, 0x70, 0x22, 0x47B95193, 0x9C4EF21C, 0x7C439E77, 0xE00D6C6B);
  }

  lemma Encrypt192Round8Column3(s: State, rk: RoundKey)
    requires s.cols[0] == 0x0C0370D0 && s.cols[1] == 0x0C01E622 && s.cols[2] == 0x166B8ACC && s.cols[3] == 0xD6DB3A2C
    requires rk.data[3] == 0xFF12051E
    ensures Round(s, rk).cols[3] == 0x40D0527C
  {
    assert SBox(0xD6) == 0xF6 && SBox(0x03) == 0x7B && SBox(0xE6) == 0x8E && SBox(0xCC) == 0x4B;
    RoundColumnStep(s, rk, 3, 0, 1, 2, 0xD6, 0x03, 0xE6, 0xCC, 0xF67B8E4B, 0xBFC25762, 0xFF12051E, 0x40D0527C);
  }

  /** The state after round 8. */
  lemma Encrypt192After8(key: Key, input: State)
    requires IsCipherKey192(key) && IsEncrypt192Input(input)
    ensures MiddleRounds(AddRoundKey(input, RoundKeys(key)[0]), RoundKeys(key), 8).cols[0] == 0x7255DAD3
    ensures MiddleRounds(AddRoundKey(input, RoundKeys(key)[0]), RoundKeys(key), 8).cols[1] == 0x0FB80310
    ensures MiddleRounds(AddRoundKey(input, RoundKeys(key)[0]), RoundKeys(key), 8).cols[2] == 0xE00D6C6B
    ensures MiddleRounds(AddRoundKey(input, RoundKeys(key)[0]), RoundKeys(key), 8).cols[3] == 0x40D0527C
  {
    Encrypt192After7(key, input);
    CipherKey192Period5(key);
    RoundKeyOf(key, 8, 0x1EA0372A, 0x99530916, 0x7C439E77, 0xFF12051E);
    var s := MiddleRounds(AddRoundKey(input, RoundKeys(key)[0]), RoundKeys(key), 7);
    var rk := RoundKeys(key)[8];
    Encrypt192Round8Column0(s, rk);
    Encrypt192Round8Column1(s, rk);
    Encrypt192Round8Column2(s, rk);
    Encrypt192Round8Column3(s, rk);
  }

  /** Round 9, column by column. */
  lemma Encrypt192Round9Column0(s: State, rk: RoundKey)
    requires s.cols[0] == 0x7255DAD3 && s.cols[1] == 0x0FB80310 && s.cols[2] == 0xE00D6C6B && s.cols[3] == 0x40D0527C
    requires rk.data[0] == 0xDD7E0E88
    ensures Round(s, rk).cols[0] == 0xA906B254
  {
    assert SBox(0x72) == 0x40 && SBox(0xB8) == 0x6C && SBox(0x6C) == 0x50 && SBox(0x7C) == 0x10;
    RoundColumnStep(s, rk, 0, 1, 2, 3, 0x72, 0xB8, 0x6C, 0x7C, 0x406C5010, 0x7478BCDC, 0xDD7E0E88, 0xA906B254);
  }

  lemma Encrypt192Round9Column1(s: State, rk: RoundKey)
    requires s.cols[0] == 0x7255DAD3 && s.cols[1] == 0x0FB80310 && s.cols[2] == 0xE00D6C6B && s.cols[3] == 0x40D0527C
    requires rk.data[1] == 0x7E2FFF68
    ensures Round(s, rk).cols[1] == 0x968AF4E9
  {
    assert SBox(0x0F) == 0x76 && SBox(0x0D) == 0xD7 && SBox(0x52) == 0x00 && SBox(0xD3) == 0x66;
    RoundColumnStep(s, rk, 1, 2, 3, 0, 0x0F, 0x0D, 0x52, 0xD3, 0x76D70066, 0xE8A50B81, 0x7E2FFF68, 0x968AF4E9);
  }

  lemma Encrypt192Round9Column2(s: State, rk: RoundKey)
    requires s.cols[0] == 0x7255DAD3 && s.cols[1] == 0x0FB80310 && s.cols[2] == 0xE00D6C6B && s.cols[3] == 0x40D0527C
    requires rk.data[2] == 0x608FC842
    ensures Round(s, rk).cols[2] == 0xB4BDB2D2
  {
    assert SBox(0xE0) == 0xE1 && SBox(0xD0) == 0x70 && SBox(0xDA) == 0x57 && SBox(0x10) == 0xCA;
    RoundColumnStep(s, rk, 2, 3, 0, 1, 0xE0, 0xD0, 0xDA, 0x10, 0xE17057CA, 0xD4327A90, 0x608FC842, 0xB4BDB2D2);
  }

  lemma Encrypt192Round9Column3(s: State, rk: RoundKey)
    requires s.cols[0] == 0x7255DAD3 && s.cols[1] == 0x0FB80310 && s.cols[2] == 0xE00D6C6B && s.cols[3] == 0x40D0527C
    requires rk.data[3] == 0xF9DCC154
    ensures Round(s, rk).cols[3] == 0xF0C44336
  {
    assert SBox(0x40) == 0x09 && SBox(0x55) == 0xFC && SBox(0x03) == 0x7B && SBox(0x6B) == 0x7F;
    RoundColumnStep(s, rk, 3, 0, 1, 2, 0x40, 0x55, 0x03, 0x6B, 0x09FC7B7F, 0x09188262, 0xF9DCC154, 0xF0C44336);
  }

  /** The state after round 9. */
  lemma Encrypt192After9(key: Key, input: State)
    requires IsCipherKey192(key) && IsEncrypt192Input(input)
    ensures MiddleRounds(AddRoundKey(input, RoundKeys(key)[0]), RoundKeys(key), 9).cols[0] == 0xA906B254
    ensures MiddleRounds(AddRoundKey(input, RoundKeys(key)[0]), RoundKeys(key), 9).cols[1] == 0x968AF4E9
    ensures MiddleRounds(AddRoundKey(input, RoundKeys(key)[0]), RoundKeys(key), 9).cols[2] == 0xB4BDB2D2
    ensures MiddleRounds(AddRoundKey(input, RoundKeys(key)[0]), RoundKeys(key), 9).cols[3] == 0xF0C44336
  {
    Encrypt192After8(key, input);
    CipherKey192Period6(key);
    RoundKeyOf(key, 9, 0xDD7E0E88, 0x7E2FFF68, 0x608FC842, 0xF9DCC154);
    var s := MiddleRounds(AddRoundKey(input, RoundKeys(key)[0]), RoundKeys(key), 8);
    var rk := RoundKeys(key)[9];
    Encrypt192Round9Column0(s, rk);
    Encrypt192Round9Column1(s, rk);
    Encrypt192Round9Column2(s, rk);
    Encrypt192Round9Column3(s, rk);
  }

  /** Round 10, column by column. */
  lemma Encrypt192Round10Column0(s: State, rk: RoundKey)
    requires s.cols[0] == 0xA906B254 && s.cols[1] == 0x968AF4E9 && s.cols[2] == 0xB4BDB2D2 && s.cols[3] == 0xF0C44336
    requires rk.data[0] == 0x859F5F23
    ensures Round(s, rk).cols[0] == 0x88EC930E
  {
    assert SBox(0xA9) == 0xD3 && SBox(0x8A) == 0x7E && SBox(0xB2) == 0x37 && SBox(0x36) == 0x05;
    RoundColumnStep(s, rk, 0, 1, 2, 3, 0xA9, 0x8A, 0xB2, 0x36, 0xD37E3705, 0x0D73CC2D, 0x859F5F23, 0x88EC930E);
  }

  lemma Encrypt192Round10Column1(s: State, rk: RoundKey)
    requires s.cols[0] == 0xA906B254 && s.cols[1] == 0x968AF4E9 && s.cols[2] == 0xB4BDB2D2 && s.cols[3] == 0xF0C44336
    requires rk.data[1] == 0x7A8D5A3D
    ensures Round(s, rk).cols[1] == 0xF5E7E4B6
  {
    assert SBox(0x96) == 0x90 && SBox(0xBD) == 0x7A && SBox(0x43) == 0x1A && SBox(0x54) == 0x20;
    RoundColumnStep(s, rk, 1, 2, 3, 0, 0x96, 0xBD, 0x43, 0x54, 0x907A1A20, 0x8F6ABE8B, 0x7A8D5A3D, 0xF5E7E4B6);
  }

  lemma Encrypt192Round10Column2(s: State, rk: RoundKey)
    requires s.cols[0] == 0xA906B254 && s.cols[1] == 0x968AF4E9 && s.cols[2] == 0xB4BDB2D2 && s.cols[3] == 0xF0C44336
    requires rk.data[2] == 0xC0C02952
    ensures Round(s, rk).cols[2] == 0xCC32F4C9
  {
    assert SBox(0xB4) == 0x8D && SBox(0xC4) == 0x1C && SBox(0xB2) == 0x37 && SBox(0xE9) == 0x1E;
    RoundColumnStep(s, rk, 2, 3, 0, 1, 0xB4, 0xC4, 0xB2, 0xE9, 0x8D1C371E, 0x0CF2DD9B, 0xC0C02952, 0xCC32F4C9);
  }

  lemma Encrypt192Round10Column3(s: State, rk: RoundKey)
    requires s.cols[0] == 0xA906B254 && s.cols[1] == 0x968AF4E9 && s.cols[2] == 0xB4BDB2D2 && s.cols[3] == 0xF0C44336
    requires rk.data[3] == 0xBEEFD63A
    ensures Round(s, rk).cols[3] == 0x06D29414
  {
    assert SBox(0xF0) == 0x8C && SBox(0x06) == 0x6F && SBox(0xF4) == 0xBF && SBox(0xD2) == 0xB5;
    RoundColumnStep(s, rk, 3, 0, 1, 2, 0xF0, 0x06, 0xF4, 0xD2, 0x8C6FBFB5, 0xB83D422E, 0xBEEFD63A, 0x06D29414);
  }

  /** The state after round 10. */
  lemma Encrypt192After10(key: Key, input: State)
    requires IsCipherKey192(key) && IsEncrypt192Input(input)
    ensures MiddleRounds(AddRoundKey(input, RoundKeys(key)[0]), RoundKeys(key), 10).cols[0] == 0x88EC930E
    ensures MiddleRounds(AddRoundKey(input, RoundKeys(key)[0]), RoundKeys(key), 10).cols[1] == 0xF5E7E4B6
    ensures MiddleRounds(AddRoundKey(input, RoundKeys(key)[0]), RoundKeys(key), 10).cols[2] == 0xCC32F4C9
    ensures MiddleRounds(AddRoundKey(input, RoundKeys(key)[0]), RoundKeys(key), 10).cols[3] == 0x06D29414
  {
    Encrypt192After9(key, input);
    CipherKey192Period6(key);
    CipherKey192Period7(key);
    RoundKeyOf(key, 10, 0x859F5F23, 0x7A8D5A3D, 0xC0C02952, 0xBEEFD63A);
    var s := MiddleRounds(AddRoundKey(input, RoundKeys(key)[0]), RoundKeys(key), 9);
    var rk := RoundKeys(key)[10];
    Encrypt192Round10Column0(s, rk);
    Encrypt192Round10Column1(s, rk);
    Encrypt192Round10Column2(s, rk);
    Encrypt192Round10Column3(s, rk);
  }

  /** Round 11, column by column. */
  lemma Encrypt192Round11Column0(s: State, rk: RoundKey)
    requires s.cols[0] == 0x88EC930E && s.cols[1] == 0xF5E7E4B6 && s.cols[2] == 0xCC32F4C9 && s.cols[3] == 0x06D29414
    requires rk.data[0] == 0xDE601E78
    ensures Round(s, rk).cols[0] == 0xAFB73EEB
  {
    assert SBox(0x88) == 0xC4 && SBox(0xE7) == 0x94 && SBox(0xF4) == 0xBF && SBox(0x14) == 0xFA;
    RoundColumnStep(s, rk, 0, 1, 2, 3, 0x88, 0xE7, 0xF4, 0x14, 0xC494BFFA, 0x71D72093, 0xDE601E78, 0xAFB73EEB);
  }

  lemma Encrypt192Round11Column1(s: State, rk: RoundKey)
    requires s.cols[0] == 0x88EC930E && s.cols[1] == 0xF5E7E4B6 && s.cols[2] == 0xCC32F4C9 && s.cols[3] == 0x06D29414
    requires rk.data[1] == 0x27BCDF2C
    ensures Round(s, rk).cols[1] == 0x1CD1B851
  {
    assert SBox(0xF5) == 0xE6 && SBox(0x32) == 0x23 && SBox(0x94) == 0x22 && SBox(0x0E) == 0xAB;
    RoundColumnStep(s, rk, 1, 2, 3, 0, 0xF5, 0x32, 0x94, 0x0E, 0xE62322AB, 0x3B6D677D, 0x27BCDF2C, 0x1CD1B851);
  }

  lemma Encrypt192Round11Column2(s: State, rk: RoundKey)
    requires s.cols[0] == 0x88EC930E && s.cols[1] == 0xF5E7E4B6 && s.cols[2] == 0xCC32F4C9 && s.cols[3] == 0x06D29414
    requires rk.data[2] == 0xA223800F
    ensures Round(s, rk).cols[2] == 0x62280F27
  {
    assert SBox(0xCC) == 0x4B && SBox(0xD2) == 0xB5 && SBox(0x93) == 0xDC && SBox(0xB6) == 0x4E;
    RoundColumnStep(s, rk, 2, 3, 0, 1, 0xCC, 0xD2, 0x93, 0xB6, 0x4BB5DC4E, 0xC00B8F28, 0xA223800F, 0x62280F27);
  }

  lemma Encrypt192Round11Column3(s: State, rk: RoundKey)
    requires s.cols[0] == 0x88EC930E && s.cols[1] == 0xF5E7E4B6 && s.cols[2] == 0xCC32F4C9 && s.cols[3] == 0x06D29414
    requires rk.data[3] == 0xD8AEDA32
    ensures Round(s, rk).cols[3] == 0xFB20D585
  {
    assert SBox(0x06) == 0x6F && SBox(0xEC) == 0xCE && SBox(0xE4) == 0x69 && SBox(0xC9) == 0xDD;
    RoundColumnStep(s, rk, 3, 0, 1, 2, 0x06, 0xEC, 0xE4, 0xC9, 0x6FCE69DD, 0x238E0FB7, 0xD8AEDA32, 0xFB20D585);
  }

  /** The state after round 11. */
  lemma Encrypt192After11(key: Key, input: State)
    requires IsCipherKey192(key) && IsEncrypt192Input(input)
    ensures MiddleRounds(AddRoundKey(input, RoundKeys(key)[0]), RoundKeys(key), 11).cols[0] == 0xAFB73EEB
    ensures MiddleRounds(AddRoundKey(input, RoundKeys(key)[0]), RoundKeys(key), 11).cols[1] == 0x1CD1B851
    ensures MiddleRounds(AddRoundKey(input, RoundKeys(key)[0]), RoundKeys(key), 11).cols[2] == 0x62280F27
    ensures MiddleRounds(AddRoundKey(input, RoundKeys(key)[0]), RoundKeys(key), 11).cols[3] == 0xFB20D585
  {
    Encrypt192After10(key, input);
    CipherKey192Period7(key);
    RoundKeyOf(key, 11, 0xDE601E78, 0x27BCDF2C, 0xA223800F, 0xD8AEDA32);
    var s := MiddleRounds(AddRoundKey(input, RoundKeys(key)[0]), RoundKeys(key), 10);
    var rk := RoundKeys(key)[11];
    Encrypt192Round11Column0(s, rk);
    Encrypt192Round11Column1(s, rk);
    Encrypt192Round11Column2(s, rk);
    Encrypt192Round11Column3(s, rk);
  }

  /** The final round, column by column. */
  lemma Encrypt192FinalColumn0(s: State, rk: RoundKey)
    requires s.cols[0] == 0xAFB73EEB && s.cols[1] == 0x1CD1B851 && s.cols[2] == 0x62280F27 && s.cols[3] == 0xFB20D585
    requires rk.data[0] == 0xA4970A33
    ensures FinalRound(s, rk).cols[0] == 0xDDA97CA4
  {
    assert SBox(0xAF) == 0x79 && SBox(0xD1) == 0x3E && SBox(0x0F) == 0x76 && SBox(0x85) == 0x97;
    FinalColumnStep(s, rk, 0, 1, 2, 3, 0xAF, 0xD1, 0x0F, 0x85, 0x793E7697, 0xA4970A33, 0xDDA97CA4);
  }

  lemma Encrypt192FinalColumn1(s: State, rk: RoundKey)
    requires s.cols[0] == 0xAFB73EEB && s.cols[1] == 0x1CD1B851 && s.cols[2] == 0x62280F27 && s.cols[3] == 0xFB20D585
    requires rk.data[1] == 0x1A78DC09
    ensures FinalRound(s, rk).cols[1] == 0x864CDFE0
  {
    assert SBox(0x1C) == 0x9C && SBox(0x28) == 0x34 && SBox(0xD5) == 0x03 && SBox(0xEB) == 0xE9;
    FinalColumnStep(s, rk, 1, 2, 3, 0, 0x1C, 0x28, 0xD5, 0xEB, 0x9C3403E9, 0x1A78DC09, 0x864CDFE0);
  }

  lemma Encrypt192FinalColumn2(s: State, rk: RoundKey)
    requires s.cols[0] == 0xAFB73EEB && s.cols[1] == 0x1CD1B851 && s.cols[2] == 0x62280F27 && s.cols[3] == 0xFB20D585
    requires rk.data[2] == 0xC418C271
    ensures FinalRound(s, rk).cols[2] == 0x6EAF70A0
  {
    assert SBox(0x62) == 0xAA && SBox(0x20) == 0xB7 && SBox(0x3E) == 0xB2 && SBox(0x51) == 0xD1;
    FinalColumnStep(s, rk, 2, 3, 0, 1, 0x62, 0x20, 0x3E, 0x51, 0xAAB7B2D1, 0xC418C271, 0x6EAF70A0);
  }

  lemma Encrypt192FinalColumn3(s: State, rk: RoundKey)
    requires s.cols[0] == 0xAFB73EEB && s.cols[1] == 0x1CD1B851 && s.cols[2] == 0x62280F27 && s.cols[3] == 0xFB20D585
    requires rk.data[3] == 0xE3A41D5D
    ensures FinalRound(s, rk).cols[3] == 0xEC0D7191
  {
    assert SBox(0xFB) == 0x0F && SBox(0xB7) == 0xA9 && SBox(0xB8) == 0x6C && SBox(0x27) == 0xCC;
    FinalColumnStep(s, rk, 3, 0, 1, 2, 0xFB, 0xB7, 0xB8, 0x27, 0x0FA96CCC, 0xE3A41D5D, 0xEC0D7191);
  }

  /** `aes_encrypt_block_192`: the ciphertext of the whole block. */
  lemma Encrypt192Vector(key: Key, input: State)
    requires IsCipherKey192(key) && IsEncrypt192Input(input)
    ensures Cipher(input, RoundKeys(key)) == State([0xDDA97CA4, 0x864CDFE0, 0x6EAF70A0, 0xEC0D7191])
  {
    Encrypt192After11(key, input);
    CipherKey192Period8(key);
    RoundKeyOf(key, 12, 0xA4970A33, 0x1A78DC09, 0xC418C271, 0xE3A41D5D);
    var s := MiddleRounds(AddRoundKey(input, RoundKeys(key)[0]), RoundKeys(key), 11);
    var rk := RoundKeys(key)[12];
    Encrypt192FinalColumn0(s, rk);
    Encrypt192FinalColumn1(s, rk);
    Encrypt192FinalColumn2(s, rk);
    Encrypt192FinalColumn3(s, rk);
    StateOfColumns(Cipher(input, RoundKeys(key)), 0xDDA97CA4, 0x864CDFE0, 0x6EAF70A0, 0xEC0D7191);
  }

  /** The plaintext block of the `aes_encrypt_block_256` test. */
  predicate IsEncrypt256Input(s: State)
  {
    s.cols == [0x00112233, 0x44556677, 0x8899AABB, 0xCCDDEEFF]
  }

  /** The state after the initial `AddRoundKey`. */
  lemma Encrypt256Start(key: Key, input: State)
    requires IsCipherKey256(key) && IsEncrypt256Input(input)
    ensures AddRoundKey(input, RoundKeys(key)[0]).cols[0] == 0x00102030
    ensures AddRoundKey(input, RoundKeys(key)[0]).cols[1] == 0x40506070
    ensures AddRoundKey(input, RoundKeys(key)[0]).cols[2] == 0x8090A0B0
    ensures AddRoundKey(input, RoundKeys(key)[0]).cols[3] == 0xC0D0E0F0
  {
    RoundKeyOf(key, 0, 0x00010203, 0x04050607, 0x08090A0B, 0x0C0D0E0F);
    AddRoundKeyColumnOf(input, RoundKeys(key)[0], 0, 0x00112233, 0x00010203, 0x00102030);
    AddRoundKeyColumnOf(input, RoundKeys(key)[0], 1, 0x44556677, 0x04050607, 0x40506070);
    AddRoundKeyColumnOf(input, RoundKeys(key)[0], 2, 0x8899AABB, 0x08090A0B, 0x8090A0B0);
    AddRoundKeyColumnOf(input, RoundKeys(key)[0], 3, 0xCCDDEEFF, 0x0C0D0E0F, 0xC0D0E0F0);
  }

  /** Round 1, column by column. */
  lemma Encrypt256Round1Column2(s: State, rk: RoundKey)
    requires s.cols[0] == 0x00102030 && s.cols[1] == 0x40506070 && s.cols[2] == 0x8090A0B0 && s.cols[3] == 0xC0D0E0F0
    requires rk.data[2] == 0x18191A1B
    ensures Round(s, rk).cols[2] == 0xEFA72132
  {
    assert SBox(0x80) == 0xCD && SBox(0xD0) == 0x70 && SBox(0x20) == 0xB7 && SBox(0x70) == 0x51;
    RoundColumnStep(s, rk, 2, 3, 0, 1, 0x80, 0xD0, 0x20, 0x70, 0xCD70B751, 0xF7BE3B29, 0x18191A1B, 0xEFA72132);
  }

  lemma Encrypt256Round1Column3(s: State, rk: RoundKey)
    requires s.cols[0] == 0x00102030 && s.cols[1] == 0x40506070 && s.cols[2] == 0x8090A0B0 && s.cols[3] == 0xC0D0E0F0
    requires rk.data[3] == 0x1C1D1E1F
    ensures Round(s, rk).cols[3] == 0x01A4E705
  {
    assert SBox(0xC0) == 0xBA && SBox(0x10) == 0xCA && SBox(0x60) == 0xD0 && SBox(0xB0) == 0xE7;
    RoundColumnStep(s, rk, 3, 0, 1, 2, 0xC0, 0x10, 0x60, 0xB0, 0xBACAD0E7, 0x1DB9F91A, 0x1C1D1E1F, 0x01A4E705);
  }

  /** The state after round 1. */
  lemma Encrypt256After1(key: Key, input: State)
    requires IsCipherKey256(key) && IsEncrypt256Input(input)
    ensures MiddleRounds(AddRoundKey(input, RoundKeys(key)[0]), RoundKeys(key), 1).cols[0] == 0x4F637606
    ensures MiddleRounds(AddRoundKey(input, RoundKeys(key)[0]), RoundKeys(key), 1).cols[1] == 0x43E0AA85
    ensures MiddleRounds(AddRoundKey(input, RoundKeys(key)[0]), RoundKeys(key), 1).cols[2] == 0xEFA72132
    ensures MiddleRounds(AddRoundKey(input, RoundKeys(key)[0]), RoundKeys(key), 1).cols[3] == 0x01A4E705
  {
    Encrypt256Start(key, input);
    RoundKeyOf(key, 1, 0x10111213, 0x14151617, 0x18191A1B, 0x1C1D1E1F);
    var s := MiddleRounds(AddRoundKey(input, RoundKeys(key)[0]), RoundKeys(key), 0);
    var rk := RoundKeys(key)[1];
    // Same state and key words as in an earlier test: Encrypt192Round1Column0, Encrypt192Round1Column1.
    Encrypt192Round1Column0(s, rk);
    Encrypt192Round1Column1(s, rk);
    Encrypt256Round1Column2(s, rk);
    Encrypt256Round1Column3(s, rk);
  }

  /** Round 2, column by column. */
  lemma Encrypt256Round2Column0(s: State, rk: RoundKey)
    requires s.cols[0] == 0x4F637606 && s.cols[1] == 0x43E0AA85 && s.cols[2] == 0xEFA72132 && s.cols[3] == 0x01A4E705
    requires rk.data[0] == 0xA573C29F
    ensures Round(s, rk).cols[0] == 0x1859FBC2
  {
    assert SBox(0x4F) == 0x84 && SBox(0xE0) == 0xE1 && SBox(0x21) == 0xFD && SBox(0x05) == 0x6B;
    RoundColumnStep(s, rk, 0, 1, 2, 3, 0x4F, 0xE0, 0x21, 0x05, 0x84E1FD6B, 0xBD2A395D, 0xA573C29F, 0x1859FBC2);
  }

  lemma Encrypt256Round2Column1(s: State, rk: RoundKey)
    requires s.cols[0] == 0x4F637606 && s.cols[1] == 0x43E0AA85 && s.cols[2] == 0xEFA72132 && s.cols[3] == 0x01A4E705
    requires rk.data[1] == 0xA176C498
    ensures Round(s, rk).cols[1] == 0x8A1C00A0
  {
    assert SBox(0x43) == 0x1A && SBox(0xA7) == 0x5C && SBox(0xE7) == 0x94 && SBox(0x06) == 0x6F;
    RoundColumnStep(s, rk, 1, 2, 3, 0, 0x43, 0xA7, 0xE7, 0x06, 0x1A5C946F, 0x2B6AC438, 0xA176C498, 0x8A1C00A0);
  }

  lemma Encrypt256Round2Column2(s: State, rk: RoundKey)
    requires s.cols[0] == 0x4F637606 && s.cols[1] == 0x43E0AA85 && s.cols[2] == 0xEFA72132 && s.cols[3] == 0x01A4E705
    requires rk.data[2] == 0xA97FCE93
    ensures Round(s, rk).cols[2] == 0x78ED8AAD
  {
    assert SBox(0xEF) == 0xDF && SBox(0xA4) == 0x49 && SBox(0x76) == 0x38 && SBox(0x85) == 0x97;
    RoundColumnStep(s, rk, 2, 3, 0, 1, 0xEF, 0xA4, 0x76, 0x85, 0xDF493897, 0xD192443E, 0xA97FCE93, 0x78ED8AAD);
  }

  lemma Encrypt256Round2Column3(s: State, rk: RoundKey)
    requires s.cols[0] == 0x4F637606 && s.cols[1] == 0x43E0AA85 && s.cols[2] == 0xEFA72132 && s.cols[3] == 0x01A4E705
    requires rk.data[3] == 0xA572C09C
    ensures Round(s, rk).cols[3] == 0xC42F6109
  {
    assert SBox(0x01) == 0x7C && SBox(0x63) == 0xFB && SBox(0xAA) == 0xAC && SBox(0x32) == 0x23;
    RoundColumnStep(s, rk, 3, 0, 1, 2, 0x01, 0x63, 0xAA, 0x32, 0x7CFBAC23, 0x615DA195, 0xA572C09C, 0xC42F6109);
  }

  /** The state after round 2. */
  lemma Encrypt256After2(key: Key, input: State)
    requires IsCipherKey256(key) && IsEncrypt256Input(input)
    ensures MiddleRounds(AddRoundKey(input, RoundKeys(key)[0]), RoundKeys(key), 2).cols[0] == 0x1859FBC2
    ensures MiddleRounds(AddRoundKey(input, RoundKeys(key)[0]), RoundKeys(key), 2).cols[1] == 0x8A1C00A0
    ensures MiddleRounds(AddRoundKey(input, RoundKeys(key)[0]), RoundKeys(key), 2).cols[2] == 0x78ED8AAD
    ensures MiddleRounds(AddRoundKey(input, RoundKeys(key)[0]), RoundKeys(key), 2).cols[3] == 0xC42F6109
  {
    Encrypt256After1(key, input);
    CipherKey256Period1(key);
    RoundKeyOf(key, 2, 0xA573C29F, 0xA176C498, 0xA97FCE93, 0xA572C09C);
    var s := MiddleRounds(AddRoundKey(input, RoundKeys(key)[0]), RoundKeys(key), 1);
    var rk := RoundKeys(key)[2];
    Encrypt256Round2Column0(s, rk);
    Encrypt256Round2Column1(s, rk);
    Encrypt256Round2Column2(s, rk);
    Encrypt256Round2Column3(s, rk);
  }

  /** Round 3, column by column. */
  lemma Encrypt256Round3Column0(s: State, rk: RoundKey)
    requires s.cols[0] == 0x1859FBC2 && s.cols[1] == 0x8A1C00A0 && s.cols[2] == 0x78ED8AAD && s.cols[3] == 0xC42F6109
    requires rk.data[0] == 0x1651A8CD
    ensures Round(s, rk).cols[0] == 0x975C66C1
  {
    assert SBox(0x18) == 0xAD && SBox(0x1C) == 0x9C && SBox(0x8A) == 0x7E && SBox(0x09) == 0x01;
    RoundColumnStep(s, rk, 0, 1, 2, 3, 0x18, 0x1C, 0x8A, 0x09, 0xAD9C7E01, 0x810DCE0C, 0x1651A8CD, 0x975C66C1);
  }

  lemma Encrypt256Round3Column1(s: State, rk: RoundKey)
    requires s.cols[0] == 0x1859FBC2 && s.cols[1] == 0x8A1C00A0 && s.cols[2] == 0x78ED8AAD && s.cols[3] == 0xC42F6109
    requires rk.data[1] == 0x0244BEDA
    ensures Round(s, rk).cols[1] == 0xCB9F3FA8
  {
    assert SBox(0x8A) == 0x7E && SBox(0xED) == 0x55 && SBox(0x61) == 0xEF && SBox(0xC2) == 0x25;
    RoundColumnStep(s, rk, 1, 2, 3, 0, 0x8A, 0xED, 0x61, 0xC2, 0x7E55EF25, 0xC9DB8172, 0x0244BEDA, 0xCB9F3FA8);
  }

  lemma Encrypt256Round3Column2(s: State, rk: RoundKey)
    requires s.cols[0] == 0x1859FBC2 && s.cols[1] == 0x8A1C00A0 && s.cols[2] == 0x78ED8AAD && s.cols[3] == 0xC42F6109
    requires rk.data[2] == 0x1A5DA4C1
    ensures Round(s, rk).cols[2] == 0xA93A28DF
  {
    assert SBox(0x78) == 0xBC && SBox(0x2F) == 0x15 && SBox(0xFB) == 0x0F && SBox(0xA0) == 0xE0;
    RoundColumnStep(s, rk, 2, 3, 0, 1, 0x78, 0x2F, 0xFB, 0xA0, 0xBC150FE0, 0xB3678C1E, 0x1A5DA4C1, 0xA93A28DF);
  }

  lemma Encrypt256Round3Column3(s: State, rk: RoundKey)
    requires s.cols[0] == 0x1859FBC2 && s.cols[1] == 0x8A1C00A0 && s.cols[2] == 0x78ED8AAD && s.cols[3] == 0xC42F6109
    requires rk.data[3] == 0x0640BADE
    ensures Round(s, rk).cols[3] == 0x8EE10F63
  {
    assert SBox(0xC4) == 0x1C && SBox(0x59) == 0xCB && SBox(0x00) == 0x63 && SBox(0xAD) == 0x95;
    RoundColumnStep(s, rk, 3, 0, 1, 2, 0xC4, 0x59, 0x00, 0xAD, 0x1CCB6395, 0x88A1B5BD, 0x0640BADE, 0x8EE10F63);
  }

  /** The state after round 3. */
  lemma Encrypt256After3(key: Key, input: State)
    requires IsCipherKey256(key) && IsEncrypt256Input(input)
    ensures MiddleRounds(AddRoundKey(input, RoundKeys(key)[0]), RoundKeys(key), 3).cols[0] == 0x975C66C1
    ensures MiddleRounds(AddRoundKey(input, RoundKeys(key)[0]), RoundKeys(key), 3).cols[1] == 0xCB9F3FA8
    ensures MiddleRounds(AddRoundKey(input, RoundKeys(key)[0]), RoundKeys(key), 3).cols[2] == 0xA93A28DF
    ensures MiddleRounds(AddRoundKey(input, RoundKeys(key)[0]), RoundKeys(key), 3).cols[3] == 0x8EE10F63
  {
    Encrypt256After2(key, input);
    CipherKey256Period1(key);
    RoundKeyOf(key, 3, 0x1651A8CD, 0x0244BEDA, 0x1A5DA4C1, 0x0640BADE);
    var s := MiddleRounds(AddRoundKey(input, RoundKeys(key)[0]), RoundKeys(key), 2);
    var rk := RoundKeys(key)[3];
    Encrypt256Round3Column0(s, rk);
    Encrypt256Round3Column1(s, rk);
    Encrypt256Round3Column2(s, rk);
    Encrypt256Round3Column3(s, rk);
  }

  /** Round 4, column by column. */
  lemma Encrypt256Round4Column0(s: State, rk: RoundKey)
    requires s.cols[0] == 0x975C66C1 && s.cols[1] == 0xCB9F3FA8 && s.cols[2] == 0xA93A28DF && s.cols[3] == 0x8EE10F63
    requires rk.data[0] == 0xAE87DFF0
    ensures Round(s, rk).cols[0] == 0x1C05F271
  {
    assert SBox(0x97) == 0x88 && SBox(0x9F) == 0xDB && SBox(0x28) == 0x34 && SBox(0x63) == 0xFB;
    RoundColumnStep(s, rk, 0, 1, 2, 3, 0x97, 0x9F, 0x28, 0x63, 0x88DB34FB, 0xB2822D81, 0xAE87DFF0, 0x1C05F271);
  }

  lemma Encrypt256Round4Column1(s: State, rk: RoundKey)
    requires s.cols[0] == 0x975C66C1 && s.cols[1] == 0xCB9F3FA8 && s.cols[2] == 0xA93A28DF && s.cols[3] == 0x8EE10F63
    requires rk.data[1] == 0x0FF11B68
    ensures Round(s, rk).cols[1] == 0xA417E04F
  {
    assert SBox(0xCB) == 0x1F && SBox(0x3A) == 0x80 && SBox(0x0F) == 0x76 && SBox(0xC1) == 0x78;
    RoundColumnStep(s, rk, 1, 2, 3, 0, 0xCB, 0x3A, 0x0F, 0xC1, 0x1F807678, 0xABE6FB27, 0x0FF11B68, 0xA417E04F);
  }

  lemma Encrypt256Round4Column2(s: State, rk: RoundKey)
    requires s.cols[0] == 0x975C66C1 && s.cols[1] == 0xCB9F3FA8 && s.cols[2] == 0xA93A28DF && s.cols[3] == 0x8EE10F63
    requires rk.data[2] == 0xA68ED5FB
    ensures Round(s, rk).cols[2] == 0xF921C5C1
  {
    assert SBox(0xA9) == 0xD3 && SBox(0xE1) == 0xF8 && SBox(0x66) == 0x33 && SBox(0xA8) == 0xC2;
    RoundColumnStep(s, rk, 2, 3, 0, 1, 0xA9, 0xE1, 0x66, 0xA8, 0xD3F833C2, 0x5FAF103A, 0xA68ED5FB, 0xF921C5C1);
  }

  lemma Encrypt256Round4Column3(s: State, rk: RoundKey)
    requires s.cols[0] == 0x975C66C1 && s.cols[1] == 0xCB9F3FA8 && s.cols[2] == 0xA93A28DF && s.cols[3] == 0x8EE10F63
    requires rk.data[3] == 0x03FC1567
    ensures Round(s, rk).cols[3] == 0x04701554
  {
    assert SBox(0x8E) == 0x19 && SBox(0x5C) == 0x4A && SBox(0x3F) == 0x75 && SBox(0xDF) == 0x9E;
    RoundColumnStep(s, rk, 3, 0, 1, 2, 0x8E, 0x5C, 0x3F, 0xDF, 0x194A759E, 0x078C0033, 0x03FC1567, 0x04701554);
  }

  /** The state after round 4. */
  lemma Encrypt256After4(key: Key, input: State)
    requires IsCipherKey256(key) && IsEncrypt256Input(input)
    ensures MiddleRounds(AddRoundKey(input, RoundKeys(key)[0]), RoundKeys(key), 4).cols[0] == 0x1C05F271
    ensures MiddleRounds(AddRoundKey(input, RoundKeys(key)[0]), RoundKeys(key), 4).cols[1] == 0xA417E04F
    ensures MiddleRounds(AddRoundKey(input, RoundKeys(key)[0]), RoundKeys(key), 4).cols[2] == 0xF921C5C1
    ensures MiddleRounds(AddRoundKey(input, RoundKeys(key)[0]), RoundKeys(key), 4).cols[3] == 0x04701554
  {
    Encrypt256After3(key, input);
    CipherKey256Period2(key);
    RoundKeyOf(key, 4, 0xAE87DFF0, 0x0FF11B68, 0xA68ED5FB, 0x03FC1567);
    var s := MiddleRounds(AddRoundKey(input, RoundKeys(key)[0]), RoundKeys(key), 3);
    var rk := RoundKeys(key)[4];
    Encrypt256Round4Column0(s, rk);
    Encrypt256Round4Column1(s, rk);
    Encrypt256Round4Column2(s, rk);
    Encrypt256Round4Column3(s, rk);
  }

  /** Round 5, column by column. */
  lemma Encrypt256Round5Column0(s: State, rk: RoundKey)
    requires s.cols[0] == 0x1C05F271 && s.cols[1] == 0xA417E04F && s.cols[2] == 0xF921C5C1 && s.cols[3] == 0x04701554
    requires rk.data[0] == 0x6DE1F148
    ensures Round(s, rk).cols[0] == 0xC357AAE1
  {
    assert SBox(0x1C) == 0x9C && SBox(0x17) == 0xF0 && SBox(0xC5) == 0xA6 && SBox(0x54) == 0x20;
    RoundColumnStep(s, rk, 0, 1, 2, 3, 0x1C, 0x17, 0xC5, 0x54, 0x9CF0A620, 0xAEB65BA9, 0x6DE1F148, 0xC357AAE1);
  }

  lemma Encrypt256Round5Column1(s: State, rk: RoundKey)
    requires s.cols[0] == 0x1C05F271 && s.cols[1] == 0xA417E04F && s.cols[2] == 0xF921C5C1 && s.cols[3] == 0x04701554
    requires rk.data[1] == 0x6FA54F92
    ensures Round(s, rk).cols[1] == 0x1B45B7B0
  {
    assert SBox(0xA4) == 0x49 && SBox(0x21) == 0xFD && SBox(0x15) == 0x59 && SBox(0x71) == 0xA3;
    RoundColumnStep(s, rk, 1, 2, 3, 0, 0xA4, 0x21, 0x15, 0x71, 0x49FD59A3, 0x74E0F822, 0x6FA54F92, 0x1B45B7B0);
  }

  lemma Encrypt256Round5Column2(s: State, rk: RoundKey)
    requires s.cols[0] == 0x1C05F271 && s.cols[1] == 0xA417E04F && s.cols[2] == 0xF921C5C1 && s.cols[3] == 0x04701554
    requires rk.data[2] == 0x75F8EB53
    ensures Round(s, rk).cols[2] == 0xA2C7BD28
  {
    assert SBox(0xF9) == 0x99 && SBox(0x70) == 0x51 && SBox(0xF2) == 0x89 && SBox(0x4F) == 0x84;
    RoundColumnStep(s, rk, 2, 3, 0, 1, 0xF9, 0x70, 0xF2, 0x4F, 0x99518984, 0xD73F567B, 0x75F8EB53, 0xA2C7BD28);
  }

  lemma Encrypt256Round5Column3(s: State, rk: RoundKey)
    requires s.cols[0] == 0x1C05F271 && s.cols[1] == 0xA417E04F && s.cols[2] == 0xF921C5C1 && s.cols[3] == 0x04701554
    requires rk.data[3] == 0x73B8518D
    ensures Round(s, rk).cols[3] == 0xA8DC99FA
  {
    assert SBox(0x04) == 0xF2 && SBox(0x05) == 0x6B && SBox(0xE0) == 0xE1 && SBox(0xC1) == 0x78;
    RoundColumnStep(s, rk, 3, 0, 1, 2, 0x04, 0x05, 0xE0, 0xC1, 0xF26BE178, 0xDB64C877, 0x73B8518D, 0xA8DC99FA);
  }

  /** The state after round 5. */
  lemma Encrypt256After5(key: Key, input: State)
    requires IsCipherKey256(key) && IsEncrypt256Input(input)
    ensures MiddleRounds(AddRoundKey(input, RoundKeys(key)[0]), RoundKeys(key), 5).cols[0] == 0xC357AAE1
    ensures MiddleRounds(AddRoundKey(input, RoundKeys(key)[0]), RoundKeys(key), 5).cols[1] == 0x1B45B7B0
    ensures MiddleRounds(AddRoundKey(input, RoundKeys(key)[0]), RoundKeys(key), 5).cols[2] == 0xA2C7BD28
    ensures MiddleRounds(AddRoundKey(input, RoundKeys(key)[0]), RoundKeys(key), 5).cols[3] == 0xA8DC99FA
  {
    Encrypt256After4(key, input);
    CipherKey256Period2(key);
    RoundKeyOf(key, 5, 0x6DE1F148, 0x6FA54F92, 0x75F8EB53, 0x73B8518D);
    var s := MiddleRounds(AddRoundKey(input, RoundKeys(key)[0]), RoundKeys(key), 4);
    var rk := RoundKeys(key)[5];
    Encrypt256Round5Column0(s, rk);
    Encrypt256Round5Column1(s, rk);
    Encrypt256Round5Column2(s, rk);
    Encrypt256Round5Column3(s, rk);
  }

  /** Round 6, column by column. */
  lemma Encrypt256Round6Column0(s: State, rk: RoundKey)
    requires s.cols[0] == 0xC357AAE1 && s.cols[1] == 0x1B45B7B0 && s.cols[2] == 0xA2C7BD28 && s.cols[3] == 0xA8DC99FA
    requires rk.data[0] == 0xC656827F
    ensures Round(s, rk).cols[0] == 0x7F074143
  {
    assert SBox(0xC3) == 0x2E && SBox(0x45) == 0x6E && SBox(0xBD) == 0x7A && SBox(0xFA) == 0x2D;
    RoundColumnStep(s, rk, 0, 1, 2, 3, 0xC3, 0x45, 0xBD, 0xFA, 0x2E6E7A2D, 0xB951C33C, 0xC656827F, 0x7F074143);
  }

  lemma Encrypt256Round6Column1(s: State, rk: RoundKey)
    requires s.cols[0] == 0xC357AAE1 && s.cols[1] == 0x1B45B7B0 && s.cols[2] == 0xA2C7BD28 && s.cols[3] == 0xA8DC99FA
    requires rk.data[1] == 0xC9A79917
    ensures Round(s, rk).cols[1] == 0xCB4E243E
  {
    assert SBox(0x1B) == 0xAF && SBox(0xC7) == 0xC6 && SBox(0x99) == 0xEE && SBox(0xE1) == 0xF8;
    RoundColumnStep(s, rk, 1, 2, 3, 0, 0x1B, 0xC7, 0x99, 0xE1, 0xAFC6EEF8, 0x02E9BD29, 0xC9A79917, 0xCB4E243E);
  }

  lemma Encrypt256Round6Column2(s: State, rk: RoundKey)
    requires s.cols[0] == 0xC357AAE1 && s.cols[1] == 0x1B45B7B0 && s.cols[2] == 0xA2C7BD28 && s.cols[3] == 0xA8DC99FA
    requires rk.data[2] == 0x6F294CEC
    ensures Round(s, rk).cols[2] == 0xC10C815D
  {
    assert SBox(0xA2) == 0x3A && SBox(0xDC) == 0x86 && SBox(0xAA) == 0xAC && SBox(0xB0) == 0xE7;
    RoundColumnStep(s, rk, 2, 3, 0, 1, 0xA2, 0xDC, 0xAA, 0xB0, 0x3A86ACE7, 0xAE25CDB1, 0x6F294CEC, 0xC10C815D);
  }

  lemma Encrypt256Round6Column3(s: State, rk: RoundKey)
    requires s.cols[0] == 0xC357AAE1 && s.cols[1] == 0x1B45B7B0 && s.cols[2] == 0xA2C7BD28 && s.cols[3] == 0xA8DC99FA
    requires rk.data[3] == 0x6CD5598B
    ensures Round(s, rk).cols[3] == 0x8375D54C
  {
    assert SBox(0xA8) == 0xC2 && SBox(0x57) == 0x5B && SBox(0xB7) == 0xA9 && SBox(0x28) == 0x34;
    RoundColumnStep(s, rk, 3, 0, 1, 2, 0xA8, 0x57, 0xB7, 0x28, 0xC25BA934, 0xEFA08CC7, 0x6CD5598B, 0x8375D54C);
  }

  /** The state after round 6. */
  lemma Encrypt256After6(key: Key, input: State)
    requires IsCipherKey256(key) && IsEncrypt256Input(input)
    ensures MiddleRounds(AddRoundKey(input, RoundKeys(key)[0]), RoundKeys(key), 6).cols[0] == 0x7F074143
    ensures MiddleRounds(AddRoundKey(input, RoundKeys(key)[0]), RoundKeys(key), 6).cols[1] == 0xCB4E243E
    ensures MiddleRounds(AddRoundKey(input, RoundKeys(key)[0]), RoundKeys(key), 6).cols[2] == 0xC10C815D
    ensures MiddleRounds(AddRoundKey(input, RoundKeys(key)[0]), RoundKeys(key), 6).cols[3] == 0x8375D54C
  {
    Encrypt256After5(key, input);
    CipherKey256Period3(key);
    RoundKeyOf(key, 6, 0xC656827F, 0xC9A79917, 0x6F294CEC, 0x6CD5598B);
    var s := MiddleRounds(AddRoundKey(input, RoundKeys(key)[0]), RoundKeys(key), 5);
    var rk := RoundKeys(key)[6];
    Encrypt256Round6Column0(s, rk);
    Encrypt256Round6Column1(s, rk);
    Encrypt256Round6Column2(s, rk);
    Encrypt256Round6Column3(s, rk);
  }

  /** Round 7, column by column. */
  lemma Encrypt256Round7Column0(s: State, rk: RoundKey)
    requires s.cols[0] == 0x7F074143 && s.cols[1] == 0xCB4E243E && s.cols[2] == 0xC10C815D && s.cols[3] == 0x8375D54C
    requires rk.data[0] == 0x3DE23A75
    ensures Round(s, rk).cols[0] == 0xD653A469
  {
    assert SBox(0x7F) == 0xD2 && SBox(0x4E) == 0x2F && SBox(0x81) == 0x0C && SBox(0x4C) == 0x29;
    RoundColumnStep(s, rk, 0, 1, 2, 3, 0x7F, 0x4E, 0x81, 0x4C, 0xD22F0C29, 0xEBB19E1C, 0x3DE23A75, 0xD653A469);
  }

  lemma Encrypt256Round7Column1(s: State, rk: RoundKey)
    requires s.cols[0] == 0x7F074143 && s.cols[1] == 0xCB4E243E && s.cols[2] == 0xC10C815D && s.cols[3] == 0x8375D54C
    requires rk.data[1] == 0x524775E7
    ensures Round(s, rk).cols[1] == 0x6CA0BC0F
  {
    assert SBox(0xCB) == 0x1F && SBox(0x0C) == 0xFE && SBox(0xD5) == 0x03 && SBox(0x43) == 0x1A;
    RoundColumnStep(s, rk, 1, 2, 3, 0, 0xCB, 0x0C, 0xD5, 0x43, 0x1FFE031A, 0x3EE7C9E8, 0x524775E7, 0x6CA0BC0F);
  }

  lemma Encrypt256Round7Column2(s: State, rk: RoundKey)
    requires s.cols[0] == 0x7F074143 && s.cols[1] == 0xCB4E243E && s.cols[2] == 0xC10C815D && s.cols[3] == 0x8375D54C
    requires rk.data[2] == 0x27BF9EB4
    ensures Round(s, rk).cols[2] == 0x5ACAAB5D
  {
    assert SBox(0xC1) == 0x78 && SBox(0x75) == 0x9D && SBox(0x41) == 0x83 && SBox(0x3E) == 0xB2;
    RoundColumnStep(s, rk, 2, 3, 0, 1, 0xC1, 0x75, 0x41, 0x3E, 0x789D83B2, 0x7D7535E9, 0x27BF9EB4, 0x5ACAAB5D);
  }

  lemma Encrypt256Round7Column3(s: State, rk: RoundKey)
    requires s.cols[0] == 0x7F074143 && s.cols[1] == 0xCB4E243E && s.cols[2] == 0xC10C815D && s.cols[3] == 0x8375D54C
    requires rk.data[3] == 0x5407CF39
    ensures Round(s, rk).cols[3] == 0xB96C5E7D
  {
    assert SBox(0x83) == 0xEC && SBox(0x07) == 0xC5 && SBox(0x24) == 0x36 && SBox(0x5D) == 0x4C;
    RoundColumnStep(s, rk, 3, 0, 1, 2, 0x83, 0x07, 0x24, 0x5D, 0xECC5364C, 0xED6B9144, 0x5407CF39, 0xB96C5E7D);
  }

  /** The state after round 7. */
  lemma Encrypt256After7(key: Key, input: State)
    requires IsCipherKey256(key) && IsEncrypt256Input(input)
    ensures MiddleRounds(AddRoundKey(input, RoundKeys(key)[0]), RoundKeys(key), 7).cols[0] == 0xD653A469
    ensures MiddleRounds(AddRoundKey(input, RoundKeys(key)[0]), RoundKeys(key), 7).cols[1] == 0x6CA0BC0F
    ensures MiddleRounds(AddRoundKey(input, RoundKeys(key)[0]), RoundKeys(key), 7).cols[2] == 0x5ACAAB5D
    ensures MiddleRounds(AddRoundKey(input, RoundKeys(key)[0]), RoundKeys(key), 7).cols[3] == 0xB96C5E7D
  {
    Encrypt256After6(key, input);
    CipherKey256Period3(key);
    RoundKeyOf(key, 7, 0x3DE23A75, 0x524775E7, 0x27BF9EB4, 0x5407CF39);
    var s := MiddleRounds(AddRoundKey(input, RoundKeys(key)[0]), RoundKeys(key), 6);
    var rk := RoundKeys(key)[7];
    Encrypt256Round7Column0(s, rk);
    Encrypt256Round7Column1(s, rk);
    Encrypt256Round7Column2(s, rk);
    Encrypt256Round7Column3(s, rk);
  }

  /** Round 8, column by column. */
  lemma Encrypt256Round8Column0(s: State, rk: RoundKey)
    requires s.cols[0] == 0xD653A469 && s.cols[1] == 0x6CA0BC0F && s.cols[2] == 0x5ACAAB5D && s.cols[3] == 0xB96C5E7D
    requires rk.data[0] == 0x0BDC905F
    ensures Round(s, rk).cols[0] == 0x5AA85839
  {
    assert SBox(0xD6) == 0xF6 && SBox(0xA0) == 0xE0 && SBox(0xAB) == 0x62 && SBox(0x7D) == 0xFF;
    RoundColumnStep(s, rk, 0, 1, 2, 3, 0xD6, 0xA0, 0xAB, 0x7D, 0xF6E062FF, 0x5174C866, 0x0BDC905F, 0x5AA85839);
  }

  lemma Encrypt256Round8Column1(s: State, rk: RoundKey)
    requires s.cols[0] == 0xD653A469 && s.cols[1] == 0x6CA0BC0F && s.cols[2] == 0x5ACAAB5D && s.cols[3] == 0xB96C5E7D
    requires rk.data[1] == 0xC27B0948
    ensures Round(s, rk).cols[1] == 0x5FD28D7D
  {
    assert SBox(0x6C) == 0x50 && SBox(0xCA) == 0x74 && SBox(0x5E) == 0x58 && SBox(0x69) == 0xF9;
    RoundColumnStep(s, rk, 1, 2, 3, 0, 0x6C, 0xCA, 0x5E, 0x69, 0x507458F9, 0x9DA98435, 0xC27B0948, 0x5FD28D7D);
  }

  lemma Encrypt256Round8Column2(s: State, rk: RoundKey)
    requires s.cols[0] == 0xD653A469 && s.cols[1] == 0x6CA0BC0F && s.cols[2] == 0x5ACAAB5D && s.cols[3] == 0xB96C5E7D
    requires rk.data[2] == 0xAD5245A4
    ensures Round(s, rk).cols[2] == 0x05E1A388
  {
    assert SBox(0x5A) == 0xBE && SBox(0x6C) == 0x50 && SBox(0xA4) == 0x49 && SBox(0x0F) == 0x76;
    RoundColumnStep(s, rk, 2, 3, 0, 1, 0x5A, 0x6C, 0xA4, 0x0F, 0xBE504976, 0xA8B3E62C, 0xAD5245A4, 0x05E1A388);
  }

  lemma Encrypt256Round8Column3(s: State, rk: RoundKey)
    requires s.cols[0] == 0xD653A469 && s.cols[1] == 0x6CA0BC0F && s.cols[2] == 0x5ACAAB5D && s.cols[3] == 0xB96C5E7D
    requires rk.data[3] == 0xC1871C2F
    ensures Round(s, rk).cols[3] == 0x68F3B9C5
  {
    assert SBox(0xB9) == 0x56 && SBox(0x53) == 0xED && SBox(0xBC) == 0x65 && SBox(0x5D) == 0x4C;
    RoundColumnStep(s, rk, 3, 0, 1, 2, 0xB9, 0x53, 0xBC, 0x5D, 0x56ED654C, 0xA974A5EA, 0xC1871C2F, 0x68F3B9C5);
  }

  /** The state after round 8. */
  lemma Encrypt256After8(key: Key, input: State)
    requires IsCipherKey256(key) && IsEncrypt256Input(input)
    ensures MiddleRounds(AddRoundKey(input, RoundKeys(key)[0]), RoundKeys(key), 8).cols[0] == 0x5AA85839
    ensures MiddleRounds(AddRoundKey(input, RoundKeys(key)[0]), RoundKeys(key), 8).cols[1] == 0x5FD28D7D
    ensures MiddleRounds(AddRoundKey(input, RoundKeys(key)[0]), RoundKeys(key), 8).cols[2] == 0x05E1A388
    ensures MiddleRounds(AddRoundKey(input, RoundKeys(key)[0]), RoundKeys(key), 8).cols[3] == 0x68F3B9C5
  {
    Encrypt256After7(key, input);
    CipherKey256Period4(key);
    RoundKeyOf(key, 8, 0x0BDC905F, 0xC27B0948, 0xAD5245A4, 0xC1871C2F);
    var s := MiddleRounds(AddRoundKey(input, RoundKeys(key)[0]), RoundKeys(key), 7);
    var rk := RoundKeys(key)[8];
    Encrypt256Round8Column0(s, rk);
    Encrypt256Round8Column1(s, rk);
    Encrypt256Round8Column2(s, rk);
    Encrypt256Round8Column3(s, rk);
  }

  /** Round 9, column by column. */
  lemma Encrypt256Round9Column0(s: State, rk: RoundKey)
    requires s.cols[0] == 0x5AA85839 && s.cols[1] == 0x5FD28D7D && s.cols[2] == 0x05E1A388 && s.cols[3] == 0x68F3B9C5
    requires rk.data[0] == 0x45F5A660
    ensures Round(s, rk).cols[0] == 0x4A824851
  {
    assert SBox(0x5A) == 0xBE && SBox(0xD2) == 0xB5 && SBox(0xA3) == 0x0A && SBox(0xC5) == 0xA6;
    RoundColumnStep(s, rk, 0, 1, 2, 3, 0x5A, 0xD2, 0xA3, 0xC5, 0xBEB50AA6, 0x0F77EE31, 0x45F5A660, 0x4A824851);
  }

  lemma Encrypt256Round9Column1(s: State, rk: RoundKey)
    requires s.cols[0] == 0x5AA85839 && s.cols[1] == 0x5FD28D7D && s.cols[2] == 0x05E1A388 && s.cols[3] == 0x68F3B9C5
    requires rk.data[1] == 0x17B2D387
    ensures Round(s, rk).cols[1] == 0xC57E7E47
  {
    assert SBox(0x5F) == 0xCF && SBox(0xE1) == 0xF8 && SBox(0xB9) == 0x56 && SBox(0x39) == 0x12;
    RoundColumnStep(s, rk, 1, 2, 3, 0, 0x5F, 0xE1, 0xB9, 0x39, 0xCFF85612, 0xD2CCADC0, 0x17B2D387, 0xC57E7E47);
  }

  lemma Encrypt256Round9Column2(s: State, rk: RoundKey)
    requires s.cols[0] == 0x5AA85839 && s.cols[1] == 0x5FD28D7D && s.cols[2] == 0x05E1A388 && s.cols[3] == 0x68F3B9C5
    requires rk.data[2] == 0x300D4D33
    ensures Round(s, rk).cols[2] == 0x643DE50C
  {
    assert SBox(0x05) == 0x6B && SBox(0xF3) == 0x0D && SBox(0x58) == 0x6A && SBox(0x7D) == 0xFF;
    RoundColumnStep(s, rk, 2, 3, 0, 1, 0x05, 0xF3, 0x58, 0x7D, 0x6B0D6AFF, 0x5430A83F, 0x300D4D33, 0x643DE50C);
  }

  lemma Encrypt256Round9Column3(s: State, rk: RoundKey)
    requires s.cols[0] == 0x5AA85839 && s.cols[1] == 0x5FD28D7D && s.cols[2] == 0x05E1A388 && s.cols[3] == 0x68F3B9C5
    requires rk.data[3] == 0x640A820A
    ensures Round(s, rk).cols[3] == 0x2AF3E8C9
  {
    assert SBox(0x68) == 0x45 && SBox(0xA8) == 0xC2 && SBox(0x8D) == 0x5D && SBox(0x88) == 0xC4;
    RoundColumnStep(s, rk, 3, 0, 1, 2, 0x68, 0xA8, 0x8D, 0x88, 0x45C25DC4, 0x4EF96AC3, 0x640A820A, 0x2AF3E8C9);
  }

  /** The state after round 9. */
  lemma Encrypt256After9(key: Key, input: State)
    requires IsCipherKey256(key) && IsEncrypt256Input(input)
    ensures MiddleRounds(AddRoundKey(input, RoundKeys(key)[0]), RoundKeys(key), 9).cols[0] == 0x4A824851
    ensures MiddleRounds(AddRoundKey(input, RoundKeys(key)[0]), RoundKeys(key), 9).cols[1] == 0xC57E7E47
    ensures MiddleRounds(AddRoundKey(input, RoundKeys(key)[0]), RoundKeys(key), 9).cols[2] == 0x643DE50C
    ensures MiddleRounds(AddRoundKey(input, RoundKeys(key)[0]), RoundKeys(key), 9).cols[3] == 0x2AF3E8C9
  {
    Encrypt256After8(key, input);
    CipherKey256Period4(key);
    RoundKeyOf(key, 9, 0x45F5A660, 0x17B2D387, 0x300D4D33, 0x640A820A);
    var s := MiddleRounds(AddRoundKey(input, RoundKeys(key)[0]), RoundKeys(key), 8);
    var rk := RoundKeys(key)[9];
    Encrypt256Round9Column0(s, rk);
    Encrypt256Round9Column1(s, rk);
    Encrypt256Round9Column2(s, rk);
    Encrypt256Round9Column3(s, rk);
  }

  /** Round 10, column by column. */
  lemma Encrypt256Round10Column0(s: State, rk: RoundKey)
    requires s.cols[0] == 0x4A824851 && s.cols[1] == 0xC57E7E47 && s.cols[2] == 0x643DE50C && s.cols[3] == 0x2AF3E8C9
    requires rk.data[0] == 0x7CCFF71C
    ensures Round(s, rk).cols[0] == 0xC14907F6
  {
    assert SBox(0x4A) == 0xD6 && SBox(0x7E) == 0xF3 && SBox(0xE5) == 0xD9 && SBox(0xC9) == 0xDD;
    RoundColumnStep(s, rk, 0, 1, 2, 3, 0x4A, 0x7E, 0xE5, 0xC9, 0xD6F3D9DD, 0xBD86F0EA, 0x7CCFF71C, 0xC14907F6);
  }

  lemma Encrypt256Round10Column1(s: State, rk: RoundKey)
    requires s.cols[0] == 0x4A824851 && s.cols[1] == 0xC57E7E47 && s.cols[2] == 0x643DE50C && s.cols[3] == 0x2AF3E8C9
    requires rk.data[1] == 0xBEB4FE54
    ensures Round(s, rk).cols[1] == 0xCA3B3AA0
  {
    assert SBox(0xC5) == 0xA6 && SBox(0x3D) == 0x27 && SBox(0xE8) == 0x9B && SBox(0x51) == 0xD1;
    RoundColumnStep(s, rk, 1, 2, 3, 0, 0xC5, 0x3D, 0xE8, 0x51, 0xA6279BD1, 0x748FC4F4, 0xBEB4FE54, 0xCA3B3AA0);
  }

  lemma Encrypt256Round10Column2(s: State, rk: RoundKey)
    requires s.cols[0] == 0x4A824851 && s.cols[1] == 0xC57E7E47 && s.cols[2] == 0x643DE50C && s.cols[3] == 0x2AF3E8C9
    requires rk.data[2] == 0x13E6BBF0
    ensures Round(s, rk).cols[2] == 0x70E9AA31
  {
    assert SBox(0x64) == 0x43 && SBox(0xF3) == 0x0D && SBox(0x48) == 0x52 && SBox(0x47) == 0xA0;
    RoundColumnStep(s, rk, 2, 3, 0, 1, 0x64, 0xF3, 0x48, 0x47, 0x430D52A0, 0x630F11C1, 0x13E6BBF0, 0x70E9AA31);
  }

  lemma Encrypt256Round10Column3(s: State, rk: RoundKey)
    requires s.cols[0] == 0x4A824851 && s.cols[1] == 0xC57E7E47 && s.cols[2] == 0x643DE50C && s.cols[3] == 0x2AF3E8C9
    requires rk.data[3] == 0xD261A7DF
    ensures Round(s, rk).cols[3] == 0x3B52B5EC
  {
    assert SBox(0x2A) == 0xE5 && SBox(0x82) == 0x13 && SBox(0x7E) == 0xF3 && SBox(0x0C) == 0xFE;
    RoundColumnStep(s, rk, 3, 0, 1, 2, 0x2A, 0x82, 0x7E, 0x0C, 0xE513F3FE, 0xE9331233, 0xD261A7DF, 0x3B52B5EC);
  }

  /** The state after round 10. */
  lemma Encrypt256After10(key: Key, input: State)
    requires IsCipherKey256(key) && IsEncrypt256Input(input)
    ensures MiddleRounds(AddRoundKey(input, RoundKeys(key)[0]), RoundKeys(key), 10).cols[0] == 0xC14907F6
    ensures MiddleRounds(AddRoundKey(input, RoundKeys(key)[0]), RoundKeys(key), 10).cols[1] == 0xCA3B3AA0
    ensures MiddleRounds(AddRoundKey(input, RoundKeys(key)[0]), RoundKeys(key), 10).cols[2] == 0x70E9AA31
    ensures MiddleRounds(AddRoundKey(input, RoundKeys(key)[0]), RoundKeys(key), 10).cols[3] == 0x3B52B5EC
  {
    Encrypt256After9(key, input);
    CipherKey256Period5(key);
    RoundKeyOf(key, 10, 0x7CCFF71C, 0xBEB4FE54, 0x13E6BBF0, 0xD261A7DF);
    var s := MiddleRounds(AddRoundKey(input, RoundKeys(key)[0]), RoundKeys(key), 9);
    var rk := RoundKeys(key)[10];
    Encrypt256Round10Column0(s, rk);
    Encrypt256Round10Column1(s, rk);
    Encrypt256Round10Column2(s, rk);
    Encrypt256Round10Column3(s, rk);
  }

  /** Round 11, column by column. */
  lemma Encrypt256Round11Column0(s: State, rk: RoundKey)
    requires s.cols[0] == 0xC14907F6 && s.cols[1] == 0xCA3B3AA0 && s.cols[2] == 0x70E9AA31 && s.cols[3] == 0x3B52B5EC
    requires rk.data[0] == 0xF01AFAFE
    ensures Round(s, rk).cols[0] == 0x5F9C6ABF
  {
    assert SBox(0xC1) == 0x78 && SBox(0x3B) == 0xE2 && SBox(0xAA) == 0xAC && SBox(0xEC) == 0xCE;
    RoundColumnStep(s, rk, 0, 1, 2, 3, 0xC1, 0x3B, 0xAA, 0xEC, 0x78E2ACCE, 0xAF869041, 0xF01AFAFE, 0x5F9C6ABF);
  }

  lemma Encrypt256Round11Column1(s: State, rk: RoundKey)
    requires s.cols[0] == 0xC14907F6 && s.cols[1] == 0xCA3B3AA0 && s.cols[2] == 0x70E9AA31 && s.cols[3] == 0x3B52B5EC
    requires rk.data[1] == 0xE7A82979
    ensures Round(s, rk).cols[1] == 0xBAC634AA
  {
    assert SBox(0xCA) == 0x74 && SBox(0xE9) == 0x1E && SBox(0xB5) == 0xD5 && SBox(0xF6) == 0x42;
    RoundColumnStep(s, rk, 1, 2, 3, 0, 0xCA, 0xE9, 0xB5, 0xF6, 0x741ED542, 0x5D6E1DD3, 0xE7A82979, 0xBAC634AA);
  }

  lemma Encrypt256Round11Column2(s: State, rk: RoundKey)
    requires s.cols[0] == 0xC14907F6 && s.cols[1] == 0xCA3B3AA0 && s.cols[2] == 0x70E9AA31 && s.cols[3] == 0x3B52B5EC
    requires rk.data[2] == 0xD7A5644A
    ensures Round(s, rk).cols[2] == 0x50409FA7
  {
    assert SBox(0x70) == 0x51 && SBox(0x52) == 0x00 && SBox(0x07) == 0xC5 && SBox(0xA0) == 0xE0;
    RoundColumnStep(s, rk, 2, 3, 0, 1, 0x70, 0x52, 0x07, 0xA0, 0x5100C5E0, 0x87E5FBED, 0xD7A5644A, 0x50409FA7);
  }

  lemma Encrypt256Round11Column3(s: State, rk: RoundKey)
    requires s.cols[0] == 0xC14907F6 && s.cols[1] == 0xCA3B3AA0 && s.cols[2] == 0x70E9AA31 && s.cols[3] == 0x3B52B5EC
    requires rk.data[3] == 0xB3AFE640
    ensures Round(s, rk).cols[3] == 0x66677653
  {
    assert SBox(0x3B) == 0xE2 && SBox(0x49) == 0x3B && SBox(0x3A) == 0x80 && SBox(0x31) == 0xC7;
    RoundColumnStep(s, rk, 3, 0, 1, 2, 0x3B, 0x49, 0x3A, 0x31, 0xE23B80C7, 0xD5C89013, 0xB3AFE640, 0x66677653);
  }

  /** The state after round 11. */
  lemma Encrypt256After11(key: Key, input: State)
    requires IsCipherKey256(key) && IsEncrypt256Input(input)
    ensures MiddleRounds(AddRoundKey(input, RoundKeys(key)[0]), RoundKeys(key), 11).cols[0] == 0x5F9C6ABF
    ensures MiddleRounds(AddRoundKey(input, RoundKeys(key)[0]), RoundKeys(key), 11).cols[1] == 0xBAC634AA
    ensures MiddleRounds(AddRoundKey(input, RoundKeys(key)[0]), RoundKeys(key), 11).cols[2] == 0x50409FA7
    ensures MiddleRounds(AddRoundKey(input, RoundKeys(key)[0]), RoundKeys(key), 11).cols[3] == 0x66677653
  {
    Encrypt256After10(key, input);
    CipherKey256Period5(key);
    RoundKeyOf(key, 11, 0xF01AFAFE, 0xE7A82979, 0xD7A5644A, 0xB3AFE640);
    var s := MiddleRounds(AddRoundKey(input, RoundKeys(key)[0]), RoundKeys(key), 10);
    var rk := RoundKeys(key)[11];
    Encrypt256Round11Column0(s, rk);
    Encrypt256Round11Column1(s, rk);
    Encrypt256Round11Column2(s, rk);
    Encrypt256Round11Column3(s, rk);
  }

  /** Round 12, column by column. */
  lemma Encrypt256Round12Column0(s: State, rk: RoundKey)
    requires s.cols[0] == 0x5F9C6ABF && s.cols[1] == 0xBAC634AA && s.cols[2] == 0x50409FA7 && s.cols[3] == 0x66677653
    requires rk.data[0] == 0x2541FE71
    ensures Round(s, rk).cols[0] == 0x51660495
  {
    assert SBox(0x5F) == 0xCF && SBox(0xC6) == 0xB4 && SBox(0x9F) == 0xDB && SBox(0x53) == 0xED;
    RoundColumnStep(s, rk, 0, 1, 2, 3, 0x5F, 0xC6, 0x9F, 0x53, 0xCFB4DBED, 0x7427FAE4, 0x2541FE71, 0x51660495);
  }

  lemma Encrypt256Round12Column1(s: State, rk: RoundKey)
    requires s.cols[0] == 0x5F9C6ABF && s.cols[1] == 0xBAC634AA && s.cols[2] == 0x50409FA7 && s.cols[3] == 0x66677653
    requires rk.data[1] == 0x9BF50025
    ensures Round(s, rk).cols[1] == 0x43539503
  {
    assert SBox(0xBA) == 0xF4 && SBox(0x40) == 0x09 && SBox(0x76) == 0x38 && SBox(0xBF) == 0x08;
    RoundColumnStep(s, rk, 1, 2, 3, 0, 0xBA, 0x40, 0x76, 0xBF, 0xF4093808, 0xD8A69526, 0x9BF50025, 0x43539503);
  }

  lemma Encrypt256Round12Column2(s: State, rk: RoundKey)
    requires s.cols[0] == 0x5F9C6ABF && s.cols[1] == 0xBAC634AA && s.cols[2] == 0x50409FA7 && s.cols[3] == 0x66677653
    requires rk.data[2] == 0x8813BBD5
    ensures Round(s, rk).cols[2] == 0x14FB86E4
  {
    assert SBox(0x50) == 0x53 && SBox(0x67) == 0x85 && SBox(0x6A) == 0x02 && SBox(0xAA) == 0xAC;
    RoundColumnStep(s, rk, 2, 3, 0, 1, 0x50, 0x67, 0x6A, 0xAA, 0x538502AC, 0x9CE83D31, 0x8813BBD5, 0x14FB86E4);
  }

  lemma Encrypt256Round12Column3(s: State, rk: RoundKey)
    requires s.cols[0] == 0x5F9C6ABF && s.cols[1] == 0xBAC634AA && s.cols[2] == 0x50409FA7 && s.cols[3] == 0x66677653
    requires rk.data[3] == 0x5A721C0A
    ensures Round(s, rk).cols[3] == 0x01922521
  {
    assert SBox(0x66) == 0x33 && SBox(0x9C) == 0xDE && SBox(0x34) == 0x18 && SBox(0xA7) == 0x5C;
    RoundColumnStep(s, rk, 3, 0, 1, 2, 0x66, 0x9C, 0x34, 0xA7, 0x33DE185C, 0x5BE0392B, 0x5A721C0A, 0x01922521);
  }

  /** The state after round 12. */
  lemma Encrypt256After12(key: Key, input: State)
    requires IsCipherKey256(key) && IsEncrypt256Input(input)
    ensures MiddleRounds(AddRoundKey(input, RoundKeys(key)[0]), RoundKeys(key), 12).cols[0] == 0x51660495
    ensures MiddleRounds(AddRoundKey(input, RoundKeys(key)[0]), RoundKeys(key), 12).cols[1] == 0x43539503
    ensures MiddleRounds(AddRoundKey(input, RoundKeys(key)[0]), RoundKeys(key), 12).cols[2] == 0x14FB86E4
    ensures MiddleRounds(AddRoundKey(input, RoundKeys(key)[0]), RoundKeys(key), 12).cols[3] == 0x01922521
  {
    Encrypt256After11(key, input);
    CipherKey256Period6(key);
    RoundKeyOf(key, 12, 0x2541FE71, 0x9BF50025, 0x8813BBD5, 0x5A721C0A);
    var s := MiddleRounds(AddRoundKey(input, RoundKeys(key)[0]), RoundKeys(key), 11);
    var rk := RoundKeys(key)[12];
    Encrypt256Round12Column0(s, rk);
    Encrypt256Round12Column1(s, rk);
    Encrypt256Round12Column2(s, rk);
    Encrypt256Round12Column3(s, rk);
  }

  /** Round 13, column by column. */
  lemma Encrypt256Round13Column0(s: State, rk: RoundKey)
    requires s.cols[0] == 0x51660495 && s.cols[1] == 0x43539503 && s.cols[2] == 0x14FB86E4 && s.cols[3] == 0x01922521
    requires rk.data[0] == 0x4E5A6699
    ensures Round(s, rk).cols[0] == 0x627BCEB9
  {
    assert SBox(0x51) == 0xD1 && SBox(0x53) == 0xED && SBox(0x86) == 0x44 && SBox(0x21) == 0xFD;
    RoundColumnStep(s, rk, 0, 1, 2, 3, 0x51, 0x53, 0x86, 0x21, 0xD1ED44FD, 0x2C21A820, 0x4E5A6699, 0x627BCEB9);
  }

  lemma Encrypt256Round13Column1(s: State, rk: RoundKey)
    requires s.cols[0] == 0x51660495 && s.cols[1] == 0x43539503 && s.cols[2] == 0x14FB86E4 && s.cols[3] == 0x01922521
    requires rk.data[1] == 0xA9F24FE0
    ensures Round(s, rk).cols[1] == 0x999D5AAA
  {
    assert SBox(0x43) == 0x1A && SBox(0xFB) == 0x0F && SBox(0x25) == 0x3F && SBox(0x95) == 0x2A;
    RoundColumnStep(s, rk, 1, 2, 3, 0, 0x43, 0xFB, 0x25, 0x95, 0x1A0F3F2A, 0x306F154A, 0xA9F24FE0, 0x999D5AAA);
  }

  lemma Encrypt256Round13Column2(s: State, rk: RoundKey)
    requires s.cols[0] == 0x51660495 && s.cols[1] == 0x43539503 && s.cols[2] == 0x14FB86E4 && s.cols[3] == 0x01922521
    requires rk.data[2] == 0x7E572BAA
    ensures Round(s, rk).cols[2] == 0xC945ECF4
  {
    assert SBox(0x14) == 0xFA && SBox(0x92) == 0x4F && SBox(0x04) == 0xF2 && SBox(0x03) == 0x7B;
    RoundColumnStep(s, rk, 2, 3, 0, 1, 0x14, 0x92, 0x04, 0x03, 0xFA4FF27B, 0xB712C75E, 0x7E572BAA, 0xC945ECF4);
  }

  lemma Encrypt256Round13Column3(s: State, rk: RoundKey)
    requires s.cols[0] == 0x51660495 && s.cols[1] == 0x43539503 && s.cols[2] == 0x14FB86E4 && s.cols[3] == 0x01922521
    requires rk.data[3] == 0xCDF8CDEA
    ensures Round(s, rk).cols[3] == 0x23F56DA5
  {
    assert SBox(0x01) == 0x7C && SBox(0x66) == 0x33 && SBox(0x95) == 0x2A && SBox(0xE4) == 0x69;
    RoundColumnStep(s, rk, 3, 0, 1, 2, 0x01, 0x66, 0x95, 0xE4, 0x7C332A69, 0xEE0DA04F, 0xCDF8CDEA, 0x23F56DA5);
  }

  /** The state after round 13. */
  lemma Encrypt256After13(key: Key, input: State)
    requires IsCipherKey256(key) && IsEncrypt256Input(input)
    ensures MiddleRounds(AddRoundKey(input, RoundKeys(key)[0]), RoundKeys(key), 13).cols[0] == 0x627BCEB9
    ensures MiddleRounds(AddRoundKey(input, RoundKeys(key)[0]), RoundKeys(key), 13).cols[1] == 0x999D5AAA
    ensures MiddleRounds(AddRoundKey(input, RoundKeys(key)[0]), RoundKeys(key), 13).cols[2] == 0xC945ECF4
    ensures MiddleRounds(AddRoundKey(input, RoundKeys(key)[0]), RoundKeys(key), 13).cols[3] == 0x23F56DA5
  {
    Encrypt256After12(key, input);
    CipherKey256Period6(key);
    RoundKeyOf(key, 13, 0x4E5A6699, 0xA9F24FE0, 0x7E572BAA, 0xCDF8CDEA);
    var s := MiddleRounds(AddRoundKey(input, RoundKeys(key)[0]), RoundKeys(key), 12);
    var rk := RoundKeys(key)[13];
    Encrypt256Round13Column0(s, rk);
    Encrypt256Round13Column1(s, rk);
    Encrypt256Round13Column2(s, rk);
    Encrypt256Round13Column3(s, rk);
  }

  /** The final round, column by column. */
  lemma Encrypt256FinalColumn0(s: State, rk: RoundKey)
    requires s.cols[0] == 0x627BCEB9 && s.cols[1] == 0x999D5AAA && s.cols[2] == 0xC945ECF4 && s.cols[3] == 0x23F56DA5
    requires rk.data[0] == 0x24FC79CC
    ensures FinalRound(s, rk).cols[0] == 0x8EA2B7CA
  {
    assert SBox(0x62) == 0xAA && SBox(0x9D) == 0x5E && SBox(0xEC) == 0xCE && SBox(0xA5) == 0x06;
    FinalColumnStep(s, rk, 0, 1, 2, 3, 0x62, 0x9D, 0xEC, 0xA5, 0xAA5ECE06, 0x24FC79CC, 0x8EA2B7CA);
  }

  lemma Encrypt256FinalColumn1(s: State, rk: RoundKey)
    requires s.cols[0] == 0x627BCEB9 && s.cols[1] == 0x999D5AAA && s.cols[2] == 0xC945ECF4 && s.cols[3] == 0x23F56DA5
    requires rk.data[1] == 0xBF0979E9
    ensures FinalRound(s, rk).cols[1] == 0x516745BF
  {
    assert SBox(0x99) == 0xEE && SBox(0x45) == 0x6E && SBox(0x6D) == 0x3C && SBox(0xB9) == 0x56;
    FinalColumnStep(s, rk, 1, 2, 3, 0, 0x99, 0x45, 0x6D, 0xB9, 0xEE6E3C56, 0xBF0979E9, 0x516745BF);
  }

  lemma Encrypt256FinalColumn2(s: State, rk: RoundKey)
    requires s.cols[0] == 0x627BCEB9 && s.cols[1] == 0x999D5AAA && s.cols[2] == 0xC945ECF4 && s.cols[3] == 0x23F56DA5
    requires rk.data[2] == 0x371AC23C
    ensures FinalRound(s, rk).cols[2] == 0xEAFC4990
  {
    assert SBox(0xC9) == 0xDD && SBox(0xF5) == 0xE6 && SBox(0xCE) == 0x8B && SBox(0xAA) == 0xAC;
    FinalColumnStep(s, rk, 2, 3, 0, 1, 0xC9, 0xF5, 0xCE, 0xAA, 0xDDE68BAC, 0x371AC23C, 0xEAFC4990);
  }

  lemma Encrypt256FinalColumn3(s: State, rk: RoundKey)
    requires s.cols[0] == 0x627BCEB9 && s.cols[1] == 0x999D5AAA && s.cols[2] == 0xC945ECF4 && s.cols[3] == 0x23F56DA5
    requires rk.data[3] == 0x6D68DE36
    ensures FinalRound(s, rk).cols[3] == 0x4B496089
  {
    assert SBox(0x23) == 0x26 && SBox(0x7B) == 0x21 && SBox(0x5A) == 0xBE && SBox(0xF4) == 0xBF;
    FinalColumnStep(s, rk, 3, 0, 1, 2, 0x23, 0x7B, 0x5A, 0xF4, 0x2621BEBF, 0x6D68DE36, 0x4B496089);
  }

  /** `aes_encrypt_block_256`: the ciphertext of the whole block. */
  lemma Encrypt256Vector(key: Key, input: State)
    requires IsCipherKey256(key) && IsEncrypt256Input(input)
    ensures Cipher(input, RoundKeys(key)) == State([0x8EA2B7CA, 0x516745BF, 0xEAFC4990, 0x4B496089])
  {
    Encrypt256After13(key, input);
    CipherKey256Period7(key);
    RoundKeyOf(key, 14, 0x24FC79CC, 0xBF0979E9, 0x371AC23C, 0x6D68DE36);
    var s := MiddleRounds(AddRoundKey(input, RoundKeys(key)[0]), RoundKeys(key), 13);
    var rk := RoundKeys(key)[14];
    Encrypt256FinalColumn0(s, rk);
    Encrypt256FinalColumn1(s, rk);
    Encrypt256FinalColumn2(s, rk);
    Encrypt256FinalColumn3(s, rk);
    StateOfColumns(Cipher(input, RoundKeys(key)), 0x8EA2B7CA, 0x516745BF, 0xEAFC4990, 0x4B496089);
  }
}
