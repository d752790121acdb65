/** Block encryption (`Aes`): the round structure of FIPS-197 section 5.1
    (the `Cipher` pseudo-code of Figure 5) put together from the state
    transformations and the key schedule. */
module AesCipher {
  import opened Bits
  import opened AesTables
  import opened AesKey
  import opened AesState

  /** `AesMode`: electronic code book is the only mode the source has. */
  datatype Mode = Ecb

  /** `Aes`: the mode and the internal state. */
  datatype Aes = Aes(mode: Mode, state: State)

  /** `load_state`: the block to encrypt replaces the state. */
  function LoadState(aes: Aes, data: State): (r: Aes)
    ensures r.state == data && r.mode == aes.mode
  {
    aes.(state := data)
  }

  // ---------------------------------------------------------------------
  // Rounds
  // ---------------------------------------------------------------------

  /** `round`: SubBytes, ShiftRows, MixColumns, AddRoundKey. */
  function Round(s: State, key: RoundKey): State
  {
    AddRoundKey(MixColumns(ShiftRows(SubBytes(s))), key)
  }

  /** `final_round`: the same without MixColumns. */
  function FinalRound(s: State, key: RoundKey): State
  {
    AddRoundKey(ShiftRows(SubBytes(s)), key)
  }

  /** Rounds 1 .. n applied in order, round `j` with round key `j`. */
  function MiddleRounds(s: State, keys: seq<RoundKey>, n: nat): State
    requires n < |keys|
  {
    if n == 0 then s else Round(MiddleRounds(s, keys, n - 1), keys[n])
  }

  /** `Cipher` of FIPS-197 Figure 5 with Nr = |keys| - 1: the first round
      key added to the input, Nr - 1 full rounds, then the final round with
      the last round key. */
  function Cipher(input: State, keys: seq<RoundKey>): State
    requires |keys| >= 2
  {
    var nr := |keys| - 1;
    FinalRound(MiddleRounds(AddRoundKey(input, keys[0]), keys, nr - 1), keys[nr])
  }

  // ---------------------------------------------------------------------
  // What a round does to each column
  // ---------------------------------------------------------------------

  /** SubBytes followed by ShiftRows: the cell in row `r`, column `c` is
      the S-box image of the cell `r` places further right in the same row. */
  lemma SubShiftCell(s: State, r: nat, c: nat)
    requires r < 4 && c < 4
    ensures Cell(ShiftRows(SubBytes(s)), r, c) == SBox(Cell(s, r, (c + r) % 4))
  {
    ShiftRowsCell(SubBytes(s), r, c);
    SubBytesCell(s, r, (c + r) % 4);
  }

  /** The column that MixColumns sees in column `c` of a round: the S-box
      images of the diagonal starting at row 0, column `c`. */
  function Diagonal(s: State, c: nat): Word
    requires c < 4
  {
    FromBeBytes([SBox(Cell(s, 0, c)), SBox(Cell(s, 1, (c + 1) % 4)),
                 SBox(Cell(s, 2, (c + 2) % 4)), SBox(Cell(s, 3, (c + 3) % 4))])
  }

  /** Column `c` after SubBytes and ShiftRows is the diagonal. */
  lemma SubShiftColumn(s: State, c: nat)
    requires c < 4
    ensures ShiftRows(SubBytes(s)).cols[c] == Diagonal(s, c)
  {
    var u := ShiftRows(SubBytes(s));
    SubShiftCell(s, 0, c);
    SubShiftCell(s, 1, c);
    SubShiftCell(s, 2, c);
    SubShiftCell(s, 3, c);
    assert (c + 0) % 4 == c;
    ColumnOfCells(u, c);
  }

  /** A full round, column by column: MixColumn of the diagonal, then the
      round key word. */
  lemma RoundColumn(s: State, key: RoundKey, c: nat)
    requires c < 4
    ensures Round(s, key).cols[c] == MixColumn(Diagonal(s, c)) ^ key.data[c]
  {
    var m := MixColumns(ShiftRows(SubBytes(s)));
    SubShiftColumn(s, c);
    assert m.cols[c] == MixColumn(Diagonal(s, c));
    AddRoundKeyColumnWord(m, key, c, MixColumn(Diagonal(s, c)));
  }

  /** The final round, cell by cell: the S-box image of the shifted cell,
      then the round key byte. */
  lemma FinalRoundCell(s: State, key: RoundKey, r: nat, c: nat)
    requires r < 4 && c < 4
    ensures Cell(FinalRound(s, key), r, c) == SBox(Cell(s, r, (c + r) % 4)) ^ ToBeBytes(key.data[c])[r]
  {
    var u := ShiftRows(SubBytes(s));
    SubShiftCell(s, r, c);
    AddRoundKeyColumn(u, key, c);
  }

  /** The final round, column by column: the diagonal, then the round key
      word. */
  lemma FinalRoundColumn(s: State, key: RoundKey, c: nat)
    requires c < 4
    ensures FinalRound(s, key).cols[c] == Diagonal(s, c) ^ key.data[c]
  {
    var u := ShiftRows(SubBytes(s));
    SubShiftColumn(s, c);
    AddRoundKeyColumnWord(u, key, c, Diagonal(s, c));
  }

  // ---------------------------------------------------------------------
  // encrypt_block
  // ---------------------------------------------------------------------

  /** The body shared by `encrypt_block_128`, `_192` and `_256`: derive the
      round keys, add round key 0, run rounds 1 .. N_ROUNDS - 1, then the
      final round with round key N_ROUNDS. The derived array has
      N_ROUNDS + 1 entries, so every index the loop uses is in range. */
  method EncryptBlock(aes: Aes, key: Key, nRounds: nat) returns (r: Aes)
    requires ValidKey(key) && nRounds == Rounds(|key.data|)
    ensures r.state == Cipher(aes.state, RoundKeys(key))
    ensures r.mode == aes.mode
  {
    var roundKeys := DeriveRoundKeys(key);
    var start := AddRoundKey(aes.state, roundKeys[0]);
    var s := start;
    for x := 0 to nRounds - 1
      invariant s == MiddleRounds(start, roundKeys, x)
    {
      s := Round(s, roundKeys[x + 1]);
    }
    s := FinalRound(s, roundKeys[nRounds]);
    r := aes.(state := s);
  }

  /** `encrypt_block_128`: a 4-word key, ten rounds. */
  method EncryptBlock128(aes: Aes, key: Key) returns (r: Aes)
    requires |key.data| == 4
    ensures r.state == Cipher(aes.state, RoundKeys(key))
    ensures |RoundKeys(key)| == 11
    ensures r.mode == aes.mode
  {
    r := EncryptBlock(aes, key, 0x0A);
  }

  /** `encrypt_block_192`: a 6-word key, twelve rounds. */
  method EncryptBlock192(aes: Aes, key: Key) returns (r: Aes)
    requires |key.data| == 6
    ensures r.state == Cipher(aes.state, RoundKeys(key))
    ensures |RoundKeys(key)| == 13
    ensures r.mode == aes.mode
  {
    r := EncryptBlock(aes, key, 0x0C);
  }

  /** `encrypt_block_256`: an 8-word key, fourteen rounds. */
  method EncryptBlock256(aes: Aes, key: Key) returns (r: Aes)
    requires |key.data| == 8
    ensures r.state == Cipher(aes.state, RoundKeys(key))
    ensures |RoundKeys(key)| == 15
    ensures r.mode == aes.mode
  {
    r := EncryptBlock(aes, key, 0x0E);
  }
}
