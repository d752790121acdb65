# Cryptopals set 1 primitives in Dafny

This project models the byte-level core of a Cryptopals set 1 code base and proves properties of the model. The core is:

- **GF(2^8) arithmetic and AES block encryption** (`one/lib/aes`). Covers the `GaloisField<u8>` operators, the S-box, key expansion for 128-, 192- and 256-bit keys, the four state transformations, and `encrypt_block_128/192/256`. The reference is FIPS-197.
- **The Base64 codec** (`one/base64`): `lookup`, `reverse_lookup`, `encode` and `decode` over the alphabet of section 4 of RFC 4648.
- **Hex to Base64 conversion** (`set-one/challenge-one`): `strip_hex_prefix`, `hex_to_bytes`, `bitvec_to_base64`, `base64_lookup` and `from_hex`.
- **The XOR helpers.**
  - From the shared library (`one/lib/xor`): `vec`, `variable_vec`, `hamming_distance`, `block_ciphertext` and `transpose_blocks`.
  - From the command crate (`one/xor`): `hex` and `repeated`.
- **`split_into_blocks`** of the ECB script (`set-1/challenge-7.py`).

Modelling conventions:

- Bytes are `bv8` and AES words are `bv32`. A bit vector of the `bitvec` crate is a `seq<bool>` in the crate's bit order: most significant bit first for `Msb0`, bit by bit for `Lsb0`.
- Strings are their UTF-8 bytes.
- A panic in the source (`unwrap`, `expect`, an out-of-range index, a division by zero, a debug-mode overflow) becomes a precondition.
- A returned `Err` becomes the `Err` case of `Results.Result`.
- Mutation of the caller's buffer is returned as part of the result. `variable_vec` returns the padded plaintext with the ciphertext. `split_into_blocks` returns the padded bytearray with the blocks.
- The known-answer tests of `aes.rs` are lemmas on their constants. The long ones (`derive_round_keys`, `encrypt_block_*`) are split into one lemma per period of the key schedule and one per column of each round, each resting on the previous one.

Files:

| file | module | contents |
|---|---|---|
| results.dfy | `Results` | `Result` and `Option` |
| bits.dfy | `Bits` | bytes, words, big-endian bytes of a word, bit strings and packing bits into bytes |
| galois.dfy | `Galois` | field arithmetic, the branch-free multiplication loop and the field laws |
| aes_tables.dfy | `AesTables` | S-box, round constants, `sub_byte` |
| aes_key.dfy | `AesKey` | `rot_bytes`, `sub_bytes`, the key schedule and round keys |
| aes_state.dfy | `AesState` | `row`, `set_row`, SubBytes, ShiftRows, MixColumns, AddRoundKey |
| aes_cipher.dfy | `AesCipher` | rounds and `encrypt_block_*` |
| aes_vectors.dfy | `AesVectors` | the unit-test vectors of `aes.rs` |
| aes_key_vectors.dfy | `AesKeyVectors` | the test keys expanded on their constants, and the `derive_round_keys` tests |
| aes_cipher_vectors.dfy | `AesCipherVectors` | the `encrypt_block` tests, followed round by round |
| base64_alphabet.dfy | `Base64Alphabet` | the 64-character table |
| bit_groups.dfy | `BitGroups` | 6-bit and 8-bit grouping of bit strings |
| base64.dfy | `Base64` | the codec and its round trip |
| hex_base64.dfy | `HexBase64` | hex parsing and `from_hex` |
| byte_blocks.dfy | `ByteBlocks` | blocks of a byte string, and block-offset arithmetic |
| xor_lib.dfy | `XorLib` | the library XOR helpers |
| xor_tool.dfy | `XorTool` | `hex` and `repeated` |
| block_split.dfy | `BlockSplit` | `split_into_blocks` as written and as intended |

## Model

| member | source | states |
|---|---|---|
| Galois.Add | one/lib/aes/src/galois.rs:17-23 | `GaloisField + GaloisField`, XOR of the coefficients; its laws are stated by AddCommutes, AddSelfInverse, AddGroup and AddUndo |
| Galois.AddByte | one/lib/aes/src/galois.rs:26-32 | `GaloisField + u8` is field addition of the byte, and subtracting the byte again gives back the element |
| Galois.ByteAdd | one/lib/aes/src/galois.rs:35-41 | `u8 + GaloisField` is field addition, giving a byte from which subtracting the element gives back the first byte |
| Galois.Sub | one/lib/aes/src/galois.rs:65-71 | subtraction undoes addition (`(x - y) + y == x`) and equals addition (XOR) |
| Galois.SubByte | one/lib/aes/src/galois.rs:74-80 | `GaloisField - u8` is field subtraction of the byte, and adding the byte again gives back the element |
| Galois.ByteSub | one/lib/aes/src/galois.rs:83-89 | `u8 - GaloisField` is field subtraction, giving a byte to which adding the element gives back the first byte |
| Galois.AddCommutes | one/lib/aes/src/galois.rs:17-23 | field addition is commutative |
| Galois.AddSelfInverse | one/lib/aes/src/galois.rs:17-23 | every element is its own additive inverse |
| Galois.AddGroup | one/lib/aes/src/galois.rs:17-23 | addition is associative with 0 as identity |
| Galois.AddUndo | one/lib/aes/src/galois.rs:17-23 | subtracting what was added gives the element back |
| Galois.AddBits | one/lib/aes/src/galois.rs:17-23 | bit `i` of a sum is set exactly when it is set in one operand and not the other |
| Galois.XTimeIsReduction | one/lib/aes/src/galois.rs:121-123 | shift-left-and-conditionally-XOR-0x1B is x·b reduced modulo 0x11B |
| Galois.Mask | one/lib/aes/src/galois.rs:119 | the `i8` shift-and-sign-extend mask is 0xFF when the low bit is 1, else 0x00 |
| Galois.MaskSelects | one/lib/aes/src/galois.rs:119 | XORing in the masked byte adds `a` to the accumulator exactly when the low bit of `b` is set |
| Galois.PeasantAIsXTime | one/lib/aes/src/galois.rs:121-123 | the update of `self` in one iteration is multiplication by x |
| Galois.PeasantLoopProduct | one/lib/aes/src/galois.rs:118-124 | `n` iterations add to the accumulator the sum of x^i·a over the `n` low set bits of `b` |
| Galois.PeasantIsFieldMul | one/lib/aes/src/galois.rs:112-128 | the eight-iteration loop computes the field product |
| Galois.PeasantMulInPlace | one/lib/aes/src/galois.rs:115-127 | the loop written as a loop over mutable variables returns the field product |
| Galois.ShiftAndReduce | one/lib/aes/src/galois.rs:121-123 | the carry/shift/mask statements compute x·a |
| Galois.MulCommutative | one/lib/aes/src/galois.rs:112-128 | field multiplication is commutative |
| Galois.MulOneIdentity | one/lib/aes/src/galois.rs:112-128 | 1 is the multiplicative identity on both sides |
| Galois.MulZeroAbsorbing | one/lib/aes/src/galois.rs:112-128 | 0 absorbs on both sides |
| Galois.MulDistributes | one/lib/aes/src/galois.rs:112-128 | multiplication distributes over addition on both sides |
| Galois.MulByTwo | one/lib/aes/src/galois.rs:112-128 | multiplying by 0x02 is multiplication by x |
| Galois.MulByThree | one/lib/aes/src/galois.rs:112-128 | multiplying by 0x03 is x·a + a |
| Galois.Mul | one/lib/aes/src/galois.rs:112-128 | `GaloisField * GaloisField` is the field product |
| Galois.MulByte | one/lib/aes/src/galois.rs:130-146 | `GaloisField * u8` is the field product with the byte |
| Galois.ByteMul | one/lib/aes/src/galois.rs:148-164 | `u8 * GaloisField` is the field product, giving a byte |
| Galois.MulAssign | one/lib/aes/src/galois.rs:166-180 | `*=` leaves the field product |
| Galois.MulAssignByte | one/lib/aes/src/galois.rs:182-196 | `*= u8` leaves the field product |
| Galois.ByteMulAssign | one/lib/aes/src/galois.rs:198-212 | `u8 *= GaloisField` leaves the field product |
| Galois.MulVariantsAgree | one/lib/aes/src/galois.rs:112-212 | all operand-order variants give the same byte; the product commutes, 1 is the identity and 0 absorbs |
| Galois.Or | one/lib/aes/src/galois.rs:214-220 | bit `i` of `x \| y` is set exactly when it is set in `x` or in `y` |
| Galois.Xor | one/lib/aes/src/galois.rs:256-262 | bit `i` of `x ^ y` is set exactly when it is set in one operand and not the other; `^` is field addition, undone by subtracting `y` |
| Galois.And | one/lib/aes/src/galois.rs:298-304 | bit `i` of `x & y` is set exactly when it is set in both |
| Galois.OrAndLaws | one/lib/aes/src/galois.rs:214-338 | AND and OR absorb each other, and OR plus AND in the field is the sum of the operands |
| Galois.Shr | one/lib/aes/src/galois.rs:340-346 | `>>` by less than 8; its meaning is stated by ShrMovesBits |
| Galois.Shl | one/lib/aes/src/galois.rs:382-388 | `<<` by less than 8; its meaning is stated by ShlMovesBits |
| Galois.ShrMovesBits | one/lib/aes/src/galois.rs:340-346 | `>> s` moves the eight bits `s` places toward the low end and fills with zeros |
| Galois.ShlMovesBits | one/lib/aes/src/galois.rs:382-388 | `<< s` moves the eight bits `s` places toward the high end and fills with zeros |
| Galois.AddAndSubVectors | one/lib/aes/src/galois.rs:428-446 | 5 + 7 and 5 − 7 are 2 in every operand order |
| Galois.MulVectors | one/lib/aes/src/galois.rs:448-456 | 5 · 7 is 27 in every operand order |
| Galois.BitwiseVectors | one/lib/aes/src/galois.rs:458-506 | 5\|7 = 7, 5&7 = 5, 5^7 = 2, 5>>7 = 0, 5<<2 = 20 |
| AesTables.SBox | one/lib/aes/src/aes.rs:6-23 | the S-box table of figure 7 of FIPS-197; `sub_byte` reads it (SubByte, SubByteVectors) |
| AesTables.LookupIndex | one/lib/aes/src/aes.rs:327-329 | the table index `(a >> 4) * 16 + (a << 4 >> 4)` equals `a` |
| AesTables.LookupIndexNoOverflow | one/lib/aes/src/aes.rs:327-329 | neither the product nor the sum of the index computation leaves the `u8` range |
| AesTables.SubByte | one/lib/aes/src/aes.rs:327-329 | `sub_byte` is the S-box entry of its argument |
| AesTables.RConArePowersOfX | one/lib/aes/src/aes.rs:113-116 | round constant `j` is x^j in the top byte, as section 5.2 of FIPS-197 defines Rcon |
| AesKey.RotWord | one/lib/aes/src/aes.rs:96-98 | `rot_bytes`; its meaning is stated by RotWordBytes and checked by RotWordVector |
| AesKey.SubWord | one/lib/aes/src/aes.rs:100-107 | key `sub_bytes`; its meaning is stated by SubWordBytes and checked by SubWordVector |
| AesKey.RotWordBytes | one/lib/aes/src/aes.rs:96-98 | `rot_bytes` rotates the big-endian bytes left by one |
| AesKey.SubWordBytes | one/lib/aes/src/aes.rs:100-107 | key `sub_bytes` applies the S-box to each big-endian byte |
| AesKey.SubWordRotWordCommute | one/lib/aes/src/aes.rs:96-107 | substituting and rotating commute |
| AesKey.OffsetPeriodDivMod | one/lib/aes/src/aes.rs:128-130 | the schedule's position within a key period and the period number are `i % Nk` and `i / Nk` |
| AesKey.RConIndexInRange | one/lib/aes/src/aes.rs:128-132 | the Rcon index `i / Nk - 1` is within the ten-entry table for every derived word |
| AesKey.ScheduleWordCases | one/lib/aes/src/aes.rs:181-190 | the three cases of the recurrence of section 5.2 of FIPS-197. SubWord-only applies just for Nk = 8 at offset 4 |
| AesKey.Schedule | one/lib/aes/src/aes.rs:120-137 | the schedule has 4·(Nr+1) words, word `i` being the recursive word definition |
| AesKey.ScheduleStartsWithKey | one/lib/aes/src/aes.rs:123-125 | the first Nk words are the key |
| AesKey.ScheduleRecurrence | one/lib/aes/src/aes.rs:128-137 | every later word follows the recurrence from words `i - 1` and `i - Nk` |
| AesKey.DeriveWord128 | one/lib/aes/src/aes.rs:128-137 | the 128-bit loop body computes the recurrence word |
| AesKey.DeriveWord192 | one/lib/aes/src/aes.rs:181-190 | the 192-bit loop body computes the recurrence word |
| AesKey.DeriveWord256 | one/lib/aes/src/aes.rs:234-246 | the 256-bit loop body, with its extra `(x - 4) % 8 == 0` branch, computes the recurrence word |
| AesKey.DeriveNext | one/lib/aes/src/aes.rs:128-137 | one loop iteration computes schedule word `x` |
| AesKey.DeriveWords | one/lib/aes/src/aes.rs:120-137 | the two loops fill exactly the key schedule |
| AesKey.RoundKeys | one/lib/aes/src/aes.rs:139-142 | Nr + 1 round keys, key `j` being schedule words 4j .. 4j+3 |
| AesKey.DeriveRoundKeys | one/lib/aes/src/aes.rs:109-145 | `derive_round_keys` returns those round keys |
| AesState.Row | one/lib/aes/src/aes.rs:311-317 | a row has four bytes |
| AesState.ReadRow | one/lib/aes/src/aes.rs:311-317 | the loop of `row` collects big-endian byte `index` of each column |
| AesState.SetRow | one/lib/aes/src/aes.rs:319-325 | `set_row`; SetRowCell, RowOfSetRow and RowOfSetOtherRow state what it changes and keeps |
| AesState.SetByteBytes | one/lib/aes/src/aes.rs:319-325 | writing a row byte changes exactly that big-endian byte of the column |
| AesState.SetRowCell | one/lib/aes/src/aes.rs:319-325 | `set_row` changes row `index` to the given bytes and no other cell |
| AesState.RowOfSetRow | one/lib/aes/src/aes.rs:311-325 | `row(i)` after `set_row(i, r)` is `r` |
| AesState.RowOfSetOtherRow | one/lib/aes/src/aes.rs:311-325 | `set_row(i, r)` leaves every other row unchanged |
| AesState.SetRowOfRow | one/lib/aes/src/aes.rs:311-325 | writing back a row just read changes nothing |
| AesState.SubBytes | one/lib/aes/src/aes.rs:331-339 | state `sub_bytes`; SubBytesCell states that every cell becomes its S-box entry |
| AesState.SubBytesCell | one/lib/aes/src/aes.rs:331-339 | state `sub_bytes` replaces every cell by its S-box entry |
| AesState.MixColumn | one/lib/aes/src/aes.rs:349-368 | `mix_column`; MixColumnUnfold and MixColumnIsXTimeForm state the matrix product |
| AesState.MixColumns | one/lib/aes/src/aes.rs:370-374 | `mix_columns`; MapColumns states that each column is mixed on its own |
| AesState.MapColumns | one/lib/aes/src/aes.rs:370-374 | `mix_columns` applies the column function to each column independently |
| AesState.TimesTwo | one/lib/aes/src/aes.rs:360-363 | multiplying by matrix entry 0x02 is xtime |
| AesState.TimesThree | one/lib/aes/src/aes.rs:360-363 | multiplying by matrix entry 0x03 is xtime plus the byte |
| AesState.MixColumnUnfold | one/lib/aes/src/aes.rs:349-368 | output byte `r` is row `r` of the 02 03 01 01 circulant matrix times the column |
| AesState.MixColumnIsXTimeForm | one/lib/aes/src/aes.rs:349-368 | `mix_column` is equation 5.6 of FIPS-197 written with xtime |
| AesState.RotateLeft | one/lib/aes/src/aes.rs:344 | `rotate_left(n)` moves the first `n` bytes to the end |
| AesState.ShiftStepCell | one/lib/aes/src/aes.rs:342-346 | one iteration rotates row `x` left by `x` and leaves the other rows |
| AesState.ShiftRowsFromCell | one/lib/aes/src/aes.rs:342-346 | the iterations from `x` on rotate exactly rows `x` to 3 |
| AesState.ShiftRows | one/lib/aes/src/aes.rs:341-347 | `shift_rows`; ShiftRowsCell and ShiftRowsColumn state where each cell comes from |
| AesState.ShiftRowsCell | one/lib/aes/src/aes.rs:341-347 | `shift_rows` takes cell (r, c) from (r, (c + r) mod 4), so row 0 is unchanged |
| AesState.ShiftRowsColumn | one/lib/aes/src/aes.rs:341-347 | column `c` after `shift_rows` is the diagonal starting at column `c` |
| AesState.ShiftRowsInPlace | one/lib/aes/src/aes.rs:341-347 | the in-place loop computes ShiftRows |
| AesState.AddRoundKey | one/lib/aes/src/aes.rs:376-380 | `add_round_key`; AddRoundKeyColumn and AddRoundKeyInvolution state its effect and that it undoes itself |
| AesState.AddRoundKeyColumn | one/lib/aes/src/aes.rs:376-380 | each byte of column `c` is XORed with the same byte of key word `c` |
| AesState.AddRoundKeyInvolution | one/lib/aes/src/aes.rs:376-380 | adding the same round key twice restores the state |
| AesCipher.LoadState | one/lib/aes/src/aes.rs:423-425 | `load_state` replaces the state and keeps the mode |
| AesCipher.Round | one/lib/aes/src/aes.rs:409-414 | `round`; RoundColumn states each output column |
| AesCipher.FinalRound | one/lib/aes/src/aes.rs:416-420 | `final_round`; FinalRoundCell and FinalRoundColumn state each output cell and column |
| AesCipher.MiddleRounds | one/lib/aes/src/aes.rs:436-439 | rounds 1 .. n in order; the invariant of EncryptBlock ties it to the round loop |
| AesCipher.Cipher | one/lib/aes/src/aes.rs:428-476 | the cipher of section 5.1 of FIPS-197; EncryptBlock proves the round loop computes it and the Encrypt*Vector lemmas check it on the test vectors |
| AesCipher.SubShiftCell | one/lib/aes/src/aes.rs:409-411 | after SubBytes then ShiftRows, cell (r, c) is the S-box entry of cell (r, (c + r) mod 4) |
| AesCipher.RoundColumn | one/lib/aes/src/aes.rs:409-414 | a round's column `c` is MixColumn of the substituted diagonal, XOR key word `c` |
| AesCipher.FinalRoundCell | one/lib/aes/src/aes.rs:416-420 | the final round skips MixColumns: cell (r, c) is S-box of the shifted cell XOR the key byte |
| AesCipher.FinalRoundColumn | one/lib/aes/src/aes.rs:416-420 | the final round's column `c` is the substituted diagonal XOR key word `c` |
| AesCipher.EncryptBlock | one/lib/aes/src/aes.rs:428-476 | the round loop computes the cipher of section 5.1 of FIPS-197 with Nr = Nk + 6 |
| AesCipher.EncryptBlock128 | one/lib/aes/src/aes.rs:428-443 | 11 round keys; the state becomes the cipher of the old state |
| AesCipher.EncryptBlock192 | one/lib/aes/src/aes.rs:445-460 | 13 round keys; the state becomes the cipher of the old state |
| AesCipher.EncryptBlock256 | one/lib/aes/src/aes.rs:462-476 | 15 round keys; the state becomes the cipher of the old state |
| AesVectors.RotWordVector | one/lib/aes/src/aes.rs:483-496 | `rot_bytes(0x01020304) == 0x02030401` |
| AesVectors.SubWordVector | one/lib/aes/src/aes.rs:498-511 | key `sub_bytes(0x01200340) == 0x7CB77B09` |
| AesVectors.SubByteVectors | one/lib/aes/src/aes.rs:585-591 | the four `sub_byte` spot values |
| AesVectors.RowVectors | one/lib/aes/src/aes.rs:566-572 | rows 1 and 3 of the test state |
| AesVectors.SetRowVectors | one/lib/aes/src/aes.rs:574-583 | the rows read back after two `set_row` calls |
| AesVectors.SubBytesVector | one/lib/aes/src/aes.rs:593-600 | state `sub_bytes` of the test state |
| AesVectors.ShiftRowsVector | one/lib/aes/src/aes.rs:602-609 | `shift_rows` of the test state |
| AesVectors.MixColumnVector0 | one/lib/aes/src/aes.rs:611-616 | `mix_column(0xDB135345) == 0x8E4DA1BC` |
| AesVectors.MixColumnVector1 | one/lib/aes/src/aes.rs:611-616 | `mix_column(0xF20A225C) == 0x9FDC589D` |
| AesVectors.MixColumnVector2 | one/lib/aes/src/aes.rs:611-616 | `mix_column(0x2D26314C) == 0x4D7EBDF8` |
| AesVectors.MixColumnVector3 | one/lib/aes/src/aes.rs:618-625 | 0xC6C6C6C6 is a fixed point of `mix_column` |
| AesVectors.MixColumnsVector | one/lib/aes/src/aes.rs:618-625 | `mix_columns` of the test state |
| AesVectors.AddRoundKeyVector | one/lib/aes/src/aes.rs:627-639 | `add_round_key` of the test state and key |
| AesVectors.RotWordOf | one/lib/aes/src/aes.rs:96-98 | a word whose big-endian bytes are those of `w` rotated left by one is `rot_bytes(w)` |
| AesVectors.SubWordOf | one/lib/aes/src/aes.rs:100-107 | a word whose big-endian bytes are the S-box entries of `w`'s bytes is key `sub_bytes(w)` |
| AesKeyVectors.ScheduleAtStep | one/lib/aes/src/aes.rs:128-137 | schedule word `i` is the recurrence applied to the words at `i - 1` and `i - Nk` |
| AesKeyVectors.RoundKeyOf | one/lib/aes/src/aes.rs:139-142 | round key `j` holds schedule words 4j .. 4j+3, in order |
| AesKeyVectors.DeriveKey128Vector | one/lib/aes/src/aes.rs:513-527 | for the 128-bit test key the last of the 11 round keys is B48EF352 BA98134E 7F4D5920 86261876 |
| AesKeyVectors.DeriveKey192Vector | one/lib/aes/src/aes.rs:529-545 | for the 192-bit test key the last of the 13 round keys is E98BA06F 448C773C 8ECC7204 01002202 |
| AesKeyVectors.DeriveKey256Vector | one/lib/aes/src/aes.rs:547-564 | for the 256-bit test key the last of the 15 round keys is FE4890D1 E6188D0B 046DF344 706C631E |
| AesCipherVectors.RoundColumnStep | one/lib/aes/src/aes.rs:409-414 | a middle round's column follows from four known cells: their S-box images, mixed, XOR the key word |
| AesCipherVectors.FinalColumnStep | one/lib/aes/src/aes.rs:416-420 | a final round's column follows from four known cells: their S-box images XOR the key word |
| AesCipherVectors.Encrypt128Vector | one/lib/aes/src/aes.rs:641-655 | the 128-bit test key encrypts 3243F6A8 885A308D 313198A2 E0370734 to 3925841D 02DC09FB DC118597 196A0B32, which is what `encrypt_block_128` leaves in the state |
| AesCipherVectors.Encrypt192Vector | one/lib/aes/src/aes.rs:657-673 | the 192-bit test key encrypts 00112233 44556677 8899AABB CCDDEEFF to DDA97CA4 864CDFE0 6EAF70A0 EC0D7191 |
| AesCipherVectors.Encrypt256Vector | one/lib/aes/src/aes.rs:675-692 | the 256-bit test key encrypts 00112233 44556677 8899AABB CCDDEEFF to 8EA2B7CA 516745BF EAFC4990 4B496089 |
| Base64Alphabet.Table | one/base64/src/base64.rs:4-13 | the table has 64 characters, entry `i` being the alphabet character `i` |
| Base64Alphabet.TableUpper | one/base64/src/base64.rs:5-8 | entries 0..25 are `A`..`Z` |
| Base64Alphabet.TableLower | one/base64/src/base64.rs:8-11 | entries 26..51 are `a`..`z` |
| Base64Alphabet.TableDigits | one/base64/src/base64.rs:11-12 | entries 52..63 are `0`..`9`, `+`, `/` |
| Base64Alphabet.AlphabetRoundTrip | one/base64/src/base64.rs:4-13 | the table is injective: every entry maps back to its index |
| Base64Alphabet.PadNotInAlphabet | one/base64/src/base64.rs:4-13 | `=` is not a table character |
| Base64Alphabet.Position | one/base64/src/base64.rs:30 | `position` finds the first match, or reports that none exists |
| Base64Alphabet.PositionInTable | one/base64/src/base64.rs:30 | the position of a byte in the table is its index exactly when it is an alphabet character |
| Base64.Lookup | one/base64/src/base64.rs:20-22 | `lookup` succeeds exactly for indices below 64 |
| Base64.LookupUnfold | one/base64/src/base64.rs:20-22 | `lookup(i)` for i < 64 is table character `i` |
| Base64.ReverseLookup | one/base64/src/base64.rs:25-31 | `reverse_lookup`; ReverseLookupCases and ReverseLookupOfLookup state its cases and that it inverts `lookup` |
| Base64.ReverseLookupCases | one/base64/src/base64.rs:25-31 | success exactly for `=` (giving 65) or an alphabet character; otherwise the result is an index that `lookup` maps back |
| Base64.ReverseLookupOfLookup | one/base64/src/base64.rs:20-31 | `reverse_lookup` inverts `lookup` on 0..63 |
| Base64.LookupAll | one/base64/src/base64.rs:49-56 | looking up every value succeeds exactly when all are below 64, giving each one's character |
| Base64.Padding | one/base64/src/base64.rs:59-60 | the padding is `n` copies of `=` |
| Base64.FillFacts | one/base64/src/base64.rs:39-46 | for n bytes the zero fill is twice the `=` count and makes whole groups; output length is 4·⌈n/3⌉ |
| Base64.Encode | one/base64/src/base64.rs:34-63 | `encode`; EncodeParts, EncodeShape and EncodedChar state its output |
| Base64.EncodeParts | one/base64/src/base64.rs:34-63 | `encode` is the looked-up 6-bit groups of the zero-filled bits, then the `=` characters |
| Base64.EncodeShape | one/base64/src/base64.rs:34-63 | `encode` never fails, and its output has 4·⌈n/3⌉ characters: alphabet characters, then exactly the `=` padding |
| Base64.EncodedChar | one/base64/src/base64.rs:48-56 | each non-`=` character encodes the next six bits of the input, most significant first |
| Base64.Decode | one/base64/src/base64.rs:67-102 | `decode` of accepted input; DecodeEncode states that it inverts `encode` |
| Base64.DecodableChars | one/base64/src/base64.rs:76-79 | input accepted by `decode` holds only alphabet characters and `=` |
| Base64.DecodeValues | one/base64/src/base64.rs:76-79 | the reverse lookup of every character, in order |
| Base64.DecodeBitsUnfold | one/base64/src/base64.rs:84-99 | the decoded bytes are the octets of the low six bits of each value, less the `=` sextets and the filler bits |
| Base64.DecodeEmpty | one/base64/src/base64.rs:67-102 | the empty input decodes to the empty output |
| Base64.DecodeSextets | one/base64/src/base64.rs:67-102 | looked-up 6-bit groups followed by `p` padding characters decode to the octets of the bits |
| Base64.DecodeEncode | one/base64/src/base64.rs:34-102 | `decode(encode(b)) == b` for every byte string, and `decode` accepts every encoding |
| BitGroups.Sextets | one/base64/src/base64.rs:50-56 | a bit string whose length is a multiple of 6 yields one value per six bits |
| BitGroups.SextetsIndex | one/base64/src/base64.rs:50-54 | value `i` packs bits 6i .. 6i+5, most significant first |
| BitGroups.AllSextetsBelow64 | one/base64/src/base64.rs:50-55 | every packed six-bit value is below 64, so `lookup` never fails in `encode` |
| BitGroups.LowSixBits | one/base64/src/base64.rs:85-88 | keeping bits 2..7 of each byte gives six bits per byte |
| BitGroups.LowSixBitsOfSextets | one/base64/src/base64.rs:50-56 | keeping the low six bits of each packed value gives back the bit string |
| BitGroups.GroupsIsCeiling | one/base64/src/base64.rs:93 | stepping by 8 over `m` bits visits ⌈m/8⌉ positions |
| BitGroups.Octets | one/base64/src/base64.rs:93-99 | one byte per eight bits, ⌈m/8⌉ bytes |
| BitGroups.OctetsOfBytes | one/base64/src/base64.rs:93-99 | packing the bits of a byte string eight at a time gives the byte string back |
| Bits.FromBeBytesOfToBeBytes | one/lib/aes/src/aes.rs:101-106 | `u32::from_be_bytes` inverts `to_be_bytes` |
| Bits.ToBeBytesXor | one/lib/aes/src/aes.rs:376-380 | the big-endian bytes of an XOR of words are the XOR of the bytes |
| Bits.BytesToBitsIndex | one/base64/src/base64.rs:37 | bit 8i + k of the `Msb0` bit vector is bit k (from the top) of byte i |
| Bits.PackSixBits | one/base64/src/base64.rs:51-54 | shifting six bits in gives a value below 64 whose low six bits are those bits |
| Bits.PackEightBits | one/base64/src/base64.rs:94-97 | shifting eight bits in gives the byte with those bits |
| Bits.PackByteBits | one/base64/src/base64.rs:94-97 | packing the bits of a byte gives the byte |
| HexBase64.StripHexPrefix | set-one/challenge-one/src/base64.rs:9-17 | removes one leading `0x` if present, otherwise returns the string unchanged |
| HexBase64.HexDigit | set-one/challenge-one/src/base64.rs:29 | a value below 16 has a hex digit that parses back to it |
| HexBase64.ParsePair | set-one/challenge-one/src/base64.rs:28-30 | `from_str_radix(_, 16)` of two characters succeeds exactly for an optional `+` or hex digit followed by a hex digit |
| HexBase64.ParsePairValue | set-one/challenge-one/src/base64.rs:29 | two hex digits parse to 16·high + low, with no wrap-around |
| HexBase64.ParsePairs | set-one/challenge-one/src/base64.rs:26-32 | each pair of characters gives one byte |
| HexBase64.HexToBytes | set-one/challenge-one/src/base64.rs:20-40 | odd length is `Err(InvalidHexString)`, checked before stripping; otherwise half the stripped length in bytes |
| HexBase64.PairRoundTrip | set-one/challenge-one/src/base64.rs:28-30 | the two hex digits of a byte parse back to it |
| HexBase64.ParseToHex | set-one/challenge-one/src/base64.rs:26-32 | the hex rendering of a byte string parses back to it |
| HexBase64.HexRoundTrip | set-one/challenge-one/src/base64.rs:20-40 | `hex_to_bytes` of a hex rendering, with or without `0x`, is the original bytes |
| HexBase64.ReadSextet | set-one/challenge-one/src/base64.rs:62-66 | the inner loop packs six bits; it raises `Overflow` exactly when the group runs past the end |
| HexBase64.GroupsOfSix | set-one/challenge-one/src/base64.rs:54-70 | the group loop succeeds exactly on multiples of six, giving the six-bit values; otherwise `Overflow` |
| HexBase64.BitvecToBase64 | set-one/challenge-one/src/base64.rs:43-71 | never fails after padding; ⌈len/6⌉ values below 64 that are exactly the zero-padded bits |
| HexBase64.Base64Lookup | set-one/challenge-one/src/base64.rs:74-96 | succeeds exactly below 64 with the alphabet character, else `LookupFailed` |
| HexBase64.Base64LookupInverse | set-one/challenge-one/src/base64.rs:74-96 | the codec's `reverse_lookup` undoes `base64_lookup` |
| HexBase64.FromHex | set-one/challenge-one/src/base64.rs:99-112 | `Err` exactly for odd length. Otherwise the codec's encoding of the parsed bytes minus its `=`, only alphabet characters, never `=` |
| HexBase64.EncodeWithoutPadding | set-one/challenge-one/src/base64.rs:103-109 | the looked-up groups of the bytes' bits are the codec's `encode` output before its `=` characters |
| HexBase64.CharsInAlphabet | set-one/challenge-one/src/base64.rs:106-109 | every `base64_lookup` result is an alphabet character, never `=` |
| XorLib.Vec | one/lib/xor/src/xor.rs:76-90 | `Err(LengthNotEqual)` exactly when the lengths differ; otherwise the bytewise XOR |
| XorLib.VecTwice | one/lib/xor/src/xor.rs:76-90 | XORing with the same vector twice returns the original |
| XorLib.ZeroPad | one/lib/xor/src/xor.rs:100-103 | zero bytes up to the smallest multiple of the key length, keeping the plaintext as prefix |
| XorLib.ZeroPadAligned | one/lib/xor/src/xor.rs:101 | an already aligned plaintext is left untouched |
| XorLib.VariableVec | one/lib/xor/src/xor.rs:98-112 | plaintext padded in place; output `padded[i] ^ key[i % k]`, which XOR-decrypts back to the plaintext |
| XorLib.HammingDistance | one/lib/xor/src/xor.rs:115-130 | `Err(LengthNotEqual)` exactly on unequal lengths; otherwise the number of differing bit positions |
| XorLib.Differences | one/lib/xor/src/xor.rs:122-127 | the counting loop of `hamming_distance`; DifferencesBounds and DifferencesSymmetric state its bounds and symmetry |
| XorLib.DifferencesBounds | one/lib/xor/src/xor.rs:122-127 | the distance is at most the length, and 0 exactly for equal inputs |
| XorLib.DifferencesSymmetric | one/lib/xor/src/xor.rs:122-127 | the distance is symmetric |
| XorLib.BlockCiphertext | one/lib/xor/src/xor.rs:192-204 | `len / w + 1` blocks: all but the last `w` bytes, the last `len % w`, together the input |
| XorLib.TransposeBlocks | one/lib/xor/src/xor.rs:208-217 | `length` rows, row `y` being byte `y` of each block that has one, in block order |
| XorLib.ColumnOfFull | one/lib/xor/src/xor.rs:208-217 | for full-length blocks row `y` has one byte per block, byte `y` of block `j` at `j` |
| XorTool.Hex | one/xor/src/xor.rs:5-13 | `zip` truncates, so the output is as long as the shorter input |
| XorTool.HexSelf | one/xor/src/xor.rs:9 | `hex(a, a)` is all zeros |
| XorTool.HexTwice | one/xor/src/xor.rs:5-13 | XORing twice with the same string returns the common-length prefix |
| XorTool.HexIsVec | one/xor/src/xor.rs:5-13 | `hex` agrees with the library's `vec` on the common-length prefixes |
| XorTool.Repeated | one/xor/src/xor.rs:15-29 | ⌈n/k⌉·k bytes; plaintext byte `i` XOR key byte `i % k`, and padding bytes come out as key bytes |
| XorTool.RepeatedTwice | one/xor/src/xor.rs:15-29 | `repeated` twice with the same key gives the zero-padded plaintext |
| BlockSplit.Slices | set-1/challenge-7.py:23 | the slices concatenate to the string; none is empty or longer than `w`; all but the last are `w` long |
| BlockSplit.SlicesOfMultiple | set-1/challenge-7.py:23 | a string of `n` whole blocks gives exactly `n` slices of `w` bytes |
| BlockSplit.PaddedFacts | set-1/challenge-7.py:19-21 | the appended bytes are copies of the count, after the unchanged plaintext |
| BlockSplit.SplitIntoBlocks | set-1/challenge-7.py:13-25 | as written: nothing appended when the length is a multiple of the block length, otherwise `16 - len % w` bytes when that is positive, each equal to the count; plaintext kept as prefix; the blocks are the `w`-wide slices of the padded bytes and concatenate to them; a negative length pads nothing and gives no blocks |
| BlockSplit.SplitShortLastBlock | set-1/challenge-7.py:19 | with block length 5, three bytes are padded to 16, leaving a 1-byte last block |
| BlockSplit.SplitIntoBlocksFixed | set-1/challenge-7.py:13-25 | with the intended pad count the padded length is a multiple of the block length, and every block is exactly that long |
| BlockSplit.FixedBlocks | set-1/challenge-7.py:16-23 | padding by `w - len % w` (none when aligned) gives ⌈len/w⌉ full blocks |
| BlockSplit.SplitAgreesAt16 | set-1/challenge-7.py:13 | with the default length 16, the code as written and the corrected code coincide |

## Left out

- Floating-point English scoring, and everything ranked by it, are left out. This covers `probability`, `single_byte_bruteforce`, `bruteforce_blocks` and `estimate_key_length` (one/lib/xor/src/xor.rs:14-73,136-160,220-261), and the `single-byte-xor` crate. Their meaning rests on `f64` arithmetic.
- `single_byte_bruteforce_list` is left out. It reads lines from a `BufRead` and calls the external `hex` crate.
- The `main.rs` binaries and the Python scripts of challenges 1 to 6 are left out, as is the `main` of challenge 7. They are argument parsing, file reading and printing. The Python scripts duplicate the Rust logic through Python built-ins.
- The `AesKeyOps` impl for `AesRoundKey` is left out because it is an `unimplemented!()` stub (one/lib/aes/src/aes.rs:65-83).
- The `KeySize` tag, the `Default` impls and `AesMode` are left out. No cipher logic reads them, so `AesMode` is a one-value datatype kept only on `Aes`.
- The `errors.rs` and `lib.rs` files are left out. Each error enum becomes a plain `Error` datatype in its module.
- Decryption is left out because the source implements none.
- Timing and side-channel behaviour of the branch-free mask is not modelled. Only its value is.
- Galois.Shr: requires a shift below 8. A larger shift panics in a debug build, as does Galois.Shl.
- XorLib.HammingDistance: requires the count to fit in a `u32`. Past that, `distance += 1` panics in a debug build.
- XorLib.BlockCiphertext: the block index `(x as f64 / block_length as f64).ceil()` is modelled as `x / w`. That is exact because `x` is a multiple of `w`, assuming both are below 2^53 so the `f64` values are exact.
- HexBase64.FromHex: `String::from_utf8_lossy` is the identity here, since every output byte is an ASCII alphabet character. The hex input is its UTF-8 bytes, and a non-ASCII character fails the pair parse like any other non-hex character.
- HexBase64.HexToBytes: a pair that does not parse panics through `expect`, so valid pairs are a precondition (for even lengths only, since odd lengths return `Err` first).
- Base64.Decode: input whose reverse lookup panics, or whose bit slicing runs past the end, is excluded by the precondition `Decodable`. `Decode` therefore never returns `Err`. In the source every failure there is an `unwrap` panic, for example for unpadded `QQ`.
- BlockSplit.SplitIntoBlocks: requires a non-zero block length, because `len % 0` raises `ZeroDivisionError`.
- BlockSplit.SplitIntoBlocksFixed: requires a block length of at most 256, because a bytearray only accepts pad counts below 256.

## Findings

| source | as written | input that shows it | evidently intended | confidence | as-written member | corrected member |
|---|---|---|---|---|---|---|
| set-1/challenge-7.py:19 | the pad count is `16 - len % byte_length`, with 16 hard-coded | `byte_length = 5` and a 3-byte plaintext: 13 bytes are appended, giving 16 bytes and blocks of 5, 5, 5 and 1 bytes | `byte_length - len % byte_length`, so that every block is full | not executed | BlockSplit.SplitIntoBlocks, BlockSplit.SplitShortLastBlock | BlockSplit.SplitIntoBlocksFixed |
