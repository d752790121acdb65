/** AES key expansion (FIPS-197 section 5.2): `AesKey<N>` with its
    `rot_bytes`, `sub_bytes` and `derive_round_keys`, for the three key
    lengths the source implements (Nk = 4, 6 and 8 words). */
module AesKey {
  import opened Bits
  import opened AesTables

  /** Four words: a round key, or the four columns of the cipher state. */
  type Quad = s: seq<Word> | |s| == 4 witness [0, 0, 0, 0]

  /** `AesKey<N>`: the key as `N` big-endian words. The size tag the source
      also stores is never consulted by the cipher and is not modelled. */
  datatype Key = Key(data: seq<Word>)

  /** The source implements the key schedule for N = 4, 6 and 8 only. */
  predicate ValidKey(key: Key)
  {
    |key.data| == 4 || |key.data| == 6 || |key.data| == 8
  }

  /** `AesRoundKey`: always 128 bits. */
  datatype RoundKey = RoundKey(data: Quad)

  /** The number of rounds Nr for a key of `nk` words. */
  function Rounds(nk: nat): nat
  {
    nk + 6
  }

  /** The number of words the key schedule derives, 4 * (Nr + 1). */
  function ScheduleLength(nk: nat): nat
  {
    4 * (Rounds(nk) + 1)
  }

  /** `rot_bytes`: `u32::rotate_left(8)`, the word's big-endian bytes
      rotated left by one. Like the S-box, it is kept behind three steps of
      recursion so that proofs about the key schedule do not expand it. */
  function RotWord(a: Word): Word
  {
    RotWordAt(a, 3)
  }

  function RotWordAt(a: Word, depth: nat): Word
  {
    if depth > 0 then RotWordAt(a, depth - 1) else a.RotateLeft(8)
  }

  /** `sub_bytes` of the key: each big-endian byte through the S-box,
      repacked with `u32::from_be_bytes`. */
  function SubWord(a: Word): Word
  {
    SubWordAt(a, 3)
  }

  function SubWordAt(a: Word, depth: nat): Word
  {
    if depth > 0 then SubWordAt(a, depth - 1) else
    var b := ToBeBytes(a);
    FromBeBytes([SubByte(b[0]), SubByte(b[1]), SubByte(b[2]), SubByte(b[3])])
  }

  /** Rotating moves big-endian byte 0 to the end. */
  lemma RotWordBytes(a: Word)
    ensures var b := ToBeBytes(a); ToBeBytes(RotWord(a)) == [b[1], b[2], b[3], b[0]]
  {
    assert RotWordAt(a, 3) == RotWordAt(a, 2) == RotWordAt(a, 1) == RotWordAt(a, 0);
    ToBeBytesUnfold(a);
    ToBeBytesUnfold(RotWord(a));
  }

  /** Substituting a word substitutes each of its big-endian bytes. */
  lemma SubWordBytes(a: Word)
    ensures var b := ToBeBytes(a); ToBeBytes(SubWord(a)) == [SubByte(b[0]), SubByte(b[1]), SubByte(b[2]), SubByte(b[3])]
  {
    assert SubWord(a) == SubWordAt(a, 2);
    assert SubWordAt(a, 2) == SubWordAt(a, 0);
  }

  lemma SubWordRotWordCommute(a: Word)
    ensures SubWord(RotWord(a)) == RotWord(SubWord(a))
  {
    var b := ToBeBytes(a);
    var l, r := SubWord(RotWord(a)), RotWord(SubWord(a));
    RotWordBytes(a); SubWordBytes(RotWord(a));
    SubWordBytes(a); RotWordBytes(SubWord(a));
    ToBeBytesInjective(l, r);
  }

  /** The offset of word `i` within its key-length period, `i % nk`,
      written by repeated subtraction so that it stays linear. */
  function Offset(nk: nat, i: nat): (r: nat)
    requires nk > 0
    ensures r < nk
  {
    if i < nk then i else Offset(nk, i - nk)
  }

  /** The period word `i` falls in, `i / nk`. */
  function Period(nk: nat, i: nat): nat
    requires nk > 0
  {
    if i < nk then 0 else Period(nk, i - nk) + 1
  }

  /** `Offset` and `Period` are the remainder and quotient of `%` and `/`. */
  lemma {:induction false} OffsetPeriodDivMod(nk: nat, i: nat)
    requires nk == 4 || nk == 6 || nk == 8
    ensures Offset(nk, i) == i % nk && Period(nk, i) == i / nk
  {
    if i >= nk {
      OffsetPeriodDivMod(nk, i - nk);
      if nk == 4 {
        assert (i - 4) % 4 == i % 4 && (i - 4) / 4 == i / 4 - 1;
      } else if nk == 6 {
        assert (i - 6) % 6 == i % 6 && (i - 6) / 6 == i / 6 - 1;
      } else {
        assert (i - 8) % 8 == i % 8 && (i - 8) / 8 == i / 8 - 1;
      }
    }
  }

  /** Every word the schedule derives with a round constant is in periods
      1 to 10, so the round-constant index `i / Nk - 1` lies inside the
      ten-entry table. */
  lemma RConIndexInRange(nk: nat, i: nat)
    requires nk == 4 || nk == 6 || nk == 8
    requires nk <= i < ScheduleLength(nk)
    ensures 1 <= Period(nk, i) <= RConCount
  {
    OffsetPeriodDivMod(nk, i);
    if nk == 4 {
      assert 1 <= i / 4 <= 10;
    } else if nk == 6 {
      assert 1 <= i / 6 <= 8;
    } else {
      assert 1 <= i / 8 <= 7;
    }
  }

  /** Word `i` of the schedule from the word before it (`prev`) and the word
      `nk` places before it (`back`), as the key-expansion pseudocode of
      FIPS-197 (Figure 11) writes it: a word at the start of a period is
      rotated, substituted and offset by the period's round constant; for
      256-bit keys the word half-way through a period is substituted. */
  function ScheduleWord(nk: nat, i: nat, prev: Word, back: Word): Word
    requires nk == 4 || nk == 6 || nk == 8
    requires nk <= i < ScheduleLength(nk)
  {
    ScheduleWordAt(nk, i, prev, back, 3)
  }

  function ScheduleWordAt(nk: nat, i: nat, prev: Word, back: Word, depth: nat): Word
    requires nk == 4 || nk == 6 || nk == 8
    requires nk <= i < ScheduleLength(nk)
  {
    if depth > 0 then ScheduleWordAt(nk, i, prev, back, depth - 1) else
    RConIndexInRange(nk, i);
    var temp :=
      if Offset(nk, i) == 0 then SubWord(RotWord(prev)) ^ RCon(Period(nk, i) - 1)
      else if nk > 6 && Offset(nk, i) == 4 then SubWord(prev)
      else prev;
    back ^ temp
  }

  lemma ScheduleWordCases(nk: nat, i: nat, prev: Word, back: Word)
    requires nk == 4 || nk == 6 || nk == 8
    requires nk <= i < ScheduleLength(nk)
    ensures 1 <= Period(nk, i) <= RConCount
    ensures Offset(nk, i) == 0
        ==> ScheduleWord(nk, i, prev, back) == back ^ (SubWord(RotWord(prev)) ^ RCon(Period(nk, i) - 1))
    ensures nk > 6 && Offset(nk, i) == 4 ==> ScheduleWord(nk, i, prev, back) == back ^ SubWord(prev)
    ensures Offset(nk, i) != 0 && !(nk > 6 && Offset(nk, i) == 4) ==> ScheduleWord(nk, i, prev, back) == back ^ prev
  {
    RConIndexInRange(nk, i);
    ScheduleWordUnfold(nk, i, prev, back);
    if Offset(nk, i) == 0 {
      ScheduleWordAtStart(nk, i, prev, back);
    } else if nk > 6 && Offset(nk, i) == 4 {
      ScheduleWordAtHalf(nk, i, prev, back);
    } else {
      ScheduleWordElsewhere(nk, i, prev, back);
    }
  }

  lemma ScheduleWordUnfold(nk: nat, i: nat, prev: Word, back: Word)
    requires nk == 4 || nk == 6 || nk == 8
    requires nk <= i < ScheduleLength(nk)
    ensures ScheduleWord(nk, i, prev, back) == ScheduleWordAt(nk, i, prev, back, 0)
  {
    assert ScheduleWord(nk, i, prev, back) == ScheduleWordAt(nk, i, prev, back, 2);
    assert ScheduleWordAt(nk, i, prev, back, 2) == ScheduleWordAt(nk, i, prev, back, 0);
  }

  lemma ScheduleWordAtStart(nk: nat, i: nat, prev: Word, back: Word)
    requires nk == 4 || nk == 6 || nk == 8
    requires nk <= i < ScheduleLength(nk)
    requires Offset(nk, i) == 0
    ensures 1 <= Period(nk, i) <= RConCount
    ensures ScheduleWordAt(nk, i, prev, back, 0) == back ^ (SubWord(RotWord(prev)) ^ RCon(Period(nk, i) - 1))
  {
    RConIndexInRange(nk, i);
  }

  lemma ScheduleWordAtHalf(nk: nat, i: nat, prev: Word, back: Word)
    requires nk == 4 || nk == 6 || nk == 8
    requires nk <= i < ScheduleLength(nk)
    requires nk > 6 && Offset(nk, i) == 4
    ensures ScheduleWordAt(nk, i, prev, back, 0) == back ^ SubWord(prev)
  {
  }

  lemma ScheduleWordElsewhere(nk: nat, i: nat, prev: Word, back: Word)
    requires nk == 4 || nk == 6 || nk == 8
    requires nk <= i < ScheduleLength(nk)
    requires Offset(nk, i) != 0 && !(nk > 6 && Offset(nk, i) == 4)
    ensures ScheduleWordAt(nk, i, prev, back, 0) == back ^ prev
  {
  }

  /** Word `i` of the expanded key: the key's own words first, then each
      word by the recurrence from the words before it. */
  function ScheduleAt(key: Key, i: nat): Word
    requires ValidKey(key)
    requires i < ScheduleLength(|key.data|)
  {
    var nk := |key.data|;
    if i < nk then key.data[i]
    else ScheduleWord(nk, i, ScheduleAt(key, i - 1), ScheduleAt(key, i - nk))
  }

  /** The whole expanded key w[0 .. 4 * (Nr + 1)). */
  function Schedule(key: Key): (r: seq<Word>)
    requires ValidKey(key)
    ensures |r| == ScheduleLength(|key.data|)
    ensures forall i :: 0 <= i < |r| ==> r[i] == ScheduleAt(key, i)
  {
    seq(ScheduleLength(|key.data|), i requires 0 <= i < ScheduleLength(|key.data|) => ScheduleAt(key, i))
  }

  /** The schedule starts with the key itself. */
  lemma ScheduleStartsWithKey(key: Key)
    requires ValidKey(key)
    ensures Schedule(key)[..|key.data|] == key.data
  {
  }

  /** Every later word follows the key-expansion recurrence. */
  lemma ScheduleRecurrence(key: Key, i: nat)
    requires ValidKey(key)
    requires |key.data| <= i < ScheduleLength(|key.data|)
    ensures Schedule(key)[i]
         == ScheduleWord(|key.data|, i, Schedule(key)[i - 1], Schedule(key)[i - |key.data|])
  {
  }

  lemma XorRegroup(a: Word, b: Word, c: Word)
    ensures a ^ b ^ c == c ^ (a ^ b)
  {
  }

  /** The word `AesKey<4>::derive_round_keys` stores at index `x`, with the
      source's `x % NK` and `x / NK - 1` for NK = 4. */
  method DeriveWord128(x: nat, prev: Word, back: Word) returns (r: Word)
    requires 4 <= x < ScheduleLength(4)
    ensures r == ScheduleWord(4, x, prev, back)
  {
    ScheduleWordCases(4, x, prev, back);
    OffsetPeriodDivMod(4, x);
    if x % 4 == 0 {
      var t, c := SubWord(RotWord(prev)), RCon(x / 4 - 1);
      r := t ^ c ^ back;
      XorRegroup(t, c, back);
    } else {
      r := prev ^ back;
    }
  }

  /** The same for `AesKey<6>` (NK = 6). */
  method DeriveWord192(x: nat, prev: Word, back: Word) returns (r: Word)
    requires 6 <= x < ScheduleLength(6)
    ensures r == ScheduleWord(6, x, prev, back)
  {
    ScheduleWordCases(6, x, prev, back);
    OffsetPeriodDivMod(6, x);
    if x % 6 == 0 {
      var t, c := SubWord(RotWord(prev)), RCon(x / 6 - 1);
      r := t ^ c ^ back;
      XorRegroup(t, c, back);
    } else {
      r := prev ^ back;
    }
  }

  /** The same for `AesKey<8>` (NK = 8), whose loop alone has the middle
      branch, written `(x - NK / 2) % NK == 0`. */
  method DeriveWord256(x: nat, prev: Word, back: Word) returns (r: Word)
    requires 8 <= x < ScheduleLength(8)
    ensures r == ScheduleWord(8, x, prev, back)
  {
    ScheduleWordCases(8, x, prev, back);
    OffsetPeriodDivMod(8, x);
    if x % 8 == 0 {
      var t, c := SubWord(RotWord(prev)), RCon(x / 8 - 1);
      r := t ^ c ^ back;
      XorRegroup(t, c, back);
    } else if (x - 8 / 2) % 8 == 0 {
      r := SubWord(prev) ^ back;
    } else {
      r := prev ^ back;
    }
  }

  /** The loop body of whichever `derive_round_keys` the key length selects. */
  method DeriveWord(nk: nat, x: nat, prev: Word, back: Word) returns (r: Word)
    requires nk == 4 || nk == 6 || nk == 8
    requires nk <= x < ScheduleLength(nk)
    ensures r == ScheduleWord(nk, x, prev, back)
  {
    if nk == 4 {
      r := DeriveWord128(x, prev, back);
    } else if nk == 6 {
      r := DeriveWord192(x, prev, back);
    } else {
      r := DeriveWord256(x, prev, back);
    }
  }

  /** One iteration of the derivation loop, on an array whose first `x`
      words are already the schedule's. */
  method DeriveNext(key: Key, words: seq<Word>, x: nat) returns (r: Word)
    requires ValidKey(key)
    requires |key.data| <= x < ScheduleLength(|key.data|) && x <= |words|
    requires words[x - 1] == ScheduleAt(key, x - 1)
    requires words[x - |key.data|] == ScheduleAt(key, x - |key.data|)
    ensures r == ScheduleAt(key, x)
  {
    var nk := |key.data|;
    r := DeriveWord(nk, x, words[x - 1], words[x - nk]);
  }

  /** The word derivation of `derive_round_keys`: the key copied into the
      first Nk words of a zeroed array, then each later word computed in
      place from the ones before it. */
  method DeriveWords(key: Key) returns (words: seq<Word>)
    requires ValidKey(key)
    ensures words == Schedule(key)
  {
    var nk := |key.data|;
    var n := ScheduleLength(nk);
    words := seq(n, _ => 0);
    for x := 0 to nk
      invariant |words| == n
      invariant forall j :: 0 <= j < x ==> words[j] == key.data[j]
    {
      words := words[x := key.data[x]];
    }
    for x := nk to n
      invariant |words| == n
      invariant forall j :: 0 <= j < x ==> words[j] == ScheduleAt(key, j)
    {
      var next := DeriveNext(key, words, x);
      words := words[x := next];
    }
  }

  /** The round keys: round key `j` is words 4j .. 4j + 3 of the schedule,
      and there are Nr + 1 of them (11, 13 or 15). */
  function RoundKeys(key: Key): (r: seq<RoundKey>)
    requires ValidKey(key)
    ensures |r| == Rounds(|key.data|) + 1
    ensures forall j :: 0 <= j < |r| ==> r[j].data == Schedule(key)[4 * j .. 4 * j + 4]
  {
    var w := Schedule(key);
    seq(Rounds(|key.data|) + 1, j requires 0 <= j < Rounds(|key.data|) + 1 => RoundKey(w[4 * j .. 4 * j + 4]))
  }

  /** `derive_round_keys`: the words, then a default-initialised array of
      round keys filled from every fourth word. */
  method DeriveRoundKeys(key: Key) returns (roundKeys: seq<RoundKey>)
    requires ValidKey(key)
    ensures roundKeys == RoundKeys(key)
  {
    var words := DeriveWords(key);
    var count := Rounds(|key.data|) + 1;
    roundKeys := seq(count, _ => RoundKey([0, 0, 0, 0]));
    var x := 0;
    while x < |words|
      invariant x % 4 == 0 && x <= |words| == 4 * count
      invariant |roundKeys| == count
      invariant forall j :: 0 <= j < x / 4 ==> roundKeys[j] == RoundKeys(key)[j]
    {
      roundKeys := roundKeys[x / 4 := RoundKey(words[x .. x + 4])];
      x := x + 4;
    }
  }
}
