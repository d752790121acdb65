/** The constant tables of the AES cipher (FIPS-197): the S-box of section
    5.1.1 and the round constants of section 5.2, with the byte lookup that
    both the cipher and the key schedule use. */
module AesTables {
  import opened Bits
  import Galois

  /** Entry `l` of a row of sixteen constants, found by halving. */
  function Pick16(l: Byte, c0: Byte, c1: Byte, c2: Byte, c3: Byte, c4: Byte, c5: Byte, c6: Byte, c7: Byte, c8: Byte, c9: Byte, c10: Byte, c11: Byte, c12: Byte, c13: Byte, c14: Byte, c15: Byte): Byte
    requires l < 16
  {
    if l < 8 then Pick8(l, c0, c1, c2, c3, c4, c5, c6, c7) else Pick8(l - 8, c8, c9, c10, c11, c12, c13, c14, c15)
  }

  function Pick8(l: Byte, c0: Byte, c1: Byte, c2: Byte, c3: Byte, c4: Byte, c5: Byte, c6: Byte, c7: Byte): Byte
    requires l < 8
  {
    if l < 4 then Pick4(l, c0, c1, c2, c3) else Pick4(l - 4, c4, c5, c6, c7)
  }

  function Pick4(l: Byte, c0: Byte, c1: Byte, c2: Byte, c3: Byte): Byte
    requires l < 4
  {
    if l < 2 then (if l == 0 then c0 else c1) else (if l == 2 then c2 else c3)
  }

  /** The 256-entry S-box of the source, the same constants in the same
      order: the high nibble of `a` picks one of the sixteen rows of
      sixteen, the low nibble the entry within the row. */
  function SBox(a: Byte): Byte
  {
    SBoxEntry(a, 3)
  }

  /** The table itself, behind three steps of recursion: the verifier unfolds
      a recursive function only a bounded number of times on a byte that
      is not a constant, so proofs about arbitrary bytes never expand the
      256 entries, while the known-answer lemmas still evaluate them. */
  function SBoxEntry(a: Byte, depth: nat): Byte
  {
    if depth > 0 then SBoxEntry(a, depth - 1) else
    if a < 0x80 then
      if a < 0x40 then
        if a < 0x20 then
          if a < 0x10 then
            Pick16(a - 0x00,
              0x63, 0x7C, 0x77, 0x7B, 0xF2, 0x6B, 0x6F, 0xC5,
              0x30, 0x01, 0x67, 0x2B, 0xFE, 0xD7, 0xAB, 0x76)
          else
            Pick16(a - 0x10,
              0xCA, 0x82, 0xC9, 0x7D, 0xFA, 0x59, 0x47, 0xF0,
              0xAD, 0xD4, 0xA2, 0xAF, 0x9C, 0xA4, 0x72, 0xC0)
        else
          if a < 0x30 then
            Pick16(a - 0x20,
              0xB7, 0xFD, 0x93, 0x26, 0x36, 0x3F, 0xF7, 0xCC,
              0x34, 0xA5, 0xE5, 0xF1, 0x71, 0xD8, 0x31, 0x15)
          else
            Pick16(a - 0x30,
              0x04, 0xC7, 0x23, 0xC3, 0x18, 0x96, 0x05, 0x9A,
              0x07, 0x12, 0x80, 0xE2, 0xEB, 0x27, 0xB2, 0x75)
      else
        if a < 0x60 then
          if a < 0x50 then
            Pick16(a - 0x40,
              0x09, 0x83, 0x2C, 0x1A, 0x1B, 0x6E, 0x5A, 0xA0,
              0x52, 0x3B, 0xD6, 0xB3, 0x29, 0xE3, 0x2F, 0x84)
          else
            Pick16(a - 0x50,
              0x53, 0xD1, 0x00, 0xED, 0x20, 0xFC, 0xB1, 0x5B,
              0x6A, 0xCB, 0xBE, 0x39, 0x4A, 0x4C, 0x58, 0xCF)
        else
          if a < 0x70 then
            Pick16(a - 0x60,
              0xD0, 0xEF, 0xAA, 0xFB, 0x43, 0x4D, 0x33, 0x85,
              0x45, 0xF9, 0x02, 0x7F, 0x50, 0x3C, 0x9F, 0xA8)
          else
            Pick16(a - 0x70,
              0x51, 0xA3, 0x40, 0x8F, 0x92, 0x9D, 0x38, 0xF5,
              0xBC, 0xB6, 0xDA, 0x21, 0x10, 0xFF, 0xF3, 0xD2)
    else
      if a < 0xC0 then
        if a < 0xA0 then
          if a < 0x90 then
            Pick16(a - 0x80,
              0xCD, 0x0C, 0x13, 0xEC, 0x5F, 0x97, 0x44, 0x17,
              0xC4, 0xA7, 0x7E, 0x3D, 0x64, 0x5D, 0x19, 0x73)
          else
            Pick16(a - 0x90,
              0x60, 0x81, 0x4F, 0xDC, 0x22, 0x2A, 0x90, 0x88,
              0x46, 0xEE, 0xB8, 0x14, 0xDE, 0x5E, 0x0B, 0xDB)
        else
          if a < 0xB0 then
            Pick16(a - 0xA0,
              0xE0, 0x32, 0x3A, 0x0A, 0x49, 0x06, 0x24, 0x5C,
              0xC2, 0xD3, 0xAC, 0x62, 0x91, 0x95, 0xE4, 0x79)
          else
            Pick16(a - 0xB0,
              0xE7, 0xC8, 0x37, 0x6D, 0x8D, 0xD5, 0x4E, 0xA9,
              0x6C, 0x56, 0xF4, 0xEA, 0x65, 0x7A, 0xAE, 0x08)
      else
        if a < 0xE0 then
          if a < 0xD0 then
            Pick16(a - 0xC0,
              0xBA, 0x78, 0x25, 0x2E, 0x1C, 0xA6, 0xB4, 0xC6,
              0xE8, 0xDD, 0x74, 0x1F, 0x4B, 0xBD, 0x8B, 0x8A)
          else
            Pick16(a - 0xD0,
              0x70, 0x3E, 0xB5, 0x66, 0x48, 0x03, 0xF6, 0x0E,
              0x61, 0x35, 0x57, 0xB9, 0x86, 0xC1, 0x1D, 0x9E)
        else
          if a < 0xF0 then
            Pick16(a - 0xE0,
              0xE1, 0xF8, 0x98, 0x11, 0x69, 0xD9, 0x8E, 0x94,
              0x9B, 0x1E, 0x87, 0xE9, 0xCE, 0x55, 0x28, 0xDF)
          else
            Pick16(a - 0xF0,
              0x8C, 0xA1, 0x89, 0x0D, 0xBF, 0xE6, 0x42, 0x68,
              0x41, 0x99, 0x2D, 0x0F, 0xB0, 0x54, 0xBB, 0x16)
  }

  /** The round constants `Rcon[1..10]` of the key schedule, stored from
      index 0: the constant of key-schedule step `i / Nk` is `RCon[i / Nk - 1]`. */
  const RConCount := 10

  function RCon(j: nat): Word
    requires j < RConCount
  {
    RConEntry(j, 3)
  }

  function RConEntry(j: nat, depth: nat): Word
    requires j < RConCount
  {
    if depth > 0 then RConEntry(j, depth - 1) else
    if j < 5 then
      if j < 2 then (if j == 0 then 0x01000000 else 0x02000000)
      else if j == 2 then 0x04000000 else if j == 3 then 0x08000000 else 0x10000000
    else
      if j < 7 then (if j == 5 then 0x20000000 else 0x40000000)
      else if j == 7 then 0x80000000 else if j == 8 then 0x1B000000 else 0x36000000
  }

  /** Round constant `j` is the field element x^j in the top byte, as
      section 5.2 of FIPS-197 defines it: 0x1B and 0x36 are the reductions
      of x^8 and x^9. */
  lemma RConArePowersOfX(j: nat)
    requires j < RConCount
    ensures RCon(j) == (Galois.XTimePow(Galois.Gf(1), j).val as Word) << 24
  {
    RConUnfold(j);
    XTimePowSteps();
    if j < 5 {
    } else {
    }
  }

  lemma RConUnfold(j: nat)
    requires j < RConCount
    ensures RCon(j) == RConEntry(j, 0)
  {
    assert RCon(j) == RConEntry(j, 2);
    assert RConEntry(j, 2) == RConEntry(j, 0);
  }

  lemma XTimePowSteps()
    ensures Galois.XTimePow(Galois.Gf(1), 0) == Galois.Gf(0x01)
    ensures Galois.XTimePow(Galois.Gf(1), 1) == Galois.Gf(0x02)
    ensures Galois.XTimePow(Galois.Gf(1), 2) == Galois.Gf(0x04)
    ensures Galois.XTimePow(Galois.Gf(1), 3) == Galois.Gf(0x08)
    ensures Galois.XTimePow(Galois.Gf(1), 4) == Galois.Gf(0x10)
    ensures Galois.XTimePow(Galois.Gf(1), 5) == Galois.Gf(0x20)
    ensures Galois.XTimePow(Galois.Gf(1), 6) == Galois.Gf(0x40)
    ensures Galois.XTimePow(Galois.Gf(1), 7) == Galois.Gf(0x80)
    ensures Galois.XTimePow(Galois.Gf(1), 8) == Galois.Gf(0x1B)
    ensures Galois.XTimePow(Galois.Gf(1), 9) == Galois.Gf(0x36)
  {
  }

  /** The table index the source computes for byte `a`: the high nibble
      times sixteen plus the low nibble, each operation on `u8`, and none of
      them can overflow. It is `a` itself, so the lookup is a plain table
      read. */
  function LookupIndex(a: Byte): (r: Byte)
    ensures r == a
  {
    (a >> 4) * 16 + ((a << 4) >> 4)
  }

  /** The `u8` product and sum in `LookupIndex` stay below 256, so the
      source's arithmetic never overflows (which would panic in a debug
      build). */
  lemma LookupIndexNoOverflow(a: Byte)
    ensures ((a >> 4) as int) * 16 <= 240
    ensures ((a >> 4) as int) * 16 + ((a << 4) >> 4) as int <= 255
  {
  }

  function SubByte(a: Byte): (r: Byte)
    ensures r == SBox(a)
  {
    SBox(LookupIndex(a))
  }
}
