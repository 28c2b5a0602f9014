/*
 * The AES-128 example of FIPS PUB 197, appendix C.1, for the model of aes.c:
 * under the key 000102030405060708090a0b0c0d0e0f the block
 * 00112233445566778899aabbccddeeff encrypts to 69c4e0d86a7b0430d8cdb78070b4c55a.
 * The round keys and the state at the start of each round are the rows of
 * the listing in that appendix. Each step is proved on literal words (the
 * S-box on four bytes, one mixed column, one pass of the key schedule) and
 * chained by lemmas about blocks given by their four columns.
 */
module KnownAnswer {
  import opened GF
  import opened Tables
  import opened Mix
  import opened Transforms
  import opened KeySchedule
  import opened Cipher
  import Aes

  // ---------------------------------------------------------------------
  // Blocks given by their columns

  /** A block is the sixteen bytes it has at each index. */
  lemma Gather(r: Block, b0: bv8, b1: bv8, b2: bv8, b3: bv8, b4: bv8, b5: bv8, b6: bv8, b7: bv8,
               b8: bv8, b9: bv8, b10: bv8, b11: bv8, b12: bv8, b13: bv8, b14: bv8, b15: bv8)
    requires r[0] == b0 && r[1] == b1 && r[2] == b2 && r[3] == b3
    requires r[4] == b4 && r[5] == b5 && r[6] == b6 && r[7] == b7
    requires r[8] == b8 && r[9] == b9 && r[10] == b10 && r[11] == b11
    requires r[12] == b12 && r[13] == b13 && r[14] == b14 && r[15] == b15
    ensures r == [b0, b1, b2, b3, b4, b5, b6, b7, b8, b9, b10, b11, b12, b13, b14, b15]
  {}

  lemma MapBytesColumn0(table: bv8 -> bv8, s: Block)
    ensures MapBytes(table, s)[0] == table(s[0]) && MapBytes(table, s)[1] == table(s[1]) && MapBytes(table, s)[2] == table(s[2]) && MapBytes(table, s)[3] == table(s[3])
  {}
  lemma MapBytesColumn1(table: bv8 -> bv8, s: Block)
    ensures MapBytes(table, s)[4] == table(s[4]) && MapBytes(table, s)[5] == table(s[5]) && MapBytes(table, s)[6] == table(s[6]) && MapBytes(table, s)[7] == table(s[7])
  {}
  lemma MapBytesColumn2(table: bv8 -> bv8, s: Block)
    ensures MapBytes(table, s)[8] == table(s[8]) && MapBytes(table, s)[9] == table(s[9]) && MapBytes(table, s)[10] == table(s[10]) && MapBytes(table, s)[11] == table(s[11])
  {}
  lemma MapBytesColumn3(table: bv8 -> bv8, s: Block)
    ensures MapBytes(table, s)[12] == table(s[12]) && MapBytes(table, s)[13] == table(s[13]) && MapBytes(table, s)[14] == table(s[14]) && MapBytes(table, s)[15] == table(s[15])
  {}

  /** SubBytes after ShiftRows, column by column: column c takes byte r from column c + r. */
  lemma SubShiftColumns(a0: Word, a1: Word, a2: Word, a3: Word)
    ensures SubBytes(ShiftRows(FromColumns(a0, a1, a2, a3)))
         == FromColumns(SubWord(SBox, Word(a0.b0, a1.b1, a2.b2, a3.b3)), SubWord(SBox, Word(a1.b0, a2.b1, a3.b2, a0.b3)),
                        SubWord(SBox, Word(a2.b0, a3.b1, a0.b2, a1.b3)), SubWord(SBox, Word(a3.b0, a0.b1, a1.b2, a2.b3)))
  {
    var s := FromColumns(a0, a1, a2, a3);
    ShiftRowsLayout(s);
    var t := ShiftRows(s);
    MapBytesColumn0(SBox, t); MapBytesColumn1(SBox, t); MapBytesColumn2(SBox, t); MapBytesColumn3(SBox, t);
    Gather(MapBytes(SBox, t), SBox(a0.b0), SBox(a1.b1), SBox(a2.b2), SBox(a3.b3), SBox(a1.b0), SBox(a2.b1), SBox(a3.b2), SBox(a0.b3),
           SBox(a2.b0), SBox(a3.b1), SBox(a0.b2), SBox(a1.b3), SBox(a3.b0), SBox(a0.b1), SBox(a1.b2), SBox(a2.b3));
  }

  /** MixColumns of a block given by its columns, with the column formula of aes_enc_round. */
  lemma MixByColumns(t0: Word, t1: Word, t2: Word, t3: Word)
    ensures MixColumns(FromColumns(t0, t1, t2, t3))
         == FromColumns(MixColumnShared(t0), MixColumnShared(t1), MixColumnShared(t2), MixColumnShared(t3))
  {
    var t := FromColumns(t0, t1, t2, t3);
    var x := FromColumns(MixColumnShared(t0), MixColumnShared(t1), MixColumnShared(t2), MixColumnShared(t3));
    Aes.MapColumnsShared(t);
    ColumnsOf(t0, t1, t2, t3);
    ColumnsOf(MixColumnShared(t0), MixColumnShared(t1), MixColumnShared(t2), MixColumnShared(t3));
    MapColumnsColumn(MixColumnShared, t, 0); MapColumnsColumn(MixColumnShared, t, 1);
    MapColumnsColumn(MixColumnShared, t, 2); MapColumnsColumn(MixColumnShared, t, 3);
    SameColumns(MapColumns(MixColumnShared, t), x);
  }

  lemma AddRoundKeyColumn(s: Block, k: Block, c: nat)
    requires c < 4
    ensures Column(AddRoundKey(s, k), c) == WordAdd(Column(s, c), Column(k, c))
  {}

  /** AddRoundKey of two blocks given by their columns. */
  lemma AddKeyByColumns(m0: Word, m1: Word, m2: Word, m3: Word, k0: Word, k1: Word, k2: Word, k3: Word)
    ensures AddRoundKey(FromColumns(m0, m1, m2, m3), FromColumns(k0, k1, k2, k3))
         == FromColumns(WordAdd(m0, k0), WordAdd(m1, k1), WordAdd(m2, k2), WordAdd(m3, k3))
  {
    var s, k := FromColumns(m0, m1, m2, m3), FromColumns(k0, k1, k2, k3);
    ColumnsOf(m0, m1, m2, m3); ColumnsOf(k0, k1, k2, k3);
    ColumnsOf(WordAdd(m0, k0), WordAdd(m1, k1), WordAdd(m2, k2), WordAdd(m3, k3));
    AddRoundKeyColumn(s, k, 0); AddRoundKeyColumn(s, k, 1); AddRoundKeyColumn(s, k, 2); AddRoundKeyColumn(s, k, 3);
    SameColumns(AddRoundKey(s, k), FromColumns(WordAdd(m0, k0), WordAdd(m1, k1), WordAdd(m2, k2), WordAdd(m3, k3)));
  }

  /** One step of the key schedule on a round key given by its columns p0 .. p3. */
  lemma KeyStepByColumns(p0: Word, p1: Word, p2: Word, p3: Word, rc: bv8, t: Word, q0: Word, q1: Word, q2: Word, q3: Word)
    requires WordAdd(SubWord(SBox, RotWord(p3)), Word(rc, 0, 0, 0)) == t
    requires q0 == WordAdd(t, p0) && q1 == WordAdd(q0, p1) && q2 == WordAdd(q1, p2) && q3 == WordAdd(q2, p3)
    ensures NextRoundKey(SBox, FromColumns(p0, p1, p2, p3), rc) == FromColumns(q0, q1, q2, q3)
  {
    var prev := FromColumns(p0, p1, p2, p3);
    var k := NextRoundKey(SBox, prev, rc);
    ColumnsOf(p0, p1, p2, p3); ColumnsOf(q0, q1, q2, q3);
    TempIsSubRot(SBox, prev, rc);
    NextRoundKeyColumn0(SBox, prev, rc);
    NextRoundKeyColumn(SBox, prev, rc, 1); NextRoundKeyColumn(SBox, prev, rc, 2); NextRoundKeyColumn(SBox, prev, rc, 3);
    SameColumns(k, FromColumns(q0, q1, q2, q3));
  }

  // ---------------------------------------------------------------------
  // The vector

  /** The cipher key of the example, 000102030405060708090a0b0c0d0e0f. */
  function Key(): Block {
    FromColumns(Word(0x00, 0x01, 0x02, 0x03), Word(0x04, 0x05, 0x06, 0x07),
                Word(0x08, 0x09, 0x0a, 0x0b), Word(0x0c, 0x0d, 0x0e, 0x0f))
  }

  /** The plaintext of the example, 00112233445566778899aabbccddeeff. */
  function Plaintext(): Block {
    FromColumns(Word(0x00, 0x11, 0x22, 0x33), Word(0x44, 0x55, 0x66, 0x77),
                Word(0x88, 0x99, 0xaa, 0xbb), Word(0xcc, 0xdd, 0xee, 0xff))
  }

  /** The ciphertext of the example, 69c4e0d86a7b0430d8cdb78070b4c55a. */
  function Ciphertext(): Block {
    FromColumns(Word(0x69, 0xc4, 0xe0, 0xd8), Word(0x6a, 0x7b, 0x04, 0x30),
                Word(0xd8, 0xcd, 0xb7, 0x80), Word(0x70, 0xb4, 0xc5, 0x5a))
  }

  /** Round key 1 of the example. */
  function RoundKey1(): Block {
    FromColumns(Word(0xd6, 0xaa, 0x74, 0xfd), Word(0xd2, 0xaf, 0x72, 0xfa), Word(0xda, 0xa6, 0x78, 0xf1), Word(0xd6, 0xab, 0x76, 0xfe))
  }

  /** Round key 2 of the example. */
  function RoundKey2(): Block {
    FromColumns(Word(0xb6, 0x92, 0xcf, 0x0b), Word(0x64, 0x3d, 0xbd, 0xf1), Word(0xbe, 0x9b, 0xc5, 0x00), Word(0x68, 0x30, 0xb3, 0xfe))
  }

  /** Round key 3 of the example. */
  function RoundKey3(): Block {
    FromColumns(Word(0xb6, 0xff, 0x74, 0x4e), Word(0xd2, 0xc2, 0xc9, 0xbf), Word(0x6c, 0x59, 0x0c, 0xbf), Word(0x04, 0x69, 0xbf, 0x41))
  }

  /** Round key 4 of the example. */
  function RoundKey4(): Block {
    FromColumns(Word(0x47, 0xf7, 0xf7, 0xbc), Word(0x95, 0x35, 0x3e, 0x03), Word(0xf9, 0x6c, 0x32, 0xbc), Word(0xfd, 0x05, 0x8d, 0xfd))
  }

  /** Round key 5 of the example. */
  function RoundKey5(): Block {
    FromColumns(Word(0x3c, 0xaa, 0xa3, 0xe8), Word(0xa9, 0x9f, 0x9d, 0xeb), Word(0x50, 0xf3, 0xaf, 0x57), Word(0xad, 0xf6, 0x22, 0xaa))
  }

  /** Round key 6 of the example. */
  function RoundKey6(): Block {
    FromColumns(Word(0x5e, 0x39, 0x0f, 0x7d), Word(0xf7, 0xa6, 0x92, 0x96), Word(0xa7, 0x55, 0x3d, 0xc1), Word(0x0a, 0xa3, 0x1f, 0x6b))
  }

  /** Round key 7 of the example. */
  function RoundKey7(): Block {
    FromColumns(Word(0x14, 0xf9, 0x70, 0x1a), Word(0xe3, 0x5f, 0xe2, 0x8c), Word(0x44, 0x0a, 0xdf, 0x4d), Word(0x4e, 0xa9, 0xc0, 0x26))
  }

  /** Round key 8 of the example. */
  function RoundKey8(): Block {
    FromColumns(Word(0x47, 0x43, 0x87, 0x35), Word(0xa4, 0x1c, 0x65, 0xb9), Word(0xe0, 0x16, 0xba, 0xf4), Word(0xae, 0xbf, 0x7a, 0xd2))
  }

  /** Round key 9 of the example. */
  function RoundKey9(): Block {
    FromColumns(Word(0x54, 0x99, 0x32, 0xd1), Word(0xf0, 0x85, 0x57, 0x68), Word(0x10, 0x93, 0xed, 0x9c), Word(0xbe, 0x2c, 0x97, 0x4e))
  }

  /** Round key 10 of the example. */
  function RoundKey10(): Block {
    FromColumns(Word(0x13, 0x11, 0x1d, 0x7f), Word(0xe3, 0x94, 0x4a, 0x17), Word(0xf3, 0x07, 0xa7, 0x8b), Word(0x4d, 0x2b, 0x30, 0xc5))
  }

  /** The state at the start of round 1 of the example. */
  function State1(): Block {
    FromColumns(Word(0x00, 0x10, 0x20, 0x30), Word(0x40, 0x50, 0x60, 0x70), Word(0x80, 0x90, 0xa0, 0xb0), Word(0xc0, 0xd0, 0xe0, 0xf0))
  }

  /** The state at the start of round 2 of the example. */
  function State2(): Block {
    FromColumns(Word(0x89, 0xd8, 0x10, 0xe8), Word(0x85, 0x5a, 0xce, 0x68), Word(0x2d, 0x18, 0x43, 0xd8), Word(0xcb, 0x12, 0x8f, 0xe4))
  }

  /** The state at the start of round 3 of the example. */
  function State3(): Block {
    FromColumns(Word(0x49, 0x15, 0x59, 0x8f), Word(0x55, 0xe5, 0xd7, 0xa0), Word(0xda, 0xca, 0x94, 0xfa), Word(0x1f, 0x0a, 0x63, 0xf7))
  }

  /** The state at the start of round 4 of the example. */
  function State4(): Block {
    FromColumns(Word(0xfa, 0x63, 0x6a, 0x28), Word(0x25, 0xb3, 0x39, 0xc9), Word(0x40, 0x66, 0x8a, 0x31), Word(0x57, 0x24, 0x4d, 0x17))
  }

  /** The state at the start of round 5 of the example. */
  function State5(): Block {
    FromColumns(Word(0x24, 0x72, 0x40, 0x23), Word(0x69, 0x66, 0xb3, 0xfa), Word(0x6e, 0xd2, 0x75, 0x32), Word(0x88, 0x42, 0x5b, 0x6c))
  }

  /** The state at the start of round 6 of the example. */
  function State6(): Block {
    FromColumns(Word(0xc8, 0x16, 0x77, 0xbc), Word(0x9b, 0x7a, 0xc9, 0x3b), Word(0x25, 0x02, 0x79, 0x92), Word(0xb0, 0x26, 0x19, 0x96))
  }

  /** The state at the start of round 7 of the example. */
  function State7(): Block {
    FromColumns(Word(0xc6, 0x2f, 0xe1, 0x09), Word(0xf7, 0x5e, 0xed, 0xc3), Word(0xcc, 0x79, 0x39, 0x5d), Word(0x84, 0xf9, 0xcf, 0x5d))
  }

  /** The state at the start of round 8 of the example. */
  function State8(): Block {
    FromColumns(Word(0xd1, 0x87, 0x6c, 0x0f), Word(0x79, 0xc4, 0x30, 0x0a), Word(0xb4, 0x55, 0x94, 0xad), Word(0xd6, 0x6f, 0xf4, 0x1f))
  }

  /** The state at the start of round 9 of the example. */
  function State9(): Block {
    FromColumns(Word(0xfd, 0xe3, 0xba, 0xd2), Word(0x05, 0xe5, 0xd0, 0xd7), Word(0x35, 0x47, 0x96, 0x4e), Word(0xf1, 0xfe, 0x37, 0xf1))
  }

  /** The state at the start of round 10 of the example. */
  function State10(): Block {
    FromColumns(Word(0xbd, 0x6e, 0x7c, 0x3d), Word(0xf2, 0xb5, 0x77, 0x9e), Word(0x0b, 0x61, 0x21, 0x6e), Word(0x8b, 0x10, 0xb6, 0x89))
  }

  /** w is the key schedule of the example: its eleven round keys. */
  predicate IsExampleSchedule(w: RoundKeys) {
    && w[0] == Key()
    && w[1] == RoundKey1()
    && w[2] == RoundKey2()
    && w[3] == RoundKey3()
    && w[4] == RoundKey4()
    && w[5] == RoundKey5()
    && w[6] == RoundKey6()
    && w[7] == RoundKey7()
    && w[8] == RoundKey8()
    && w[9] == RoundKey9()
    && w[10] == RoundKey10()
  }

  // ---------------------------------------------------------------------
  // The key schedule, pass by pass: temp, then the four columns

  lemma KeyTemp0()
    ensures WordAdd(SubWord(SBox, RotWord(Word(0x0c, 0x0d, 0x0e, 0x0f))), Word(0x01, 0x00, 0x00, 0x00)) == Word(0xd6, 0xab, 0x76, 0xfe)
  {}

  /** Pass 0 of the round loop of aes_key_schedule_128 in the example. */
  lemma KeyStep0()
    ensures NextRoundKey(SBox, Key(), RC[0]) == RoundKey1()
  {
    KeyTemp0();
    KeyStepByColumns(Word(0x00, 0x01, 0x02, 0x03), Word(0x04, 0x05, 0x06, 0x07), Word(0x08, 0x09, 0x0a, 0x0b), Word(0x0c, 0x0d, 0x0e, 0x0f), 0x01, Word(0xd6, 0xab, 0x76, 0xfe),
                     Word(0xd6, 0xaa, 0x74, 0xfd), Word(0xd2, 0xaf, 0x72, 0xfa), Word(0xda, 0xa6, 0x78, 0xf1), Word(0xd6, 0xab, 0x76, 0xfe));
  }

  lemma KeyTemp1()
    ensures WordAdd(SubWord(SBox, RotWord(Word(0xd6, 0xab, 0x76, 0xfe))), Word(0x02, 0x00, 0x00, 0x00)) == Word(0x60, 0x38, 0xbb, 0xf6)
  {}

  /** Pass 1 of the round loop of aes_key_schedule_128 in the example. */
  lemma KeyStep1()
    ensures NextRoundKey(SBox, RoundKey1(), RC[1]) == RoundKey2()
  {
    KeyTemp1();
    KeyStepByColumns(Word(0xd6, 0xaa, 0x74, 0xfd), Word(0xd2, 0xaf, 0x72, 0xfa), Word(0xda, 0xa6, 0x78, 0xf1), Word(0xd6, 0xab, 0x76, 0xfe), 0x02, Word(0x60, 0x38, 0xbb, 0xf6),
                     Word(0xb6, 0x92, 0xcf, 0x0b), Word(0x64, 0x3d, 0xbd, 0xf1), Word(0xbe, 0x9b, 0xc5, 0x00), Word(0x68, 0x30, 0xb3, 0xfe));
  }

  lemma KeyTemp2()
    ensures WordAdd(SubWord(SBox, RotWord(Word(0x68, 0x30, 0xb3, 0xfe))), Word(0x04, 0x00, 0x00, 0x00)) == Word(0x00, 0x6d, 0xbb, 0x45)
  {}

  /** Pass 2 of the round loop of aes_key_schedule_128 in the example. */
  lemma KeyStep2()
    ensures NextRoundKey(SBox, RoundKey2(), RC[2]) == RoundKey3()
  {
    KeyTemp2();
    KeyStepByColumns(Word(0xb6, 0x92, 0xcf, 0x0b), Word(0x64, 0x3d, 0xbd, 0xf1), Word(0xbe, 0x9b, 0xc5, 0x00), Word(0x68, 0x30, 0xb3, 0xfe), 0x04, Word(0x00, 0x6d, 0xbb, 0x45),
                     Word(0xb6, 0xff, 0x74, 0x4e), Word(0xd2, 0xc2, 0xc9, 0xbf), Word(0x6c, 0x59, 0x0c, 0xbf), Word(0x04, 0x69, 0xbf, 0x41));
  }

  lemma KeyTemp3()
    ensures WordAdd(SubWord(SBox, RotWord(Word(0x04, 0x69, 0xbf, 0x41))), Word(0x08, 0x00, 0x00, 0x00)) == Word(0xf1, 0x08, 0x83, 0xf2)
  {}

  /** Pass 3 of the round loop of aes_key_schedule_128 in the example. */
  lemma KeyStep3()
    ensures NextRoundKey(SBox, RoundKey3(), RC[3]) == RoundKey4()
  {
    KeyTemp3();
    KeyStepByColumns(Word(0xb6, 0xff, 0x74, 0x4e), Word(0xd2, 0xc2, 0xc9, 0xbf), Word(0x6c, 0x59, 0x0c, 0xbf), Word(0x04, 0x69, 0xbf, 0x41), 0x08, Word(0xf1, 0x08, 0x83, 0xf2),
                     Word(0x47, 0xf7, 0xf7, 0xbc), Word(0x95, 0x35, 0x3e, 0x03), Word(0xf9, 0x6c, 0x32, 0xbc), Word(0xfd, 0x05, 0x8d, 0xfd));
  }

  lemma KeyTemp4()
    ensures WordAdd(SubWord(SBox, RotWord(Word(0xfd, 0x05, 0x8d, 0xfd))), Word(0x10, 0x00, 0x00, 0x00)) == Word(0x7b, 0x5d, 0x54, 0x54)
  {}

  /** Pass 4 of the round loop of aes_key_schedule_128 in the example. */
  lemma KeyStep4()
    ensures NextRoundKey(SBox, RoundKey4(), RC[4]) == RoundKey5()
  {
    KeyTemp4();
    KeyStepByColumns(Word(0x47, 0xf7, 0xf7, 0xbc), Word(0x95, 0x35, 0x3e, 0x03), Word(0xf9, 0x6c, 0x32, 0xbc), Word(0xfd, 0x05, 0x8d, 0xfd), 0x10, Word(0x7b, 0x5d, 0x54, 0x54),
                     Word(0x3c, 0xaa, 0xa3, 0xe8), Word(0xa9, 0x9f, 0x9d, 0xeb), Word(0x50, 0xf3, 0xaf, 0x57), Word(0xad, 0xf6, 0x22, 0xaa));
  }

  lemma KeyTemp5()
    ensures WordAdd(SubWord(SBox, RotWord(Word(0xad, 0xf6, 0x22, 0xaa))), Word(0x20, 0x00, 0x00, 0x00)) == Word(0x62, 0x93, 0xac, 0x95)
  {}

  /** Pass 5 of the round loop of aes_key_schedule_128 in the example. */
  lemma KeyStep5()
    ensures NextRoundKey(SBox, RoundKey5(), RC[5]) == RoundKey6()
  {
    KeyTemp5();
    KeyStepByColumns(Word(0x3c, 0xaa, 0xa3, 0xe8), Word(0xa9, 0x9f, 0x9d, 0xeb), Word(0x50, 0xf3, 0xaf, 0x57), Word(0xad, 0xf6, 0x22, 0xaa), 0x20, Word(0x62, 0x93, 0xac, 0x95),
                     Word(0x5e, 0x39, 0x0f, 0x7d), Word(0xf7, 0xa6, 0x92, 0x96), Word(0xa7, 0x55, 0x3d, 0xc1), Word(0x0a, 0xa3, 0x1f, 0x6b));
  }

  lemma KeyTemp6()
    ensures WordAdd(SubWord(SBox, RotWord(Word(0x0a, 0xa3, 0x1f, 0x6b))), Word(0x40, 0x00, 0x00, 0x00)) == Word(0x4a, 0xc0, 0x7f, 0x67)
  {}

  /** Pass 6 of the round loop of aes_key_schedule_128 in the example. */
  lemma KeyStep6()
    ensures NextRoundKey(SBox, RoundKey6(), RC[6]) == RoundKey7()
  {
    KeyTemp6();
    KeyStepByColumns(Word(0x5e, 0x39, 0x0f, 0x7d), Word(0xf7, 0xa6, 0x92, 0x96), Word(0xa7, 0x55, 0x3d, 0xc1), Word(0x0a, 0xa3, 0x1f, 0x6b), 0x40, Word(0x4a, 0xc0, 0x7f, 0x67),
                     Word(0x14, 0xf9, 0x70, 0x1a), Word(0xe3, 0x5f, 0xe2, 0x8c), Word(0x44, 0x0a, 0xdf, 0x4d), Word(0x4e, 0xa9, 0xc0, 0x26));
  }

  lemma KeyTemp7()
    ensures WordAdd(SubWord(SBox, RotWord(Word(0x4e, 0xa9, 0xc0, 0x26))), Word(0x80, 0x00, 0x00, 0x00)) == Word(0x53, 0xba, 0xf7, 0x2f)
  {}

  /** Pass 7 of the round loop of aes_key_schedule_128 in the example. */
  lemma KeyStep7()
    ensures NextRoundKey(SBox, RoundKey7(), RC[7]) == RoundKey8()
  {
    KeyTemp7();
    KeyStepByColumns(Word(0x14, 0xf9, 0x70, 0x1a), Word(0xe3, 0x5f, 0xe2, 0x8c), Word(0x44, 0x0a, 0xdf, 0x4d), Word(0x4e, 0xa9, 0xc0, 0x26), 0x80, Word(0x53, 0xba, 0xf7, 0x2f),
                     Word(0x47, 0x43, 0x87, 0x35), Word(0xa4, 0x1c, 0x65, 0xb9), Word(0xe0, 0x16, 0xba, 0xf4), Word(0xae, 0xbf, 0x7a, 0xd2));
  }

  lemma KeyTemp8()
    ensures WordAdd(SubWord(SBox, RotWord(Word(0xae, 0xbf, 0x7a, 0xd2))), Word(0x1b, 0x00, 0x00, 0x00)) == Word(0x13, 0xda, 0xb5, 0xe4)
  {}

  /** Pass 8 of the round loop of aes_key_schedule_128 in the example. */
  lemma KeyStep8()
    ensures NextRoundKey(SBox, RoundKey8(), RC[8]) == RoundKey9()
  {
    KeyTemp8();
    KeyStepByColumns(Word(0x47, 0x43, 0x87, 0x35), Word(0xa4, 0x1c, 0x65, 0xb9), Word(0xe0, 0x16, 0xba, 0xf4), Word(0xae, 0xbf, 0x7a, 0xd2), 0x1b, Word(0x13, 0xda, 0xb5, 0xe4),
                     Word(0x54, 0x99, 0x32, 0xd1), Word(0xf0, 0x85, 0x57, 0x68), Word(0x10, 0x93, 0xed, 0x9c), Word(0xbe, 0x2c, 0x97, 0x4e));
  }

  lemma KeyTemp9()
    ensures WordAdd(SubWord(SBox, RotWord(Word(0xbe, 0x2c, 0x97, 0x4e))), Word(0x36, 0x00, 0x00, 0x00)) == Word(0x47, 0x88, 0x2f, 0xae)
  {}

  /** Pass 9 of the round loop of aes_key_schedule_128 in the example. */
  lemma KeyStep9()
    ensures NextRoundKey(SBox, RoundKey9(), RC[9]) == RoundKey10()
  {
    KeyTemp9();
    KeyStepByColumns(Word(0x54, 0x99, 0x32, 0xd1), Word(0xf0, 0x85, 0x57, 0x68), Word(0x10, 0x93, 0xed, 0x9c), Word(0xbe, 0x2c, 0x97, 0x4e), 0x36, Word(0x47, 0x88, 0x2f, 0xae),
                     Word(0x13, 0x11, 0x1d, 0x7f), Word(0xe3, 0x94, 0x4a, 0x17), Word(0xf3, 0x07, 0xa7, 0x8b), Word(0x4d, 0x2b, 0x30, 0xc5));
  }

  // ---------------------------------------------------------------------
  // The nine middle rounds, column by column

  lemma Round1Sub0()
    ensures SubWord(SBox, Word(0x00, 0x50, 0xa0, 0xf0)) == Word(0x63, 0x53, 0xe0, 0x8c)
  {}

  lemma Round1Mix0()
    ensures MixColumnShared(Word(0x63, 0x53, 0xe0, 0x8c)) == Word(0x5f, 0x72, 0x64, 0x15)
  {}

  lemma Round1Sub1()
    ensures SubWord(SBox, Word(0x40, 0x90, 0xe0, 0x30)) == Word(0x09, 0x60, 0xe1, 0x04)
  {}

  lemma Round1Mix1()
    ensures MixColumnShared(Word(0x09, 0x60, 0xe1, 0x04)) == Word(0x57, 0xf5, 0xbc, 0x92)
  {}

  lemma Round1Sub2()
    ensures SubWord(SBox, Word(0x80, 0xd0, 0x20, 0x70)) == Word(0xcd, 0x70, 0xb7, 0x51)
  {}

  lemma Round1Mix2()
    ensures MixColumnShared(Word(0xcd, 0x70, 0xb7, 0x51)) == Word(0xf7, 0xbe, 0x3b, 0x29)
  {}

  lemma Round1Sub3()
    ensures SubWord(SBox, Word(0xc0, 0x10, 0x60, 0xb0)) == Word(0xba, 0xca, 0xd0, 0xe7)
  {}

  lemma Round1Mix3()
    ensures MixColumnShared(Word(0xba, 0xca, 0xd0, 0xe7)) == Word(0x1d, 0xb9, 0xf9, 0x1a)
  {}

  lemma Round1Substituted()
    ensures SubBytes(ShiftRows(State1())) == FromColumns(Word(0x63, 0x53, 0xe0, 0x8c), Word(0x09, 0x60, 0xe1, 0x04), Word(0xcd, 0x70, 0xb7, 0x51), Word(0xba, 0xca, 0xd0, 0xe7))
  {
    SubShiftColumns(Word(0x00, 0x10, 0x20, 0x30), Word(0x40, 0x50, 0x60, 0x70), Word(0x80, 0x90, 0xa0, 0xb0), Word(0xc0, 0xd0, 0xe0, 0xf0));
    Round1Sub0(); Round1Sub1(); Round1Sub2(); Round1Sub3();
  }

  lemma Round1Mixed()
    ensures MixColumns(FromColumns(Word(0x63, 0x53, 0xe0, 0x8c), Word(0x09, 0x60, 0xe1, 0x04), Word(0xcd, 0x70, 0xb7, 0x51), Word(0xba, 0xca, 0xd0, 0xe7))) == FromColumns(Word(0x5f, 0x72, 0x64, 0x15), Word(0x57, 0xf5, 0xbc, 0x92), Word(0xf7, 0xbe, 0x3b, 0x29), Word(0x1d, 0xb9, 0xf9, 0x1a))
  {
    MixByColumns(Word(0x63, 0x53, 0xe0, 0x8c), Word(0x09, 0x60, 0xe1, 0x04), Word(0xcd, 0x70, 0xb7, 0x51), Word(0xba, 0xca, 0xd0, 0xe7));
    Round1Mix0(); Round1Mix1(); Round1Mix2(); Round1Mix3();
  }

  lemma Round1Keyed()
    ensures AddRoundKey(FromColumns(Word(0x5f, 0x72, 0x64, 0x15), Word(0x57, 0xf5, 0xbc, 0x92), Word(0xf7, 0xbe, 0x3b, 0x29), Word(0x1d, 0xb9, 0xf9, 0x1a)), RoundKey1()) == State2()
  {
    AddKeyByColumns(Word(0x5f, 0x72, 0x64, 0x15), Word(0x57, 0xf5, 0xbc, 0x92), Word(0xf7, 0xbe, 0x3b, 0x29), Word(0x1d, 0xb9, 0xf9, 0x1a),
                    Word(0xd6, 0xaa, 0x74, 0xfd), Word(0xd2, 0xaf, 0x72, 0xfa), Word(0xda, 0xa6, 0x78, 0xf1), Word(0xd6, 0xab, 0x76, 0xfe));
  }

  /** Round 1 of the example, as aes_enc_round computes it. */
  lemma Round1()
    ensures EncRound(State1(), RoundKey1()) == State2()
  {
    Round1Substituted(); Round1Mixed(); Round1Keyed();
  }

  lemma Round2Sub0()
    ensures SubWord(SBox, Word(0x89, 0x5a, 0x43, 0xe4)) == Word(0xa7, 0xbe, 0x1a, 0x69)
  {}

  lemma Round2Mix0()
    ensures MixColumnShared(Word(0xa7, 0xbe, 0x1a, 0x69)) == Word(0xff, 0x87, 0x96, 0x84)
  {}

  lemma Round2Sub1()
    ensures SubWord(SBox, Word(0x85, 0x18, 0x8f, 0xe8)) == Word(0x97, 0xad, 0x73, 0x9b)
  {}

  lemma Round2Mix1()
    ensures MixColumnShared(Word(0x97, 0xad, 0x73, 0x9b)) == Word(0x31, 0xd8, 0x6a, 0x51)
  {}

  lemma Round2Sub2()
    ensures SubWord(SBox, Word(0x2d, 0x12, 0x10, 0x68)) == Word(0xd8, 0xc9, 0xca, 0x45)
  {}

  lemma Round2Mix2()
    ensures MixColumnShared(Word(0xd8, 0xc9, 0xca, 0x45)) == Word(0x64, 0x51, 0x51, 0xfa)
  {}

  lemma Round2Sub3()
    ensures SubWord(SBox, Word(0xcb, 0xd8, 0xce, 0xd8)) == Word(0x1f, 0x61, 0x8b, 0x61)
  {}

  lemma Round2Mix3()
    ensures MixColumnShared(Word(0x1f, 0x61, 0x8b, 0x61)) == Word(0x77, 0x3a, 0xd0, 0x09)
  {}

  lemma Round2Substituted()
    ensures SubBytes(ShiftRows(State2())) == FromColumns(Word(0xa7, 0xbe, 0x1a, 0x69), Word(0x97, 0xad, 0x73, 0x9b), Word(0xd8, 0xc9, 0xca, 0x45), Word(0x1f, 0x61, 0x8b, 0x61))
  {
    SubShiftColumns(Word(0x89, 0xd8, 0x10, 0xe8), Word(0x85, 0x5a, 0xce, 0x68), Word(0x2d, 0x18, 0x43, 0xd8), Word(0xcb, 0x12, 0x8f, 0xe4));
    Round2Sub0(); Round2Sub1(); Round2Sub2(); Round2Sub3();
  }

  lemma Round2Mixed()
    ensures MixColumns(FromColumns(Word(0xa7, 0xbe, 0x1a, 0x69), Word(0x97, 0xad, 0x73, 0x9b), Word(0xd8, 0xc9, 0xca, 0x45), Word(0x1f, 0x61, 0x8b, 0x61))) == FromColumns(Word(0xff, 0x87, 0x96, 0x84), Word(0x31, 0xd8, 0x6a, 0x51), Word(0x64, 0x51, 0x51, 0xfa), Word(0x77, 0x3a, 0xd0, 0x09))
  {
    MixByColumns(Word(0xa7, 0xbe, 0x1a, 0x69), Word(0x97, 0xad, 0x73, 0x9b), Word(0xd8, 0xc9, 0xca, 0x45), Word(0x1f, 0x61, 0x8b, 0x61));
    Round2Mix0(); Round2Mix1(); Round2Mix2(); Round2Mix3();
  }

  lemma Round2Keyed()
    ensures AddRoundKey(FromColumns(Word(0xff, 0x87, 0x96, 0x84), Word(0x31, 0xd8, 0x6a, 0x51), Word(0x64, 0x51, 0x51, 0xfa), Word(0x77, 0x3a, 0xd0, 0x09)), RoundKey2()) == State3()
  {
    AddKeyByColumns(Word(0xff, 0x87, 0x96, 0x84), Word(0x31, 0xd8, 0x6a, 0x51), Word(0x64, 0x51, 0x51, 0xfa), Word(0x77, 0x3a, 0xd0, 0x09),
                    Word(0xb6, 0x92, 0xcf, 0x0b), Word(0x64, 0x3d, 0xbd, 0xf1), Word(0xbe, 0x9b, 0xc5, 0x00), Word(0x68, 0x30, 0xb3, 0xfe));
  }

  /** Round 2 of the example, as aes_enc_round computes it. */
  lemma Round2()
    ensures EncRound(State2(), RoundKey2()) == State3()
  {
    Round2Substituted(); Round2Mixed(); Round2Keyed();
  }

  lemma Round3Sub0()
    ensures SubWord(SBox, Word(0x49, 0xe5, 0x94, 0xf7)) == Word(0x3b, 0xd9, 0x22, 0x68)
  {}

  lemma Round3Mix0()
    ensures MixColumnShared(Word(0x3b, 0xd9, 0x22, 0x68)) == Word(0x4c, 0x9c, 0x1e, 0x66)
  {}

  lemma Round3Sub1()
    ensures SubWord(SBox, Word(0x55, 0xca, 0x63, 0x8f)) == Word(0xfc, 0x74, 0xfb, 0x73)
  {}

  lemma Round3Mix1()
    ensures MixColumnShared(Word(0xfc, 0x74, 0xfb, 0x73)) == Word(0xf7, 0x71, 0xf0, 0x76)
  {}

  lemma Round3Sub2()
    ensures SubWord(SBox, Word(0xda, 0x0a, 0x59, 0xa0)) == Word(0x57, 0x67, 0xcb, 0xe0)
  {}

  lemma Round3Mix2()
    ensures MixColumnShared(Word(0x57, 0x67, 0xcb, 0xe0)) == Word(0x2c, 0x3f, 0x86, 0x8e)
  {}

  lemma Round3Sub3()
    ensures SubWord(SBox, Word(0x1f, 0x15, 0xd7, 0xfa)) == Word(0xc0, 0x59, 0x0e, 0x2d)
  {}

  lemma Round3Mix3()
    ensures MixColumnShared(Word(0xc0, 0x59, 0x0e, 0x2d)) == Word(0x53, 0x4d, 0xf2, 0x56)
  {}

  lemma Round3Substituted()
    ensures SubBytes(ShiftRows(State3())) == FromColumns(Word(0x3b, 0xd9, 0x22, 0x68), Word(0xfc, 0x74, 0xfb, 0x73), Word(0x57, 0x67, 0xcb, 0xe0), Word(0xc0, 0x59, 0x0e, 0x2d))
  {
    SubShiftColumns(Word(0x49, 0x15, 0x59, 0x8f), Word(0x55, 0xe5, 0xd7, 0xa0), Word(0xda, 0xca, 0x94, 0xfa), Word(0x1f, 0x0a, 0x63, 0xf7));
    Round3Sub0(); Round3Sub1(); Round3Sub2(); Round3Sub3();
  }

  lemma Round3Mixed()
    ensures MixColumns(FromColumns(Word(0x3b, 0xd9, 0x22, 0x68), Word(0xfc, 0x74, 0xfb, 0x73), Word(0x57, 0x67, 0xcb, 0xe0), Word(0xc0, 0x59, 0x0e, 0x2d))) == FromColumns(Word(0x4c, 0x9c, 0x1e, 0x66), Word(0xf7, 0x71, 0xf0, 0x76), Word(0x2c, 0x3f, 0x86, 0x8e), Word(0x53, 0x4d, 0xf2, 0x56))
  {
    MixByColumns(Word(0x3b, 0xd9, 0x22, 0x68), Word(0xfc, 0x74, 0xfb, 0x73), Word(0x57, 0x67, 0xcb, 0xe0), Word(0xc0, 0x59, 0x0e, 0x2d));
    Round3Mix0(); Round3Mix1(); Round3Mix2(); Round3Mix3();
  }

  lemma Round3Keyed()
    ensures AddRoundKey(FromColumns(Word(0x4c, 0x9c, 0x1e, 0x66), Word(0xf7, 0x71, 0xf0, 0x76), Word(0x2c, 0x3f, 0x86, 0x8e), Word(0x53, 0x4d, 0xf2, 0x56)), RoundKey3()) == State4()
  {
    AddKeyByColumns(Word(0x4c, 0x9c, 0x1e, 0x66), Word(0xf7, 0x71, 0xf0, 0x76), Word(0x2c, 0x3f, 0x86, 0x8e), Word(0x53, 0x4d, 0xf2, 0x56),
                    Word(0xb6, 0xff, 0x74, 0x4e), Word(0xd2, 0xc2, 0xc9, 0xbf), Word(0x6c, 0x59, 0x0c, 0xbf), Word(0x04, 0x69, 0xbf, 0x41));
  }

  /** Round 3 of the example, as aes_enc_round computes it. */
  lemma Round3()
    ensures EncRound(State3(), RoundKey3()) == State4()
  {
    Round3Substituted(); Round3Mixed(); Round3Keyed();
  }

  lemma Round4Sub0()
    ensures SubWord(SBox, Word(0xfa, 0xb3, 0x8a, 0x17)) == Word(0x2d, 0x6d, 0x7e, 0xf0)
  {}

  lemma Round4Mix0()
    ensures MixColumnShared(Word(0x2d, 0x6d, 0x7e, 0xf0)) == Word(0x63, 0x85, 0xb7, 0x9f)
  {}

  lemma Round4Sub1()
    ensures SubWord(SBox, Word(0x25, 0x66, 0x4d, 0x28)) == Word(0x3f, 0x33, 0xe3, 0x34)
  {}

  lemma Round4Mix1()
    ensures MixColumnShared(Word(0x3f, 0x33, 0xe3, 0x34)) == Word(0xfc, 0x53, 0x8d, 0xf9)
  {}

  lemma Round4Sub2()
    ensures SubWord(SBox, Word(0x40, 0x24, 0x6a, 0xc9)) == Word(0x09, 0x36, 0x02, 0xdd)
  {}

  lemma Round4Mix2()
    ensures MixColumnShared(Word(0x09, 0x36, 0x02, 0xdd)) == Word(0x97, 0xbe, 0x47, 0x8e)
  {}

  lemma Round4Sub3()
    ensures SubWord(SBox, Word(0x57, 0x63, 0x39, 0x31)) == Word(0x5b, 0xfb, 0x12, 0xc7)
  {}

  lemma Round4Mix3()
    ensures MixColumnShared(Word(0x5b, 0xfb, 0x12, 0xc7)) == Word(0x75, 0x47, 0xd6, 0x91)
  {}

  lemma Round4Substituted()
    ensures SubBytes(ShiftRows(State4())) == FromColumns(Word(0x2d, 0x6d, 0x7e, 0xf0), Word(0x3f, 0x33, 0xe3, 0x34), Word(0x09, 0x36, 0x02, 0xdd), Word(0x5b, 0xfb, 0x12, 0xc7))
  {
    SubShiftColumns(Word(0xfa, 0x63, 0x6a, 0x28), Word(0x25, 0xb3, 0x39, 0xc9), Word(0x40, 0x66, 0x8a, 0x31), Word(0x57, 0x24, 0x4d, 0x17));
    Round4Sub0(); Round4Sub1(); Round4Sub2(); Round4Sub3();
  }

  lemma Round4Mixed()
    ensures MixColumns(FromColumns(Word(0x2d, 0x6d, 0x7e, 0xf0), Word(0x3f, 0x33, 0xe3, 0x34), Word(0x09, 0x36, 0x02, 0xdd), Word(0x5b, 0xfb, 0x12, 0xc7))) == FromColumns(Word(0x63, 0x85, 0xb7, 0x9f), Word(0xfc, 0x53, 0x8d, 0xf9), Word(0x97, 0xbe, 0x47, 0x8e), Word(0x75, 0x47, 0xd6, 0x91))
  {
    MixByColumns(Word(0x2d, 0x6d, 0x7e, 0xf0), Word(0x3f, 0x33, 0xe3, 0x34), Word(0x09, 0x36, 0x02, 0xdd), Word(0x5b, 0xfb, 0x12, 0xc7));
    Round4Mix0(); Round4Mix1(); Round4Mix2(); Round4Mix3();
  }

  lemma Round4Keyed()
    ensures AddRoundKey(FromColumns(Word(0x63, 0x85, 0xb7, 0x9f), Word(0xfc, 0x53, 0x8d, 0xf9), Word(0x97, 0xbe, 0x47, 0x8e), Word(0x75, 0x47, 0xd6, 0x91)), RoundKey4()) == State5()
  {
    AddKeyByColumns(Word(0x63, 0x85, 0xb7, 0x9f), Word(0xfc, 0x53, 0x8d, 0xf9), Word(0x97, 0xbe, 0x47, 0x8e), Word(0x75, 0x47, 0xd6, 0x91),
                    Word(0x47, 0xf7, 0xf7, 0xbc), Word(0x95, 0x35, 0x3e, 0x03), Word(0xf9, 0x6c, 0x32, 0xbc), Word(0xfd, 0x05, 0x8d, 0xfd));
  }

  /** Round 4 of the example, as aes_enc_round computes it. */
  lemma Round4()
    ensures EncRound(State4(), RoundKey4()) == State5()
  {
    Round4Substituted(); Round4Mixed(); Round4Keyed();
  }

  lemma Round5Sub0()
    ensures SubWord(SBox, Word(0x24, 0x66, 0x75, 0x6c)) == Word(0x36, 0x33, 0x9d, 0x50)
  {}

  lemma Round5Mix0()
    ensures MixColumnShared(Word(0x36, 0x33, 0x9d, 0x50)) == Word(0xf4, 0xbc, 0xd4, 0x54)
  {}

  lemma Round5Sub1()
    ensures SubWord(SBox, Word(0x69, 0xd2, 0x5b, 0x23)) == Word(0xf9, 0xb5, 0x39, 0x26)
  {}

  lemma Round5Mix1()
    ensures MixColumnShared(Word(0xf9, 0xb5, 0x39, 0x26)) == Word(0x32, 0xe5, 0x54, 0xd0)
  {}

  lemma Round5Sub2()
    ensures SubWord(SBox, Word(0x6e, 0x42, 0x40, 0xfa)) == Word(0x9f, 0x2c, 0x09, 0x2d)
  {}

  lemma Round5Mix2()
    ensures MixColumnShared(Word(0x9f, 0x2c, 0x09, 0x2d)) == Word(0x75, 0xf1, 0xd6, 0xc5)
  {}

  lemma Round5Sub3()
    ensures SubWord(SBox, Word(0x88, 0x72, 0xb3, 0x32)) == Word(0xc4, 0x40, 0x6d, 0x23)
  {}

  lemma Round5Mix3()
    ensures MixColumnShared(Word(0xc4, 0x40, 0x6d, 0x23)) == Word(0x1d, 0xd0, 0x3b, 0x3c)
  {}

  lemma Round5Substituted()
    ensures SubBytes(ShiftRows(State5())) == FromColumns(Word(0x36, 0x33, 0x9d, 0x50), Word(0xf9, 0xb5, 0x39, 0x26), Word(0x9f, 0x2c, 0x09, 0x2d), Word(0xc4, 0x40, 0x6d, 0x23))
  {
    SubShiftColumns(Word(0x24, 0x72, 0x40, 0x23), Word(0x69, 0x66, 0xb3, 0xfa), Word(0x6e, 0xd2, 0x75, 0x32), Word(0x88, 0x42, 0x5b, 0x6c));
    Round5Sub0(); Round5Sub1(); Round5Sub2(); Round5Sub3();
  }

  lemma Round5Mixed()
    ensures MixColumns(FromColumns(Word(0x36, 0x33, 0x9d, 0x50), Word(0xf9, 0xb5, 0x39, 0x26), Word(0x9f, 0x2c, 0x09, 0x2d), Word(0xc4, 0x40, 0x6d, 0x23))) == FromColumns(Word(0xf4, 0xbc, 0xd4, 0x54), Word(0x32, 0xe5, 0x54, 0xd0), Word(0x75, 0xf1, 0xd6, 0xc5), Word(0x1d, 0xd0, 0x3b, 0x3c))
  {
    MixByColumns(Word(0x36, 0x33, 0x9d, 0x50), Word(0xf9, 0xb5, 0x39, 0x26), Word(0x9f, 0x2c, 0x09, 0x2d), Word(0xc4, 0x40, 0x6d, 0x23));
    Round5Mix0(); Round5Mix1(); Round5Mix2(); Round5Mix3();
  }

  lemma Round5Keyed()
    ensures AddRoundKey(FromColumns(Word(0xf4, 0xbc, 0xd4, 0x54), Word(0x32, 0xe5, 0x54, 0xd0), Word(0x75, 0xf1, 0xd6, 0xc5), Word(0x1d, 0xd0, 0x3b, 0x3c)), RoundKey5()) == State6()
  {
    AddKeyByColumns(Word(0xf4, 0xbc, 0xd4, 0x54), Word(0x32, 0xe5, 0x54, 0xd0), Word(0x75, 0xf1, 0xd6, 0xc5), Word(0x1d, 0xd0, 0x3b, 0x3c),
                    Word(0x3c, 0xaa, 0xa3, 0xe8), Word(0xa9, 0x9f, 0x9d, 0xeb), Word(0x50, 0xf3, 0xaf, 0x57), Word(0xad, 0xf6, 0x22, 0xaa));
  }

  /** Round 5 of the example, as aes_enc_round computes it. */
  lemma Round5()
    ensures EncRound(State5(), RoundKey5()) == State6()
  {
    Round5Substituted(); Round5Mixed(); Round5Keyed();
  }

  lemma Round6Sub0()
    ensures SubWord(SBox, Word(0xc8, 0x7a, 0x79, 0x96)) == Word(0xe8, 0xda, 0xb6, 0x90)
  {}

  lemma Round6Mix0()
    ensures MixColumnShared(Word(0xe8, 0xda, 0xb6, 0x90)) == Word(0x98, 0x16, 0xee, 0x74)
  {}

  lemma Round6Sub1()
    ensures SubWord(SBox, Word(0x9b, 0x02, 0x19, 0xbc)) == Word(0x14, 0x77, 0xd4, 0x65)
  {}

  lemma Round6Mix1()
    ensures MixColumnShared(Word(0x14, 0x77, 0xd4, 0x65)) == Word(0x00, 0xf8, 0x7f, 0x55)
  {}

  lemma Round6Sub2()
    ensures SubWord(SBox, Word(0x25, 0x26, 0x77, 0x3b)) == Word(0x3f, 0xf7, 0xf5, 0xe2)
  {}

  lemma Round6Mix2()
    ensures MixColumnShared(Word(0x3f, 0xf7, 0xf5, 0xe2)) == Word(0x6b, 0x2c, 0x04, 0x9c)
  {}

  lemma Round6Sub3()
    ensures SubWord(SBox, Word(0xb0, 0x16, 0xc9, 0x92)) == Word(0xe7, 0x47, 0xdd, 0x4f)
  {}

  lemma Round6Mix3()
    ensures MixColumnShared(Word(0xe7, 0x47, 0xdd, 0x4f)) == Word(0x8e, 0x5a, 0xd0, 0x36)
  {}

  lemma Round6Substituted()
    ensures SubBytes(ShiftRows(State6())) == FromColumns(Word(0xe8, 0xda, 0xb6, 0x90), Word(0x14, 0x77, 0xd4, 0x65), Word(0x3f, 0xf7, 0xf5, 0xe2), Word(0xe7, 0x47, 0xdd, 0x4f))
  {
    SubShiftColumns(Word(0xc8, 0x16, 0x77, 0xbc), Word(0x9b, 0x7a, 0xc9, 0x3b), Word(0x25, 0x02, 0x79, 0x92), Word(0xb0, 0x26, 0x19, 0x96));
    Round6Sub0(); Round6Sub1(); Round6Sub2(); Round6Sub3();
  }

  lemma Round6Mixed()
    ensures MixColumns(FromColumns(Word(0xe8, 0xda, 0xb6, 0x90), Word(0x14, 0x77, 0xd4, 0x65), Word(0x3f, 0xf7, 0xf5, 0xe2), Word(0xe7, 0x47, 0xdd, 0x4f))) == FromColumns(Word(0x98, 0x16, 0xee, 0x74), Word(0x00, 0xf8, 0x7f, 0x55), Word(0x6b, 0x2c, 0x04, 0x9c), Word(0x8e, 0x5a, 0xd0, 0x36))
  {
    MixByColumns(Word(0xe8, 0xda, 0xb6, 0x90), Word(0x14, 0x77, 0xd4, 0x65), Word(0x3f, 0xf7, 0xf5, 0xe2), Word(0xe7, 0x47, 0xdd, 0x4f));
    Round6Mix0(); Round6Mix1(); Round6Mix2(); Round6Mix3();
  }

  lemma Round6Keyed()
    ensures AddRoundKey(FromColumns(Word(0x98, 0x16, 0xee, 0x74), Word(0x00, 0xf8, 0x7f, 0x55), Word(0x6b, 0x2c, 0x04, 0x9c), Word(0x8e, 0x5a, 0xd0, 0x36)), RoundKey6()) == State7()
  {
    AddKeyByColumns(Word(0x98, 0x16, 0xee, 0x74), Word(0x00, 0xf8, 0x7f, 0x55), Word(0x6b, 0x2c, 0x04, 0x9c), Word(0x8e, 0x5a, 0xd0, 0x36),
                    Word(0x5e, 0x39, 0x0f, 0x7d), Word(0xf7, 0xa6, 0x92, 0x96), Word(0xa7, 0x55, 0x3d, 0xc1), Word(0x0a, 0xa3, 0x1f, 0x6b));
  }

  /** Round 6 of the example, as aes_enc_round computes it. */
  lemma Round6()
    ensures EncRound(State6(), RoundKey6()) == State7()
  {
    Round6Substituted(); Round6Mixed(); Round6Keyed();
  }

  lemma Round7Sub0()
    ensures SubWord(SBox, Word(0xc6, 0x5e, 0x39, 0x5d)) == Word(0xb4, 0x58, 0x12, 0x4c)
  {}

  lemma Round7Mix0()
    ensures MixColumnShared(Word(0xb4, 0x58, 0x12, 0x4c)) == Word(0xc5, 0x7e, 0x1c, 0x15)
  {}

  lemma Round7Sub1()
    ensures SubWord(SBox, Word(0xf7, 0x79, 0xcf, 0x09)) == Word(0x68, 0xb6, 0x8a, 0x01)
  {}

  lemma Round7Mix1()
    ensures MixColumnShared(Word(0x68, 0xb6, 0x8a, 0x01)) == Word(0x9a, 0x9b, 0xd2, 0x86)
  {}

  lemma Round7Sub2()
    ensures SubWord(SBox, Word(0xcc, 0xf9, 0xe1, 0xc3)) == Word(0x4b, 0x99, 0xf8, 0x2e)
  {}

  lemma Round7Mix2()
    ensures MixColumnShared(Word(0x4b, 0x99, 0xf8, 0x2e)) == Word(0xf0, 0x5f, 0x4b, 0xe0)
  {}

  lemma Round7Sub3()
    ensures SubWord(SBox, Word(0x84, 0x2f, 0xed, 0x5d)) == Word(0x5f, 0x15, 0x55, 0x4c)
  {}

  lemma Round7Mix3()
    ensures MixColumnShared(Word(0x5f, 0x15, 0x55, 0x4c)) == Word(0x98, 0xc6, 0x34, 0x39)
  {}

  lemma Round7Substituted()
    ensures SubBytes(ShiftRows(State7())) == FromColumns(Word(0xb4, 0x58, 0x12, 0x4c), Word(0x68, 0xb6, 0x8a, 0x01), Word(0x4b, 0x99, 0xf8, 0x2e), Word(0x5f, 0x15, 0x55, 0x4c))
  {
    SubShiftColumns(Word(0xc6, 0x2f, 0xe1, 0x09), Word(0xf7, 0x5e, 0xed, 0xc3), Word(0xcc, 0x79, 0x39, 0x5d), Word(0x84, 0xf9, 0xcf, 0x5d));
    Round7Sub0(); Round7Sub1(); Round7Sub2(); Round7Sub3();
  }

  lemma Round7Mixed()
    ensures MixColumns(FromColumns(Word(0xb4, 0x58, 0x12, 0x4c), Word(0x68, 0xb6, 0x8a, 0x01), Word(0x4b, 0x99, 0xf8, 0x2e), Word(0x5f, 0x15, 0x55, 0x4c))) == FromColumns(Word(0xc5, 0x7e, 0x1c, 0x15), Word(0x9a, 0x9b, 0xd2, 0x86), Word(0xf0, 0x5f, 0x4b, 0xe0), Word(0x98, 0xc6, 0x34, 0x39))
  {
    MixByColumns(Word(0xb4, 0x58, 0x12, 0x4c), Word(0x68, 0xb6, 0x8a, 0x01), Word(0x4b, 0x99, 0xf8, 0x2e), Word(0x5f, 0x15, 0x55, 0x4c));
    Round7Mix0(); Round7Mix1(); Round7Mix2(); Round7Mix3();
  }

  lemma Round7Keyed()
    ensures AddRoundKey(FromColumns(Word(0xc5, 0x7e, 0x1c, 0x15), Word(0x9a, 0x9b, 0xd2, 0x86), Word(0xf0, 0x5f, 0x4b, 0xe0), Word(0x98, 0xc6, 0x34, 0x39)), RoundKey7()) == State8()
  {
    AddKeyByColumns(Word(0xc5, 0x7e, 0x1c, 0x15), Word(0x9a, 0x9b, 0xd2, 0x86), Word(0xf0, 0x5f, 0x4b, 0xe0), Word(0x98, 0xc6, 0x34, 0x39),
                    Word(0x14, 0xf9, 0x70, 0x1a), Word(0xe3, 0x5f, 0xe2, 0x8c), Word(0x44, 0x0a, 0xdf, 0x4d), Word(0x4e, 0xa9, 0xc0, 0x26));
  }

  /** Round 7 of the example, as aes_enc_round computes it. */
  lemma Round7()
    ensures EncRound(State7(), RoundKey7()) == State8()
  {
    Round7Substituted(); Round7Mixed(); Round7Keyed();
  }

  lemma Round8Sub0()
    ensures SubWord(SBox, Word(0xd1, 0xc4, 0x94, 0x1f)) == Word(0x3e, 0x1c, 0x22, 0xc0)
  {}

  lemma Round8Mix0()
    ensures MixColumnShared(Word(0x3e, 0x1c, 0x22, 0xc0)) == Word(0xba, 0xa0, 0x3d, 0xe7)
  {}

  lemma Round8Sub1()
    ensures SubWord(SBox, Word(0x79, 0x55, 0xf4, 0x0f)) == Word(0xb6, 0xfc, 0xbf, 0x76)
  {}

  lemma Round8Mix1()
    ensures MixColumnShared(Word(0xb6, 0xfc, 0xbf, 0x76)) == Word(0xa1, 0xf9, 0xb5, 0x6e)
  {}

  lemma Round8Sub2()
    ensures SubWord(SBox, Word(0xb4, 0x6f, 0x6c, 0x0a)) == Word(0x8d, 0xa8, 0x50, 0x67)
  {}

  lemma Round8Mix2()
    ensures MixColumnShared(Word(0x8d, 0xa8, 0x50, 0x67)) == Word(0xd5, 0x51, 0x2c, 0xba)
  {}

  lemma Round8Sub3()
    ensures SubWord(SBox, Word(0xd6, 0x87, 0x30, 0xad)) == Word(0xf6, 0x17, 0x04, 0x95)
  {}

  lemma Round8Mix3()
    ensures MixColumnShared(Word(0xf6, 0x17, 0x04, 0x95)) == Word(0x5f, 0x41, 0x4d, 0x23)
  {}

  lemma Round8Substituted()
    ensures SubBytes(ShiftRows(State8())) == FromColumns(Word(0x3e, 0x1c, 0x22, 0xc0), Word(0xb6, 0xfc, 0xbf, 0x76), Word(0x8d, 0xa8, 0x50, 0x67), Word(0xf6, 0x17, 0x04, 0x95))
  {
    SubShiftColumns(Word(0xd1, 0x87, 0x6c, 0x0f), Word(0x79, 0xc4, 0x30, 0x0a), Word(0xb4, 0x55, 0x94, 0xad), Word(0xd6, 0x6f, 0xf4, 0x1f));
    Round8Sub0(); Round8Sub1(); Round8Sub2(); Round8Sub3();
  }

  lemma Round8Mixed()
    ensures MixColumns(FromColumns(Word(0x3e, 0x1c, 0x22, 0xc0), Word(0xb6, 0xfc, 0xbf, 0x76), Word(0x8d, 0xa8, 0x50, 0x67), Word(0xf6, 0x17, 0x04, 0x95))) == FromColumns(Word(0xba, 0xa0, 0x3d, 0xe7), Word(0xa1, 0xf9, 0xb5, 0x6e), Word(0xd5, 0x51, 0x2c, 0xba), Word(0x5f, 0x41, 0x4d, 0x23))
  {
    MixByColumns(Word(0x3e, 0x1c, 0x22, 0xc0), Word(0xb6, 0xfc, 0xbf, 0x76), Word(0x8d, 0xa8, 0x50, 0x67), Word(0xf6, 0x17, 0x04, 0x95));
    Round8Mix0(); Round8Mix1(); Round8Mix2(); Round8Mix3();
  }

  lemma Round8Keyed()
    ensures AddRoundKey(FromColumns(Word(0xba, 0xa0, 0x3d, 0xe7), Word(0xa1, 0xf9, 0xb5, 0x6e), Word(0xd5, 0x51, 0x2c, 0xba), Word(0x5f, 0x41, 0x4d, 0x23)), RoundKey8()) == State9()
  {
    AddKeyByColumns(Word(0xba, 0xa0, 0x3d, 0xe7), Word(0xa1, 0xf9, 0xb5, 0x6e), Word(0xd5, 0x51, 0x2c, 0xba), Word(0x5f, 0x41, 0x4d, 0x23),
                    Word(0x47, 0x43, 0x87, 0x35), Word(0xa4, 0x1c, 0x65, 0xb9), Word(0xe0, 0x16, 0xba, 0xf4), Word(0xae, 0xbf, 0x7a, 0xd2));
  }

  /** Round 8 of the example, as aes_enc_round computes it. */
  lemma Round8()
    ensures EncRound(State8(), RoundKey8()) == State9()
  {
    Round8Substituted(); Round8Mixed(); Round8Keyed();
  }

  lemma Round9Sub0()
    ensures SubWord(SBox, Word(0xfd, 0xe5, 0x96, 0xf1)) == Word(0x54, 0xd9, 0x90, 0xa1)
  {}

  lemma Round9Mix0()
    ensures MixColumnShared(Word(0x54, 0xd9, 0x90, 0xa1)) == Word(0xe9, 0xf7, 0x4e, 0xec)
  {}

  lemma Round9Sub1()
    ensures SubWord(SBox, Word(0x05, 0x47, 0x37, 0xd2)) == Word(0x6b, 0xa0, 0x9a, 0xb5)
  {}

  lemma Round9Mix1()
    ensures MixColumnShared(Word(0x6b, 0xa0, 0x9a, 0xb5)) == Word(0x02, 0x30, 0x20, 0xf6)
  {}

  lemma Round9Sub2()
    ensures SubWord(SBox, Word(0x35, 0xfe, 0xba, 0xd7)) == Word(0x96, 0xbb, 0xf4, 0x0e)
  {}

  lemma Round9Mix2()
    ensures MixColumnShared(Word(0x96, 0xbb, 0xf4, 0x0e)) == Word(0x1b, 0xf2, 0xcc, 0xf2)
  {}

  lemma Round9Sub3()
    ensures SubWord(SBox, Word(0xf1, 0xe3, 0xd0, 0x4e)) == Word(0xa1, 0x11, 0x70, 0x2f)
  {}

  lemma Round9Mix3()
    ensures MixColumnShared(Word(0xa1, 0x11, 0x70, 0x2f)) == Word(0x35, 0x3c, 0x21, 0xc7)
  {}

  lemma Round9Substituted()
    ensures SubBytes(ShiftRows(State9())) == FromColumns(Word(0x54, 0xd9, 0x90, 0xa1), Word(0x6b, 0xa0, 0x9a, 0xb5), Word(0x96, 0xbb, 0xf4, 0x0e), Word(0xa1, 0x11, 0x70, 0x2f))
  {
    SubShiftColumns(Word(0xfd, 0xe3, 0xba, 0xd2), Word(0x05, 0xe5, 0xd0, 0xd7), Word(0x35, 0x47, 0x96, 0x4e), Word(0xf1, 0xfe, 0x37, 0xf1));
    Round9Sub0(); Round9Sub1(); Round9Sub2(); Round9Sub3();
  }

  lemma Round9Mixed()
    ensures MixColumns(FromColumns(Word(0x54, 0xd9, 0x90, 0xa1), Word(0x6b, 0xa0, 0x9a, 0xb5), Word(0x96, 0xbb, 0xf4, 0x0e), Word(0xa1, 0x11, 0x70, 0x2f))) == FromColumns(Word(0xe9, 0xf7, 0x4e, 0xec), Word(0x02, 0x30, 0x20, 0xf6), Word(0x1b, 0xf2, 0xcc, 0xf2), Word(0x35, 0x3c, 0x21, 0xc7))
  {
    MixByColumns(Word(0x54, 0xd9, 0x90, 0xa1), Word(0x6b, 0xa0, 0x9a, 0xb5), Word(0x96, 0xbb, 0xf4, 0x0e), Word(0xa1, 0x11, 0x70, 0x2f));
    Round9Mix0(); Round9Mix1(); Round9Mix2(); Round9Mix3();
  }

  lemma Round9Keyed()
    ensures AddRoundKey(FromColumns(Word(0xe9, 0xf7, 0x4e, 0xec), Word(0x02, 0x30, 0x20, 0xf6), Word(0x1b, 0xf2, 0xcc, 0xf2), Word(0x35, 0x3c, 0x21, 0xc7)), RoundKey9()) == State10()
  {
    AddKeyByColumns(Word(0xe9, 0xf7, 0x4e, 0xec), Word(0x02, 0x30, 0x20, 0xf6), Word(0x1b, 0xf2, 0xcc, 0xf2), Word(0x35, 0x3c, 0x21, 0xc7),
                    Word(0x54, 0x99, 0x32, 0xd1), Word(0xf0, 0x85, 0x57, 0x68), Word(0x10, 0x93, 0xed, 0x9c), Word(0xbe, 0x2c, 0x97, 0x4e));
  }

  /** Round 9 of the example, as aes_enc_round computes it. */
  lemma Round9()
    ensures EncRound(State9(), RoundKey9()) == State10()
  {
    Round9Substituted(); Round9Mixed(); Round9Keyed();
  }

  // ---------------------------------------------------------------------
  // The final round and the first round key

  lemma Round10Sub0()
    ensures SubWord(SBox, Word(0xbd, 0xb5, 0x21, 0x89)) == Word(0x7a, 0xd5, 0xfd, 0xa7)
  {}

  lemma Round10Sub1()
    ensures SubWord(SBox, Word(0xf2, 0x61, 0xb6, 0x3d)) == Word(0x89, 0xef, 0x4e, 0x27)
  {}

  lemma Round10Sub2()
    ensures SubWord(SBox, Word(0x0b, 0x10, 0x7c, 0x9e)) == Word(0x2b, 0xca, 0x10, 0x0b)
  {}

  lemma Round10Sub3()
    ensures SubWord(SBox, Word(0x8b, 0x6e, 0x77, 0x6e)) == Word(0x3d, 0x9f, 0xf5, 0x9f)
  {}

  lemma Round10Substituted()
    ensures SubBytes(ShiftRows(State10())) == FromColumns(Word(0x7a, 0xd5, 0xfd, 0xa7), Word(0x89, 0xef, 0x4e, 0x27), Word(0x2b, 0xca, 0x10, 0x0b), Word(0x3d, 0x9f, 0xf5, 0x9f))
  {
    SubShiftColumns(Word(0xbd, 0x6e, 0x7c, 0x3d), Word(0xf2, 0xb5, 0x77, 0x9e), Word(0x0b, 0x61, 0x21, 0x6e), Word(0x8b, 0x10, 0xb6, 0x89));
    Round10Sub0(); Round10Sub1(); Round10Sub2(); Round10Sub3();
  }

  lemma Round10Keyed()
    ensures AddRoundKey(FromColumns(Word(0x7a, 0xd5, 0xfd, 0xa7), Word(0x89, 0xef, 0x4e, 0x27), Word(0x2b, 0xca, 0x10, 0x0b), Word(0x3d, 0x9f, 0xf5, 0x9f)), RoundKey10()) == Ciphertext()
  {
    AddKeyByColumns(Word(0x7a, 0xd5, 0xfd, 0xa7), Word(0x89, 0xef, 0x4e, 0x27), Word(0x2b, 0xca, 0x10, 0x0b), Word(0x3d, 0x9f, 0xf5, 0x9f),
                    Word(0x13, 0x11, 0x1d, 0x7f), Word(0xe3, 0x94, 0x4a, 0x17), Word(0xf3, 0x07, 0xa7, 0x8b), Word(0x4d, 0x2b, 0x30, 0xc5));
  }

  /** The final round (no MixColumns) takes the state of round 10 to the ciphertext. */
  lemma Round10()
    ensures FinalRound(State10(), RoundKey10()) == Ciphertext()
  {
    SubBytesShiftRows(State10());
    Round10Substituted();
    Round10Keyed();
  }

  /** The first round key takes the plaintext to the state of round 1. */
  lemma Round0()
    ensures AddRoundKey(Plaintext(), Key()) == State1()
  {
    AddKeyByColumns(Word(0x00, 0x11, 0x22, 0x33), Word(0x44, 0x55, 0x66, 0x77), Word(0x88, 0x99, 0xaa, 0xbb), Word(0xcc, 0xdd, 0xee, 0xff),
                    Word(0x00, 0x01, 0x02, 0x03), Word(0x04, 0x05, 0x06, 0x07), Word(0x08, 0x09, 0x0a, 0x0b), Word(0x0c, 0x0d, 0x0e, 0x0f));
  }

  // ---------------------------------------------------------------------
  // Chaining the steps

  lemma Schedule1()
    ensures ExpandKey(Key())[1] == RoundKey1()
  {
    ExpandKeyStep(Key(), 0);
    KeyStep0();
  }

  lemma Schedule2()
    ensures ExpandKey(Key())[2] == RoundKey2()
  {
    Schedule1();
    ExpandKeyStep(Key(), 1);
    KeyStep1();
  }

  lemma Schedule3()
    ensures ExpandKey(Key())[3] == RoundKey3()
  {
    Schedule2();
    ExpandKeyStep(Key(), 2);
    KeyStep2();
  }

  lemma Schedule4()
    ensures ExpandKey(Key())[4] == RoundKey4()
  {
    Schedule3();
    ExpandKeyStep(Key(), 3);
    KeyStep3();
  }

  lemma Schedule5()
    ensures ExpandKey(Key())[5] == RoundKey5()
  {
    Schedule4();
    ExpandKeyStep(Key(), 4);
    KeyStep4();
  }

  lemma Schedule6()
    ensures ExpandKey(Key())[6] == RoundKey6()
  {
    Schedule5();
    ExpandKeyStep(Key(), 5);
    KeyStep5();
  }

  lemma Schedule7()
    ensures ExpandKey(Key())[7] == RoundKey7()
  {
    Schedule6();
    ExpandKeyStep(Key(), 6);
    KeyStep6();
  }

  lemma Schedule8()
    ensures ExpandKey(Key())[8] == RoundKey8()
  {
    Schedule7();
    ExpandKeyStep(Key(), 7);
    KeyStep7();
  }

  lemma Schedule9()
    ensures ExpandKey(Key())[9] == RoundKey9()
  {
    Schedule8();
    ExpandKeyStep(Key(), 8);
    KeyStep8();
  }

  lemma Schedule10()
    ensures ExpandKey(Key())[10] == RoundKey10()
  {
    Schedule9();
    ExpandKeyStep(Key(), 9);
    KeyStep9();
  }

  lemma Rounds1(w: RoundKeys)
    requires IsExampleSchedule(w)
    ensures EncRounds(State1(), w, 1) == State2()
  {
    Round1();
  }

  lemma Rounds2(w: RoundKeys)
    requires IsExampleSchedule(w)
    ensures EncRounds(State1(), w, 2) == State3()
  {
    Rounds1(w);
    Round2();
  }

  lemma Rounds3(w: RoundKeys)
    requires IsExampleSchedule(w)
    ensures EncRounds(State1(), w, 3) == State4()
  {
    Rounds2(w);
    Round3();
  }

  lemma Rounds4(w: RoundKeys)
    requires IsExampleSchedule(w)
    ensures EncRounds(State1(), w, 4) == State5()
  {
    Rounds3(w);
    Round4();
  }

  lemma Rounds5(w: RoundKeys)
    requires IsExampleSchedule(w)
    ensures EncRounds(State1(), w, 5) == State6()
  {
    Rounds4(w);
    Round5();
  }

  lemma Rounds6(w: RoundKeys)
    requires IsExampleSchedule(w)
    ensures EncRounds(State1(), w, 6) == State7()
  {
    Rounds5(w);
    Round6();
  }

  lemma Rounds7(w: RoundKeys)
    requires IsExampleSchedule(w)
    ensures EncRounds(State1(), w, 7) == State8()
  {
    Rounds6(w);
    Round7();
  }

  lemma Rounds8(w: RoundKeys)
    requires IsExampleSchedule(w)
    ensures EncRounds(State1(), w, 8) == State9()
  {
    Rounds7(w);
    Round8();
  }

  lemma Rounds9(w: RoundKeys)
    requires IsExampleSchedule(w)
    ensures EncRounds(State1(), w, 9) == State10()
  {
    Rounds8(w);
    Round9();
  }

  /** The key schedule of the example yields its eleven round keys. */
  lemma ScheduleVector()
    ensures IsExampleSchedule(ExpandKey(Key()))
  {
    Schedule1(); Schedule2(); Schedule3(); Schedule4(); Schedule5();
    Schedule6(); Schedule7(); Schedule8(); Schedule9(); Schedule10();
  }

  /** FIPS PUB 197, appendix C.1: AES-128 encrypts the plaintext to the ciphertext under the key. */
  lemma EncryptVector()
    ensures Aes128Encrypt(Key(), Plaintext()) == Ciphertext()
  {
    ScheduleVector();
    Round0();
    Rounds9(ExpandKey(Key()));
    Round10();
  }

  /** ... and decrypts the ciphertext back to the plaintext. */
  lemma DecryptVector()
    ensures Aes128Decrypt(Key(), Ciphertext()) == Plaintext()
  {
    EncryptVector();
    Aes128RoundTrip(Key(), Plaintext(), Ciphertext());
  }

  /** The schedule aes_key_schedule_128 stores for the key gives the vector in both directions. */
  lemma StoredVector()
    ensures var w := Blocks(Flatten(ExpandKey(Key())));
      |w| == 11 && Encrypt(w, Plaintext()) == Ciphertext() && Decrypt(w, Ciphertext()) == Plaintext()
  {
    EncryptVector();
    Aes.StoredScheduleCipher(Key(), Plaintext());
  }
}
