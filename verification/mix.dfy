/*
 * The MixColumns transformation and its inverse (FIPS PUB 197, sections 5.1.3
 * and 5.3.3) as matrices over GF(2^8), and the two ways aes.c computes them:
 * the shared-sum form of its encryption round and the FELICS form of its
 * decryption round.
 */
module Mix {
  import opened GF

  /** A column of the state, top to bottom (FIPS 197, section 3.5). */
  datatype Word = Word(b0: bv8, b1: bv8, b2: bv8, b3: bv8)

  /** A 4x4 matrix over GF(2^8), by rows. */
  datatype Matrix = Matrix(r0: Word, r1: Word, r2: Word, r3: Word)

  /** The dot product of a matrix row `k` with a column `c`. */
  function Dot(k: Word, c: Word): bv8 {
    Add(Add(Mul(c.b0, k.b0), Mul(c.b1, k.b1)), Add(Mul(c.b2, k.b2), Mul(c.b3, k.b3)))
  }

  /** The matrix-column product m . c. */
  function Apply(m: Matrix, c: Word): Word {
    Word(Dot(m.r0, c), Dot(m.r1, c), Dot(m.r2, c), Dot(m.r3, c))
  }

  /** The bytewise sum (exclusive or) of two words. */
  function WordAdd(a: Word, b: Word): Word {
    Word(Add(a.b0, b.b0), Add(a.b1, b.b1), Add(a.b2, b.b2), Add(a.b3, b.b3))
  }

  function Scale(k: Word, q: bv8): Word {
    Word(Mul(k.b0, q), Mul(k.b1, q), Mul(k.b2, q), Mul(k.b3, q))
  }

  /** Row `r` of the product r . m. */
  function RowTimes(r: Word, m: Matrix): Word {
    WordAdd(WordAdd(Scale(m.r0, r.b0), Scale(m.r1, r.b1)), WordAdd(Scale(m.r2, r.b2), Scale(m.r3, r.b3)))
  }

  /** The matrix product a . b. */
  function MatMul(a: Matrix, b: Matrix): Matrix {
    Matrix(RowTimes(a.r0, b), RowTimes(a.r1, b), RowTimes(a.r2, b), RowTimes(a.r3, b))
  }

  const IDENTITY := Matrix(Word(1, 0, 0, 0), Word(0, 1, 0, 0), Word(0, 0, 1, 0), Word(0, 0, 0, 1))

  /** The MixColumns matrix (FIPS 197, equation 5.6). */
  const MIX := Matrix(Word(0x02, 0x03, 0x01, 0x01), Word(0x01, 0x02, 0x03, 0x01),
                      Word(0x01, 0x01, 0x02, 0x03), Word(0x03, 0x01, 0x01, 0x02))

  /** The InvMixColumns matrix (FIPS 197, equation 5.10). */
  const INV_MIX := Matrix(Word(0x0e, 0x0b, 0x0d, 0x09), Word(0x09, 0x0e, 0x0b, 0x0d),
                          Word(0x0d, 0x09, 0x0e, 0x0b), Word(0x0b, 0x0d, 0x09, 0x0e))

  /** MixColumns on one column. */
  function MixColumn(c: Word): Word {
    Apply(MIX, c)
  }

  /** InvMixColumns on one column. */
  function InvMixColumn(c: Word): Word {
    Apply(INV_MIX, c)
  }

  // ---------------------------------------------------------------------
  // Matrix algebra

  /** Adding words is commutative. */
  lemma WordAddComm(a: Word, b: Word)
    ensures WordAdd(a, b) == WordAdd(b, a)
  {}

  lemma DotScale(k: Word, c: Word, q: bv8)
    ensures Mul(Dot(k, c), q) == Dot(Scale(k, q), c)
  {
    var A := Mul(c.b0, k.b0); var B := Mul(c.b1, k.b1); var C := Mul(c.b2, k.b2); var D := Mul(c.b3, k.b3);
    MulAddLeft(Add(A, B), Add(C, D), q); MulAddLeft(A, B, q); MulAddLeft(C, D, q);
    MulAssoc(c.b0, k.b0, q); MulAssoc(c.b1, k.b1, q); MulAssoc(c.b2, k.b2, q); MulAssoc(c.b3, k.b3, q);
  }

  lemma DotAdd(k: Word, l: Word, c: Word)
    ensures Add(Dot(k, c), Dot(l, c)) == Dot(WordAdd(k, l), c)
  {
    MulAddRight(c.b0, k.b0, l.b0); MulAddRight(c.b1, k.b1, l.b1);
    MulAddRight(c.b2, k.b2, l.b2); MulAddRight(c.b3, k.b3, l.b3);
    var a, a' := Mul(c.b0, k.b0), Mul(c.b0, l.b0);
    var b, b' := Mul(c.b1, k.b1), Mul(c.b1, l.b1);
    var x, x' := Mul(c.b2, k.b2), Mul(c.b2, l.b2);
    var d, d' := Mul(c.b3, k.b3), Mul(c.b3, l.b3);
    AddSwap(Add(a, b), Add(x, d), Add(a', b'), Add(x', d'));
    AddSwap(a, b, a', b'); AddSwap(x, d, x', d');
  }

  lemma DotApply(r: Word, m: Matrix, c: Word)
    ensures Dot(r, Apply(m, c)) == Dot(RowTimes(r, m), c)
  {
    MulComm(Dot(m.r0, c), r.b0); MulComm(Dot(m.r1, c), r.b1);
    MulComm(Dot(m.r2, c), r.b2); MulComm(Dot(m.r3, c), r.b3);
    DotScale(m.r0, c, r.b0); DotScale(m.r1, c, r.b1); DotScale(m.r2, c, r.b2); DotScale(m.r3, c, r.b3);
    DotAdd(Scale(m.r0, r.b0), Scale(m.r1, r.b1), c);
    DotAdd(Scale(m.r2, r.b2), Scale(m.r3, r.b3), c);
    DotAdd(WordAdd(Scale(m.r0, r.b0), Scale(m.r1, r.b1)), WordAdd(Scale(m.r2, r.b2), Scale(m.r3, r.b3)), c);
  }

  /** Applying two matrices in turn is applying their product. */
  lemma ApplyApply(a: Matrix, b: Matrix, c: Word)
    ensures Apply(a, Apply(b, c)) == Apply(MatMul(a, b), c)
  {
    DotApply(a.r0, b, c); DotApply(a.r1, b, c); DotApply(a.r2, b, c); DotApply(a.r3, b, c);
  }

  lemma ApplyIdentity(c: Word)
    ensures Apply(IDENTITY, c) == c
  {
    MulOneRight(c.b0); MulOneRight(c.b1); MulOneRight(c.b2); MulOneRight(c.b3);
    MulZeroRight(c.b0); MulZeroRight(c.b1); MulZeroRight(c.b2); MulZeroRight(c.b3);
  }

  /** The products of an entry of one matrix with an entry of the other. */
  lemma EntryProducts()
    ensures Mul(1, 0x0e) == 0x0e && Mul(1, 0x0b) == 0x0b && Mul(1, 0x0d) == 0x0d && Mul(1, 0x09) == 0x09
    ensures Mul(2, 0x0e) == 0x1c && Mul(2, 0x0b) == 0x16 && Mul(2, 0x0d) == 0x1a && Mul(2, 0x09) == 0x12
    ensures Mul(3, 0x0e) == 0x12 && Mul(3, 0x0b) == 0x1d && Mul(3, 0x0d) == 0x17 && Mul(3, 0x09) == 0x1b
  {
    MulOneLeft(0x0e); MulOneLeft(0x0b); MulOneLeft(0x0d); MulOneLeft(0x09);
    MulComm(2, 0x0e); MulComm(2, 0x0b); MulComm(2, 0x0d); MulComm(2, 0x09);
    MulTwoRight(0x0e); MulTwoRight(0x0b); MulTwoRight(0x0d); MulTwoRight(0x09);
    MulComm(3, 0x0e); MulComm(3, 0x0b); MulComm(3, 0x0d); MulComm(3, 0x09);
    MulThreeRight(0x0e); MulThreeRight(0x0b); MulThreeRight(0x0d); MulThreeRight(0x09);
  }

  lemma EntryProductsSwapped()
    ensures Mul(0x0e, 1) == 0x0e && Mul(0x0b, 1) == 0x0b && Mul(0x0d, 1) == 0x0d && Mul(0x09, 1) == 0x09
    ensures Mul(0x0e, 2) == 0x1c && Mul(0x0b, 2) == 0x16 && Mul(0x0d, 2) == 0x1a && Mul(0x09, 2) == 0x12
    ensures Mul(0x0e, 3) == 0x12 && Mul(0x0b, 3) == 0x1d && Mul(0x0d, 3) == 0x17 && Mul(0x09, 3) == 0x1b
  {
    MulOneRight(0x0e); MulOneRight(0x0b); MulOneRight(0x0d); MulOneRight(0x09);
    MulTwoRight(0x0e); MulTwoRight(0x0b); MulTwoRight(0x0d); MulTwoRight(0x09);
    MulThreeRight(0x0e); MulThreeRight(0x0b); MulThreeRight(0x0d); MulThreeRight(0x09);
  }

  // Rows of INV_MIX . MIX, with both matrices written out
  lemma InvMixRow0()
    ensures RowTimes(Word(0x0e, 0x0b, 0x0d, 0x09), Matrix(Word(0x02, 0x03, 0x01, 0x01), Word(0x01, 0x02, 0x03, 0x01),
              Word(0x01, 0x01, 0x02, 0x03), Word(0x03, 0x01, 0x01, 0x02))) == Word(0x01, 0x00, 0x00, 0x00)
  {
    EntryProducts();
    assert Scale(Word(0x02, 0x03, 0x01, 0x01), 0x0e) == Word(0x1c, 0x12, 0x0e, 0x0e);
    assert Scale(Word(0x01, 0x02, 0x03, 0x01), 0x0b) == Word(0x0b, 0x16, 0x1d, 0x0b);
    assert Scale(Word(0x01, 0x01, 0x02, 0x03), 0x0d) == Word(0x0d, 0x0d, 0x1a, 0x17);
    assert Scale(Word(0x03, 0x01, 0x01, 0x02), 0x09) == Word(0x1b, 0x09, 0x09, 0x12);
    assert WordAdd(Word(0x1c, 0x12, 0x0e, 0x0e), Word(0x0b, 0x16, 0x1d, 0x0b)) == Word(0x17, 0x04, 0x13, 0x05);
    assert WordAdd(Word(0x0d, 0x0d, 0x1a, 0x17), Word(0x1b, 0x09, 0x09, 0x12)) == Word(0x16, 0x04, 0x13, 0x05);
  }

  lemma InvMixRow1()
    ensures RowTimes(Word(0x09, 0x0e, 0x0b, 0x0d), Matrix(Word(0x02, 0x03, 0x01, 0x01), Word(0x01, 0x02, 0x03, 0x01),
              Word(0x01, 0x01, 0x02, 0x03), Word(0x03, 0x01, 0x01, 0x02))) == Word(0x00, 0x01, 0x00, 0x00)
  {
    EntryProducts();
    assert Scale(Word(0x02, 0x03, 0x01, 0x01), 0x09) == Word(0x12, 0x1b, 0x09, 0x09);
    assert Scale(Word(0x01, 0x02, 0x03, 0x01), 0x0e) == Word(0x0e, 0x1c, 0x12, 0x0e);
    assert Scale(Word(0x01, 0x01, 0x02, 0x03), 0x0b) == Word(0x0b, 0x0b, 0x16, 0x1d);
    assert Scale(Word(0x03, 0x01, 0x01, 0x02), 0x0d) == Word(0x17, 0x0d, 0x0d, 0x1a);
    assert WordAdd(Word(0x12, 0x1b, 0x09, 0x09), Word(0x0e, 0x1c, 0x12, 0x0e)) == Word(0x1c, 0x07, 0x1b, 0x07);
    assert WordAdd(Word(0x0b, 0x0b, 0x16, 0x1d), Word(0x17, 0x0d, 0x0d, 0x1a)) == Word(0x1c, 0x06, 0x1b, 0x07);
  }

  lemma InvMixRow2()
    ensures RowTimes(Word(0x0d, 0x09, 0x0e, 0x0b), Matrix(Word(0x02, 0x03, 0x01, 0x01), Word(0x01, 0x02, 0x03, 0x01),
              Word(0x01, 0x01, 0x02, 0x03), Word(0x03, 0x01, 0x01, 0x02))) == Word(0x00, 0x00, 0x01, 0x00)
  {
    EntryProducts();
    assert Scale(Word(0x02, 0x03, 0x01, 0x01), 0x0d) == Word(0x1a, 0x17, 0x0d, 0x0d);
    assert Scale(Word(0x01, 0x02, 0x03, 0x01), 0x09) == Word(0x09, 0x12, 0x1b, 0x09);
    assert Scale(Word(0x01, 0x01, 0x02, 0x03), 0x0e) == Word(0x0e, 0x0e, 0x1c, 0x12);
    assert Scale(Word(0x03, 0x01, 0x01, 0x02), 0x0b) == Word(0x1d, 0x0b, 0x0b, 0x16);
    assert WordAdd(Word(0x1a, 0x17, 0x0d, 0x0d), Word(0x09, 0x12, 0x1b, 0x09)) == Word(0x13, 0x05, 0x16, 0x04);
    assert WordAdd(Word(0x0e, 0x0e, 0x1c, 0x12), Word(0x1d, 0x0b, 0x0b, 0x16)) == Word(0x13, 0x05, 0x17, 0x04);
  }

  lemma InvMixRow3()
    ensures RowTimes(Word(0x0b, 0x0d, 0x09, 0x0e), Matrix(Word(0x02, 0x03, 0x01, 0x01), Word(0x01, 0x02, 0x03, 0x01),
              Word(0x01, 0x01, 0x02, 0x03), Word(0x03, 0x01, 0x01, 0x02))) == Word(0x00, 0x00, 0x00, 0x01)
  {
    EntryProducts();
    assert Scale(Word(0x02, 0x03, 0x01, 0x01), 0x0b) == Word(0x16, 0x1d, 0x0b, 0x0b);
    assert Scale(Word(0x01, 0x02, 0x03, 0x01), 0x0d) == Word(0x0d, 0x1a, 0x17, 0x0d);
    assert Scale(Word(0x01, 0x01, 0x02, 0x03), 0x09) == Word(0x09, 0x09, 0x12, 0x1b);
    assert Scale(Word(0x03, 0x01, 0x01, 0x02), 0x0e) == Word(0x12, 0x0e, 0x0e, 0x1c);
    assert WordAdd(Word(0x16, 0x1d, 0x0b, 0x0b), Word(0x0d, 0x1a, 0x17, 0x0d)) == Word(0x1b, 0x07, 0x1c, 0x06);
    assert WordAdd(Word(0x09, 0x09, 0x12, 0x1b), Word(0x12, 0x0e, 0x0e, 0x1c)) == Word(0x1b, 0x07, 0x1c, 0x07);
  }

  // Rows of MIX . INV_MIX
  lemma MixRow0()
    ensures RowTimes(Word(0x02, 0x03, 0x01, 0x01), Matrix(Word(0x0e, 0x0b, 0x0d, 0x09), Word(0x09, 0x0e, 0x0b, 0x0d),
              Word(0x0d, 0x09, 0x0e, 0x0b), Word(0x0b, 0x0d, 0x09, 0x0e))) == Word(0x01, 0x00, 0x00, 0x00)
  {
    EntryProductsSwapped();
    assert Scale(Word(0x0e, 0x0b, 0x0d, 0x09), 0x02) == Word(0x1c, 0x16, 0x1a, 0x12);
    assert Scale(Word(0x09, 0x0e, 0x0b, 0x0d), 0x03) == Word(0x1b, 0x12, 0x1d, 0x17);
    assert Scale(Word(0x0d, 0x09, 0x0e, 0x0b), 0x01) == Word(0x0d, 0x09, 0x0e, 0x0b);
    assert Scale(Word(0x0b, 0x0d, 0x09, 0x0e), 0x01) == Word(0x0b, 0x0d, 0x09, 0x0e);
    assert WordAdd(Word(0x1c, 0x16, 0x1a, 0x12), Word(0x1b, 0x12, 0x1d, 0x17)) == Word(0x07, 0x04, 0x07, 0x05);
    assert WordAdd(Word(0x0d, 0x09, 0x0e, 0x0b), Word(0x0b, 0x0d, 0x09, 0x0e)) == Word(0x06, 0x04, 0x07, 0x05);
  }

  lemma MixRow1()
    ensures RowTimes(Word(0x01, 0x02, 0x03, 0x01), Matrix(Word(0x0e, 0x0b, 0x0d, 0x09), Word(0x09, 0x0e, 0x0b, 0x0d),
              Word(0x0d, 0x09, 0x0e, 0x0b), Word(0x0b, 0x0d, 0x09, 0x0e))) == Word(0x00, 0x01, 0x00, 0x00)
  {
    EntryProductsSwapped();
    assert Scale(Word(0x0e, 0x0b, 0x0d, 0x09), 0x01) == Word(0x0e, 0x0b, 0x0d, 0x09);
    assert Scale(Word(0x09, 0x0e, 0x0b, 0x0d), 0x02) == Word(0x12, 0x1c, 0x16, 0x1a);
    assert Scale(Word(0x0d, 0x09, 0x0e, 0x0b), 0x03) == Word(0x17, 0x1b, 0x12, 0x1d);
    assert Scale(Word(0x0b, 0x0d, 0x09, 0x0e), 0x01) == Word(0x0b, 0x0d, 0x09, 0x0e);
    assert WordAdd(Word(0x0e, 0x0b, 0x0d, 0x09), Word(0x12, 0x1c, 0x16, 0x1a)) == Word(0x1c, 0x17, 0x1b, 0x13);
    assert WordAdd(Word(0x17, 0x1b, 0x12, 0x1d), Word(0x0b, 0x0d, 0x09, 0x0e)) == Word(0x1c, 0x16, 0x1b, 0x13);
  }

  lemma MixRow2()
    ensures RowTimes(Word(0x01, 0x01, 0x02, 0x03), Matrix(Word(0x0e, 0x0b, 0x0d, 0x09), Word(0x09, 0x0e, 0x0b, 0x0d),
              Word(0x0d, 0x09, 0x0e, 0x0b), Word(0x0b, 0x0d, 0x09, 0x0e))) == Word(0x00, 0x00, 0x01, 0x00)
  {
    EntryProductsSwapped();
    assert Scale(Word(0x0e, 0x0b, 0x0d, 0x09), 0x01) == Word(0x0e, 0x0b, 0x0d, 0x09);
    assert Scale(Word(0x09, 0x0e, 0x0b, 0x0d), 0x01) == Word(0x09, 0x0e, 0x0b, 0x0d);
    assert Scale(Word(0x0d, 0x09, 0x0e, 0x0b), 0x02) == Word(0x1a, 0x12, 0x1c, 0x16);
    assert Scale(Word(0x0b, 0x0d, 0x09, 0x0e), 0x03) == Word(0x1d, 0x17, 0x1b, 0x12);
    assert WordAdd(Word(0x0e, 0x0b, 0x0d, 0x09), Word(0x09, 0x0e, 0x0b, 0x0d)) == Word(0x07, 0x05, 0x06, 0x04);
    assert WordAdd(Word(0x1a, 0x12, 0x1c, 0x16), Word(0x1d, 0x17, 0x1b, 0x12)) == Word(0x07, 0x05, 0x07, 0x04);
  }

  lemma MixRow3()
    ensures RowTimes(Word(0x03, 0x01, 0x01, 0x02), Matrix(Word(0x0e, 0x0b, 0x0d, 0x09), Word(0x09, 0x0e, 0x0b, 0x0d),
              Word(0x0d, 0x09, 0x0e, 0x0b), Word(0x0b, 0x0d, 0x09, 0x0e))) == Word(0x00, 0x00, 0x00, 0x01)
  {
    EntryProductsSwapped();
    assert Scale(Word(0x0e, 0x0b, 0x0d, 0x09), 0x03) == Word(0x12, 0x1d, 0x17, 0x1b);
    assert Scale(Word(0x09, 0x0e, 0x0b, 0x0d), 0x01) == Word(0x09, 0x0e, 0x0b, 0x0d);
    assert Scale(Word(0x0d, 0x09, 0x0e, 0x0b), 0x01) == Word(0x0d, 0x09, 0x0e, 0x0b);
    assert Scale(Word(0x0b, 0x0d, 0x09, 0x0e), 0x02) == Word(0x16, 0x1a, 0x12, 0x1c);
    assert WordAdd(Word(0x12, 0x1d, 0x17, 0x1b), Word(0x09, 0x0e, 0x0b, 0x0d)) == Word(0x1b, 0x13, 0x1c, 0x16);
    assert WordAdd(Word(0x0d, 0x09, 0x0e, 0x0b), Word(0x16, 0x1a, 0x12, 0x1c)) == Word(0x1b, 0x13, 0x1c, 0x17);
  }

  /** The two matrices are inverse to each other, in both orders. */
  lemma InvMixTimesMix()
    ensures MatMul(INV_MIX, MIX) == IDENTITY
  {
    InvMixRow0(); InvMixRow1(); InvMixRow2(); InvMixRow3();
  }

  lemma MixTimesInvMix()
    ensures MatMul(MIX, INV_MIX) == IDENTITY
  {
    MixRow0(); MixRow1(); MixRow2(); MixRow3();
  }

  /** InvMixColumns undoes MixColumns ... */
  lemma InvMixColumnMixColumn(c: Word)
    ensures InvMixColumn(MixColumn(c)) == c
  {
    ApplyApply(INV_MIX, MIX, c);
    InvMixTimesMix();
    ApplyIdentity(c);
  }

  /** ... and MixColumns undoes InvMixColumns. */
  lemma MixColumnInvMixColumn(c: Word)
    ensures MixColumn(InvMixColumn(c)) == c
  {
    ApplyApply(MIX, INV_MIX, c);
    MixTimesInvMix();
    ApplyIdentity(c);
  }

  // ---------------------------------------------------------------------
  // MixColumns as aes.c computes it in its encryption round

  /**
   * The encryption round of aes.c mixes a column with one shared sum
   * t = c0 + c1 + c2 + c3: byte r becomes {02}.(c_r + c_(r+1)) + c_r + t.
   */
  function MixColumnShared(c: Word): Word {
    var t := Add(Add(Add(c.b0, c.b1), c.b2), c.b3);
    Word(Add(Add(Mul(Add(c.b0, c.b1), 0x02), c.b0), t),
         Add(Add(Mul(Add(c.b1, c.b2), 0x02), c.b1), t),
         Add(Add(Mul(Add(c.b2, c.b3), 0x02), c.b2), t),
         Add(Add(Mul(Add(c.b3, c.b0), 0x02), c.b3), t))
  }

  /** The sums used by both mixing computations, each as a dot product with the column. */
  lemma ColumnSums(c: Word)
    ensures Add(c.b0, c.b1) == Dot(Word(1, 1, 0, 0), c) && Add(c.b1, c.b2) == Dot(Word(0, 1, 1, 0), c)
    ensures Add(c.b2, c.b3) == Dot(Word(0, 0, 1, 1), c) && Add(c.b3, c.b0) == Dot(Word(1, 0, 0, 1), c)
    ensures Add(Add(Add(c.b0, c.b1), c.b2), c.b3) == Dot(Word(1, 1, 1, 1), c)
  {
    DotUnits(c);
    DotAdd(Word(1, 0, 0, 0), Word(0, 1, 0, 0), c);
    DotAdd(Word(0, 1, 0, 0), Word(0, 0, 1, 0), c);
    DotAdd(Word(0, 0, 1, 0), Word(0, 0, 0, 1), c);
    DotAdd(Word(0, 0, 0, 1), Word(1, 0, 0, 0), c);
    DotAdd(Word(1, 1, 0, 0), Word(0, 0, 1, 0), c);
    DotAdd(Word(1, 1, 1, 0), Word(0, 0, 0, 1), c);
  }

  lemma SharedByte0(c: Word)
    ensures MixColumnShared(c).b0 == Dot(Word(0x02, 0x03, 0x01, 0x01), c)
  {
    DotUnits(c); ColumnSums(c); ScaleBits(Word(1, 1, 0, 0), 0x02);
    DotScale(Word(1, 1, 0, 0), c, 0x02);
    DotAdd(Word(0x02, 0x02, 0, 0), Word(1, 0, 0, 0), c);
    DotAdd(Word(0x03, 0x02, 0, 0), Word(1, 1, 1, 1), c);
  }

  lemma SharedByte1(c: Word)
    ensures MixColumnShared(c).b1 == Dot(Word(0x01, 0x02, 0x03, 0x01), c)
  {
    DotUnits(c); ColumnSums(c); ScaleBits(Word(0, 1, 1, 0), 0x02);
    DotScale(Word(0, 1, 1, 0), c, 0x02);
    DotAdd(Word(0, 0x02, 0x02, 0), Word(0, 1, 0, 0), c);
    DotAdd(Word(0, 0x03, 0x02, 0), Word(1, 1, 1, 1), c);
  }

  lemma SharedByte2(c: Word)
    ensures MixColumnShared(c).b2 == Dot(Word(0x01, 0x01, 0x02, 0x03), c)
  {
    DotUnits(c); ColumnSums(c); ScaleBits(Word(0, 0, 1, 1), 0x02);
    DotScale(Word(0, 0, 1, 1), c, 0x02);
    DotAdd(Word(0, 0, 0x02, 0x02), Word(0, 0, 1, 0), c);
    DotAdd(Word(0, 0, 0x03, 0x02), Word(1, 1, 1, 1), c);
  }

  lemma SharedByte3(c: Word)
    ensures MixColumnShared(c).b3 == Dot(Word(0x03, 0x01, 0x01, 0x02), c)
  {
    DotUnits(c); ColumnSums(c); ScaleBits(Word(1, 0, 0, 1), 0x02);
    DotScale(Word(1, 0, 0, 1), c, 0x02);
    DotAdd(Word(0x02, 0, 0, 0x02), Word(0, 0, 0, 1), c);
    DotAdd(Word(0x02, 0, 0, 0x03), Word(1, 1, 1, 1), c);
  }

  /** The shared-sum computation of aes.c is MixColumns (FIPS 197, equation 5.6). */
  lemma MixColumnSharedIsMixColumn(c: Word)
    ensures MixColumnShared(c) == MixColumn(c)
  {
    SharedByte0(c); SharedByte1(c); SharedByte2(c); SharedByte3(c);
  }

  // ---------------------------------------------------------------------
  // InvMixColumns as aes.c computes it in its decryption round

  /**
   * The decryption round of aes.c inverts MixColumns with the FELICS
   * formulas: the shared products {09}.(c0 + c1 + c2 + c3) and
   * {04}.(c0 + c2), {04}.(c1 + c3) are added to c_r + {02}.(c_r + c_(r+1)).
   */
  function InvMixColumnFelics(c: Word): Word {
    var t := Add(c.b3, c.b2);
    var u := Add(c.b1, c.b0);
    var v0 := Mul(0x09, Add(t, u));
    var w := Add(v0, Mul(Add(c.b2, c.b0), 0x04));
    var v := Add(v0, Mul(Add(c.b3, c.b1), 0x04));
    Word(Add(Add(c.b0, w), Mul(u, 0x02)),
         Add(Add(c.b1, v), Mul(Add(c.b2, c.b1), 0x02)),
         Add(Add(c.b2, w), Mul(t, 0x02)),
         Add(Add(c.b3, v), Mul(Add(c.b0, c.b3), 0x02)))
  }

  lemma DotUnits(c: Word)
    ensures c.b0 == Dot(Word(1, 0, 0, 0), c) && c.b1 == Dot(Word(0, 1, 0, 0), c)
    ensures c.b2 == Dot(Word(0, 0, 1, 0), c) && c.b3 == Dot(Word(0, 0, 0, 1), c)
  {
    MulOneRight(c.b0); MulOneRight(c.b1); MulOneRight(c.b2); MulOneRight(c.b3);
    MulZeroRight(c.b0); MulZeroRight(c.b1); MulZeroRight(c.b2); MulZeroRight(c.b3);
  }

  /** Scaling a row of zeros and ones by q. */
  lemma ScaleBits(k: Word, q: bv8)
    requires k.b0 <= 1 && k.b1 <= 1 && k.b2 <= 1 && k.b3 <= 1
    ensures Scale(k, q) == Word(if k.b0 == 1 then q else 0, if k.b1 == 1 then q else 0,
                                if k.b2 == 1 then q else 0, if k.b3 == 1 then q else 0)
  {
    MulOneLeft(q); MulZeroLeft(q);
  }

  /** The pair sums of the FELICS computation, as dot products with the column. */
  lemma FelicsSums(c: Word)
    ensures Add(c.b3, c.b2) == Dot(Word(0, 0, 1, 1), c) && Add(c.b1, c.b0) == Dot(Word(1, 1, 0, 0), c)
    ensures Add(c.b2, c.b1) == Dot(Word(0, 1, 1, 0), c) && Add(c.b0, c.b3) == Dot(Word(1, 0, 0, 1), c)
    ensures Add(c.b2, c.b0) == Dot(Word(1, 0, 1, 0), c) && Add(c.b3, c.b1) == Dot(Word(0, 1, 0, 1), c)
  {
    DotUnits(c);
    DotAdd(Word(0, 0, 0, 1), Word(0, 0, 1, 0), c);
    DotAdd(Word(0, 1, 0, 0), Word(1, 0, 0, 0), c);
    DotAdd(Word(0, 0, 1, 0), Word(0, 1, 0, 0), c);
    DotAdd(Word(1, 0, 0, 0), Word(0, 0, 0, 1), c);
    DotAdd(Word(0, 0, 1, 0), Word(1, 0, 0, 0), c);
    DotAdd(Word(0, 0, 0, 1), Word(0, 1, 0, 0), c);
  }

  /** The shared products of the FELICS computation, as dot products with the column. */
  lemma FelicsShared(c: Word)
    ensures Mul(0x09, Add(Add(c.b3, c.b2), Add(c.b1, c.b0))) == Dot(Word(0x09, 0x09, 0x09, 0x09), c)
    ensures Mul(Add(c.b2, c.b0), 0x04) == Dot(Word(0x04, 0, 0x04, 0), c)
    ensures Mul(Add(c.b3, c.b1), 0x04) == Dot(Word(0, 0x04, 0, 0x04), c)
  {
    FelicsNine(c); FelicsFour(c);
  }

  lemma FelicsNine(c: Word)
    ensures Mul(0x09, Add(Add(c.b3, c.b2), Add(c.b1, c.b0))) == Dot(Word(0x09, 0x09, 0x09, 0x09), c)
  {
    FelicsSums(c);
    ScaleBits(Word(1, 1, 1, 1), 0x09);
    DotAdd(Word(0, 0, 1, 1), Word(1, 1, 0, 0), c);
    MulComm(0x09, Add(Add(c.b3, c.b2), Add(c.b1, c.b0)));
    DotScale(Word(1, 1, 1, 1), c, 0x09);
  }

  lemma FelicsFour(c: Word)
    ensures Mul(Add(c.b2, c.b0), 0x04) == Dot(Word(0x04, 0, 0x04, 0), c)
    ensures Mul(Add(c.b3, c.b1), 0x04) == Dot(Word(0, 0x04, 0, 0x04), c)
  {
    FelicsFourEven(c); FelicsFourOdd(c);
  }

  lemma FelicsFourEven(c: Word)
    ensures Mul(Add(c.b2, c.b0), 0x04) == Dot(Word(0x04, 0, 0x04, 0), c)
  {
    FelicsSums(c);
    ScaleBits(Word(1, 0, 1, 0), 0x04);
    DotScale(Word(1, 0, 1, 0), c, 0x04);
  }

  lemma FelicsFourOdd(c: Word)
    ensures Mul(Add(c.b3, c.b1), 0x04) == Dot(Word(0, 0x04, 0, 0x04), c)
  {
    FelicsSums(c);
    ScaleBits(Word(0, 1, 0, 1), 0x04);
    DotScale(Word(0, 1, 0, 1), c, 0x04);
  }

  lemma FelicsByte0(c: Word)
    ensures InvMixColumnFelics(c).b0 == Dot(Word(0x0e, 0x0b, 0x0d, 0x09), c)
  {
    DotUnits(c); FelicsSums(c); FelicsShared(c); ScaleBits(Word(1, 1, 0, 0), 0x02);
    DotAdd(Word(0x09, 0x09, 0x09, 0x09), Word(0x04, 0, 0x04, 0), c);
    DotAdd(Word(1, 0, 0, 0), Word(0x0d, 0x09, 0x0d, 0x09), c);
    DotScale(Word(1, 1, 0, 0), c, 0x02);
    DotAdd(Word(0x0c, 0x09, 0x0d, 0x09), Word(0x02, 0x02, 0, 0), c);
  }

  lemma FelicsByte1(c: Word)
    ensures InvMixColumnFelics(c).b1 == Dot(Word(0x09, 0x0e, 0x0b, 0x0d), c)
  {
    DotUnits(c); FelicsSums(c); FelicsShared(c); ScaleBits(Word(0, 1, 1, 0), 0x02);
    DotAdd(Word(0x09, 0x09, 0x09, 0x09), Word(0, 0x04, 0, 0x04), c);
    DotAdd(Word(0, 1, 0, 0), Word(0x09, 0x0d, 0x09, 0x0d), c);
    DotScale(Word(0, 1, 1, 0), c, 0x02);
    DotAdd(Word(0x09, 0x0c, 0x09, 0x0d), Word(0, 0x02, 0x02, 0), c);
  }

  lemma FelicsByte2(c: Word)
    ensures InvMixColumnFelics(c).b2 == Dot(Word(0x0d, 0x09, 0x0e, 0x0b), c)
  {
    DotUnits(c); FelicsSums(c); FelicsShared(c); ScaleBits(Word(0, 0, 1, 1), 0x02);
    DotAdd(Word(0x09, 0x09, 0x09, 0x09), Word(0x04, 0, 0x04, 0), c);
    DotAdd(Word(0, 0, 1, 0), Word(0x0d, 0x09, 0x0d, 0x09), c);
    DotScale(Word(0, 0, 1, 1), c, 0x02);
    DotAdd(Word(0x0d, 0x09, 0x0c, 0x09), Word(0, 0, 0x02, 0x02), c);
  }

  lemma FelicsByte3(c: Word)
    ensures InvMixColumnFelics(c).b3 == Dot(Word(0x0b, 0x0d, 0x09, 0x0e), c)
  {
    DotUnits(c); FelicsSums(c); FelicsShared(c); ScaleBits(Word(1, 0, 0, 1), 0x02);
    DotAdd(Word(0x09, 0x09, 0x09, 0x09), Word(0, 0x04, 0, 0x04), c);
    DotAdd(Word(0, 0, 0, 1), Word(0x09, 0x0d, 0x09, 0x0d), c);
    DotScale(Word(1, 0, 0, 1), c, 0x02);
    DotAdd(Word(0x09, 0x0d, 0x09, 0x0c), Word(0x02, 0, 0, 0x02), c);
  }

  /** The FELICS computation of aes.c is InvMixColumns (FIPS 197, equation 5.10). */
  lemma InvMixColumnFelicsIsInvMixColumn(c: Word)
    ensures InvMixColumnFelics(c) == InvMixColumn(c)
  {
    FelicsByte0(c); FelicsByte1(c); FelicsByte2(c); FelicsByte3(c);
  }
}
