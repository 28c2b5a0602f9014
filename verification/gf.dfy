/*
 * Arithmetic in the finite field GF(2^8) used by AES (FIPS PUB 197, section 4),
 * with the reduction polynomial m(x) = x^8 + x^4 + x^3 + x + 1.
 *
 * Field addition is written `Add` rather than `^` so that proofs can regroup
 * sums term by term; it is the same operation.
 */
module GF {

  /** Addition in GF(2^8) (FIPS 197, section 4.1): bitwise exclusive or. */
  function Add(a: bv8, b: bv8): bv8 { a ^ b }

  /** Multiplication by x (FIPS 197, section 4.2.1): shift left, reduce by m(x) on overflow. */
  function XTime(a: bv8): bv8 {
    (a << 1) ^ (if a & 0x80 != 0 then 0x1b else 0)
  }

  /** `a` if bit `m` of `b` is set, 0 otherwise. */
  function IfBit(b: bv8, m: bv8, a: bv8): bv8 {
    if b & m != 0 then a else 0
  }

  /** The sum of those a_i for which bit i of `b` is set. */
  function BitSum(b: bv8, a0: bv8, a1: bv8, a2: bv8, a3: bv8, a4: bv8, a5: bv8, a6: bv8, a7: bv8): bv8 {
    Add(IfBit(b, 0x01, a0), Add(IfBit(b, 0x02, a1), Add(IfBit(b, 0x04, a2), Add(IfBit(b, 0x08, a3),
    Add(IfBit(b, 0x10, a4), Add(IfBit(b, 0x20, a5), Add(IfBit(b, 0x40, a6), IfBit(b, 0x80, a7))))))))
  }

  /**
   * Multiplication in GF(2^8) (FIPS 197, section 4.2): the sum of xtime^i(a)
   * over the bits i set in b.
   */
  function Mul(a: bv8, b: bv8): bv8 {
    var a1 := XTime(a); var a2 := XTime(a1); var a3 := XTime(a2);
    var a4 := XTime(a3); var a5 := XTime(a4); var a6 := XTime(a5); var a7 := XTime(a6);
    BitSum(b, a, a1, a2, a3, a4, a5, a6, a7)
  }

  // ---------------------------------------------------------------------
  // Small facts about addition, xtime and bit selection

  lemma AddSwap(a: bv8, b: bv8, c: bv8, d: bv8)
    ensures Add(Add(a, b), Add(c, d)) == Add(Add(a, c), Add(b, d))
  {
    assert (a ^ b) ^ (c ^ d) == (a ^ c) ^ (b ^ d);
  }

  /** xtime when the top bit of a is set, and when it is clear. */
  lemma XTimeHigh(a: bv8)
    requires a & 0x80 != 0
    ensures XTime(a) == (a << 1) ^ 0x1b
  {}

  lemma XTimeLow(a: bv8)
    requires a & 0x80 == 0
    ensures XTime(a) == a << 1
  {}

  /** The shift and the top bit of a sum. */
  lemma ShiftAdd(x: bv8, y: bv8)
    ensures Add(x, y) << 1 == Add(x << 1, y << 1)
    ensures (Add(x, y) & 0x80 != 0) == ((x & 0x80 != 0) != (y & 0x80 != 0))
  {}

  /** xtime is linear. */
  lemma XTimeAdd(x: bv8, y: bv8)
    ensures XTime(Add(x, y)) == Add(XTime(x), XTime(y))
  {
    ShiftAdd(x, y);
    var z := Add(x, y);
    if x & 0x80 != 0 { XTimeHigh(x); } else { XTimeLow(x); }
    if y & 0x80 != 0 { XTimeHigh(y); } else { XTimeLow(y); }
    if z & 0x80 != 0 { XTimeHigh(z); } else { XTimeLow(z); }
  }

  lemma XTimeIfBit(b: bv8, m: bv8, a: bv8)
    ensures XTime(IfBit(b, m, a)) == IfBit(b, m, XTime(a))
  {}

  lemma IfBitAdd(b: bv8, m: bv8, x: bv8, y: bv8)
    ensures IfBit(b, m, Add(x, y)) == Add(IfBit(b, m, x), IfBit(b, m, y))
  {}

  predicate SingleBit(m: bv8) {
    m == 0x01 || m == 0x02 || m == 0x04 || m == 0x08 || m == 0x10 || m == 0x20 || m == 0x40 || m == 0x80
  }

  lemma BitOfAdd(b: bv8, c: bv8, m: bv8)
    requires SingleBit(m)
    ensures (Add(b, c) & m != 0) == ((b & m != 0) != (c & m != 0))
  {}

  lemma IfBitAddSelector(b: bv8, c: bv8, m: bv8, a: bv8)
    requires SingleBit(m)
    ensures IfBit(Add(b, c), m, a) == Add(IfBit(b, m, a), IfBit(c, m, a))
  {
    BitOfAdd(b, c, m);
  }

  // ---------------------------------------------------------------------
  // BitSum is linear in its terms and in its selector

  lemma BitSumAddTerms(b: bv8, p0: bv8, p1: bv8, p2: bv8, p3: bv8, p4: bv8, p5: bv8, p6: bv8, p7: bv8,
                       q0: bv8, q1: bv8, q2: bv8, q3: bv8, q4: bv8, q5: bv8, q6: bv8, q7: bv8)
    ensures BitSum(b, Add(p0, q0), Add(p1, q1), Add(p2, q2), Add(p3, q3), Add(p4, q4), Add(p5, q5), Add(p6, q6), Add(p7, q7))
         == Add(BitSum(b, p0, p1, p2, p3, p4, p5, p6, p7), BitSum(b, q0, q1, q2, q3, q4, q5, q6, q7))
  {
    IfBitAdd(b, 0x01, p0, q0); IfBitAdd(b, 0x02, p1, q1); IfBitAdd(b, 0x04, p2, q2); IfBitAdd(b, 0x08, p3, q3);
    IfBitAdd(b, 0x10, p4, q4); IfBitAdd(b, 0x20, p5, q5); IfBitAdd(b, 0x40, p6, q6); IfBitAdd(b, 0x80, p7, q7);
    var P6, Q6 := IfBit(b, 0x80, p7), IfBit(b, 0x80, q7);
    AddSwap(IfBit(b, 0x40, p6), IfBit(b, 0x40, q6), P6, Q6);
    var P5, Q5 := Add(IfBit(b, 0x40, p6), P6), Add(IfBit(b, 0x40, q6), Q6);
    AddSwap(IfBit(b, 0x20, p5), IfBit(b, 0x20, q5), P5, Q5);
    var P4, Q4 := Add(IfBit(b, 0x20, p5), P5), Add(IfBit(b, 0x20, q5), Q5);
    AddSwap(IfBit(b, 0x10, p4), IfBit(b, 0x10, q4), P4, Q4);
    var P3, Q3 := Add(IfBit(b, 0x10, p4), P4), Add(IfBit(b, 0x10, q4), Q4);
    AddSwap(IfBit(b, 0x08, p3), IfBit(b, 0x08, q3), P3, Q3);
    var P2, Q2 := Add(IfBit(b, 0x08, p3), P3), Add(IfBit(b, 0x08, q3), Q3);
    AddSwap(IfBit(b, 0x04, p2), IfBit(b, 0x04, q2), P2, Q2);
    var P1, Q1 := Add(IfBit(b, 0x04, p2), P2), Add(IfBit(b, 0x04, q2), Q2);
    AddSwap(IfBit(b, 0x02, p1), IfBit(b, 0x02, q1), P1, Q1);
    var P0, Q0 := Add(IfBit(b, 0x02, p1), P1), Add(IfBit(b, 0x02, q1), Q1);
    AddSwap(IfBit(b, 0x01, p0), IfBit(b, 0x01, q0), P0, Q0);
  }

  lemma BitSumAddSelector(b: bv8, c: bv8, a0: bv8, a1: bv8, a2: bv8, a3: bv8, a4: bv8, a5: bv8, a6: bv8, a7: bv8)
    ensures BitSum(Add(b, c), a0, a1, a2, a3, a4, a5, a6, a7)
         == Add(BitSum(b, a0, a1, a2, a3, a4, a5, a6, a7), BitSum(c, a0, a1, a2, a3, a4, a5, a6, a7))
  {
    IfBitAddSelector(b, c, 0x01, a0); IfBitAddSelector(b, c, 0x02, a1);
    IfBitAddSelector(b, c, 0x04, a2); IfBitAddSelector(b, c, 0x08, a3);
    IfBitAddSelector(b, c, 0x10, a4); IfBitAddSelector(b, c, 0x20, a5);
    IfBitAddSelector(b, c, 0x40, a6); IfBitAddSelector(b, c, 0x80, a7);
    var P6, Q6 := IfBit(b, 0x80, a7), IfBit(c, 0x80, a7);
    AddSwap(IfBit(b, 0x40, a6), IfBit(c, 0x40, a6), P6, Q6);
    var P5, Q5 := Add(IfBit(b, 0x40, a6), P6), Add(IfBit(c, 0x40, a6), Q6);
    AddSwap(IfBit(b, 0x20, a5), IfBit(c, 0x20, a5), P5, Q5);
    var P4, Q4 := Add(IfBit(b, 0x20, a5), P5), Add(IfBit(c, 0x20, a5), Q5);
    AddSwap(IfBit(b, 0x10, a4), IfBit(c, 0x10, a4), P4, Q4);
    var P3, Q3 := Add(IfBit(b, 0x10, a4), P4), Add(IfBit(c, 0x10, a4), Q4);
    AddSwap(IfBit(b, 0x08, a3), IfBit(c, 0x08, a3), P3, Q3);
    var P2, Q2 := Add(IfBit(b, 0x08, a3), P3), Add(IfBit(c, 0x08, a3), Q3);
    AddSwap(IfBit(b, 0x04, a2), IfBit(c, 0x04, a2), P2, Q2);
    var P1, Q1 := Add(IfBit(b, 0x04, a2), P2), Add(IfBit(c, 0x04, a2), Q2);
    AddSwap(IfBit(b, 0x02, a1), IfBit(c, 0x02, a1), P1, Q1);
    var P0, Q0 := Add(IfBit(b, 0x02, a1), P1), Add(IfBit(c, 0x02, a1), Q1);
    AddSwap(IfBit(b, 0x01, a0), IfBit(c, 0x01, a0), P0, Q0);
  }

  lemma XTimeBitSum(b: bv8, a0: bv8, a1: bv8, a2: bv8, a3: bv8, a4: bv8, a5: bv8, a6: bv8, a7: bv8)
    ensures XTime(BitSum(b, a0, a1, a2, a3, a4, a5, a6, a7))
         == BitSum(b, XTime(a0), XTime(a1), XTime(a2), XTime(a3), XTime(a4), XTime(a5), XTime(a6), XTime(a7))
  {
    XTimeIfBit(b, 0x01, a0); XTimeIfBit(b, 0x02, a1); XTimeIfBit(b, 0x04, a2); XTimeIfBit(b, 0x08, a3);
    XTimeIfBit(b, 0x10, a4); XTimeIfBit(b, 0x20, a5); XTimeIfBit(b, 0x40, a6); XTimeIfBit(b, 0x80, a7);
    var t6 := Add(IfBit(b, 0x40, a6), IfBit(b, 0x80, a7));
    XTimeAdd(IfBit(b, 0x40, a6), IfBit(b, 0x80, a7));
    var t5 := Add(IfBit(b, 0x20, a5), t6);
    XTimeAdd(IfBit(b, 0x20, a5), t6);
    var t4 := Add(IfBit(b, 0x10, a4), t5);
    XTimeAdd(IfBit(b, 0x10, a4), t5);
    var t3 := Add(IfBit(b, 0x08, a3), t4);
    XTimeAdd(IfBit(b, 0x08, a3), t4);
    var t2 := Add(IfBit(b, 0x04, a2), t3);
    XTimeAdd(IfBit(b, 0x04, a2), t3);
    var t1 := Add(IfBit(b, 0x02, a1), t2);
    XTimeAdd(IfBit(b, 0x02, a1), t2);
    XTimeAdd(IfBit(b, 0x01, a0), t1);
  }

  // ---------------------------------------------------------------------
  // Multiplication: identities, distributivity, commutativity, associativity

  /** Multiplying by 0, 1 and 2 (FIPS 197, section 4.2.1: {02} is xtime). */
  lemma MulZeroRight(a: bv8)
    ensures Mul(a, 0) == 0
  {}

  lemma MulOneRight(a: bv8)
    ensures Mul(a, 1) == a
  {}

  lemma MulTwoRight(a: bv8)
    ensures Mul(a, 2) == XTime(a)
  {}

  lemma MulThreeRight(a: bv8)
    ensures Mul(a, 3) == Add(XTime(a), a)
  {}

  lemma MulZeroLeft(k: bv8)
    ensures Mul(0, k) == 0
  {}

  lemma MulOneLeft(k: bv8)
    ensures Mul(1, k) == k
  {}

  lemma MulIfBitLeft(b: bv8, m: bv8, x: bv8, k: bv8)
    ensures Mul(IfBit(b, m, x), k) == IfBit(b, m, Mul(x, k))
  {
    MulZeroLeft(k);
  }

  /** Multiplication distributes over addition, on the left ... */
  lemma MulAddLeft(x: bv8, y: bv8, k: bv8)
    ensures Mul(Add(x, y), k) == Add(Mul(x, k), Mul(y, k))
  {
    var x1 := XTime(x); var x2 := XTime(x1); var x3 := XTime(x2);
    var x4 := XTime(x3); var x5 := XTime(x4); var x6 := XTime(x5); var x7 := XTime(x6);
    var y1 := XTime(y); var y2 := XTime(y1); var y3 := XTime(y2);
    var y4 := XTime(y3); var y5 := XTime(y4); var y6 := XTime(y5); var y7 := XTime(y6);
    XTimeAdd(x, y); XTimeAdd(x1, y1); XTimeAdd(x2, y2); XTimeAdd(x3, y3);
    XTimeAdd(x4, y4); XTimeAdd(x5, y5); XTimeAdd(x6, y6);
    BitSumAddTerms(k, x, x1, x2, x3, x4, x5, x6, x7, y, y1, y2, y3, y4, y5, y6, y7);
  }

  /** ... and on the right. */
  lemma MulAddRight(x: bv8, b: bv8, c: bv8)
    ensures Mul(x, Add(b, c)) == Add(Mul(x, b), Mul(x, c))
  {
    var x1 := XTime(x); var x2 := XTime(x1); var x3 := XTime(x2);
    var x4 := XTime(x3); var x5 := XTime(x4); var x6 := XTime(x5); var x7 := XTime(x6);
    BitSumAddSelector(b, c, x, x1, x2, x3, x4, x5, x6, x7);
  }

  /** Multiplying a factor by x multiplies the product by x. */
  lemma MulXTime(x: bv8, k: bv8)
    ensures Mul(XTime(x), k) == XTime(Mul(x, k))
  {
    var x1 := XTime(x); var x2 := XTime(x1); var x3 := XTime(x2);
    var x4 := XTime(x3); var x5 := XTime(x4); var x6 := XTime(x5); var x7 := XTime(x6);
    XTimeBitSum(k, x, x1, x2, x3, x4, x5, x6, x7);
  }

  lemma MulBitSumLeft(b: bv8, p0: bv8, p1: bv8, p2: bv8, p3: bv8, p4: bv8, p5: bv8, p6: bv8, p7: bv8, k: bv8)
    ensures Mul(BitSum(b, p0, p1, p2, p3, p4, p5, p6, p7), k)
         == BitSum(b, Mul(p0, k), Mul(p1, k), Mul(p2, k), Mul(p3, k), Mul(p4, k), Mul(p5, k), Mul(p6, k), Mul(p7, k))
  {
    MulIfBitLeft(b, 0x01, p0, k); MulIfBitLeft(b, 0x02, p1, k); MulIfBitLeft(b, 0x04, p2, k); MulIfBitLeft(b, 0x08, p3, k);
    MulIfBitLeft(b, 0x10, p4, k); MulIfBitLeft(b, 0x20, p5, k); MulIfBitLeft(b, 0x40, p6, k); MulIfBitLeft(b, 0x80, p7, k);
    var t6 := Add(IfBit(b, 0x40, p6), IfBit(b, 0x80, p7));
    MulAddLeft(IfBit(b, 0x40, p6), IfBit(b, 0x80, p7), k);
    var t5 := Add(IfBit(b, 0x20, p5), t6);
    MulAddLeft(IfBit(b, 0x20, p5), t6, k);
    var t4 := Add(IfBit(b, 0x10, p4), t5);
    MulAddLeft(IfBit(b, 0x10, p4), t5, k);
    var t3 := Add(IfBit(b, 0x08, p3), t4);
    MulAddLeft(IfBit(b, 0x08, p3), t4, k);
    var t2 := Add(IfBit(b, 0x04, p2), t3);
    MulAddLeft(IfBit(b, 0x04, p2), t3, k);
    var t1 := Add(IfBit(b, 0x02, p1), t2);
    MulAddLeft(IfBit(b, 0x02, p1), t2, k);
    MulAddLeft(IfBit(b, 0x01, p0), t1, k);
  }

  /** Every byte is the sum of its bits. */
  lemma BitDecomposition(b: bv8)
    ensures BitSum(b, 0x01, 0x02, 0x04, 0x08, 0x10, 0x20, 0x40, 0x80) == b
  {}

  /** Multiplication is commutative. */
  lemma MulComm(a: bv8, b: bv8)
    ensures Mul(a, b) == Mul(b, a)
  {
    BitDecomposition(b);
    MulBitSumLeft(b, 0x01, 0x02, 0x04, 0x08, 0x10, 0x20, 0x40, 0x80, a);
    MulOneLeft(a);
    assert XTime(0x01) == 0x02 && XTime(0x02) == 0x04 && XTime(0x04) == 0x08 && XTime(0x08) == 0x10;
    assert XTime(0x10) == 0x20 && XTime(0x20) == 0x40 && XTime(0x40) == 0x80;
    MulXTime(0x01, a); MulXTime(0x02, a); MulXTime(0x04, a); MulXTime(0x08, a);
    MulXTime(0x10, a); MulXTime(0x20, a); MulXTime(0x40, a);
  }

  /** Multiplication is associative. */
  lemma MulAssoc(x: bv8, k: bv8, q: bv8)
    ensures Mul(Mul(x, k), q) == Mul(x, Mul(k, q))
  {
    var k1 := XTime(k); var k2 := XTime(k1); var k3 := XTime(k2);
    var k4 := XTime(k3); var k5 := XTime(k4); var k6 := XTime(k5); var k7 := XTime(k6);
    MulComm(x, Mul(k, q));
    MulBitSumLeft(q, k, k1, k2, k3, k4, k5, k6, k7, x);
    MulXTime(k, x); MulXTime(k1, x); MulXTime(k2, x); MulXTime(k3, x);
    MulXTime(k4, x); MulXTime(k5, x); MulXTime(k6, x);
    MulComm(x, k);
  }

  // ---------------------------------------------------------------------
  // The shift-and-add step used by the multiplication loop

  lemma ShiftSelects(b: bv8)
    ensures ((b >> 1) & 0x01 != 0) == (b & 0x02 != 0)
    ensures ((b >> 1) & 0x02 != 0) == (b & 0x04 != 0)
    ensures ((b >> 1) & 0x04 != 0) == (b & 0x08 != 0)
    ensures ((b >> 1) & 0x08 != 0) == (b & 0x10 != 0)
    ensures ((b >> 1) & 0x10 != 0) == (b & 0x20 != 0)
    ensures ((b >> 1) & 0x20 != 0) == (b & 0x40 != 0)
    ensures ((b >> 1) & 0x40 != 0) == (b & 0x80 != 0)
    ensures (b >> 1) & 0x80 == 0
  {}

  /**
   * One step of the shift-and-add loop: the product is the low bit's term
   * plus the product of xtime(a) by b shifted right.
   */
  lemma MulStep(a: bv8, b: bv8)
    ensures Mul(a, b) == Add(IfBit(b, 0x01, a), Mul(XTime(a), b >> 1))
  {
    var a1 := XTime(a); var a2 := XTime(a1); var a3 := XTime(a2); var a4 := XTime(a3);
    var a5 := XTime(a4); var a6 := XTime(a5); var a7 := XTime(a6); var a8 := XTime(a7);
    var c := b >> 1;
    ShiftSelects(b);
    assert IfBit(c, 0x80, a8) == 0;
    assert Add(IfBit(c, 0x40, a7), IfBit(c, 0x80, a8)) == IfBit(b, 0x80, a7);
  }

  /**
   * The product as a shift-and-add loop computes it: add `a` when the low bit
   * of `b` is set, then go on with xtime(a) and b shifted right.
   */
  function ShiftAddMul(a: bv8, b: bv8): bv8
    decreases b
  {
    if b == 0 then 0 else Add(IfBit(b, 0x01, a), ShiftAddMul(XTime(a), b >> 1))
  }

  /** Shift and add computes the product of section 4.2. */
  lemma {:induction false} ShiftAddMulIsMul(a: bv8, b: bv8)
    ensures ShiftAddMul(a, b) == Mul(a, b)
    decreases b
  {
    if b == 0 {
      MulZeroRight(a);
    } else {
      ShiftAddMulIsMul(XTime(a), b >> 1);
      MulStep(a, b);
    }
  }

  /** The worked examples of FIPS 197, section 4.2. */
  lemma MulExamples()
    ensures Mul(0x57, 0x83) == 0xc1
    ensures Mul(0x57, 0x13) == 0xfe
  {}
}
