/*
 * The state transformations of AES on a 16-byte block (FIPS PUB 197,
 * sections 5.1 and 5.3). Byte n of the block is row n % 4 and column n / 4 of
 * the state, the layout aes.c uses for its `state` arrays (section 3.4).
 */
module Transforms {
  import opened GF
  import opened Tables
  import opened Mix

  /** A block: the sixteen bytes of the state. */
  type Block = s: seq<bv8> | |s| == 16 witness [0, 0, 0, 0, 0, 0, 0, 0, 0, 0, 0, 0, 0, 0, 0, 0]

  /** ShiftRows (FIPS 197, section 5.1.2): row r is rotated left by r places. */
  function ShiftRows(s: Block): Block {
    seq(16, n requires 0 <= n < 16 => s[n % 4 + 4 * ((n / 4 + n % 4) % 4)])
  }

  /** InvShiftRows (FIPS 197, section 5.3.1): row r is rotated right by r places. */
  function InvShiftRows(s: Block): Block {
    seq(16, n requires 0 <= n < 16 => s[n % 4 + 4 * ((n / 4 + 4 - n % 4) % 4)])
  }

  /** A byte substitution table applied to every byte of the block. */
  function MapBytes(table: bv8 -> bv8, s: Block): Block {
    seq(16, n requires 0 <= n < 16 => table(s[n]))
  }

  /** SubBytes (FIPS 197, section 5.1.1): the S-box on every byte. */
  function SubBytes(s: Block): Block {
    MapBytes(SBox, s)
  }

  /** InvSubBytes (FIPS 197, section 5.3.2). */
  function InvSubBytes(s: Block): Block {
    MapBytes(InvSBox, s)
  }

  /** AddRoundKey (FIPS 197, section 5.1.4): exclusive or with a 16-byte round key. */
  function AddRoundKey(s: Block, k: Block): Block {
    seq(16, n requires 0 <= n < 16 => s[n] ^ k[n])
  }

  /** Column c of the state. */
  function Column(s: Block, c: nat): Word
    requires c < 4
  {
    Word(s[4 * c], s[4 * c + 1], s[4 * c + 2], s[4 * c + 3])
  }

  /** The block made of four columns. */
  function FromColumns(w0: Word, w1: Word, w2: Word, w3: Word): Block {
    [w0.b0, w0.b1, w0.b2, w0.b3, w1.b0, w1.b1, w1.b2, w1.b3,
     w2.b0, w2.b1, w2.b2, w2.b3, w3.b0, w3.b1, w3.b2, w3.b3]
  }

  /** Byte r of a word. */
  function ByteOf(w: Word, r: nat): bv8
    requires r < 4
  {
    if r == 0 then w.b0 else if r == 1 then w.b1 else if r == 2 then w.b2 else w.b3
  }

  /** The block whose column c is f applied to column c of s. */
  function MapColumns(f: Word -> Word, s: Block): Block {
    seq(16, n requires 0 <= n < 16 => ByteOf(f(Column(s, n / 4)), n % 4))
  }

  /** MixColumns (FIPS 197, section 5.1.3): each column times the MixColumns matrix. */
  function MixColumns(s: Block): Block {
    MapColumns(MixColumn, s)
  }

  /** InvMixColumns (FIPS 197, section 5.3.3). */
  function InvMixColumns(s: Block): Block {
    MapColumns(InvMixColumn, s)
  }

  // ---------------------------------------------------------------------
  // ShiftRows and its inverse, byte by byte

  lemma ShiftRowsColumn0(s: Block)
    ensures ShiftRows(s)[0] == s[0] && ShiftRows(s)[1] == s[5] && ShiftRows(s)[2] == s[10] && ShiftRows(s)[3] == s[15]
  {}

  lemma ShiftRowsColumn1(s: Block)
    ensures ShiftRows(s)[4] == s[4] && ShiftRows(s)[5] == s[9] && ShiftRows(s)[6] == s[14] && ShiftRows(s)[7] == s[3]
  {}

  lemma ShiftRowsColumn2(s: Block)
    ensures ShiftRows(s)[8] == s[8] && ShiftRows(s)[9] == s[13] && ShiftRows(s)[10] == s[2] && ShiftRows(s)[11] == s[7]
  {}

  lemma ShiftRowsColumn3(s: Block)
    ensures ShiftRows(s)[12] == s[12] && ShiftRows(s)[13] == s[1] && ShiftRows(s)[14] == s[6] && ShiftRows(s)[15] == s[11]
  {}

  lemma ShiftRowsGather(s: Block, r: Block)
    requires r[0] == s[0] && r[1] == s[5] && r[2] == s[10] && r[3] == s[15]
    requires r[4] == s[4] && r[5] == s[9] && r[6] == s[14] && r[7] == s[3]
    requires r[8] == s[8] && r[9] == s[13] && r[10] == s[2] && r[11] == s[7]
    requires r[12] == s[12] && r[13] == s[1] && r[14] == s[6] && r[15] == s[11]
    ensures r == [s[0], s[5], s[10], s[15], s[4], s[9], s[14], s[3], s[8], s[13], s[2], s[7], s[12], s[1], s[6], s[11]]
  {}

  /**
   * ShiftRows moves exactly the bytes aes.c's shift_rows moves: row 0 stays,
   * rows 1, 2 and 3 rotate left by one, two and three columns.
   */
  lemma ShiftRowsLayout(s: Block)
    ensures ShiftRows(s) == [s[0], s[5], s[10], s[15], s[4], s[9], s[14], s[3], s[8], s[13], s[2], s[7], s[12], s[1], s[6], s[11]]
  {
    ShiftRowsColumn0(s); ShiftRowsColumn1(s); ShiftRowsColumn2(s); ShiftRowsColumn3(s);
    ShiftRowsGather(s, ShiftRows(s));
  }

  lemma InvShiftRowsColumn0(s: Block)
    ensures InvShiftRows(s)[0] == s[0] && InvShiftRows(s)[1] == s[13] && InvShiftRows(s)[2] == s[10] && InvShiftRows(s)[3] == s[7]
  {}

  lemma InvShiftRowsColumn1(s: Block)
    ensures InvShiftRows(s)[4] == s[4] && InvShiftRows(s)[5] == s[1] && InvShiftRows(s)[6] == s[14] && InvShiftRows(s)[7] == s[11]
  {}

  lemma InvShiftRowsColumn2(s: Block)
    ensures InvShiftRows(s)[8] == s[8] && InvShiftRows(s)[9] == s[5] && InvShiftRows(s)[10] == s[2] && InvShiftRows(s)[11] == s[15]
  {}

  lemma InvShiftRowsColumn3(s: Block)
    ensures InvShiftRows(s)[12] == s[12] && InvShiftRows(s)[13] == s[9] && InvShiftRows(s)[14] == s[6] && InvShiftRows(s)[15] == s[3]
  {}

  lemma InvShiftRowsGather(s: Block, r: Block)
    requires r[0] == s[0] && r[1] == s[13] && r[2] == s[10] && r[3] == s[7]
    requires r[4] == s[4] && r[5] == s[1] && r[6] == s[14] && r[7] == s[11]
    requires r[8] == s[8] && r[9] == s[5] && r[10] == s[2] && r[11] == s[15]
    requires r[12] == s[12] && r[13] == s[9] && r[14] == s[6] && r[15] == s[3]
    ensures r == [s[0], s[13], s[10], s[7], s[4], s[1], s[14], s[11], s[8], s[5], s[2], s[15], s[12], s[9], s[6], s[3]]
  {}

  /** InvShiftRows moves exactly the bytes aes.c's inv_shift_rows moves. */
  lemma InvShiftRowsLayout(s: Block)
    ensures InvShiftRows(s) == [s[0], s[13], s[10], s[7], s[4], s[1], s[14], s[11], s[8], s[5], s[2], s[15], s[12], s[9], s[6], s[3]]
  {
    InvShiftRowsColumn0(s); InvShiftRowsColumn1(s); InvShiftRowsColumn2(s); InvShiftRowsColumn3(s);
    InvShiftRowsGather(s, InvShiftRows(s));
  }

  /** ShiftRows leaves row 0 alone. */
  lemma ShiftRowsRowZero(s: Block)
    ensures forall c :: 0 <= c < 4 ==> ShiftRows(s)[4 * c] == s[4 * c]
  {
    ShiftRowsLayout(s);
  }

  /** InvShiftRows undoes ShiftRows ... */
  lemma InvShiftRowsShiftRows(s: Block)
    ensures InvShiftRows(ShiftRows(s)) == s
  {
    ShiftRowsLayout(s);
    InvShiftRowsLayout(ShiftRows(s));
  }

  /** ... and ShiftRows undoes InvShiftRows. */
  lemma ShiftRowsInvShiftRows(s: Block)
    ensures ShiftRows(InvShiftRows(s)) == s
  {
    InvShiftRowsLayout(s);
    ShiftRowsLayout(InvShiftRows(s));
  }

  /** The sequence with the bytes at i and j exchanged. */
  function Swap(s: seq<bv8>, i: nat, j: nat): (r: seq<bv8>)
    requires i < |s| && j < |s|
    ensures |r| == |s| && r[i] == s[j] && r[j] == s[i]
  {
    s[i := s[j]][j := s[i]]
  }

  /** Exchanging two bytes keeps the multiset of bytes. */
  lemma SwapPermutes(s: seq<bv8>, i: nat, j: nat)
    requires i < |s| && j < |s|
    ensures multiset(Swap(s, i, j)) == multiset(s)
  {
  }

  /** Rotating four distinct positions, each taking the byte of the next, is three exchanges. */
  lemma RotateIsSwaps(s: seq<bv8>, a: nat, b: nat, c: nat, d: nat)
    requires a < |s| && b < |s| && c < |s| && d < |s|
    requires a != b && a != c && a != d && b != c && b != d && c != d
    ensures s[a := s[b]][b := s[c]][c := s[d]][d := s[a]] == Swap(Swap(Swap(s, a, b), b, c), c, d)
  {
  }

  /** Such a rotation keeps the multiset of bytes. */
  lemma RotatePermutes(s: seq<bv8>, a: nat, b: nat, c: nat, d: nat)
    requires a < |s| && b < |s| && c < |s| && d < |s|
    requires a != b && a != c && a != d && b != c && b != d && c != d
    ensures multiset(s[a := s[b]][b := s[c]][c := s[d]][d := s[a]]) == multiset(s)
  {
    RotateIsSwaps(s, a, b, c, d);
    SwapPermutes(s, a, b); SwapPermutes(Swap(s, a, b), b, c); SwapPermutes(Swap(Swap(s, a, b), b, c), c, d);
  }

  /** ShiftRows row by row: rows 1 and 3 are rotations of four bytes, row 2 two exchanges. */
  function RowMoves(s: Block): seq<bv8> {
    var t := s[1 := s[5]][5 := s[9]][9 := s[13]][13 := s[1]];
    var u := Swap(Swap(t, 2, 10), 6, 14);
    u[15 := u[11]][11 := u[7]][7 := u[3]][3 := u[15]]
  }

  lemma RowMovesAreShiftRows(s: Block)
    ensures RowMoves(s) == ShiftRows(s)
  {
    ShiftRowsLayout(s);
  }

  lemma RowMovesPermute(s: Block)
    ensures multiset(RowMoves(s)) == multiset(s)
  {
    var t := s[1 := s[5]][5 := s[9]][9 := s[13]][13 := s[1]];
    RotatePermutes(s, 1, 5, 9, 13);
    SwapPermutes(t, 2, 10); SwapPermutes(Swap(t, 2, 10), 6, 14);
    RotatePermutes(Swap(Swap(t, 2, 10), 6, 14), 15, 11, 7, 3);
  }

  /** ShiftRows only moves bytes: the block keeps the same bytes, each as often. */
  lemma ShiftRowsPermutes(s: Block)
    ensures multiset(ShiftRows(s)) == multiset(s)
  {
    RowMovesAreShiftRows(s);
    RowMovesPermute(s);
  }

  /** InvShiftRows only moves bytes as well. */
  lemma InvShiftRowsPermutes(s: Block)
    ensures multiset(InvShiftRows(s)) == multiset(s)
  {
    ShiftRowsInvShiftRows(s);
    ShiftRowsPermutes(InvShiftRows(s));
  }

  // ---------------------------------------------------------------------
  // Inverse pairs and commutation

  lemma InvSubBytesSubBytes(s: Block)
    ensures InvSubBytes(SubBytes(s)) == s
  {
    forall n | 0 <= n < 16 ensures InvSubBytes(SubBytes(s))[n] == s[n] {
      InvSBoxSBox(s[n]);
    }
  }

  lemma SubBytesInvSubBytes(s: Block)
    ensures SubBytes(InvSubBytes(s)) == s
  {
    forall n | 0 <= n < 16 ensures SubBytes(InvSubBytes(s))[n] == s[n] {
      SBoxInvSBox(s[n]);
    }
  }

  /** AddRoundKey with the same key twice is the identity. */
  lemma AddRoundKeyTwice(s: Block, k: Block)
    ensures AddRoundKey(AddRoundKey(s, k), k) == s
  {}

  lemma ColumnsOf(w0: Word, w1: Word, w2: Word, w3: Word)
    ensures Column(FromColumns(w0, w1, w2, w3), 0) == w0 && Column(FromColumns(w0, w1, w2, w3), 1) == w1
    ensures Column(FromColumns(w0, w1, w2, w3), 2) == w2 && Column(FromColumns(w0, w1, w2, w3), 3) == w3
  {}

  lemma FromColumnsOf(s: Block)
    ensures FromColumns(Column(s, 0), Column(s, 1), Column(s, 2), Column(s, 3)) == s
  {
    assert s == [s[0], s[1], s[2], s[3], s[4], s[5], s[6], s[7], s[8], s[9], s[10], s[11], s[12], s[13], s[14], s[15]];
  }

  lemma Remainder(n: nat, j: nat)
    requires j < 4
    ensures (4 * n + j) % 4 == j && (4 * n + j) / 4 == n
  {}

  /** Column c of MapColumns(f, s) is f of column c of s. */
  lemma MapColumnsColumn(f: Word -> Word, s: Block, c: nat)
    requires c < 4
    ensures Column(MapColumns(f, s), c) == f(Column(s, c))
  {
    Remainder(c, 0); Remainder(c, 1); Remainder(c, 2); Remainder(c, 3);
  }

  /** Two blocks with the same four columns are equal. */
  lemma SameColumns(x: Block, y: Block)
    requires Column(x, 0) == Column(y, 0) && Column(x, 1) == Column(y, 1)
    requires Column(x, 2) == Column(y, 2) && Column(x, 3) == Column(y, 3)
    ensures x == y
  {
    FromColumnsOf(x);
    FromColumnsOf(y);
  }

  lemma InvMixColumnsMixColumnsColumn(s: Block, c: nat)
    requires c < 4
    ensures Column(InvMixColumns(MixColumns(s)), c) == Column(s, c)
  {
    MapColumnsColumn(InvMixColumn, MixColumns(s), c);
    MapColumnsColumn(MixColumn, s, c);
    InvMixColumnMixColumn(Column(s, c));
  }

  lemma MixColumnsInvMixColumnsColumn(s: Block, c: nat)
    requires c < 4
    ensures Column(MixColumns(InvMixColumns(s)), c) == Column(s, c)
  {
    MapColumnsColumn(MixColumn, InvMixColumns(s), c);
    MapColumnsColumn(InvMixColumn, s, c);
    MixColumnInvMixColumn(Column(s, c));
  }

  lemma InvMixColumnsMixColumns(s: Block)
    ensures InvMixColumns(MixColumns(s)) == s
  {
    InvMixColumnsMixColumnsColumn(s, 0); InvMixColumnsMixColumnsColumn(s, 1);
    InvMixColumnsMixColumnsColumn(s, 2); InvMixColumnsMixColumnsColumn(s, 3);
    SameColumns(InvMixColumns(MixColumns(s)), s);
  }

  lemma MixColumnsInvMixColumns(s: Block)
    ensures MixColumns(InvMixColumns(s)) == s
  {
    MixColumnsInvMixColumnsColumn(s, 0); MixColumnsInvMixColumnsColumn(s, 1);
    MixColumnsInvMixColumnsColumn(s, 2); MixColumnsInvMixColumnsColumn(s, 3);
    SameColumns(MixColumns(InvMixColumns(s)), s);
  }

  /**
   * SubBytes acts on each byte alone, so it commutes with ShiftRows; this is
   * why aes.c may shift the rows before substituting in its encryption round.
   */
  lemma SubBytesShiftRows(s: Block)
    ensures SubBytes(ShiftRows(s)) == ShiftRows(SubBytes(s))
  {}

  lemma InvSubBytesInvShiftRows(s: Block)
    ensures InvSubBytes(InvShiftRows(s)) == InvShiftRows(InvSubBytes(s))
  {}

  lemma SubBytesInvShiftRows(s: Block)
    ensures SubBytes(InvShiftRows(s)) == InvShiftRows(SubBytes(s))
  {}

  lemma InvSubBytesShiftRows(s: Block)
    ensures InvSubBytes(ShiftRows(s)) == ShiftRows(InvSubBytes(s))
  {}
}
