/*
 * The functions of aes.c as imperative code over byte arrays: each method
 * changes its arrays as the C function changes the memory its pointers
 * address, and is proved to compute the corresponding function of the
 * specification modules. A pointer with an offset is an array with an index.
 */
module Aes {
  import GF
  import opened Tables
  import opened Mix
  import Transforms
  import KeySchedule
  import Cipher

  /** The number of bits of b up to its highest set bit. */
  function BitLength(b: bv8): nat
    decreases b
  {
    if b == 0 then 0 else 1 + BitLength(b >> 1)
  }

  /** A byte whose bits from k up are clear has at most k significant bits. */
  lemma {:induction false} BitLengthBound(b: bv8, k: nat)
    requires k <= 8 && b >> k == 0
    ensures BitLength(b) <= k
  {
    if b != 0 {
      assert (b >> 1) >> (k - 1) == b >> k;
      BitLengthBound(b >> 1, k - 1);
    }
  }

  /** One pass of the loop of mul keeps p + a.b unchanged. */
  lemma MulPass(p0: bv8, x: bv8, y: bv8, p: bv8)
    requires y != 0 && p == (if y & 1 != 0 then p0 ^ x else p0)
    ensures GF.Add(p, GF.ShiftAddMul(GF.XTime(x), y >> 1)) == GF.Add(p0, GF.ShiftAddMul(x, y))
  {
    var rest := GF.ShiftAddMul(GF.XTime(x), y >> 1);
    assert GF.ShiftAddMul(x, y) == GF.Add(GF.IfBit(y, 0x01, x), rest);
    assert (p0 ^ GF.IfBit(y, 0x01, x)) ^ rest == p0 ^ (GF.IfBit(y, 0x01, x) ^ rest);
  }

  /**
   * mul: multiplication in GF(2^8) by shift and add. Each pass adds `a` when
   * the low bit of `b` is set, multiplies `a` by x and halves `b`; the loop
   * stops when `b` is zero, after at most eight passes.
   */
  method Mul(a: bv8, b: bv8) returns (p: bv8, ghost passes: nat)
    ensures p == GF.ShiftAddMul(a, b) == GF.Mul(a, b)
    ensures passes == BitLength(b) <= 8
  {
    p := 0;
    var x, y := a, b;
    passes := 0;
    while y != 0
      invariant GF.Add(p, GF.ShiftAddMul(x, y)) == GF.ShiftAddMul(a, b)
      invariant passes + BitLength(y) == BitLength(b)
      decreases y
    {
      ghost var p0, x0 := p, x;
      if y & 1 != 0 {
        p := p ^ x;
      }
      if x & 0x80 != 0 {
        x := (x << 1) ^ 0x1b;
      } else {
        x := x << 1;
      }
      assert x == GF.XTime(x0);
      MulPass(p0, x0, y, p);
      y := y >> 1;
      passes := passes + 1;
    }
    BitLengthBound(b, 8);
    GF.ShiftAddMulIsMul(a, b);

  }

  /** The moves of shift_rows, in the order the source makes them, permute the block as ShiftRows does. */
  lemma ShiftRowsMoves(s: seq<bv8>)
    requires |s| == 16
    ensures s[1 := s[5]][5 := s[9]][9 := s[13]][13 := s[1]][2 := s[10]][10 := s[2]][6 := s[14]][14 := s[6]][15 := s[11]][11 := s[7]][7 := s[3]][3 := s[15]] == Transforms.ShiftRows(s)
  {
    assert s[1 := s[5]][5 := s[9]][9 := s[13]][13 := s[1]][2 := s[10]][10 := s[2]][6 := s[14]][14 := s[6]][15 := s[11]][11 := s[7]][7 := s[3]][3 := s[15]] == [s[0], s[5], s[10], s[15], s[4], s[9], s[14], s[3], s[8], s[13], s[2], s[7], s[12], s[1], s[6], s[11]];
    Transforms.ShiftRowsLayout(s);
  }

  /** The moves of inv_shift_rows, in the order the source makes them, permute the block as InvShiftRows does. */
  lemma InvShiftRowsMoves(s: seq<bv8>)
    requires |s| == 16
    ensures s[13 := s[9]][9 := s[5]][5 := s[1]][1 := s[13]][14 := s[6]][6 := s[14]][10 := s[2]][2 := s[10]][3 := s[7]][7 := s[11]][11 := s[15]][15 := s[3]] == Transforms.InvShiftRows(s)
  {
    assert s[13 := s[9]][9 := s[5]][5 := s[1]][1 := s[13]][14 := s[6]][6 := s[14]][10 := s[2]][2 := s[10]][3 := s[7]][7 := s[11]][11 := s[15]][15 := s[3]] == [s[0], s[13], s[10], s[7], s[4], s[1], s[14], s[11], s[8], s[5], s[2], s[15], s[12], s[9], s[6], s[3]];
    Transforms.InvShiftRowsLayout(s);
  }

  /** shift_rows: rotates rows 1, 2 and 3 of the state left by one, two and three places. */
  method ShiftRows(state: array<bv8>)
    requires state.Length == 16
    modifies state
    ensures state[..] == Transforms.ShiftRows(old(state[..]))
  {
    var temp: bv8;
    // row 1
    temp := state[1];
    state[1] := state[5];
    state[5] := state[9];
    state[9] := state[13];
    state[13] := temp;
    // row 2
    temp := state[2];
    state[2] := state[10];
    state[10] := temp;
    temp := state[6];
    state[6] := state[14];
    state[14] := temp;
    // row 3
    temp := state[15];
    state[15] := state[11];
    state[11] := state[7];
    state[7] := state[3];
    state[3] := temp;
    assert state[..] == old(state[..])[1 := old(state[5])][5 := old(state[9])][9 := old(state[13])][13 := old(state[1])][2 := old(state[10])][10 := old(state[2])][6 := old(state[14])][14 := old(state[6])][15 := old(state[11])][11 := old(state[7])][7 := old(state[3])][3 := old(state[15])];
    ShiftRowsMoves(old(state[..]));
  }

  /** inv_shift_rows: rotates rows 1, 2 and 3 of the state right by one, two and three places. */
  method InvShiftRows(state: array<bv8>)
    requires state.Length == 16
    modifies state
    ensures state[..] == Transforms.InvShiftRows(old(state[..]))
  {
    var temp: bv8;
    // row 1
    temp := state[13];
    state[13] := state[9];
    state[9] := state[5];
    state[5] := state[1];
    state[1] := temp;
    // row 2
    temp := state[14];
    state[14] := state[6];
    state[6] := temp;
    temp := state[10];
    state[10] := state[2];
    state[2] := temp;
    // row 3
    temp := state[3];
    state[3] := state[7];
    state[7] := state[11];
    state[11] := state[15];
    state[15] := temp;
    assert state[..] == old(state[..])[13 := old(state[9])][9 := old(state[5])][5 := old(state[1])][1 := old(state[13])][14 := old(state[6])][6 := old(state[14])][10 := old(state[2])][2 := old(state[10])][3 := old(state[7])][7 := old(state[11])][11 := old(state[15])][15 := old(state[3])];
    InvShiftRowsMoves(old(state[..]));
  }

  /** One more pass of a column loop appends f of the next column: the first 4i + 4 bytes
      of MapColumns(f, s) are its first 4i bytes and then f of column i. */
  lemma PrefixStep(f: Word -> Word, s: Transforms.Block, i: nat, written: seq<bv8>, w: Word)
    requires i < 4 && written == Transforms.MapColumns(f, s)[..4 * i] && w == f(Transforms.Column(s, i))
    ensures written + [w.b0, w.b1, w.b2, w.b3] == Transforms.MapColumns(f, s)[..4 * i + 4]
  {
    var m := Transforms.MapColumns(f, s);
    Transforms.MapColumnsColumn(f, s, i);
    assert m[..4 * i + 4] == m[..4 * i] + [m[4 * i], m[4 * i + 1], m[4 * i + 2], m[4 * i + 3]];
  }

  /** Mixing every column with MixColumnShared, as the loop of aes_enc_round does, is
      MixColumns. */
  lemma MapColumnsShared(s: Transforms.Block)
    ensures Transforms.MapColumns(MixColumnShared, s) == Transforms.MixColumns(s)
  {
    var x, y := Transforms.MapColumns(MixColumnShared, s), Transforms.MixColumns(s);
    forall j | 0 <= j < 4
      ensures Transforms.Column(x, j) == Transforms.Column(y, j)
    {
      MixColumnSharedIsMixColumn(Transforms.Column(s, j));
      Transforms.MapColumnsColumn(MixColumnShared, s, j);
      Transforms.MapColumnsColumn(MixColumn, s, j);
    }
    Transforms.SameColumns(x, y);
  }

  /** Mixing every column with InvMixColumnFelics, as the loop of aes_dec_round does, is
      InvMixColumns. */
  lemma MapColumnsFelics(s: Transforms.Block)
    ensures Transforms.MapColumns(InvMixColumnFelics, s) == Transforms.InvMixColumns(s)
  {
    var x, y := Transforms.MapColumns(InvMixColumnFelics, s), Transforms.InvMixColumns(s);
    forall j | 0 <= j < 4
      ensures Transforms.Column(x, j) == Transforms.Column(y, j)
    {
      InvMixColumnFelicsIsInvMixColumn(Transforms.Column(s, j));
      Transforms.MapColumnsColumn(InvMixColumnFelics, s, j);
      Transforms.MapColumnsColumn(InvMixColumn, s, j);
    }
    Transforms.SameColumns(x, y);
  }

  /** The S-box loops of aes_enc_round, aes_dec_round, aes_encrypt_128 and aes_decrypt_128:
      dst[i] becomes table[src[i]], where table is SBOX or INV_SBOX; src and dst may be the
      same array. */
  method SubstituteBytes(src: array<bv8>, dst: array<bv8>, table: bv8 -> bv8)
    requires src.Length == 16 && dst.Length == 16
    modifies dst
    ensures dst[..] == Transforms.MapBytes(table, old(src[..]))
  {
    ghost var s: Transforms.Block := src[..];
    var i := 0;
    while i < 16
      invariant i <= 16
      invariant forall j :: 0 <= j < i ==> dst[j] == table(s[j])
      invariant forall j :: i <= j < 16 ==> src[j] == s[j]
    {
      dst[i] := table(src[i]);
      i := i + 1;
    }
  }

  /** The round-key loops: dst[i] becomes src[i] ^ roundkeys[off + i]; src and dst may be
      the same array (aes_enc_round, aes_encrypt_128, aes_decrypt_128) or not
      (aes_dec_round, which adds the key into its scratch block). */
  method AddRoundKey(src: array<bv8>, roundkeys: array<bv8>, off: nat, dst: array<bv8>)
    requires src.Length == 16 && dst.Length == 16 && off + 16 <= roundkeys.Length && dst != roundkeys
    modifies dst
    ensures dst[..] == Transforms.AddRoundKey(old(src[..]), roundkeys[off..off + 16])
  {
    ghost var s: Transforms.Block := src[..];
    ghost var k: Transforms.Block := roundkeys[off..off + 16];
    var i := 0;
    while i < 16
      invariant i <= 16
      invariant forall j :: 0 <= j < i ==> dst[j] == GF.Add(s[j], k[j])
      invariant forall j :: i <= j < 16 ==> src[j] == s[j]
    {
      dst[i] := GF.Add(src[i], roundkeys[off + i]);
      i := i + 1;
    }
  }

  /** Four stores through a moving pointer: bytes k..k + 3 of dst become r0..r3 and the
      bytes before them are kept. */
  method Store4(dst: array<bv8>, k: nat, r0: bv8, r1: bv8, r2: bv8, r3: bv8)
    requires k + 4 <= dst.Length
    modifies dst
    ensures dst[..k + 4] == old(dst[..k]) + [r0, r1, r2, r3]
    ensures dst[k + 4..] == old(dst[k + 4..])
  {
    dst[k], dst[k + 1], dst[k + 2], dst[k + 3] := r0, r1, r2, r3;
    assert dst[..k + 4] == dst[..k] + dst[k..k + 4];
  }

  /** The arithmetic of one pass of the mixing loop of aes_enc_round: the shared sum t of the column and one
      doubling per byte give the mixed column. */
  method MixColumnBytes(a0: bv8, a1: bv8, a2: bv8, a3: bv8) returns (r0: bv8, r1: bv8, r2: bv8, r3: bv8)
    ensures Word(r0, r1, r2, r3) == MixColumnShared(Word(a0, a1, a2, a3))
  {
    ghost var passes: nat;
    var m0, m1, m2, m3: bv8;
    var t := GF.Add(GF.Add(GF.Add(a0, a1), a2), a3);
    m0, passes := Mul(GF.Add(a0, a1), 0x02);
    m1, passes := Mul(GF.Add(a1, a2), 0x02);
    m2, passes := Mul(GF.Add(a2, a3), 0x02);
    m3, passes := Mul(GF.Add(a3, a0), 0x02);
    r0, r1, r2, r3 := GF.Add(GF.Add(m0, a0), t), GF.Add(GF.Add(m1, a1), t), GF.Add(GF.Add(m2, a2), t), GF.Add(GF.Add(m3, a3), t);
  }

  /** One pass of the mixing loop of aes_enc_round: column i of src, mixed, is stored as
      column i of dst after the columns already written. */
  method MixColumnPass(src: array<bv8>, dst: array<bv8>, i: nat)
    requires src.Length == 16 && dst.Length == 16 && src != dst && i < 4
    requires dst[..4 * i] == Transforms.MapColumns(MixColumnShared, src[..])[..4 * i]
    modifies dst
    ensures dst[..4 * i + 4] == Transforms.MapColumns(MixColumnShared, src[..])[..4 * i + 4]
    ensures dst[4 * i + 4..] == old(dst[4 * i + 4..])
  {
    var a0, a1, a2, a3 := src[4 * i + 0], src[4 * i + 1], src[4 * i + 2], src[4 * i + 3];
    assert Word(a0, a1, a2, a3) == Transforms.Column(src[..], i);
    var r0, r1, r2, r3 := MixColumnBytes(a0, a1, a2, a3);
    PrefixStep(MixColumnShared, src[..], i, dst[..4 * i], Word(r0, r1, r2, r3));
    Store4(dst, 4 * i, r0, r1, r2, r3);
  }

  /** The mixing loop of aes_enc_round: column i of dst becomes MixColumn of column i of
      src, computed with the shared sum t and one doubling per byte. */
  method MixColumns(src: array<bv8>, dst: array<bv8>)
    requires src.Length == 16 && dst.Length == 16 && src != dst
    modifies dst
    ensures dst[..] == Transforms.MixColumns(src[..])
  {
    var i := 0;
    while i < 4
      invariant i <= 4 && dst[..4 * i] == Transforms.MapColumns(MixColumnShared, src[..])[..4 * i]
    {
      MixColumnPass(src, dst, i);
      i := i + 1;
    }
    assert dst[..] == dst[..16];
    MapColumnsShared(src[..]);
  }

  /** The arithmetic of one pass of the inverse mixing loop of aes_dec_round (the FELICS formulas): the
      products {09}.(t + u), {04}.(c2 + c0) and {04}.(c3 + c1) are shared by the four
      bytes. */
  method InvMixColumnBytes(a0: bv8, a1: bv8, a2: bv8, a3: bv8) returns (r0: bv8, r1: bv8, r2: bv8, r3: bv8)
    ensures Word(r0, r1, r2, r3) == InvMixColumnFelics(Word(a0, a1, a2, a3))
  {
    ghost var passes: nat;
    var p, q, m0, m1, m2, m3: bv8;
    var t := GF.Add(a3, a2);
    var u := GF.Add(a1, a0);
    var v := GF.Add(t, u);
    v, passes := Mul(0x09, v);
    p, passes := Mul(GF.Add(a2, a0), 0x04);
    var w := GF.Add(v, p);
    q, passes := Mul(GF.Add(a3, a1), 0x04);
    v := GF.Add(v, q);
    m3, passes := Mul(GF.Add(a0, a3), 0x02);
    m2, passes := Mul(t, 0x02);
    m1, passes := Mul(GF.Add(a2, a1), 0x02);
    m0, passes := Mul(u, 0x02);
    r3 := GF.Add(GF.Add(a3, v), m3);
    r2 := GF.Add(GF.Add(a2, w), m2);
    r1 := GF.Add(GF.Add(a1, v), m1);
    r0 := GF.Add(GF.Add(a0, w), m0);
  }

  /** One pass of the inverse mixing loop of aes_dec_round: column i of src, unmixed, is
      stored as column i of dst after the columns already written. */
  method InvMixColumnPass(src: array<bv8>, dst: array<bv8>, i: nat)
    requires src.Length == 16 && dst.Length == 16 && src != dst && i < 4
    requires dst[..4 * i] == Transforms.MapColumns(InvMixColumnFelics, src[..])[..4 * i]
    modifies dst
    ensures dst[..4 * i + 4] == Transforms.MapColumns(InvMixColumnFelics, src[..])[..4 * i + 4]
    ensures dst[4 * i + 4..] == old(dst[4 * i + 4..])
  {
    var a0, a1, a2, a3 := src[4 * i + 0], src[4 * i + 1], src[4 * i + 2], src[4 * i + 3];
    assert Word(a0, a1, a2, a3) == Transforms.Column(src[..], i);
    var r0, r1, r2, r3 := InvMixColumnBytes(a0, a1, a2, a3);
    PrefixStep(InvMixColumnFelics, src[..], i, dst[..4 * i], Word(r0, r1, r2, r3));
    Store4(dst, 4 * i, r0, r1, r2, r3);
  }

  /** The inverse mixing loop of aes_dec_round: column i of dst becomes InvMixColumn of
      column i of src. */
  method InvMixColumns(src: array<bv8>, dst: array<bv8>)
    requires src.Length == 16 && dst.Length == 16 && src != dst
    modifies dst
    ensures dst[..] == Transforms.InvMixColumns(src[..])
  {
    var i := 0;
    while i < 4
      invariant i <= 4 && dst[..4 * i] == Transforms.MapColumns(InvMixColumnFelics, src[..])[..4 * i]
    {
      InvMixColumnPass(src, dst, i);
      i := i + 1;
    }
    assert dst[..] == dst[..16];
    MapColumnsFelics(src[..]);
  }

  /** aes_enc_round: one middle round of the cipher on the state in place, with the
      round key at roundkeys[off..off + 16]. */
  method EncRound(state: array<bv8>, roundkeys: array<bv8>, off: nat)
    requires state.Length == 16 && off + 16 <= roundkeys.Length && state != roundkeys
    modifies state
    ensures state[..] == Cipher.EncRound(old(state[..]), roundkeys[off..off + 16])
  {
    ShiftRows(state);
    var tmp := new bv8[16];
    SubstituteBytes(state, tmp, SBox);
    MixColumns(tmp, state);
    AddRoundKey(state, roundkeys, off, state);
  }

  /** aes_dec_round: one middle round of the inverse cipher on the state in place, with
      the round key at roundkeys[off..off + 16]. */
  method DecRound(state: array<bv8>, roundkeys: array<bv8>, off: nat)
    requires state.Length == 16 && off + 16 <= roundkeys.Length && state != roundkeys
    modifies state
    ensures state[..] == Cipher.DecRound(old(state[..]), roundkeys[off..off + 16])
  {
    var tmp := new bv8[16];
    AddRoundKey(state, roundkeys, off, tmp);
    InvMixColumns(tmp, state);
    InvShiftRows(state);
    SubstituteBytes(state, state, InvSBox);
  }

  // ---------------------------------------------------------------------
  // Key schedule

  /** The bytes of roundkeys after the first four stores of a pass of the key-schedule
      round loop: the bytes `written` before the new round key, whose last 16 are the
      previous round key, then temp[j] ^ prev[j]. */
  lemma KeyFirstGroupStep(written: seq<bv8>, sbox: bv8 -> bv8, rc: bv8, prev: Transforms.Block)
    requires 16 <= |written| && written[|written| - 16..] == prev
    ensures var n := |written|;
      written + [GF.Add(KeySchedule.Temp(sbox, prev, rc, 0), written[n - 16]), GF.Add(KeySchedule.Temp(sbox, prev, rc, 1), written[n - 15]),
                 GF.Add(KeySchedule.Temp(sbox, prev, rc, 2), written[n - 14]), GF.Add(KeySchedule.Temp(sbox, prev, rc, 3), written[n - 13])]
      == written + KeySchedule.NextRoundKey(sbox, prev, rc)[..4]
  {
    var n := |written|;
    KeySchedule.NextRoundKeyFirst(sbox, prev, rc);
    assert written[n - 16] == prev[0] && written[n - 15] == prev[1] && written[n - 14] == prev[2] && written[n - 13] == prev[3];
  }

  /** The bytes of roundkeys after one more group of four stores of a pass of the
      key-schedule round loop: byte k + j adds byte k + j - 4 to byte k + j - 16. */
  lemma KeyGroupStep(written: seq<bv8>, g: nat, sbox: bv8 -> bv8, rc: bv8, prev: Transforms.Block)
    requires 1 <= g < 4 && 16 <= |written| && written[|written| - 16..] == prev
    ensures var nk, n, k := KeySchedule.NextRoundKey(sbox, prev, rc), |written|, |written| + 4 * g;
      var before := written + nk[..4 * g];
      before + [GF.Add(before[k - 4], before[k - 16]), GF.Add(before[k - 3], before[k - 15]),
                GF.Add(before[k - 2], before[k - 14]), GF.Add(before[k - 1], before[k - 13])]
      == written + nk[..4 * g + 4]
  {
    KeySchedule.NextRoundKeyBytes(sbox, prev, rc, g);
    GroupBytes(written, g, KeySchedule.NextRoundKey(sbox, prev, rc), prev);
  }

  /** KeyGroupStep for any round key nk whose group g follows the key-schedule recurrence. */
  lemma GroupBytes(written: seq<bv8>, g: nat, nk: Transforms.Block, prev: Transforms.Block)
    requires 1 <= g < 4 && 16 <= |written| && written[|written| - 16..] == prev
    requires nk[..4 * g + 4] == nk[..4 * g] + [GF.Add(nk[4 * g - 4], prev[4 * g]), GF.Add(nk[4 * g - 3], prev[4 * g + 1]),
                                               GF.Add(nk[4 * g - 2], prev[4 * g + 2]), GF.Add(nk[4 * g - 1], prev[4 * g + 3])]
    ensures var n, k := |written|, |written| + 4 * g;
      var before := written + nk[..4 * g];
      before + [GF.Add(before[k - 4], before[k - 16]), GF.Add(before[k - 3], before[k - 15]),
                GF.Add(before[k - 2], before[k - 14]), GF.Add(before[k - 1], before[k - 13])]
      == written + nk[..4 * g + 4]
  {
    var n, k := |written|, |written| + 4 * g;
    var before := written + nk[..4 * g];
    assert before[k - 4] == nk[4 * g - 4] && before[k - 3] == nk[4 * g - 3];
    assert before[k - 2] == nk[4 * g - 2] && before[k - 1] == nk[4 * g - 1];
    assert before[k - 16] == prev[4 * g] && before[k - 15] == prev[4 * g + 1];
    assert before[k - 14] == prev[4 * g + 2] && before[k - 13] == prev[4 * g + 3];
  }

  /** The first four stores of a pass of the round loop of aes_key_schedule_128: byte
      k + j becomes tj (the `temp` word) plus byte q + j of the previous round key. */
  method TempGroup(roundkeys: array<bv8>, k: nat, t0: bv8, t1: bv8, t2: bv8, t3: bv8, q: nat)
    requires q + 4 <= k && k + 4 <= roundkeys.Length
    modifies roundkeys
    ensures roundkeys[..k + 4] == old(roundkeys[..k]) + [GF.Add(t0, old(roundkeys[..k])[q]),
                                                         GF.Add(t1, old(roundkeys[..k])[q + 1]),
                                                         GF.Add(t2, old(roundkeys[..k])[q + 2]),
                                                         GF.Add(t3, old(roundkeys[..k])[q + 3])]
    ensures roundkeys[k + 4..] == old(roundkeys[k + 4..])
  {
    Store4(roundkeys, k, GF.Add(t0, roundkeys[q]), GF.Add(t1, roundkeys[q + 1]),
           GF.Add(t2, roundkeys[q + 2]), GF.Add(t3, roundkeys[q + 3]));
  }

  /** Four later stores of a pass of the round loop of aes_key_schedule_128: byte k + j
      becomes byte p + j (four places back) plus byte q + j of the previous round key. */
  method KeyGroup(roundkeys: array<bv8>, k: nat, p: nat, q: nat)
    requires p + 4 <= k && q + 4 <= k && k + 4 <= roundkeys.Length
    modifies roundkeys
    ensures roundkeys[..k + 4] == old(roundkeys[..k]) + [GF.Add(old(roundkeys[..k])[p], old(roundkeys[..k])[q]),
                                                         GF.Add(old(roundkeys[..k])[p + 1], old(roundkeys[..k])[q + 1]),
                                                         GF.Add(old(roundkeys[..k])[p + 2], old(roundkeys[..k])[q + 2]),
                                                         GF.Add(old(roundkeys[..k])[p + 3], old(roundkeys[..k])[q + 3])]
    ensures roundkeys[k + 4..] == old(roundkeys[k + 4..])
  {
    Store4(roundkeys, k, GF.Add(roundkeys[p], roundkeys[q]), GF.Add(roundkeys[p + 1], roundkeys[q + 1]),
           GF.Add(roundkeys[p + 2], roundkeys[q + 2]), GF.Add(roundkeys[p + 3], roundkeys[q + 3]));
  }

  /** Bytes k0-k3 of a pass of the round loop of aes_key_schedule_128: the rotated,
      substituted last word of the previous round key, with the round constant added to its
      first byte, plus the first word of the previous round key. */
  method KeyFirstPass(roundkeys: array<bv8>, next: nat, last4: nat, rc: bv8, sbox: bv8 -> bv8)
    requires 16 <= next && next + 16 <= roundkeys.Length && last4 == next - 4
    modifies roundkeys
    ensures roundkeys[..next + 4] == old(roundkeys[..next]) + KeySchedule.NextRoundKey(sbox, old(roundkeys[next - 16..next]), rc)[..4]
    ensures roundkeys[next + 4..] == old(roundkeys[next + 4..])
  {
    ghost var written := roundkeys[..next];
    ghost var prev: Transforms.Block := roundkeys[next - 16..next];
    assert written[next - 16..] == prev;
    var temp := new bv8[4];
    temp[3] := sbox(roundkeys[last4]);
    temp[0] := sbox(roundkeys[last4 + 1]);
    temp[1] := sbox(roundkeys[last4 + 2]);
    temp[2] := sbox(roundkeys[last4 + 3]);
    temp[0] := GF.Add(temp[0], rc);
    assert temp[0] == KeySchedule.Temp(sbox, prev, rc, 0) && temp[1] == KeySchedule.Temp(sbox, prev, rc, 1);
    assert temp[2] == KeySchedule.Temp(sbox, prev, rc, 2) && temp[3] == KeySchedule.Temp(sbox, prev, rc, 3);
    TempGroup(roundkeys, next, temp[0], temp[1], temp[2], temp[3], next - 16);
    KeyFirstGroupStep(written, sbox, rc, prev);
  }

  /** Bytes k4g..k4g+3 (g = 1, 2, 3) of a pass of the round loop of aes_key_schedule_128,
      given the bytes of the round key before them. */
  method KeyGroupPass(roundkeys: array<bv8>, next: nat, g: nat, rc: bv8, sbox: bv8 -> bv8,
                      ghost written: seq<bv8>, ghost prev: Transforms.Block)
    requires 1 <= g < 4 && 16 <= next && next + 16 <= roundkeys.Length
    requires |written| == next && written[next - 16..] == prev
    requires roundkeys[..next + 4 * g] == written + KeySchedule.NextRoundKey(sbox, prev, rc)[..4 * g]
    modifies roundkeys
    ensures roundkeys[..next + 4 * g + 4] == written + KeySchedule.NextRoundKey(sbox, prev, rc)[..4 * g + 4]
    ensures roundkeys[next + 4 * g + 4..] == old(roundkeys[next + 4 * g + 4..])
  {
    KeyGroup(roundkeys, next + 4 * g, next + 4 * g - 4, next + 4 * g - 16);
    KeyGroupStep(written, g, sbox, rc, prev);
  }

  /** One pass of the round loop of aes_key_schedule_128: from the previous round key, the
      16 bytes before `next`, it writes the next round key at next..next + 16. `last4`
      points to the last four bytes of the previous round key; sbox is SBOX. */
  method KeyRound(roundkeys: array<bv8>, next: nat, last4: nat, rc: bv8, sbox: bv8 -> bv8)
    requires 16 <= next && next + 16 <= roundkeys.Length && last4 == next - 4
    modifies roundkeys
    ensures roundkeys[..next + 16] == old(roundkeys[..next]) + KeySchedule.NextRoundKey(sbox, old(roundkeys[next - 16..next]), rc)
    ensures roundkeys[next + 16..] == old(roundkeys[next + 16..])
  {
    ghost var written := roundkeys[..next];
    ghost var prev: Transforms.Block := roundkeys[next - 16..next];
    ghost var rest := roundkeys[next + 16..];
    KeyFirstPass(roundkeys, next, last4, rc, sbox);
    assert roundkeys[next + 16..] == roundkeys[next + 4..][12..];
    KeyGroupPass(roundkeys, next, 1, rc, sbox, written, prev);
    assert roundkeys[next + 16..] == roundkeys[next + 8..][8..];
    KeyGroupPass(roundkeys, next, 2, rc, sbox, written, prev);
    assert roundkeys[next + 16..] == roundkeys[next + 12..][4..];
    KeyGroupPass(roundkeys, next, 3, rc, sbox, written, prev);
    assert roundkeys[next + 16..] == rest;
    assert KeySchedule.NextRoundKey(sbox, prev, rc)[..16] == KeySchedule.NextRoundKey(sbox, prev, rc);
  }

  /** Four more bytes of the key extend its prefix. */
  lemma KeyPrefixStep(key: seq<bv8>, n: nat)
    requires n + 4 <= |key|
    ensures key[..n + 4] == key[..n] + [key[n], key[n + 1], key[n + 2], key[n + 3]]
  {
    assert key[..n + 4] == key[..n] + key[n..n + 4];
  }

  /** The first loop of aes_key_schedule_128: four bytes of the key per pass. */
  method CopyKey(key: array<bv8>, roundkeys: array<bv8>)
    requires key.Length == 16 && roundkeys.Length == 176
    modifies roundkeys
    ensures roundkeys[..16] == key[..]
    ensures roundkeys[16..] == old(roundkeys[16..])
  {
    var i, next := 0, 0;
    while i < 4
      invariant i <= 4 && next == 4 * i
      invariant roundkeys[..next] == key[..next]
      invariant roundkeys[16..] == old(roundkeys[16..])
    {
      KeyPrefixStep(key[..], next);
      Store4(roundkeys, next, key[4 * i + 0], key[4 * i + 1], key[4 * i + 2], key[4 * i + 3]);
      assert roundkeys[16..] == roundkeys[next + 4..][12 - next..];
      next := next + 4;
      i := i + 1;
    }
  }

  /**
   * aes_key_schedule_128: the eleven round keys of FIPS PUB 197 KeyExpansion,
   * the cipher key first, one after another in roundkeys.
   */
  method KeySchedule128(key: array<bv8>, roundkeys: array<bv8>)
    requires key.Length == 16 && roundkeys.Length == 176
    modifies roundkeys
    ensures roundkeys[..] == KeySchedule.Flatten(KeySchedule.ExpandKey(old(key[..])))
  {
    ghost var k: Transforms.Block := key[..];
    CopyKey(key, roundkeys);
    assert KeySchedule.Flatten(KeySchedule.KeyRounds(SBox, k, RC, 0)) == roundkeys[..16];
    var next := 16;
    var last4 := next - 4;
    var i := 0;
    while i < 10
      invariant i <= 10 && next == 16 * i + 16 && last4 == next - 4
      invariant roundkeys[..next] == KeySchedule.Flatten(KeySchedule.KeyRounds(SBox, k, RC, i))
    {
      KeySchedule.FlattenKeyRoundsStep(SBox, k, RC, i);
      KeyRound(roundkeys, next, last4, RC[i], SBox);
      next, last4 := next + 16, last4 + 16;
      i := i + 1;
    }
    assert roundkeys[..] == roundkeys[..next];
  }

  // ---------------------------------------------------------------------
  // Encryption and decryption of one block

  /** The copy loop that starts aes_encrypt_128 and aes_decrypt_128; src and dst may be
      the same array. */
  method CopyBlock(src: array<bv8>, dst: array<bv8>)
    requires src.Length == 16 && dst.Length == 16
    modifies dst
    ensures dst[..] == old(src[..])
  {
    ghost var s := src[..];
    var i := 0;
    while i < 16
      invariant i <= 16
      invariant forall j :: 0 <= j < i ==> dst[j] == s[j]
      invariant forall j :: i <= j < 16 ==> src[j] == s[j]
    {
      dst[i] := src[i];
      i := i + 1;
    }
  }

  /** The last round of aes_encrypt_128 on the state in place: the S-box loop, shift_rows
      and the round-key loop with roundkeys[off..off + 16]. */
  method FinalRound(state: array<bv8>, roundkeys: array<bv8>, off: nat)
    requires state.Length == 16 && off + 16 <= roundkeys.Length && state != roundkeys
    modifies state
    ensures state[..] == Cipher.FinalRound(old(state[..]), roundkeys[off..off + 16])
  {
    SubstituteBytes(state, state, SBox);
    ShiftRows(state);
    AddRoundKey(state, roundkeys, off, state);
  }

  /** The first round of aes_decrypt_128 on the state in place: the round-key loop with
      roundkeys[off..off + 16], inv_shift_rows and the INV_SBOX loop. */
  method FirstDecRound(state: array<bv8>, roundkeys: array<bv8>, off: nat)
    requires state.Length == 16 && off + 16 <= roundkeys.Length && state != roundkeys
    modifies state
    ensures state[..] == Cipher.FirstDecRound(old(state[..]), roundkeys[off..off + 16])
  {
    AddRoundKey(state, roundkeys, off, state);
    InvShiftRows(state);
    SubstituteBytes(state, state, InvSBox);
  }

  /**
   * aes_encrypt_128: AES-128 encryption of plaintext with the eleven round keys
   * laid out in roundkeys; plaintext and ciphertext may be the same array.
   */
  method Encrypt128(roundkeys: array<bv8>, plaintext: array<bv8>, ciphertext: array<bv8>)
    requires roundkeys.Length == 176 && plaintext.Length == 16 && ciphertext.Length == 16
    requires ciphertext != roundkeys
    modifies ciphertext
    ensures ciphertext[..] == Cipher.Encrypt(KeySchedule.Blocks(roundkeys[..]), old(plaintext[..]))
  {
    ghost var w: Cipher.RoundKeys := KeySchedule.Blocks(roundkeys[..]);
    ghost var p: Transforms.Block := plaintext[..];
    CopyBlock(plaintext, ciphertext);
    AddRoundKey(ciphertext, roundkeys, 0, ciphertext);
    var off := 16;
    var i := 1;
    while i < 10
      invariant 1 <= i <= 10 && off == 16 * i
      invariant ciphertext[..] == Cipher.EncRounds(Transforms.AddRoundKey(p, w[0]), w, i - 1)
    {
      assert roundkeys[off..off + 16] == w[i];
      EncRound(ciphertext, roundkeys, off);
      off := off + 16;
      i := i + 1;
    }
    assert roundkeys[off..off + 16] == w[10];
    FinalRound(ciphertext, roundkeys, off);
  }

  /**
   * aes_decrypt_128: AES-128 decryption of ciphertext with the eleven round keys
   * laid out in roundkeys, used from the last to the first; ciphertext and
   * plaintext may be the same array.
   */
  method Decrypt128(roundkeys: array<bv8>, ciphertext: array<bv8>, plaintext: array<bv8>)
    requires roundkeys.Length == 176 && ciphertext.Length == 16 && plaintext.Length == 16
    requires plaintext != roundkeys
    modifies plaintext
    ensures plaintext[..] == Cipher.Decrypt(KeySchedule.Blocks(roundkeys[..]), old(ciphertext[..]))
  {
    ghost var w: Cipher.RoundKeys := KeySchedule.Blocks(roundkeys[..]);
    ghost var c: Transforms.Block := ciphertext[..];
    CopyBlock(ciphertext, plaintext);
    var off := 160;
    assert roundkeys[off..off + 16] == w[10];
    FirstDecRound(plaintext, roundkeys, off);
    off := off - 16;
    ghost var first := plaintext[..];
    var i := 1;
    while i < 10
      invariant 1 <= i <= 10 && off == 160 - 16 * i
      invariant Cipher.DecRounds(plaintext[..], w, 10 - i) == Cipher.DecRounds(first, w, 9)
    {
      assert roundkeys[off..off + 16] == w[10 - i];
      ghost var before := plaintext[..];
      DecRound(plaintext, roundkeys, off);
      assert Cipher.DecRounds(before, w, 10 - i) == Cipher.DecRounds(plaintext[..], w, 10 - (i + 1));
      off := off - 16;
      i := i + 1;
    }
    assert roundkeys[off..off + 16] == w[0];
    AddRoundKey(plaintext, roundkeys, off, plaintext);
  }

  /** The schedule KeySchedule128 stores reads back as the round keys of the cipher key:
      Encrypt128 and Decrypt128 on it compute AES-128 under that key, and decryption
      undoes encryption. */
  lemma StoredScheduleCipher(key: Transforms.Block, plaintext: Transforms.Block)
    ensures var w := KeySchedule.Blocks(KeySchedule.Flatten(KeySchedule.ExpandKey(key)));
      |w| == 11 && Cipher.Encrypt(w, plaintext) == Cipher.Aes128Encrypt(key, plaintext)
      && Cipher.Decrypt(w, Cipher.Encrypt(w, plaintext)) == plaintext
  {
    KeySchedule.BlocksFlatten(KeySchedule.ExpandKey(key));
    Cipher.Aes128RoundTrip(key, plaintext, plaintext);
  }
}
