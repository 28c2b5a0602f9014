/*
 * The AES-128 key schedule: ROUNDS = 10 passes of the round loop of
 * aes_key_schedule_128 (aes.c) give eleven round keys of 16 bytes. KeyRounds
 * follows the source's byte loop; Words is KeyExpansion as FIPS PUB 197,
 * section 5.2, writes it on 4-byte words. Both are stated for a list `rcs` of
 * round constants and used with the RC table; ExpandKeyIsKeyExpansion shows
 * that they produce the same round keys.
 */
module KeySchedule {
  import opened GF
  import opened Tables
  import opened Mix
  import opened Transforms

  /**
   * Byte j of the four bytes `temp` of one pass of the round loop: the S-box
   * of the last four bytes of the previous round key, rotated by one place,
   * with the round constant rc added to the first.
   */
  function Temp(sub: bv8 -> bv8, prev: Block, rc: bv8, j: nat): bv8
    requires j < 4
  {
    if j == 0 then Add(sub(prev[13]), rc)
    else if j == 1 then sub(prev[14])
    else if j == 2 then sub(prev[15])
    else sub(prev[12])
  }

  /**
   * Byte j of the round key one pass writes: the first four add `temp` to the
   * previous round key `prev`, each later one adds the byte of `prev` to the
   * new byte four places back.
   */
  function KeyByte(sub: bv8 -> bv8, prev: Block, rc: bv8, j: nat): bv8
    requires j < 16
  {
    if j < 4 then Add(Temp(sub, prev, rc, j), prev[j]) else Add(KeyByte(sub, prev, rc, j - 4), prev[j])
  }

  /** The 16 bytes one pass of the round loop appends, from the previous round key `prev`. */
  function NextRoundKey(sub: bv8 -> bv8, prev: Block, rc: bv8): Block {
    seq(16, j requires 0 <= j < 16 => KeyByte(sub, prev, rc, j))
  }

  /** Round keys 0 to n: the key itself, then n passes of the round loop, pass i using rcs[i]. */
  function KeyRounds(sub: bv8 -> bv8, key: Block, rcs: seq<bv8>, n: nat): (r: seq<Block>)
    requires n <= |rcs|
    ensures |r| == n + 1 && r[0] == key
  {
    if n == 0 then [key]
    else
      var prev := KeyRounds(sub, key, rcs, n - 1);
      prev + [NextRoundKey(sub, prev[n - 1], rcs[n - 1])]
  }

  /**
   * The eleven round keys aes_key_schedule_128 writes to `roundkeys`; round key
   * i is the 16 bytes at offset 16 * i. The first is the cipher key.
   */
  function ExpandKey(key: Block): (r: seq<Block>)
    ensures |r| == 11 && r[0] == key
  {
    KeyRounds(SBox, key, RC, 10)
  }

  /** Round keys laid out one after another, as aes_key_schedule_128 stores them. */
  function Flatten(ks: seq<Block>): (r: seq<bv8>)
    ensures |r| == 16 * |ks|
  {
    if |ks| == 0 then [] else Flatten(ks[..|ks| - 1]) + ks[|ks| - 1]
  }

  /** The round keys of a buffer of whole round keys: round key r at offset 16 r. */
  function Blocks(rk: seq<bv8>): (r: seq<Block>)
    requires |rk| % 16 == 0
    ensures |r| == |rk| / 16
    ensures forall i :: 0 <= i < |r| ==> r[i] == rk[16 * i..16 * i + 16]
  {
    seq(|rk| / 16, i requires 0 <= i < |rk| / 16 => rk[16 * i..16 * i + 16])
  }

  /** In the flattened buffer, round key r sits at offset 16 r. */
  lemma {:induction false} FlattenBlock(ks: seq<Block>, r: nat)
    requires r < |ks|
    ensures Flatten(ks)[16 * r..16 * r + 16] == ks[r]
    decreases |ks|
  {
    var n := |ks| - 1;
    var init := ks[..n];
    assert Flatten(ks) == Flatten(init) + ks[n];
    if r < n {
      FlattenBlock(init, r);
      assert init[r] == ks[r];
    } else {
      assert Flatten(ks)[16 * r..16 * r + 16] == Flatten(ks)[|Flatten(init)|..];
    }
  }

  /** Blocks undoes Flatten: a stored schedule reads back as the round keys that were stored. */
  lemma BlocksFlatten(ks: seq<Block>)
    ensures Blocks(Flatten(ks)) == ks
  {
    forall r | 0 <= r < |ks|
      ensures Blocks(Flatten(ks))[r] == ks[r]
    {
      FlattenBlock(ks, r);
    }
  }

  /** One more pass of the round loop appends NextRoundKey of the last 16 bytes stored. */
  lemma FlattenKeyRoundsStep(sub: bv8 -> bv8, key: Block, rcs: seq<bv8>, i: nat)
    requires i < |rcs|
    ensures var done := Flatten(KeyRounds(sub, key, rcs, i));
      Flatten(KeyRounds(sub, key, rcs, i + 1)) == done + NextRoundKey(sub, done[16 * i..16 * i + 16], rcs[i])
  {
    var ks := KeyRounds(sub, key, rcs, i + 1);
    assert ks[..i + 1] == KeyRounds(sub, key, rcs, i);
    FlattenBlock(KeyRounds(sub, key, rcs, i), i);
  }

  /** Later passes of the round loop only append: round key i is fixed once written. */
  lemma {:induction false} KeyRoundsPrefix(sub: bv8 -> bv8, key: Block, rcs: seq<bv8>, m: nat, n: nat)
    requires m <= n <= |rcs|
    ensures KeyRounds(sub, key, rcs, n)[..m + 1] == KeyRounds(sub, key, rcs, m)
    decreases n
  {
    if m < n {
      KeyRoundsPrefix(sub, key, rcs, m, n - 1);
      assert KeyRounds(sub, key, rcs, n)[..n] == KeyRounds(sub, key, rcs, n - 1);
    }
  }

  /** The last round key of KeyRounds comes from the one before it. */
  lemma KeyRoundsLast(sub: bv8 -> bv8, key: Block, rcs: seq<bv8>, i: nat)
    requires 1 <= i <= |rcs|
    ensures KeyRounds(sub, key, rcs, i)[i] == NextRoundKey(sub, KeyRounds(sub, key, rcs, i - 1)[i - 1], rcs[i - 1])
  {}

  /** Round key i + 1 is NextRoundKey of round key i, with round constant RC[i]. */
  lemma ExpandKeyStep(key: Block, i: nat)
    requires i < 10
    ensures ExpandKey(key)[i + 1] == NextRoundKey(SBox, ExpandKey(key)[i], RC[i])
  {
    KeyRoundsPrefix(SBox, key, RC, i + 1, 10);
    assert ExpandKey(key)[i + 1] == KeyRounds(SBox, key, RC, i + 1)[i + 1];
    assert ExpandKey(key)[i] == KeyRounds(SBox, key, RC, i + 1)[i];
    KeyRoundsLast(SBox, key, RC, i + 1);
  }

  /**
   * The schedule as the 176 bytes aes_key_schedule_128 writes: the key first,
   * then every 16 bytes NextRoundKey of the 16 before them.
   */
  lemma FlatSchedule(key: Block, i: nat)
    requires i < 10
    ensures |Flatten(ExpandKey(key))| == 176
    ensures Flatten(ExpandKey(key))[..16] == key
    ensures Flatten(ExpandKey(key))[16 * i + 16..16 * i + 32] == NextRoundKey(SBox, Flatten(ExpandKey(key))[16 * i..16 * i + 16], RC[i])
  {
    var ks := ExpandKey(key);
    FlattenBlock(ks, 0);
    FlattenBlock(ks, i);
    FlattenBlock(ks, i + 1);
    ExpandKeyStep(key, i);
  }

  /** The first four bytes of a round key add the bytes of `temp` to the previous key. */
  lemma NextRoundKeyFirst(sub: bv8 -> bv8, prev: Block, rc: bv8)
    ensures NextRoundKey(sub, prev, rc)[..4]
         == [Add(Temp(sub, prev, rc, 0), prev[0]), Add(Temp(sub, prev, rc, 1), prev[1]), Add(Temp(sub, prev, rc, 2), prev[2]), Add(Temp(sub, prev, rc, 3), prev[3])]
  {
    KeyByteFirst(sub, prev, rc, 0);
    KeyByteFirst(sub, prev, rc, 1);
    KeyByteFirst(sub, prev, rc, 2);
    KeyByteFirst(sub, prev, rc, 3);
  }

  /** Bytes 4g..4g + 4 of a round key add the previous key to the four bytes before them. */
  lemma NextRoundKeyBytes(sub: bv8 -> bv8, prev: Block, rc: bv8, g: nat)
    requires 1 <= g < 4
    ensures
      var k := NextRoundKey(sub, prev, rc);
      k[..4 * g + 4] == k[..4 * g] + [Add(k[4 * g - 4], prev[4 * g]), Add(k[4 * g - 3], prev[4 * g + 1]),
                                      Add(k[4 * g - 2], prev[4 * g + 2]), Add(k[4 * g - 1], prev[4 * g + 3])]
  {
    KeyByteStep(sub, prev, rc, 4 * g);
    KeyByteStep(sub, prev, rc, 4 * g + 1);
    KeyByteStep(sub, prev, rc, 4 * g + 2);
    KeyByteStep(sub, prev, rc, 4 * g + 3);
  }

  // ---------------------------------------------------------------------
  // KeyExpansion on words (FIPS PUB 197, section 5.2)

  /** RotWord: a cyclic left rotation of the four bytes. */
  function RotWord(w: Word): Word {
    Word(w.b1, w.b2, w.b3, w.b0)
  }

  /** SubWord: the S-box on each of the four bytes. */
  function SubWord(sub: bv8 -> bv8, w: Word): Word {
    Word(sub(w.b0), sub(w.b1), sub(w.b2), sub(w.b3))
  }

  /** The key as its four words. */
  function KeyWords(key: Block): seq<Word> {
    [Word(key[0], key[1], key[2], key[3]), Word(key[4], key[5], key[6], key[7]),
     Word(key[8], key[9], key[10], key[11]), Word(key[12], key[13], key[14], key[15])]
  }

  /**
   * Word w[i] of KeyExpansion, i = |w|, from the words before it; the round
   * constant word Rcon[i / 4] is (rcs[i / 4 - 1], 00, 00, 00).
   */
  function NextWord(sub: bv8 -> bv8, rcs: seq<bv8>, w: seq<Word>): Word
    requires 4 <= |w| < 4 * (|rcs| + 1)
  {
    var i := |w|;
    var temp := if i % 4 == 0 then WordAdd(SubWord(sub, RotWord(w[i - 1])), Word(rcs[i / 4 - 1], 0, 0, 0)) else w[i - 1];
    WordAdd(w[i - 4], temp)
  }

  /** The first m words of KeyExpansion. */
  function Words(sub: bv8 -> bv8, key: Block, rcs: seq<bv8>, m: nat): (r: seq<Word>)
    requires 4 <= m <= 4 * (|rcs| + 1)
    ensures |r| == m
  {
    if m == 4 then KeyWords(key) else Words(sub, key, rcs, m - 1) + [NextWord(sub, rcs, Words(sub, key, rcs, m - 1))]
  }

  /** The round key made of words w[4i] .. w[4i + 3], one per column. */
  function Quad(w: seq<Word>, i: nat): Block
    requires 4 * i + 4 <= |w|
  {
    FromColumns(w[4 * i], w[4 * i + 1], w[4 * i + 2], w[4 * i + 3])
  }

  /** KeyExpansion fixes each word once: later words only append. */
  lemma {:induction false} WordsPrefix(sub: bv8 -> bv8, key: Block, rcs: seq<bv8>, i: nat, m: nat)
    requires 4 <= i <= m <= 4 * (|rcs| + 1)
    ensures Words(sub, key, rcs, m)[..i] == Words(sub, key, rcs, i)
    decreases m
  {
    if i < m {
      WordsPrefix(sub, key, rcs, i, m - 1);
      assert Words(sub, key, rcs, m)[..m - 1] == Words(sub, key, rcs, m - 1);
    }
  }

  /** `temp` is SubWord(RotWord) of the last word of the previous round key, plus the round constant. */
  lemma TempIsSubRot(sub: bv8 -> bv8, prev: Block, rc: bv8)
    ensures Word(Temp(sub, prev, rc, 0), Temp(sub, prev, rc, 1), Temp(sub, prev, rc, 2), Temp(sub, prev, rc, 3))
         == WordAdd(SubWord(sub, RotWord(Column(prev, 3))), Word(rc, 0, 0, 0))
  {}

  /** Byte j of the first column of a round key adds byte j of `temp` to byte j of the previous key. */
  lemma KeyByteFirst(sub: bv8 -> bv8, prev: Block, rc: bv8, j: nat)
    requires j < 4
    ensures NextRoundKey(sub, prev, rc)[j] == Add(Temp(sub, prev, rc, j), prev[j])
  {}

  /** The first column of the new round key adds `temp` to the first column of the old one. */
  lemma NextRoundKeyColumn0(sub: bv8 -> bv8, prev: Block, rc: bv8)
    ensures Column(NextRoundKey(sub, prev, rc), 0)
         == WordAdd(Word(Temp(sub, prev, rc, 0), Temp(sub, prev, rc, 1), Temp(sub, prev, rc, 2), Temp(sub, prev, rc, 3)), Column(prev, 0))
  {
    KeyByteFirst(sub, prev, rc, 0);
    KeyByteFirst(sub, prev, rc, 1);
    KeyByteFirst(sub, prev, rc, 2);
    KeyByteFirst(sub, prev, rc, 3);
    WordAddGather(Column(NextRoundKey(sub, prev, rc), 0), Word(Temp(sub, prev, rc, 0), Temp(sub, prev, rc, 1), Temp(sub, prev, rc, 2), Temp(sub, prev, rc, 3)), Column(prev, 0));
  }

  /** Byte j of a round key, past the first column, adds byte j of the previous key to the new byte four places back. */
  lemma KeyByteStep(sub: bv8 -> bv8, prev: Block, rc: bv8, j: nat)
    requires 4 <= j < 16
    ensures NextRoundKey(sub, prev, rc)[j] == Add(NextRoundKey(sub, prev, rc)[j - 4], prev[j])
  {}

  lemma WordAddGather(x: Word, y: Word, z: Word)
    requires x.b0 == Add(y.b0, z.b0) && x.b1 == Add(y.b1, z.b1) && x.b2 == Add(y.b2, z.b2) && x.b3 == Add(y.b3, z.b3)
    ensures x == WordAdd(y, z)
  {}

  /** Each later column adds the column of the old round key to the new column before it. */
  lemma NextRoundKeyColumn(sub: bv8 -> bv8, prev: Block, rc: bv8, g: nat)
    requires 1 <= g < 4
    ensures Column(NextRoundKey(sub, prev, rc), g) == WordAdd(Column(NextRoundKey(sub, prev, rc), g - 1), Column(prev, g))
  {
    var k := NextRoundKey(sub, prev, rc);
    assert 4 * (g - 1) == 4 * g - 4 && 4 * (g - 1) + 1 == 4 * g - 3 && 4 * (g - 1) + 2 == 4 * g - 2 && 4 * (g - 1) + 3 == 4 * g - 1;
    KeyByteStep(sub, prev, rc, 4 * g);
    KeyByteStep(sub, prev, rc, 4 * g + 1);
    KeyByteStep(sub, prev, rc, 4 * g + 2);
    KeyByteStep(sub, prev, rc, 4 * g + 3);
    WordAddGather(Column(k, g), Column(k, g - 1), Column(prev, g));
  }

  /** Word w[4j + 4] of KeyExpansion takes RotWord, SubWord and the round constant of the word before it. */
  lemma NextWordRotates(sub: bv8 -> bv8, rcs: seq<bv8>, ws: seq<Word>, j: nat)
    requires j < |rcs| && |ws| == 4 * j + 4
    ensures NextWord(sub, rcs, ws) == WordAdd(ws[4 * j], WordAdd(SubWord(sub, RotWord(ws[4 * j + 3])), Word(rcs[j], 0, 0, 0)))
  {
    Remainder(j + 1, 0);
    assert |ws| - 4 == 4 * j && |ws| - 1 == 4 * j + 3 && |ws| % 4 == 0 && |ws| / 4 - 1 == j;
  }

  /** Any other word of KeyExpansion adds the word before it to the word four places back. */
  lemma NextWordPlain(sub: bv8 -> bv8, rcs: seq<bv8>, ws: seq<Word>, n: nat, j: nat)
    requires 1 <= n <= |rcs| && 1 <= j <= 3 && |ws| == 4 * n + j
    ensures NextWord(sub, rcs, ws) == WordAdd(ws[|ws| - 4], ws[|ws| - 1])
  {
    Remainder(n, j);
    assert |ws| % 4 == j;
  }

  /** The first column one pass writes is the next word of KeyExpansion, the one that takes the round constant. */
  lemma FirstColumnIsNextWord(sub: bv8 -> bv8, rcs: seq<bv8>, ws: seq<Word>, j: nat)
    requires j < |rcs| && |ws| == 4 * j + 4
    ensures Column(NextRoundKey(sub, Quad(ws, j), rcs[j]), 0) == NextWord(sub, rcs, ws)
  {
    var rc := rcs[j];
    var prev := Quad(ws, j);
    ColumnsOf(ws[4 * j], ws[4 * j + 1], ws[4 * j + 2], ws[4 * j + 3]);
    NextWordRotates(sub, rcs, ws, j);
    TempIsSubRot(sub, prev, rc);
    NextRoundKeyColumn0(sub, prev, rc);
    WordAddComm(Word(Temp(sub, prev, rc, 0), Temp(sub, prev, rc, 1), Temp(sub, prev, rc, 2), Temp(sub, prev, rc, 3)), Column(prev, 0));
  }

  /** Each later column one pass writes is the next word of KeyExpansion after the column before it. */
  lemma LaterColumnIsNextWord(sub: bv8 -> bv8, rcs: seq<bv8>, vs: seq<Word>, n: nat, g: nat, prev: Block, rc: bv8)
    requires 1 <= n <= |rcs| && 1 <= g <= 3 && |vs| == 4 * n + g
    requires vs[|vs| - 4] == Column(prev, g) && vs[|vs| - 1] == Column(NextRoundKey(sub, prev, rc), g - 1)
    ensures Column(NextRoundKey(sub, prev, rc), g) == NextWord(sub, rcs, vs)
  {
    NextWordPlain(sub, rcs, vs, n, g);
    NextRoundKeyColumn(sub, prev, rc, g);
    WordAddComm(vs[|vs| - 1], vs[|vs| - 4]);
  }

  lemma ColumnsGather(k: Block, w0: Word, w1: Word, w2: Word, w3: Word)
    requires Column(k, 0) == w0 && Column(k, 1) == w1 && Column(k, 2) == w2 && Column(k, 3) == w3
    ensures k == FromColumns(w0, w1, w2, w3)
  {
    FromColumnsOf(k);
  }

  /** Column c of round key j of a word sequence is word 4j + c. */
  lemma QuadColumn(ws: seq<Word>, j: nat, c: nat)
    requires 4 * j + 4 <= |ws| && c < 4
    ensures Column(Quad(ws, j), c) == ws[4 * j + c]
  {
    ColumnsOf(ws[4 * j], ws[4 * j + 1], ws[4 * j + 2], ws[4 * j + 3]);
  }

  /** Column g (1 to 3) of the round key one pass writes is the next word of KeyExpansion
      once the columns before it have been appended as `extra`. */
  lemma LaterColumnOfQuad(sub: bv8 -> bv8, rcs: seq<bv8>, ws: seq<Word>, j: nat, extra: seq<Word>)
    requires j < |rcs| && |ws| == 4 * j + 4 && 1 <= |extra| <= 3
    requires extra[|extra| - 1] == Column(NextRoundKey(sub, Quad(ws, j), rcs[j]), |extra| - 1)
    ensures Column(NextRoundKey(sub, Quad(ws, j), rcs[j]), |extra|) == NextWord(sub, rcs, ws + extra)
  {
    var g, vs, prev := |extra|, ws + extra, Quad(ws, j);
    QuadColumn(ws, j, g);
    assert vs[|vs| - 4] == ws[4 * j + g] && vs[|vs| - 1] == extra[g - 1];
    LaterColumnIsNextWord(sub, rcs, vs, j + 1, g, prev, rcs[j]);
  }

  /** One pass of the round loop appends the four words KeyExpansion computes next. */
  lemma NextRoundKeyIsNextWords(sub: bv8 -> bv8, rcs: seq<bv8>, ws: seq<Word>, j: nat)
    requires j < |rcs| && |ws| == 4 * j + 4
    ensures
      var a := NextWord(sub, rcs, ws);
      var b := NextWord(sub, rcs, ws + [a]);
      var c := NextWord(sub, rcs, ws + [a, b]);
      var d := NextWord(sub, rcs, ws + [a, b, c]);
      NextRoundKey(sub, Quad(ws, j), rcs[j]) == FromColumns(a, b, c, d)
  {
    var k := NextRoundKey(sub, Quad(ws, j), rcs[j]);
    var a := NextWord(sub, rcs, ws);
    FirstColumnIsNextWord(sub, rcs, ws, j);
    var b := NextWord(sub, rcs, ws + [a]);
    LaterColumnOfQuad(sub, rcs, ws, j, [a]);
    var c := NextWord(sub, rcs, ws + [a, b]);
    LaterColumnOfQuad(sub, rcs, ws, j, [a, b]);
    var d := NextWord(sub, rcs, ws + [a, b, c]);
    LaterColumnOfQuad(sub, rcs, ws, j, [a, b, c]);
    ColumnsGather(k, a, b, c, d);
  }

  /** The four words of KeyExpansion after the first 4j + 4. */
  lemma WordsFour(sub: bv8 -> bv8, key: Block, rcs: seq<bv8>, j: nat)
    requires j < |rcs|
    ensures
      var ws := Words(sub, key, rcs, 4 * j + 4);
      var a := NextWord(sub, rcs, ws);
      var b := NextWord(sub, rcs, ws + [a]);
      var c := NextWord(sub, rcs, ws + [a, b]);
      var d := NextWord(sub, rcs, ws + [a, b, c]);
      Words(sub, key, rcs, 4 * j + 8) == ws + [a, b, c, d]
  {
    var ws := Words(sub, key, rcs, 4 * j + 4);
    var a := NextWord(sub, rcs, ws);
    var b := NextWord(sub, rcs, ws + [a]);
    var c := NextWord(sub, rcs, ws + [a, b]);
    assert Words(sub, key, rcs, 4 * j + 5) == ws + [a];
    assert Words(sub, key, rcs, 4 * j + 6) == ws + [a, b];
    assert Words(sub, key, rcs, 4 * j + 7) == ws + [a, b, c];
  }

  /** The first four words of KeyExpansion are the key itself. */
  lemma KeyWordsQuad(key: Block)
    ensures Quad(KeyWords(key), 0) == key
  {
    FromColumnsOf(key);
  }

  lemma QuadNext(ws: seq<Word>, j: nat, a: Word, b: Word, c: Word, d: Word)
    requires |ws| == 4 * j + 4
    ensures Quad(ws + [a, b, c, d], j + 1) == FromColumns(a, b, c, d)
  {
    var w := ws + [a, b, c, d];
    assert 4 * (j + 1) == 4 * j + 4;
    assert w[4 * j + 4] == a && w[4 * j + 5] == b && w[4 * j + 6] == c && w[4 * j + 7] == d;
  }

  /** Four more words of KeyExpansion make the round key one pass of the round loop computes. */
  lemma WordsRound(sub: bv8 -> bv8, key: Block, rcs: seq<bv8>, j: nat)
    requires j < |rcs|
    ensures Quad(Words(sub, key, rcs, 4 * j + 8), j + 1) == NextRoundKey(sub, Quad(Words(sub, key, rcs, 4 * j + 4), j), rcs[j])
  {
    var ws := Words(sub, key, rcs, 4 * j + 4);
    var a := NextWord(sub, rcs, ws);
    var b := NextWord(sub, rcs, ws + [a]);
    var c := NextWord(sub, rcs, ws + [a, b]);
    var d := NextWord(sub, rcs, ws + [a, b, c]);
    WordsFour(sub, key, rcs, j);
    NextRoundKeyIsNextWords(sub, rcs, ws, j);
    QuadNext(ws, j, a, b, c, d);
  }

  /** Round key i of the source's loop is words 4i .. 4i + 3 of KeyExpansion. */
  lemma {:induction false} KeyRoundIsWords(sub: bv8 -> bv8, key: Block, rcs: seq<bv8>, i: nat)
    requires i <= |rcs|
    ensures KeyRounds(sub, key, rcs, i)[i] == Quad(Words(sub, key, rcs, 4 * i + 4), i)
  {
    if i == 0 {
      KeyWordsQuad(key);
    } else {
      var j := i - 1;
      KeyRoundIsWords(sub, key, rcs, j);
      KeyRoundsLast(sub, key, rcs, i);
      WordsRound(sub, key, rcs, j);
      assert 4 * i + 4 == 4 * j + 8 && i == j + 1;
      assert Words(sub, key, rcs, 4 * i + 4) == Words(sub, key, rcs, 4 * j + 8);
      var ki := KeyRounds(sub, key, rcs, i)[i];
      var kj := KeyRounds(sub, key, rcs, j)[j];
      assert ki == NextRoundKey(sub, kj, rcs[j]);
    }
  }

  /**
   * aes_key_schedule_128 computes KeyExpansion of FIPS PUB 197 for Nk = 4 and
   * Nr = 10: round key i is words w[4i] .. w[4i + 3].
   */
  lemma ExpandKeyIsKeyExpansion(key: Block, i: nat)
    requires i <= 10
    ensures ExpandKey(key)[i] == Quad(Words(SBox, key, RC, 44), i)
  {
    KeyRoundsPrefix(SBox, key, RC, i, 10);
    assert ExpandKey(key)[i] == KeyRounds(SBox, key, RC, i)[i];
    KeyRoundIsWords(SBox, key, RC, i);
    WordsPrefix(SBox, key, RC, 4 * i + 4, 44);
    assert Words(SBox, key, RC, 44)[..4 * i + 4] == Words(SBox, key, RC, 4 * i + 4);
  }
}
