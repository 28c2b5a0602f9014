/*
 * AES-128 encryption and decryption of one block as aes_encrypt_128 and
 * aes_decrypt_128 (aes.c) compose them from round keys w[0] .. w[10]:
 * the rounds in the order aes_enc_round and aes_dec_round apply their steps,
 * the round trip in both directions, and the agreement with Cipher and
 * InvCipher of FIPS PUB 197 (sections 5.1 and 5.3).
 */
module Cipher {
  import opened Tables
  import opened Transforms
  import opened KeySchedule

  /** Eleven round keys. */
  type RoundKeys = w: seq<Block> | |w| == 11 witness [Zero(), Zero(), Zero(), Zero(), Zero(), Zero(), Zero(), Zero(), Zero(), Zero(), Zero()]

  function Zero(): Block {
    [0, 0, 0, 0, 0, 0, 0, 0, 0, 0, 0, 0, 0, 0, 0, 0]
  }

  /** aes_enc_round: ShiftRows, then SubBytes, then MixColumns, then the round key. */
  function EncRound(s: Block, k: Block): Block {
    AddRoundKey(MixColumns(SubBytes(ShiftRows(s))), k)
  }

  /** aes_dec_round: the round key, then InvMixColumns, InvShiftRows and InvSubBytes. */
  function DecRound(s: Block, k: Block): Block {
    InvSubBytes(InvShiftRows(InvMixColumns(AddRoundKey(s, k))))
  }

  /** Rounds 1 to n of the encryption loop, round i with round key w[i]. */
  function EncRounds(s: Block, w: RoundKeys, n: nat): Block
    requires n <= 10
  {
    if n == 0 then s else EncRound(EncRounds(s, w, n - 1), w[n])
  }

  /** Rounds n down to 1 of the decryption loop, round i with round key w[i]. */
  function DecRounds(s: Block, w: RoundKeys, n: nat): Block
    requires n <= 10
    decreases n
  {
    if n == 0 then s else DecRounds(DecRound(s, w[n]), w, n - 1)
  }

  /** The last encryption round: SubBytes, ShiftRows and the round key, without MixColumns. */
  function FinalRound(s: Block, k: Block): Block {
    AddRoundKey(ShiftRows(SubBytes(s)), k)
  }

  /** The first decryption round: the round key, InvShiftRows and InvSubBytes. */
  function FirstDecRound(s: Block, k: Block): Block {
    InvSubBytes(InvShiftRows(AddRoundKey(s, k)))
  }

  /** aes_encrypt_128: the first round key, nine rounds, the final round. */
  function Encrypt(w: RoundKeys, plaintext: Block): Block {
    FinalRound(EncRounds(AddRoundKey(plaintext, w[0]), w, 9), w[10])
  }

  /** aes_decrypt_128: the first decryption round with w[10], rounds 9 down to 1, the key w[0]. */
  function Decrypt(w: RoundKeys, ciphertext: Block): Block {
    AddRoundKey(DecRounds(FirstDecRound(ciphertext, w[10]), w, 9), w[0])
  }

  // ---------------------------------------------------------------------
  // Round trip

  /** A decryption round undoes an encryption round with the same key ... */
  lemma DecRoundEncRound(s: Block, k: Block)
    ensures DecRound(EncRound(s, k), k) == s
  {
    var x := SubBytes(ShiftRows(s));
    AddRoundKeyTwice(MixColumns(x), k);
    InvMixColumnsMixColumns(x);
    SubBytesInvShiftRows(ShiftRows(s));
    InvShiftRowsShiftRows(s);
    InvSubBytesSubBytes(s);
  }

  /** ... and an encryption round undoes a decryption round. */
  lemma EncRoundDecRound(s: Block, k: Block)
    ensures EncRound(DecRound(s, k), k) == s
  {
    var x := InvShiftRows(InvMixColumns(AddRoundKey(s, k)));
    InvSubBytesShiftRows(x);
    ShiftRowsInvShiftRows(InvMixColumns(AddRoundKey(s, k)));
    SubBytesInvSubBytes(InvMixColumns(AddRoundKey(s, k)));
    MixColumnsInvMixColumns(AddRoundKey(s, k));
    AddRoundKeyTwice(s, k);
  }

  lemma FirstDecRoundFinalRound(s: Block, k: Block)
    ensures FirstDecRound(FinalRound(s, k), k) == s
  {
    AddRoundKeyTwice(ShiftRows(SubBytes(s)), k);
    InvShiftRowsShiftRows(SubBytes(s));
    InvSubBytesSubBytes(s);
  }

  lemma FinalRoundFirstDecRound(s: Block, k: Block)
    ensures FinalRound(FirstDecRound(s, k), k) == s
  {
    SubBytesInvSubBytes(InvShiftRows(AddRoundKey(s, k)));
    ShiftRowsInvShiftRows(AddRoundKey(s, k));
    AddRoundKeyTwice(s, k);
  }

  lemma {:induction false} DecRoundsEncRounds(s: Block, w: RoundKeys, n: nat)
    requires n <= 10
    ensures DecRounds(EncRounds(s, w, n), w, n) == s
  {
    if n > 0 {
      DecRoundEncRound(EncRounds(s, w, n - 1), w[n]);
      DecRoundsEncRounds(s, w, n - 1);
    }
  }

  lemma {:induction false} EncRoundsDecRounds(s: Block, w: RoundKeys, n: nat)
    requires n <= 10
    decreases n
    ensures EncRounds(DecRounds(s, w, n), w, n) == s
  {
    if n > 0 {
      EncRoundsDecRounds(DecRound(s, w[n]), w, n - 1);
      EncRoundDecRound(s, w[n]);
    }
  }

  /** Decryption with the same round keys recovers the plaintext ... */
  lemma DecryptEncrypt(w: RoundKeys, plaintext: Block)
    ensures Decrypt(w, Encrypt(w, plaintext)) == plaintext
  {
    var s := EncRounds(AddRoundKey(plaintext, w[0]), w, 9);
    FirstDecRoundFinalRound(s, w[10]);
    DecRoundsEncRounds(AddRoundKey(plaintext, w[0]), w, 9);
    AddRoundKeyTwice(plaintext, w[0]);
  }

  /** ... and encryption recovers the ciphertext: for any round keys, both are bijections. */
  lemma EncryptDecrypt(w: RoundKeys, ciphertext: Block)
    ensures Encrypt(w, Decrypt(w, ciphertext)) == ciphertext
  {
    var s := DecRounds(FirstDecRound(ciphertext, w[10]), w, 9);
    AddRoundKeyTwice(s, w[0]);
    EncRoundsDecRounds(FirstDecRound(ciphertext, w[10]), w, 9);
    FinalRoundFirstDecRound(ciphertext, w[10]);
  }

  // ---------------------------------------------------------------------
  // Cipher and InvCipher as FIPS PUB 197 writes them

  /** Rounds 1 to n of Cipher (section 5.1): SubBytes, ShiftRows, MixColumns, AddRoundKey. */
  function CipherRounds(s: Block, w: RoundKeys, n: nat): Block
    requires n <= 10
  {
    if n == 0 then s else AddRoundKey(MixColumns(ShiftRows(SubBytes(CipherRounds(s, w, n - 1)))), w[n])
  }

  /** Cipher of FIPS 197, figure 5, for Nr = 10. */
  function FipsCipher(w: RoundKeys, input: Block): Block {
    AddRoundKey(ShiftRows(SubBytes(CipherRounds(AddRoundKey(input, w[0]), w, 9))), w[10])
  }

  /** Rounds n down to 1 of InvCipher (section 5.3): InvShiftRows, InvSubBytes, AddRoundKey, InvMixColumns. */
  function InvCipherRounds(s: Block, w: RoundKeys, n: nat): Block
    requires n <= 10
    decreases n
  {
    if n == 0 then s else InvCipherRounds(InvMixColumns(AddRoundKey(InvSubBytes(InvShiftRows(s)), w[n])), w, n - 1)
  }

  /** InvCipher of FIPS 197, figure 12, for Nr = 10. */
  function FipsInvCipher(w: RoundKeys, input: Block): Block {
    AddRoundKey(InvSubBytes(InvShiftRows(InvCipherRounds(AddRoundKey(input, w[10]), w, 9))), w[0])
  }

  lemma {:induction false} EncRoundsAreCipherRounds(s: Block, w: RoundKeys, n: nat)
    requires n <= 10
    ensures EncRounds(s, w, n) == CipherRounds(s, w, n)
  {
    if n > 0 {
      EncRoundsAreCipherRounds(s, w, n - 1);
      SubBytesShiftRows(CipherRounds(s, w, n - 1));
    }
  }

  /**
   * aes_encrypt_128 computes Cipher: its rounds shift the rows before the
   * substitution, which gives the same state because SubBytes works on each
   * byte alone.
   */
  lemma EncryptIsFipsCipher(w: RoundKeys, plaintext: Block)
    ensures Encrypt(w, plaintext) == FipsCipher(w, plaintext)
  {
    EncRoundsAreCipherRounds(AddRoundKey(plaintext, w[0]), w, 9);
  }

  lemma {:induction false} DecRoundsAreInvCipherRounds(s: Block, w: RoundKeys, n: nat)
    requires n <= 10
    decreases n
    ensures DecRounds(InvSubBytes(InvShiftRows(s)), w, n) == InvSubBytes(InvShiftRows(InvCipherRounds(s, w, n)))
  {
    if n > 0 {
      var s' := InvMixColumns(AddRoundKey(InvSubBytes(InvShiftRows(s)), w[n]));
      assert DecRound(InvSubBytes(InvShiftRows(s)), w[n]) == InvSubBytes(InvShiftRows(s'));
      DecRoundsAreInvCipherRounds(s', w, n - 1);
    }
  }

  /**
   * aes_decrypt_128 computes InvCipher: it applies the same steps in the same
   * order, only grouped differently into rounds.
   */
  lemma DecryptIsFipsInvCipher(w: RoundKeys, ciphertext: Block)
    ensures Decrypt(w, ciphertext) == FipsInvCipher(w, ciphertext)
  {
    DecRoundsAreInvCipherRounds(AddRoundKey(ciphertext, w[10]), w, 9);
  }

  // ---------------------------------------------------------------------
  // AES-128 from the cipher key

  /** AES-128 encryption of a block under a 16-byte key. */
  function Aes128Encrypt(key: Block, plaintext: Block): Block {
    Encrypt(ExpandKey(key), plaintext)
  }

  /** AES-128 decryption of a block under a 16-byte key. */
  function Aes128Decrypt(key: Block, ciphertext: Block): Block {
    Decrypt(ExpandKey(key), ciphertext)
  }

  lemma Aes128RoundTrip(key: Block, plaintext: Block, ciphertext: Block)
    ensures Aes128Decrypt(key, Aes128Encrypt(key, plaintext)) == plaintext
    ensures Aes128Encrypt(key, Aes128Decrypt(key, ciphertext)) == ciphertext
  {
    DecryptEncrypt(ExpandKey(key), plaintext);
    EncryptDecrypt(ExpandKey(key), ciphertext);
  }
}
