# AES-128 block cipher (aes.c) in Dafny

This project models the AES-128 core of `aes.c`: the GF(2^8) multiplication
`mul`, the S-box tables `SBOX`/`INV_SBOX`, the round constants `RC`, the byte
permutations `shift_rows`/`inv_shift_rows`, one encryption round
`aes_enc_round`, one decryption round `aes_dec_round`, the key schedule
`aes_key_schedule_128`, and block encryption and decryption
`aes_encrypt_128`/`aes_decrypt_128`. It then proves properties of that model:

- the code computes AES-128 as FIPS PUB 197 defines it;
- decryption undoes encryption;
- the example vector of FIPS PUB 197, appendix C.1, is reproduced.

The C functions work in place on byte buffers, so they become methods over
`array<bv8>` in module `Aes` (`aes.dfy`). Each method is proved against a
specification function on values:

- `GF` (`gf.dfy`): the field GF(2^8) modulo x^8 + x^4 + x^3 + x + 1. XOR is
  `Add`. Multiplication is defined twice: the closed form of FIPS PUB 197,
  section 4.2.1, and the shift-and-add loop that `mul` runs. The module proves
  that the two agree and proves the field laws the ciphers rely on.
- `Tables` (`tables.dfy`):
  - `SBOX` and `INV_SBOX` as functions, proved mutually inverse for all 256 bytes;
  - `RC`, proved to be the successive powers of x.
- `Mix` (`mix.dfy`):
  - the column mixing as the matrix products of FIPS PUB 197, sections 5.1.3
    and 5.3.3;
  - the two forms `aes.c` computes instead: the shared-sum form of
    `aes_enc_round` and the FELICS form of `aes_dec_round`.
- `Transforms` (`transforms.dfy`): the block-level steps SubBytes, ShiftRows,
  MixColumns, AddRoundKey and their inverses, with the state laid out column by
  column (`state[r + 4c]`, row r, column c).
- `KeySchedule` (`keyschedule.dfy`): round key i + 1 computed from round key i,
  as `aes_key_schedule_128` does it. It is proved equal to KeyExpansion
  (FIPS PUB 197, section 5.2) for Nk = 4.
- `Cipher` (`cipher.dfy`):
  - the round structure that `aes_encrypt_128`/`aes_decrypt_128` follow;
  - the Cipher and InvCipher of FIPS PUB 197, sections 5.1 and 5.3, as a
    reference, proved equal to the model;
  - the round trips.
- `KnownAnswer` (`knownanswer.dfy`): the example of FIPS PUB 197, appendix C.1,
  round by round. Key `000102…0f` and plaintext `00112233…ff` give ciphertext
  `69c4e0d86a7b0430d8cdb78070b4c55a`.

Two details of the code, as modelled:

- `mul` stops as soon as `b` is zero (aes.c:84). It therefore runs
  `BitLength(b) <= 8` passes rather than always eight. `Aes.Mul` states both
  the product and the pass count.
- The known-answer vector is the AES-128 example of FIPS PUB 197,
  appendix C.1.

## Model

| member | source | states |
|---|---|---|
| Aes.Mul | aes.c:80-96 | the loop returns the field product `GF.Mul(a, b)` (the FIPS PUB 197 closed form) after exactly BitLength(b) <= 8 passes |
| GF.ShiftAddMulIsMul | aes.c:84-92 | the shift-and-add recursion that `mul` runs equals the closed-form field product for all 65536 operand pairs |
| GF.MulComm | aes.c:80-96 | the product is commutative |
| GF.MulAssoc | aes.c:80-96 | the product is associative |
| GF.MulAddLeft | aes.c:80-96 | the product distributes over XOR |
| GF.MulExamples | aes.c:80-96 | {57}·{83} = {c1} and {57}·{13} = {fe}, the examples of FIPS PUB 197, section 4.2 |
| Tables.InvSBoxSBox | aes.c:29-66 | INV_SBOX undoes SBOX on every byte |
| Tables.SBoxInvSBox | aes.c:29-66 | SBOX undoes INV_SBOX on every byte, so both tables are bijections |
| Tables.RoundConstantsArePowersOfX | aes.c:24 | RC has 10 entries; RC[0] = 1 and each later entry is x times the previous one (xtime) |
| Aes.ShiftRows | aes.c:106-127 | after the twelve in-place moves, the state equals the ShiftRows permutation of the old state (row r rotated left by r) |
| Aes.ShiftRowsMoves | aes.c:108-126 | the C sequence of twelve stores equals that row rotation |
| Aes.InvShiftRows | aes.c:137-158 | after the in-place moves, the state equals the InvShiftRows permutation of the old state (row r rotated right by r) |
| Aes.InvShiftRowsMoves | aes.c:139-157 | the C sequence of stores equals that inverse row rotation |
| Transforms.ShiftRowsRowZero | aes.c:101 | row 0 is left in place |
| Transforms.ShiftRowsPermutes | aes.c:106-127 | ShiftRows only moves bytes: the output is a permutation of the input |
| Transforms.InvShiftRowsPermutes | aes.c:137-158 | InvShiftRows is a permutation of the input |
| Transforms.InvShiftRowsShiftRows | aes.c:106-158 | inv_shift_rows undoes shift_rows |
| Transforms.ShiftRowsInvShiftRows | aes.c:106-158 | shift_rows undoes inv_shift_rows |
| Aes.SubstituteBytes | aes.c:166-168 | each output byte is the table entry of the input byte at the same index |
| Transforms.InvSubBytesSubBytes | aes.c:166-168 | the decryption round's substitution with INV_SBOX undoes the encryption round's substitution with SBOX |
| Transforms.SubBytesShiftRows | aes.c:165-168 | the S-box step commutes with ShiftRows, so the order in `aes_enc_round` (shift first) gives the standard round |
| Transforms.InvSubBytesInvShiftRows | aes.c:218-223 | InvSubBytes and InvShiftRows commute on every block |
| Aes.MixColumnBytes | aes.c:176-182 | the four shared-sum byte formulas compute MixColumn, the product with the {02,03,01,01} circulant matrix |
| Mix.MixColumnSharedIsMixColumn | aes.c:169-182 | the shared-sum form equals the matrix product of FIPS PUB 197, section 5.1.3, on every column |
| Aes.MixColumns | aes.c:176-182 | the output block is MixColumns of the input block, column by column |
| Aes.InvMixColumnBytes | aes.c:203-215 | the FELICS formulas (t, u, v, w and the stores in the order 3, 2, 1, 0) compute InvMixColumn, the product with the {0e,0b,0d,09} circulant matrix |
| Mix.InvMixColumnFelicsIsInvMixColumn | aes.c:203-215 | the FELICS form equals the matrix product of FIPS PUB 197, section 5.3.3, on every column |
| Aes.InvMixColumns | aes.c:203-215 | the output block is InvMixColumns of the input block |
| Mix.InvMixTimesMix | aes.c:169-215 | the two matrices are inverse: INV_MIX · MIX = I |
| Mix.InvMixColumnMixColumn | aes.c:169-215 | the decryption column mixing undoes the encryption column mixing |
| Mix.MixColumnInvMixColumn | aes.c:169-215 | the encryption column mixing undoes the decryption column mixing |
| Transforms.InvMixColumnsMixColumns | aes.c:176-215 | the same for whole blocks |
| Aes.AddRoundKey | aes.c:185-187 | each output byte is the state byte XOR the round-key byte at the same index |
| Transforms.AddRoundKeyTwice | aes.c:185-187 | adding the same round key twice restores the state |
| Aes.EncRound | aes.c:160-188 | the state becomes ShiftRows, then SubBytes, then MixColumns, then AddRoundKey of the old state |
| Aes.DecRound | aes.c:190-225 | the state becomes AddRoundKey, then InvMixColumns, then InvShiftRows, then InvSubBytes of the old state |
| Cipher.DecRoundEncRound | aes.c:160-225 | a decryption round with the same round key undoes an encryption round |
| Cipher.EncRoundDecRound | aes.c:160-225 | an encryption round with the same round key undoes a decryption round |
| Aes.CopyKey | aes.c:240-245 | round key 0 is the key verbatim; bytes 16..175 are unchanged |
| Aes.KeyFirstPass | aes.c:250-259 | bytes 0-3 of the next round key are RotWord, SubWord and the round constant of the previous key's last word, XOR the previous key's first word; the bytes before them are kept and the bytes after them are unchanged |
| Aes.KeyGroupPass | aes.c:261-274 | each later group of 4 bytes is the previous group XOR the matching group of the previous round key; the bytes after it are unchanged |
| Aes.KeyRound | aes.c:248-275 | one pass of the loop appends the next round key, computed from the previous 16 bytes and the round constant; the bytes before it are kept and the bytes after it are unchanged |
| Aes.KeySchedule128 | aes.c:233-276 | the 176 bytes written are the 11 round keys of the key's expansion, in order |
| KeySchedule.FlatSchedule | aes.c:233-276 | the schedule has 176 bytes; the first 16 are the key, and bytes 16i+16..16i+32 are computed from bytes 16i..16i+16 with RC[i] |
| KeySchedule.ExpandKeyIsKeyExpansion | aes.c:233-276 | round key i is words w[4i]..w[4i+3] of KeyExpansion in FIPS PUB 197, section 5.2 |
| KeySchedule.BlocksFlatten | aes.c:233-276 | reading the flat 176-byte buffer in 16-byte steps gives back the 11 round keys |
| Aes.Encrypt128 | aes.c:278-306 | the ciphertext is the cipher of the plaintext under the 11 round keys read from the buffer |
| Aes.Decrypt128 | aes.c:308-338 | the plaintext is the inverse cipher of the ciphertext under the 11 round keys read from the buffer, used last to first |
| Cipher.DecryptEncrypt | aes.c:278-338 | decrypting a ciphertext restores the plaintext, for every schedule |
| Cipher.EncryptDecrypt | aes.c:278-338 | encrypting the result of decrypting restores the ciphertext |
| Cipher.EncryptIsFipsCipher | aes.c:278-306 | the round structure of `aes_encrypt_128` equals Cipher of FIPS PUB 197, section 5.1 |
| Cipher.DecryptIsFipsInvCipher | aes.c:308-338 | the round structure of `aes_decrypt_128` equals InvCipher of FIPS PUB 197, section 5.3 |
| Cipher.Aes128RoundTrip | aes.c:233-338 | with the schedule expanded from a key, decryption and encryption are inverse in both directions |
| Aes.StoredScheduleCipher | aes.c:233-338 | the buffer that `aes_key_schedule_128` writes gives AES-128 under the key when read back by `aes_encrypt_128`, and decryption restores the plaintext |
| KnownAnswer.ScheduleVector | aes.c:233-276 | the key 000102…0f expands to the ten round keys listed in FIPS PUB 197, appendix C.1 |
| KnownAnswer.EncryptVector | aes.c:278-306 | key 000102…0f and plaintext 00112233…ff encrypt to 69c4e0d8…c55a |
| KnownAnswer.DecryptVector | aes.c:308-338 | that ciphertext decrypts back to the plaintext |
| KnownAnswer.StoredVector | aes.c:233-338 | the same vector through the flat 176-byte schedule buffer |

## Left out

- Pointers become an array plus an index. The `uint8_t` counters and pointer
  offsets (`+= 16`, `+= 160`, `-= 16`) become `nat` indices into that array.
- `aes.h` is not part of this model. Its two constants are fixed as they are
  used in `aes.c`: 16-byte blocks and 10 rounds.
- The `SBOX`/`INV_SBOX` lookups in the round methods are passed as a function
  parameter `table: bv8 -> bv8`. The block-level specifications fix them to
  `Tables.SBox`/`Tables.InvSBox`.
- Loop bodies are factored into small methods: the column stores, the key
  groups, `CopyKey` and `CopyBlock`.
  - Four stores of one column are one step (`Store4`). The FELICS column
    stores, in the order 3, 2, 1, 0, become a single parallel store.
  - The first and last rounds of `aes_encrypt_128`/`aes_decrypt_128` become the
    methods `FinalRound` and `FirstDecRound`.
- Aliasing:
  - `state`, `ciphertext` and `plaintext` must be distinct from `roundkeys`.
  - The mixing methods write into a separate temporary, as the C code does.
  - The effect of calling the C functions with overlapping buffers is not
    modelled.
- Aes.Mul: the pass count is a ghost out-parameter. Its role is to state the
  early exit of the loop.
- The requirement on input sizes (16-byte key and blocks, 176-byte schedule) is
  a precondition of the methods; the C code relies on these sizes and never validates them.
  No length-error path is modelled.
- Timing, cache behaviour and other side channels are not modelled.
