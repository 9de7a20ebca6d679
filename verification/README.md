# DES single-block engine in Dafny

A model of the core of a C implementation of the Data Encryption Standard
(FIPS PUB 46-3): the key schedule `DES_generate_subKeys`, the key parity
check `checkOddParity`, the cipher function `DES_F_function`, the one-block
transform `DES_block_cipher` and the last-block padding `add_padding`
(`DES/des.c`, `DES/des.h`).

Bits are `seq<bool>`, most significant bit of each byte first, so bit `n` of
a buffer is bit `n % 8` of byte `n / 8`, counted from the top (`Bits.Unpack`,
`Bits.Pack`). Bytes are `bv8`. C's `NULL` arguments and results are
`Options.Option`.

- `Tables`: the constant tables of `DES/des.c` (PC1, the round shifts, PC2,
  IP, IP_INV, E, the S-boxes, P), with lemmas about their shape.
- `Parity`: the parity loop of `checkOddParity`, and the guarded variant the
  test suite expects.
- `KeySchedule`: the schedule as the standard defines it on bits: PC1, two
  28-bit halves each rotated left, PC2. It also has the C code's byte-level
  algorithm:
  - the PC1 and PC2 selection loops;
  - the in-place rotation of the 7-byte buffer `key_gen`, with its two masks
    carrying the bits across the C/D boundary.

  Lemmas show that the byte-level algorithm computes the bit-level schedule.
- `Feistel`: f = P(S(E(R) xor K)).
- `BlockCipher`: IP, 16 Feistel rounds, the final swap, IP_INV. Decipherment
  is the same transform with the subkeys reversed. The round-trip lemmas are
  proved for an arbitrary round function first and then used for f.
- `Padding`: `add_padding` under PKCS #5, ANSI X9.23 and ISO 10126, with an
  inverse that strips the padding.
- `WeakKeys`, `ScheduleVectors`, `RoundVectors`, `KnownAnswers`: the known
  answers of `DES/test/des_test.c`, proved on the model. They are:
  - the subkeys of 133457799BBCDFF1;
  - the four weak keys, which pass the parity check and give one constant
    subkey each;
  - f(F0AAF0AA, 1B02EFFC7072) = 234AA9BB;
  - 0123456789ABCDEF enciphering to 85E813540F0AB405 and back.

  The two vector modules follow the computation stage by stage: the key
  state after each rotation, the expansion, each S-box group, and the halves
  after each round. Each stage is proved on bytes (`Evaluation` holds the
  generic steps).

## Model

| member | source | states |
|---|---|---|
| Tables.PC1SkipsParityBits | DES/des.c:17-20 | PC1 picks 56 distinct key bits and never the parity bit of a byte |
| Tables.PC1Columns | DES/des.c:17-20 | C draws on bits 0-2 of every key byte and bit 3 of bytes 4-7; D draws on bits 4-6 and bit 3 of bytes 0-3 |
| Tables.PC2SplitsHalves | DES/des.c:25-28 | PC2 picks 48 distinct state bits: the first 24 from C, the last 24 from D |
| Tables.RoundShiftsSumToHalf | DES/des.c:22-23 | every round rotates by 1 or 2, and the 16 rotations sum to 28, a whole half |
| Tables.IPInverseUndoesIP | DES/des.c:30-40 | IP_INV is the inverse of IP, in both orders |
| Tables.ECoversHalfBlock | DES/des.c:42-45 | E takes 48 bits from the 32 of a half block and uses every one of them |
| Tables.SBoxEntriesAreNibbles | DES/des.c:47-80 | there are 8 S-boxes of 4 rows and 16 columns, and every entry is below 16 |
| Tables.PIsPermutation | DES/des.c:82-84 | P is a permutation of the 32 positions |
| Parity.CheckOddParity | DES/des.c:165-190 | returns 0 exactly when each of the first `length` bytes has an odd number of set bits; otherwise 1, and some byte has even parity |
| Parity.CheckOddParityGuarded | DES/test/des_test.c:285-301 | additionally returns 1 for absent data or `length < 1` |
| Parity.ParityExamples | DES/test/des_test.c:303-327 | 01 A3 FE fails the check; the first three bytes of 01 A2 D3 FE pass it |
| KeySchedule.SelectBits | DES/des.c:107-112 | the selection loop packs the table's permutation of the input bits into a zeroed buffer |
| KeySchedule.RotateKeyBytesRefines | DES/des.c:131-150 | the in-place byte rotation rotates C (bits 0-27) and D (bits 28-55) left separately, never mixing them |
| KeySchedule.StateIsTotalRotation | DES/des.c:128-150 | after `r` rounds the state is the PC1 halves rotated by the sum of the first `r` shifts |
| KeySchedule.StateReturnsAfterSixteenRounds | DES/des.c:22-23 | after all 16 rounds the state is back to the PC1 halves |
| KeySchedule.GenerateRounds | DES/des.c:128-160 | the 16 rounds of rotation and PC2 produce exactly the subkeys of the bit-level schedule |
| KeySchedule.GenerateSubkeys | DES/des.c:86-163 | no subkeys for an absent key or one failing the parity check; otherwise the 16 subkeys of the schedule |
| KeySchedule.ScheduleIgnoresParityBits | DES/des.c:107-112 | keys that differ only in their parity bits have the same schedule |
| KeySchedule.WeakKeySubkeys | DES/test/des_test.c:337-375 | a key whose PC1 halves are each constant gives the same constant subkey in all 16 rounds |
| WeakKeys.WeakKeyAllOnes | DES/test/des_test.c:337-375 | 0101010101010101 gives subkey 000000000000 in every round |
| WeakKeys.WeakKeyAllFE | DES/test/des_test.c:337-375 | FEFEFEFEFEFEFEFE gives subkey FFFFFFFFFFFF in every round |
| WeakKeys.WeakKeyE0F1 | DES/test/des_test.c:337-375 | E0E0E0E0F1F1F1F1 gives subkey FFFFFF000000 in every round |
| WeakKeys.WeakKey1F0E | DES/test/des_test.c:337-375 | 1F1F1F1F0E0E0E0E gives subkey 000000FFFFFF in every round |
| WeakKeys.WeakKeyHasOddParity | DES/test/des_test.c:338-342 | every byte of each of the four weak keys has odd parity, so the parity check of `DES_generate_subKeys` accepts them |
| WeakKeys.WeakKeySchedule | DES/test/des_test.c:337-375 | the schedule of weak key `w` of the test's table is that table's subkey in all 16 rounds |
| WeakKeys.GenerateWeakKeySubkeys | DES/test/des_test.c:348-368 | `DES_generate_subKeys` on each weak key returns subkeys, not `NULL`, and all 16 equal the test's subkey for that key |
| Feistel.NibbleRoundTrip | DES/des.c:47-80 | an S-box value and its 4 output bits convert back and forth without loss |
| Feistel.Substitute | DES/des.c:47-80 | output group `k` of the S-box layer is S-box `k` applied to input group `k` |
| Feistel.FFunction | DES/des.h:116-123 | `None` exactly when the half block or the subkey is absent; otherwise 4 bytes whose bits are f of the arguments' bits |
| BlockCipher.RoundsReverse | DES/des.h:106-114 | for any round function, running the rounds on the swapped output with the keys reversed gives back the swapped input |
| BlockCipher.InitialOfFinal | DES/des.c:30-40 | IP of the final permutation's output is the swapped pair of halves |
| BlockCipher.FinalOfInitial | DES/des.c:30-40 | the final permutation of the swapped initial halves is the block itself |
| BlockCipher.CipherRoundTrip | DES/des.h:106-114 | for every block and every 16 subkeys, deciphering undoes enciphering and enciphering undoes deciphering |
| BlockCipher.BlockCipherBytes | DES/des.h:106-114 | `None` exactly when the block or the subkeys are absent; otherwise 8 bytes whose bits are the cipher of the block's bits |
| BlockCipher.BlockCipherRoundTrip | DES/des.h:106-114 | on bytes, the opposite mode takes the result back to the block |
| Padding.AddPadding | DES/des.h:142-151 | fails for `size` outside 0..8, for an absent block with `size` not 0, and for an unknown scheme; otherwise 8 bytes starting with the data and ending in `8 - size`, with PKCS #5, ANSI X9.23 or ISO 10126 filler |
| Padding.RemoveAddPadding | DES/des.h:142-151 | stripping the padding of a completed short block gives back its data, whatever the scheme and the random filler |
| Padding.WellPaddedIffAdded | DES/des.h:142-151 | a block carries a scheme's padding exactly when it is that scheme's completion of its own data |
| Padding.SchemeOfSelector | DES/des.h:6 | each of the three schemes is named by its own selector of `enum DES_padding` |
| Padding.SelectorOfScheme | DES/des.h:6 | a selector that names a scheme is one of 0, 1, 2 and is that scheme's selector; with `Padding.SchemeOfSelector` the correspondence is one to one |
| Padding.PaddingExamples | DES/test/des_test.c:147-283 | padding 00 0F FF gives 0505050505 (PKCS #5) or 0000000005 (ANSI X9.23) and ends in 05 (ISO 10126); the four rejected argument sets give `None` |
| KnownAnswers.TestKeyHasOddParity | DES/test/des_test.c:76-78 | every byte of 133457799BBCDFF1 has odd parity |
| KnownAnswers.ScheduleKnownAnswer | DES/test/des_test.c:39-47 | the schedule of 133457799BBCDFF1 is the test suite's table of 16 subkeys |
| KnownAnswers.GenerateTestSubkeys | DES/test/des_test.c:76-78 | `DES_generate_subKeys` on 133457799BBCDFF1 returns that table |
| KnownAnswers.FKnownAnswer | DES/test/des_test.c:397-423 | f(F0AAF0AA, 1B02EFFC7072) = 234AA9BB |
| KnownAnswers.RoundsKnown | DES/test/des_test.c:453-487 | the 16 rounds on 0123456789ABCDEF pass through the halves of the model's `KnownAnswers.Trace`, which the test does not list, ending at (43423234, 0A4CD995) |
| KnownAnswers.BlockKnownAnswer | DES/test/des_test.c:453-523 | under the table's subkeys 0123456789ABCDEF enciphers to 85E813540F0AB405, which deciphers back |
| KnownAnswers.EncryptTestBlock | DES/test/des_test.c:453-523 | the subkeys derived from the key encipher the block to 85E813540F0AB405 and decipher it back |
| RoundVectors.InitialHalvesKnown | DES/des.c:30-34 | IP of 0123456789ABCDEF gives the halves CC00CCFF and F0AAF0AA |
| RoundVectors.FinalBlockKnown | DES/des.c:36-40 | IP_INV of the swapped final halves is 85E813540F0AB405 |
| ScheduleVectors.State16 | DES/des.c:128-150 | after the 16 rotations the state of the test key is F0CCAAF556678F, its PC1 value, again |

## Left out

- The mode-of-operation functions (ECB, CBC, PCBC, CFB, OFB, CTR, in both the
  data and the file variants). `DES/des.h` only declares them, and the file
  variants are I/O.
- Memory management. This covers the `calloc`/`free` calls, the `NULL`
  results on allocation failure, and the index array pointing into one
  96-byte buffer. Subkeys are a `seq<seq<Byte>>` of 16 × 6 bytes.
- The messages written to `stderr` before `DES_generate_subKeys` returns
  `NULL`.
- The loop headers at `DES/des.c:107`, `128-129` and `154` read one entry
  past the end of their table when the loop exits. The value read is never
  used, so only the in-range iterations are modelled.
- The random source of ISO 10126 padding. The random bytes are the
  parameter `random` of `Padding.AddPadding`.
- `DES_F_function`, `DES_block_cipher` and `add_padding` have no body in
  `DES/des.c`. They are modelled on the standard and on `DES/des.h` and the
  test suite, not on code.
- Padding.AddPadding: states no contents for `size == 8`. The header allows
  that size, and the model returns the 8 data bytes with no filler, but no
  test fixes what the code returns there.
- Parity.CheckOddParity: for `length <= 0` it returns 0, as the loop in
  `DES/des.c` does. The test suite expects 1 for a `length` below 1 and for
  absent data; `Parity.CheckOddParityGuarded` models that expectation.
- Security properties are not stated: weak keys are modelled only as the
  test suite's known answers.
- The known answers (`KnownAnswers`, `ScheduleVectors`, `RoundVectors`,
  `WeakKeys`) are proved on the model, not on the compiled C program.
