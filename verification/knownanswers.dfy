/** The known answers of the engine's test suite (`DES/test/des_test.c`), stated
    on the model: the subkeys of the key 133457799BBCDFF1, f of the first
    round, and the encipherment of 0123456789ABCDEF to 85E813540F0AB405 and
    back. The stage-by-stage evidence is in `ScheduleVectors` and
    `RoundVectors`; this module puts it together. */
module KnownAnswers {
  import opened Options
  import opened Bits
  import opened Tables
  import opened Parity
  import opened KeySchedule
  import opened Feistel
  import opened BlockCipher
  import opened Evaluation
  import opened ScheduleVectors
  import opened RoundVectors

  /** The key the test suite derives its subkeys from. */
  const TestKey: seq<Byte> := [0x13, 0x34, 0x57, 0x79, 0x9B, 0xBC, 0xDF, 0xF1]

  /** The test suite's table `keys`: the 16 subkeys of `TestKey`. */
  const TestSubkeys: seq<seq<Byte>> :=
    [[0x1B, 0x02, 0xEF, 0xFC, 0x70, 0x72], [0x79, 0xAE, 0xD9, 0xDB, 0xC9, 0xE5],
     [0x55, 0xFC, 0x8A, 0x42, 0xCF, 0x99], [0x72, 0xAD, 0xD6, 0xDB, 0x35, 0x1D],
     [0x7C, 0xEC, 0x07, 0xEB, 0x53, 0xA8], [0x63, 0xA5, 0x3E, 0x50, 0x7B, 0x2F],
     [0xEC, 0x84, 0xB7, 0xF6, 0x18, 0xBC], [0xF7, 0x8A, 0x3A, 0xC1, 0x3B, 0xFB]] +
    [[0xE0, 0xDB, 0xEB, 0xED, 0xE7, 0x81], [0xB1, 0xF3, 0x47, 0xBA, 0x46, 0x4F],
     [0x21, 0x5F, 0xD3, 0xDE, 0xD3, 0x86], [0x75, 0x71, 0xF5, 0x94, 0x67, 0xE9],
     [0x97, 0xC5, 0xD1, 0xFA, 0xBA, 0x41], [0x5F, 0x43, 0xB7, 0xF2, 0xE7, 0x3A],
     [0xBF, 0x91, 0x8D, 0x3D, 0x3F, 0x0A], [0xCB, 0x3D, 0x8B, 0x0E, 0x17, 0xF5]]

  const Plain: seq<Byte> := [0x01, 0x23, 0x45, 0x67, 0x89, 0xAB, 0xCD, 0xEF]
  const CipherText: seq<Byte> := [0x85, 0xE8, 0x13, 0x54, 0x0F, 0x0A, 0xB4, 0x05]

  /** The halves (L, R) after IP and after each of the 16 rounds of enciphering `Plain`. */
  const Trace: seq<Halves> :=
    [Halves(Unpack([0xCC, 0x00, 0xCC, 0xFF]), Unpack([0xF0, 0xAA, 0xF0, 0xAA])),
     Halves(Unpack([0xF0, 0xAA, 0xF0, 0xAA]), Unpack([0xEF, 0x4A, 0x65, 0x44])),
     Halves(Unpack([0xEF, 0x4A, 0x65, 0x44]), Unpack([0xCC, 0x01, 0x77, 0x09])),
     Halves(Unpack([0xCC, 0x01, 0x77, 0x09]), Unpack([0xA2, 0x5C, 0x0B, 0xF4])),
     Halves(Unpack([0xA2, 0x5C, 0x0B, 0xF4]), Unpack([0x77, 0x22, 0x00, 0x45])),
     Halves(Unpack([0x77, 0x22, 0x00, 0x45]), Unpack([0x8A, 0x4F, 0xA6, 0x37])),
     Halves(Unpack([0x8A, 0x4F, 0xA6, 0x37]), Unpack([0xE9, 0x67, 0xCD, 0x69])),
     Halves(Unpack([0xE9, 0x67, 0xCD, 0x69]), Unpack([0x06, 0x4A, 0xBA, 0x10]))] +
    [Halves(Unpack([0x06, 0x4A, 0xBA, 0x10]), Unpack([0xD5, 0x69, 0x4B, 0x90])),
     Halves(Unpack([0xD5, 0x69, 0x4B, 0x90]), Unpack([0x24, 0x7C, 0xC6, 0x7A])),
     Halves(Unpack([0x24, 0x7C, 0xC6, 0x7A]), Unpack([0xB7, 0xD5, 0xD7, 0xB2])),
     Halves(Unpack([0xB7, 0xD5, 0xD7, 0xB2]), Unpack([0xC5, 0x78, 0x3C, 0x78])),
     Halves(Unpack([0xC5, 0x78, 0x3C, 0x78]), Unpack([0x75, 0xBD, 0x18, 0x58])),
     Halves(Unpack([0x75, 0xBD, 0x18, 0x58]), Unpack([0x18, 0xC3, 0x15, 0x5A])),
     Halves(Unpack([0x18, 0xC3, 0x15, 0x5A]), Unpack([0xC2, 0x8C, 0x96, 0x0D])),
     Halves(Unpack([0xC2, 0x8C, 0x96, 0x0D]), Unpack([0x43, 0x42, 0x32, 0x34]))] +
    [Halves(Unpack([0x43, 0x42, 0x32, 0x34]), Unpack([0x0A, 0x4C, 0xD9, 0x95]))]

  /** The test of `DES_F_function`: f(F0AAF0AA, 1B02EFFC7072) = 234AA9BB. */
  lemma FKnownAnswer()
    ensures FFunction(Some([0xF0, 0xAA, 0xF0, 0xAA]), Some([0x1B, 0x02, 0xEF, 0xFC, 0x70, 0x72])) ==
      Some([0x23, 0x4A, 0xA9, 0xBB])
  {
    var r := FFunction(Some([0xF0, 0xAA, 0xF0, 0xAA]), Some([0x1B, 0x02, 0xEF, 0xFC, 0x70, 0x72]));
    Round1();
    UnpackInjective(r.value, [0x23, 0x4A, 0xA9, 0xBB]);
  }

  /** Every byte of the test key has odd parity. */
  lemma TestKeyHasOddParity()
    ensures AllOddParity(TestKey, 8)
  {
    assert PopCount(0x01) == 1 && PopCount(0x02) == 1 && PopCount(0x04) == 1 && PopCount(0x09) == 2 && PopCount(0x13) == 3;
    assert PopCount(0x01) == 1 && PopCount(0x03) == 2 && PopCount(0x06) == 2 && PopCount(0x0D) == 3 && PopCount(0x1A) == 3 && PopCount(0x34) == 3;
    assert PopCount(0x01) == 1 && PopCount(0x02) == 1 && PopCount(0x05) == 2 && PopCount(0x0A) == 2 && PopCount(0x15) == 3 && PopCount(0x2B) == 4 && PopCount(0x57) == 5;
    assert PopCount(0x01) == 1 && PopCount(0x03) == 2 && PopCount(0x07) == 3 && PopCount(0x0F) == 4 && PopCount(0x1E) == 4 && PopCount(0x3C) == 4 && PopCount(0x79) == 5;
    assert PopCount(0x01) == 1 && PopCount(0x02) == 1 && PopCount(0x04) == 1 && PopCount(0x09) == 2 && PopCount(0x13) == 3 && PopCount(0x26) == 3 && PopCount(0x4D) == 4 && PopCount(0x9B) == 5;
    assert PopCount(0x01) == 1 && PopCount(0x02) == 1 && PopCount(0x05) == 2 && PopCount(0x0B) == 3 && PopCount(0x17) == 4 && PopCount(0x2F) == 5 && PopCount(0x5E) == 5 && PopCount(0xBC) == 5;
    assert PopCount(0x01) == 1 && PopCount(0x03) == 2 && PopCount(0x06) == 2 && PopCount(0x0D) == 3 && PopCount(0x1B) == 4 && PopCount(0x37) == 5 && PopCount(0x6F) == 6 && PopCount(0xDF) == 7;
    assert PopCount(0x01) == 1 && PopCount(0x03) == 2 && PopCount(0x07) == 3 && PopCount(0x0F) == 4 && PopCount(0x1E) == 4 && PopCount(0x3C) == 4 && PopCount(0x78) == 4 && PopCount(0xF1) == 5;
  }

  /** Subkey `i` of the test key is entry `i` of the table. */
  lemma TestSubkey(i: nat)
    requires i < 16
    ensures Subkey(Unpack(TestKey), i) == Unpack(TestSubkeys[i])
  {
    IndexCases(i, 16);
    if i == 0 { Subkey1(); }
    else if i == 1 { Subkey2(); }
    else if i == 2 { Subkey3(); }
    else if i == 3 { Subkey4(); }
    else if i == 4 { Subkey5(); }
    else if i == 5 { Subkey6(); }
    else if i == 6 { Subkey7(); }
    else if i == 7 { Subkey8(); }
    else if i == 8 { Subkey9(); }
    else if i == 9 { Subkey10(); }
    else if i == 10 { Subkey11(); }
    else if i == 11 { Subkey12(); }
    else if i == 12 { Subkey13(); }
    else if i == 13 { Subkey14(); }
    else if i == 14 { Subkey15(); }
    else { Subkey16(); }
  }

  /** The key schedule of the test key is the test suite's table. */
  lemma ScheduleKnownAnswer()
    ensures Schedule(TestKey) == TestSubkeys
  {
    forall i | 0 <= i < 16
      ensures Schedule(TestKey)[i] == TestSubkeys[i]
    {
      TestSubkey(i);
      UnpackInjective(Schedule(TestKey)[i], TestSubkeys[i]);
    }
  }

  /** `DES_generate_subKeys` on the test key returns the test suite's table. */
  method GenerateTestSubkeys() returns (r: Option<seq<seq<Byte>>>)
    ensures r == Some(TestSubkeys)
  {
    TestKeyHasOddParity();
    ScheduleKnownAnswer();
    r := GenerateSubkeys(Some(TestKey));
  }

  /** Round `i + 1` of enciphering `Plain` takes `Trace[i]` to `Trace[i + 1]`. */
  lemma TraceStep(i: nat)
    requires i < 16
    ensures ValidHalves(Trace[i]) && ValidHalves(Trace[i + 1])
    ensures Round(CipherF, Trace[i], Unpack(TestSubkeys[i])) == Trace[i + 1]
  {
    CipherFHalfBlockValued();
    IndexCases(i, 16);
    if i == 0 { Round1(); }
    else if i == 1 { Round2(); }
    else if i == 2 { Round3(); }
    else if i == 3 { Round4(); }
    else if i == 4 { Round5(); }
    else if i == 5 { Round6(); }
    else if i == 6 { Round7(); }
    else if i == 7 { Round8(); }
    else if i == 8 { Round9(); }
    else if i == 9 { Round10(); }
    else if i == 10 { Round11(); }
    else if i == 11 { Round12(); }
    else if i == 12 { Round13(); }
    else if i == 13 { Round14(); }
    else if i == 14 { Round15(); }
    else { Round16(); }
  }

  /** The 16 rounds take the halves after IP to the final halves of the trace. */
  lemma RoundsKnown()
    ensures Rounds(CipherF, Trace[0], KeyBits(TestSubkeys)) == Trace[16]
  {
    CipherFHalfBlockValued();
    var keys := KeyBits(TestSubkeys);
    forall i | 0 <= i < 17
      ensures ValidHalves(Trace[i])
    {
      if i < 16 { TraceStep(i); } else { TraceStep(15); }
    }
    forall i | 0 <= i < 16
      ensures Round(CipherF, Trace[i], keys[i]) == Trace[i + 1]
    {
      TraceStep(i);
    }
    RoundsOfSteps(CipherF, Trace, keys);
  }

  /** The test of `DES_block_cipher`: under the test subkeys 0123456789ABCDEF
      enciphers to 85E813540F0AB405, and 85E813540F0AB405 deciphers to
      0123456789ABCDEF. */
  lemma BlockKnownAnswer()
    ensures ValidSubkeys(TestSubkeys)
    ensures BlockCipherBytes(Some(Plain), Some(TestSubkeys), true) == Some(CipherText)
    ensures BlockCipherBytes(Some(CipherText), Some(TestSubkeys), false) == Some(Plain)
  {
    var c := BlockCipherBytes(Some(Plain), Some(TestSubkeys), true);
    InitialHalvesKnown();
    RoundsKnown();
    FinalBlockKnown();
    UnpackInjective(c.value, CipherText);
    BlockCipherRoundTrip(Plain, TestSubkeys, true);
  }

  /** The whole test vector from the key: the subkeys `DES_generate_subKeys`
      derives from 133457799BBCDFF1 encipher 0123456789ABCDEF to
      85E813540F0AB405 and decipher it back. */
  method EncryptTestBlock() returns (c: Option<seq<Byte>>, p: Option<seq<Byte>>)
    ensures c == Some(CipherText) && p == Some(Plain)
  {
    var keys := GenerateTestSubkeys();
    BlockKnownAnswer();
    c := BlockCipherBytes(Some(Plain), keys, true);
    p := BlockCipherBytes(c, keys, false);
  }
}
