/** The key schedule of the key 133457799BBCDFF1, stage by stage: the state
    C ++ D after PC1 and after each round's rotation, and each round's subkey,
    every stage proved on the bytes of the 7-byte state and 6-byte subkey. The
    subkeys are the engine's test table `keys` (`DES/test/des_test.c`); the
    intermediate states are computed from the model. */
module ScheduleVectors {
  import opened Bits
  import opened Tables
  import opened KeySchedule
  import opened Evaluation

  /** PC1 of the key, C half: C0 = F0CCAAF. */
  lemma State0C()
    ensures forall i :: 0 <= i < 28 ==> 0 <= PC1[i] < 64 && Unpack([0x13, 0x34, 0x57, 0x79, 0x9B, 0xBC, 0xDF, 0xF1])[PC1[i]] == Unpack([0xF0, 0xCC, 0xAA, 0xF5, 0x56, 0x67, 0x8F])[i]
  {
    var key: seq<Byte> := [0x13, 0x34, 0x57, 0x79, 0x9B, 0xBC, 0xDF, 0xF1];
    var cd: seq<Byte> := [0xF0, 0xCC, 0xAA, 0xF5, 0x56, 0x67, 0x8F];
    forall i | 0 <= i < 28
      ensures 0 <= PC1[i] < 64 && Unpack(key)[PC1[i]] == Unpack(cd)[i]
    {
      IndexCases(i, 28);
    }
  }

  /** PC1 of the key, D half: D0 = 556678F. */
  lemma State0D()
    ensures forall i :: 28 <= i < 56 ==> 0 <= PC1[i] < 64 && Unpack([0x13, 0x34, 0x57, 0x79, 0x9B, 0xBC, 0xDF, 0xF1])[PC1[i]] == Unpack([0xF0, 0xCC, 0xAA, 0xF5, 0x56, 0x67, 0x8F])[i]
  {
    var key: seq<Byte> := [0x13, 0x34, 0x57, 0x79, 0x9B, 0xBC, 0xDF, 0xF1];
    var cd: seq<Byte> := [0xF0, 0xCC, 0xAA, 0xF5, 0x56, 0x67, 0x8F];
    forall i | 28 <= i < 56
      ensures 0 <= PC1[i] < 64 && Unpack(key)[PC1[i]] == Unpack(cd)[i]
    {
      IndexCases(i, 56);
    }
  }

  /** PC1 of the key: C0 = F0CCAAF and D0 = 556678F. */
  lemma State0()
    ensures InitialState(Unpack([0x13, 0x34, 0x57, 0x79, 0x9B, 0xBC, 0xDF, 0xF1])) == Unpack([0xF0, 0xCC, 0xAA, 0xF5, 0x56, 0x67, 0x8F])
  {
    PC1Shape();
    State0C();
    State0D();
    PermuteBytes(PC1, [0x13, 0x34, 0x57, 0x79, 0x9B, 0xBC, 0xDF, 0xF1], [0xF0, 0xCC, 0xAA, 0xF5, 0x56, 0x67, 0x8F]);
  }

  /** The state after round 1: the state before rotated by 1. */
  lemma State1()
    ensures State(InitialState(Unpack([0x13, 0x34, 0x57, 0x79, 0x9B, 0xBC, 0xDF, 0xF1])), 1) == Unpack([0xE1, 0x99, 0x55, 0xFA, 0xAC, 0xCF, 0x1E])
  {
    State0();
    StateStep(InitialState(Unpack([0x13, 0x34, 0x57, 0x79, 0x9B, 0xBC, 0xDF, 0xF1])), 0, [0xF0, 0xCC, 0xAA, 0xF5, 0x56, 0x67, 0x8F], [0xE1, 0x99, 0x55, 0xFA, 0xAC, 0xCF, 0x1E]);
  }

  /** PC2 of the state after round 1. */
  lemma Choice1()
    ensures Selects(PC2, 56) && Permute(PC2, Unpack([0xE1, 0x99, 0x55, 0xFA, 0xAC, 0xCF, 0x1E])) == Unpack([0x1B, 0x02, 0xEF, 0xFC, 0x70, 0x72])
  {
    var after: seq<Byte> := [0xE1, 0x99, 0x55, 0xFA, 0xAC, 0xCF, 0x1E];
    var sub: seq<Byte> := [0x1B, 0x02, 0xEF, 0xFC, 0x70, 0x72];
    PC2Shape();
    forall i | 0 <= i < 48
      ensures Unpack(after)[PC2[i]] == Unpack(sub)[i]
    {
      IndexCases(i, 48);
    }
    PermuteBytes(PC2, after, sub);
  }

  /** The subkey of round 1: 1B02EFFC7072. */
  lemma Subkey1()
    ensures Subkey(Unpack([0x13, 0x34, 0x57, 0x79, 0x9B, 0xBC, 0xDF, 0xF1]), 0) == Unpack([0x1B, 0x02, 0xEF, 0xFC, 0x70, 0x72])
  {
    State1();
    Choice1();
    SubkeyStep(Unpack([0x13, 0x34, 0x57, 0x79, 0x9B, 0xBC, 0xDF, 0xF1]), 0, [0xE1, 0x99, 0x55, 0xFA, 0xAC, 0xCF, 0x1E], [0x1B, 0x02, 0xEF, 0xFC, 0x70, 0x72]);
  }

  /** The state after round 2: the state before rotated by 1. */
  lemma State2()
    ensures State(InitialState(Unpack([0x13, 0x34, 0x57, 0x79, 0x9B, 0xBC, 0xDF, 0xF1])), 2) == Unpack([0xC3, 0x32, 0xAB, 0xF5, 0x59, 0x9E, 0x3D])
  {
    State1();
    StateStep(InitialState(Unpack([0x13, 0x34, 0x57, 0x79, 0x9B, 0xBC, 0xDF, 0xF1])), 1, [0xE1, 0x99, 0x55, 0xFA, 0xAC, 0xCF, 0x1E], [0xC3, 0x32, 0xAB, 0xF5, 0x59, 0x9E, 0x3D]);
  }

  /** PC2 of the state after round 2. */
  lemma Choice2()
    ensures Selects(PC2, 56) && Permute(PC2, Unpack([0xC3, 0x32, 0xAB, 0xF5, 0x59, 0x9E, 0x3D])) == Unpack([0x79, 0xAE, 0xD9, 0xDB, 0xC9, 0xE5])
  {
    var after: seq<Byte> := [0xC3, 0x32, 0xAB, 0xF5, 0x59, 0x9E, 0x3D];
    var sub: seq<Byte> := [0x79, 0xAE, 0xD9, 0xDB, 0xC9, 0xE5];
    PC2Shape();
    forall i | 0 <= i < 48
      ensures Unpack(after)[PC2[i]] == Unpack(sub)[i]
    {
      IndexCases(i, 48);
    }
    PermuteBytes(PC2, after, sub);
  }

  /** The subkey of round 2: 79AED9DBC9E5. */
  lemma Subkey2()
    ensures Subkey(Unpack([0x13, 0x34, 0x57, 0x79, 0x9B, 0xBC, 0xDF, 0xF1]), 1) == Unpack([0x79, 0xAE, 0xD9, 0xDB, 0xC9, 0xE5])
  {
    State2();
    Choice2();
    SubkeyStep(Unpack([0x13, 0x34, 0x57, 0x79, 0x9B, 0xBC, 0xDF, 0xF1]), 1, [0xC3, 0x32, 0xAB, 0xF5, 0x59, 0x9E, 0x3D], [0x79, 0xAE, 0xD9, 0xDB, 0xC9, 0xE5]);
  }

  /** The state after round 3: the state before rotated by 2. */
  lemma State3()
    ensures State(InitialState(Unpack([0x13, 0x34, 0x57, 0x79, 0x9B, 0xBC, 0xDF, 0xF1])), 3) == Unpack([0x0C, 0xCA, 0xAF, 0xF5, 0x66, 0x78, 0xF5])
  {
    State2();
    StateStep(InitialState(Unpack([0x13, 0x34, 0x57, 0x79, 0x9B, 0xBC, 0xDF, 0xF1])), 2, [0xC3, 0x32, 0xAB, 0xF5, 0x59, 0x9E, 0x3D], [0x0C, 0xCA, 0xAF, 0xF5, 0x66, 0x78, 0xF5]);
  }

  /** PC2 of the state after round 3. */
  lemma Choice3()
    ensures Selects(PC2, 56) && Permute(PC2, Unpack([0x0C, 0xCA, 0xAF, 0xF5, 0x66, 0x78, 0xF5])) == Unpack([0x55, 0xFC, 0x8A, 0x42, 0xCF, 0x99])
  {
    var after: seq<Byte> := [0x0C, 0xCA, 0xAF, 0xF5, 0x66, 0x78, 0xF5];
    var sub: seq<Byte> := [0x55, 0xFC, 0x8A, 0x42, 0xCF, 0x99];
    PC2Shape();
    forall i | 0 <= i < 48
      ensures Unpack(after)[PC2[i]] == Unpack(sub)[i]
    {
      IndexCases(i, 48);
    }
    PermuteBytes(PC2, after, sub);
  }

  /** The subkey of round 3: 55FC8A42CF99. */
  lemma Subkey3()
    ensures Subkey(Unpack([0x13, 0x34, 0x57, 0x79, 0x9B, 0xBC, 0xDF, 0xF1]), 2) == Unpack([0x55, 0xFC, 0x8A, 0x42, 0xCF, 0x99])
  {
    State3();
    Choice3();
    SubkeyStep(Unpack([0x13, 0x34, 0x57, 0x79, 0x9B, 0xBC, 0xDF, 0xF1]), 2, [0x0C, 0xCA, 0xAF, 0xF5, 0x66, 0x78, 0xF5], [0x55, 0xFC, 0x8A, 0x42, 0xCF, 0x99]);
  }

  /** The state after round 4: the state before rotated by 2. */
  lemma State4()
    ensures State(InitialState(Unpack([0x13, 0x34, 0x57, 0x79, 0x9B, 0xBC, 0xDF, 0xF1])), 4) == Unpack([0x33, 0x2A, 0xBF, 0xC5, 0x99, 0xE3, 0xD5])
  {
    State3();
    StateStep(InitialState(Unpack([0x13, 0x34, 0x57, 0x79, 0x9B, 0xBC, 0xDF, 0xF1])), 3, [0x0C, 0xCA, 0xAF, 0xF5, 0x66, 0x78, 0xF5], [0x33, 0x2A, 0xBF, 0xC5, 0x99, 0xE3, 0xD5]);
  }

  /** PC2 of the state after round 4. */
  lemma Choice4()
    ensures Selects(PC2, 56) && Permute(PC2, Unpack([0x33, 0x2A, 0xBF, 0xC5, 0x99, 0xE3, 0xD5])) == Unpack([0x72, 0xAD, 0xD6, 0xDB, 0x35, 0x1D])
  {
    var after: seq<Byte> := [0x33, 0x2A, 0xBF, 0xC5, 0x99, 0xE3, 0xD5];
    var sub: seq<Byte> := [0x72, 0xAD, 0xD6, 0xDB, 0x35, 0x1D];
    PC2Shape();
    forall i | 0 <= i < 48
      ensures Unpack(after)[PC2[i]] == Unpack(sub)[i]
    {
      IndexCases(i, 48);
    }
    PermuteBytes(PC2, after, sub);
  }

  /** The subkey of round 4: 72ADD6DB351D. */
  lemma Subkey4()
    ensures Subkey(Unpack([0x13, 0x34, 0x57, 0x79, 0x9B, 0xBC, 0xDF, 0xF1]), 3) == Unpack([0x72, 0xAD, 0xD6, 0xDB, 0x35, 0x1D])
  {
    State4();
    Choice4();
    SubkeyStep(Unpack([0x13, 0x34, 0x57, 0x79, 0x9B, 0xBC, 0xDF, 0xF1]), 3, [0x33, 0x2A, 0xBF, 0xC5, 0x99, 0xE3, 0xD5], [0x72, 0xAD, 0xD6, 0xDB, 0x35, 0x1D]);
  }

  /** The state after round 5: the state before rotated by 2. */
  lemma State5()
    ensures State(InitialState(Unpack([0x13, 0x34, 0x57, 0x79, 0x9B, 0xBC, 0xDF, 0xF1])), 5) == Unpack([0xCC, 0xAA, 0xFF, 0x06, 0x67, 0x8F, 0x55])
  {
    State4();
    StateStep(InitialState(Unpack([0x13, 0x34, 0x57, 0x79, 0x9B, 0xBC, 0xDF, 0xF1])), 4, [0x33, 0x2A, 0xBF, 0xC5, 0x99, 0xE3, 0xD5], [0xCC, 0xAA, 0xFF, 0x06, 0x67, 0x8F, 0x55]);
  }

  /** PC2 of the state after round 5. */
  lemma Choice5()
    ensures Selects(PC2, 56) && Permute(PC2, Unpack([0xCC, 0xAA, 0xFF, 0x06, 0x67, 0x8F, 0x55])) == Unpack([0x7C, 0xEC, 0x07, 0xEB, 0x53, 0xA8])
  {
    var after: seq<Byte> := [0xCC, 0xAA, 0xFF, 0x06, 0x67, 0x8F, 0x55];
    var sub: seq<Byte> := [0x7C, 0xEC, 0x07, 0xEB, 0x53, 0xA8];
    PC2Shape();
    forall i | 0 <= i < 48
      ensures Unpack(after)[PC2[i]] == Unpack(sub)[i]
    {
      IndexCases(i, 48);
    }
    PermuteBytes(PC2, after, sub);
  }

  /** The subkey of round 5: 7CEC07EB53A8. */
  lemma Subkey5()
    ensures Subkey(Unpack([0x13, 0x34, 0x57, 0x79, 0x9B, 0xBC, 0xDF, 0xF1]), 4) == Unpack([0x7C, 0xEC, 0x07, 0xEB, 0x53, 0xA8])
  {
    State5();
    Choice5();
    SubkeyStep(Unpack([0x13, 0x34, 0x57, 0x79, 0x9B, 0xBC, 0xDF, 0xF1]), 4, [0xCC, 0xAA, 0xFF, 0x06, 0x67, 0x8F, 0x55], [0x7C, 0xEC, 0x07, 0xEB, 0x53, 0xA8]);
  }

  /** The state after round 6: the state before rotated by 2. */
  lemma State6()
    ensures State(InitialState(Unpack([0x13, 0x34, 0x57, 0x79, 0x9B, 0xBC, 0xDF, 0xF1])), 6) == Unpack([0x32, 0xAB, 0xFC, 0x39, 0x9E, 0x3D, 0x55])
  {
    State5();
    StateStep(InitialState(Unpack([0x13, 0x34, 0x57, 0x79, 0x9B, 0xBC, 0xDF, 0xF1])), 5, [0xCC, 0xAA, 0xFF, 0x06, 0x67, 0x8F, 0x55], [0x32, 0xAB, 0xFC, 0x39, 0x9E, 0x3D, 0x55]);
  }

  /** PC2 of the state after round 6. */
  lemma Choice6()
    ensures Selects(PC2, 56) && Permute(PC2, Unpack([0x32, 0xAB, 0xFC, 0x39, 0x9E, 0x3D, 0x55])) == Unpack([0x63, 0xA5, 0x3E, 0x50, 0x7B, 0x2F])
  {
    var after: seq<Byte> := [0x32, 0xAB, 0xFC, 0x39, 0x9E, 0x3D, 0x55];
    var sub: seq<Byte> := [0x63, 0xA5, 0x3E, 0x50, 0x7B, 0x2F];
    PC2Shape();
    forall i | 0 <= i < 48
      ensures Unpack(after)[PC2[i]] == Unpack(sub)[i]
    {
      IndexCases(i, 48);
    }
    PermuteBytes(PC2, after, sub);
  }

  /** The subkey of round 6: 63A53E507B2F. */
  lemma Subkey6()
    ensures Subkey(Unpack([0x13, 0x34, 0x57, 0x79, 0x9B, 0xBC, 0xDF, 0xF1]), 5) == Unpack([0x63, 0xA5, 0x3E, 0x50, 0x7B, 0x2F])
  {
    State6();
    Choice6();
    SubkeyStep(Unpack([0x13, 0x34, 0x57, 0x79, 0x9B, 0xBC, 0xDF, 0xF1]), 5, [0x32, 0xAB, 0xFC, 0x39, 0x9E, 0x3D, 0x55], [0x63, 0xA5, 0x3E, 0x50, 0x7B, 0x2F]);
  }

  /** The state after round 7: the state before rotated by 2. */
  lemma State7()
    ensures State(InitialState(Unpack([0x13, 0x34, 0x57, 0x79, 0x9B, 0xBC, 0xDF, 0xF1])), 7) == Unpack([0xCA, 0xAF, 0xF0, 0xC6, 0x78, 0xF5, 0x56])
  {
    State6();
    StateStep(InitialState(Unpack([0x13, 0x34, 0x57, 0x79, 0x9B, 0xBC, 0xDF, 0xF1])), 6, [0x32, 0xAB, 0xFC, 0x39, 0x9E, 0x3D, 0x55], [0xCA, 0xAF, 0xF0, 0xC6, 0x78, 0xF5, 0x56]);
  }

  /** PC2 of the state after round 7. */
  lemma Choice7()
    ensures Selects(PC2, 56) && Permute(PC2, Unpack([0xCA, 0xAF, 0xF0, 0xC6, 0x78, 0xF5, 0x56])) == Unpack([0xEC, 0x84, 0xB7, 0xF6, 0x18, 0xBC])
  {
    var after: seq<Byte> := [0xCA, 0xAF, 0xF0, 0xC6, 0x78, 0xF5, 0x56];
    var sub: seq<Byte> := [0xEC, 0x84, 0xB7, 0xF6, 0x18, 0xBC];
    PC2Shape();
    forall i | 0 <= i < 48
      ensures Unpack(after)[PC2[i]] == Unpack(sub)[i]
    {
      IndexCases(i, 48);
    }
    PermuteBytes(PC2, after, sub);
  }

  /** The subkey of round 7: EC84B7F618BC. */
  lemma Subkey7()
    ensures Subkey(Unpack([0x13, 0x34, 0x57, 0x79, 0x9B, 0xBC, 0xDF, 0xF1]), 6) == Unpack([0xEC, 0x84, 0xB7, 0xF6, 0x18, 0xBC])
  {
    State7();
    Choice7();
    SubkeyStep(Unpack([0x13, 0x34, 0x57, 0x79, 0x9B, 0xBC, 0xDF, 0xF1]), 6, [0xCA, 0xAF, 0xF0, 0xC6, 0x78, 0xF5, 0x56], [0xEC, 0x84, 0xB7, 0xF6, 0x18, 0xBC]);
  }

  /** The state after round 8: the state before rotated by 2. */
  lemma State8()
    ensures State(InitialState(Unpack([0x13, 0x34, 0x57, 0x79, 0x9B, 0xBC, 0xDF, 0xF1])), 8) == Unpack([0x2A, 0xBF, 0xC3, 0x39, 0xE3, 0xD5, 0x59])
  {
    State7();
    StateStep(InitialState(Unpack([0x13, 0x34, 0x57, 0x79, 0x9B, 0xBC, 0xDF, 0xF1])), 7, [0xCA, 0xAF, 0xF0, 0xC6, 0x78, 0xF5, 0x56], [0x2A, 0xBF, 0xC3, 0x39, 0xE3, 0xD5, 0x59]);
  }

  /** PC2 of the state after round 8. */
  lemma Choice8()
    ensures Selects(PC2, 56) && Permute(PC2, Unpack([0x2A, 0xBF, 0xC3, 0x39, 0xE3, 0xD5, 0x59])) == Unpack([0xF7, 0x8A, 0x3A, 0xC1, 0x3B, 0xFB])
  {
    var after: seq<Byte> := [0x2A, 0xBF, 0xC3, 0x39, 0xE3, 0xD5, 0x59];
    var sub: seq<Byte> := [0xF7, 0x8A, 0x3A, 0xC1, 0x3B, 0xFB];
    PC2Shape();
    forall i | 0 <= i < 48
      ensures Unpack(after)[PC2[i]] == Unpack(sub)[i]
    {
      IndexCases(i, 48);
    }
    PermuteBytes(PC2, after, sub);
  }

  /** The subkey of round 8: F78A3AC13BFB. */
  lemma Subkey8()
    ensures Subkey(Unpack([0x13, 0x34, 0x57, 0x79, 0x9B, 0xBC, 0xDF, 0xF1]), 7) == Unpack([0xF7, 0x8A, 0x3A, 0xC1, 0x3B, 0xFB])
  {
    State8();
    Choice8();
    SubkeyStep(Unpack([0x13, 0x34, 0x57, 0x79, 0x9B, 0xBC, 0xDF, 0xF1]), 7, [0x2A, 0xBF, 0xC3, 0x39, 0xE3, 0xD5, 0x59], [0xF7, 0x8A, 0x3A, 0xC1, 0x3B, 0xFB]);
  }

  /** The state after round 9: the state before rotated by 1. */
  lemma State9()
    ensures State(InitialState(Unpack([0x13, 0x34, 0x57, 0x79, 0x9B, 0xBC, 0xDF, 0xF1])), 9) == Unpack([0x55, 0x7F, 0x86, 0x63, 0xC7, 0xAA, 0xB3])
  {
    State8();
    StateStep(InitialState(Unpack([0x13, 0x34, 0x57, 0x79, 0x9B, 0xBC, 0xDF, 0xF1])), 8, [0x2A, 0xBF, 0xC3, 0x39, 0xE3, 0xD5, 0x59], [0x55, 0x7F, 0x86, 0x63, 0xC7, 0xAA, 0xB3]);
  }

  /** PC2 of the state after round 9. */
  lemma Choice9()
    ensures Selects(PC2, 56) && Permute(PC2, Unpack([0x55, 0x7F, 0x86, 0x63, 0xC7, 0xAA, 0xB3])) == Unpack([0xE0, 0xDB, 0xEB, 0xED, 0xE7, 0x81])
  {
    var after: seq<Byte> := [0x55, 0x7F, 0x86, 0x63, 0xC7, 0xAA, 0xB3];
    var sub: seq<Byte> := [0xE0, 0xDB, 0xEB, 0xED, 0xE7, 0x81];
    PC2Shape();
    forall i | 0 <= i < 48
      ensures Unpack(after)[PC2[i]] == Unpack(sub)[i]
    {
      IndexCases(i, 48);
    }
    PermuteBytes(PC2, after, sub);
  }

  /** The subkey of round 9: E0DBEBEDE781. */
  lemma Subkey9()
    ensures Subkey(Unpack([0x13, 0x34, 0x57, 0x79, 0x9B, 0xBC, 0xDF, 0xF1]), 8) == Unpack([0xE0, 0xDB, 0xEB, 0xED, 0xE7, 0x81])
  {
    State9();
    Choice9();
    SubkeyStep(Unpack([0x13, 0x34, 0x57, 0x79, 0x9B, 0xBC, 0xDF, 0xF1]), 8, [0x55, 0x7F, 0x86, 0x63, 0xC7, 0xAA, 0xB3], [0xE0, 0xDB, 0xEB, 0xED, 0xE7, 0x81]);
  }

  /** The state after round 10: the state before rotated by 2. */
  lemma State10()
    ensures State(InitialState(Unpack([0x13, 0x34, 0x57, 0x79, 0x9B, 0xBC, 0xDF, 0xF1])), 10) == Unpack([0x55, 0xFE, 0x19, 0x9F, 0x1E, 0xAA, 0xCC])
  {
    State9();
    StateStep(InitialState(Unpack([0x13, 0x34, 0x57, 0x79, 0x9B, 0xBC, 0xDF, 0xF1])), 9, [0x55, 0x7F, 0x86, 0x63, 0xC7, 0xAA, 0xB3], [0x55, 0xFE, 0x19, 0x9F, 0x1E, 0xAA, 0xCC]);
  }

  /** PC2 of the state after round 10. */
  lemma Choice10()
    ensures Selects(PC2, 56) && Permute(PC2, Unpack([0x55, 0xFE, 0x19, 0x9F, 0x1E, 0xAA, 0xCC])) == Unpack([0xB1, 0xF3, 0x47, 0xBA, 0x46, 0x4F])
  {
    var after: seq<Byte> := [0x55, 0xFE, 0x19, 0x9F, 0x1E, 0xAA, 0xCC];
    var sub: seq<Byte> := [0xB1, 0xF3, 0x47, 0xBA, 0x46, 0x4F];
    PC2Shape();
    forall i | 0 <= i < 48
      ensures Unpack(after)[PC2[i]] == Unpack(sub)[i]
    {
      IndexCases(i, 48);
    }
    PermuteBytes(PC2, after, sub);
  }

  /** The subkey of round 10: B1F347BA464F. */
  lemma Subkey10()
    ensures Subkey(Unpack([0x13, 0x34, 0x57, 0x79, 0x9B, 0xBC, 0xDF, 0xF1]), 9) == Unpack([0xB1, 0xF3, 0x47, 0xBA, 0x46, 0x4F])
  {
    State10();
    Choice10();
    SubkeyStep(Unpack([0x13, 0x34, 0x57, 0x79, 0x9B, 0xBC, 0xDF, 0xF1]), 9, [0x55, 0xFE, 0x19, 0x9F, 0x1E, 0xAA, 0xCC], [0xB1, 0xF3, 0x47, 0xBA, 0x46, 0x4F]);
  }

  /** The state after round 11: the state before rotated by 2. */
  lemma State11()
    ensures State(InitialState(Unpack([0x13, 0x34, 0x57, 0x79, 0x9B, 0xBC, 0xDF, 0xF1])), 11) == Unpack([0x57, 0xF8, 0x66, 0x5C, 0x7A, 0xAB, 0x33])
  {
    State10();
    StateStep(InitialState(Unpack([0x13, 0x34, 0x57, 0x79, 0x9B, 0xBC, 0xDF, 0xF1])), 10, [0x55, 0xFE, 0x19, 0x9F, 0x1E, 0xAA, 0xCC], [0x57, 0xF8, 0x66, 0x5C, 0x7A, 0xAB, 0x33]);
  }

  /** PC2 of the state after round 11. */
  lemma Choice11()
    ensures Selects(PC2, 56) && Permute(PC2, Unpack([0x57, 0xF8, 0x66, 0x5C, 0x7A, 0xAB, 0x33])) == Unpack([0x21, 0x5F, 0xD3, 0xDE, 0xD3, 0x86])
  {
    var after: seq<Byte> := [0x57, 0xF8, 0x66, 0x5C, 0x7A, 0xAB, 0x33];
    var sub: seq<Byte> := [0x21, 0x5F, 0xD3, 0xDE, 0xD3, 0x86];
    PC2Shape();
    forall i | 0 <= i < 48
      ensures Unpack(after)[PC2[i]] == Unpack(sub)[i]
    {
      IndexCases(i, 48);
    }
    PermuteBytes(PC2, after, sub);
  }

  /** The subkey of round 11: 215FD3DED386. */
  lemma Subkey11()
    ensures Subkey(Unpack([0x13, 0x34, 0x57, 0x79, 0x9B, 0xBC, 0xDF, 0xF1]), 10) == Unpack([0x21, 0x5F, 0xD3, 0xDE, 0xD3, 0x86])
  {
    State11();
    Choice11();
    SubkeyStep(Unpack([0x13, 0x34, 0x57, 0x79, 0x9B, 0xBC, 0xDF, 0xF1]), 10, [0x57, 0xF8, 0x66, 0x5C, 0x7A, 0xAB, 0x33], [0x21, 0x5F, 0xD3, 0xDE, 0xD3, 0x86]);
  }

  /** The state after round 12: the state before rotated by 2. */
  lemma State12()
    ensures State(InitialState(Unpack([0x13, 0x34, 0x57, 0x79, 0x9B, 0xBC, 0xDF, 0xF1])), 12) == Unpack([0x5F, 0xE1, 0x99, 0x51, 0xEA, 0xAC, 0xCF])
  {
    State11();
    StateStep(InitialState(Unpack([0x13, 0x34, 0x57, 0x79, 0x9B, 0xBC, 0xDF, 0xF1])), 11, [0x57, 0xF8, 0x66, 0x5C, 0x7A, 0xAB, 0x33], [0x5F, 0xE1, 0x99, 0x51, 0xEA, 0xAC, 0xCF]);
  }

  /** PC2 of the state after round 12. */
  lemma Choice12()
    ensures Selects(PC2, 56) && Permute(PC2, Unpack([0x5F, 0xE1, 0x99, 0x51, 0xEA, 0xAC, 0xCF])) == Unpack([0x75, 0x71, 0xF5, 0x94, 0x67, 0xE9])
  {
    var after: seq<Byte> := [0x5F, 0xE1, 0x99, 0x51, 0xEA, 0xAC, 0xCF];
    var sub: seq<Byte> := [0x75, 0x71, 0xF5, 0x94, 0x67, 0xE9];
    PC2Shape();
    forall i | 0 <= i < 48
      ensures Unpack(after)[PC2[i]] == Unpack(sub)[i]
    {
      IndexCases(i, 48);
    }
    PermuteBytes(PC2, after, sub);
  }

  /** The subkey of round 12: 7571F59467E9. */
  lemma Subkey12()
    ensures Subkey(Unpack([0x13, 0x34, 0x57, 0x79, 0x9B, 0xBC, 0xDF, 0xF1]), 11) == Unpack([0x75, 0x71, 0xF5, 0x94, 0x67, 0xE9])
  {
    State12();
    Choice12();
    SubkeyStep(Unpack([0x13, 0x34, 0x57, 0x79, 0x9B, 0xBC, 0xDF, 0xF1]), 11, [0x5F, 0xE1, 0x99, 0x51, 0xEA, 0xAC, 0xCF], [0x75, 0x71, 0xF5, 0x94, 0x67, 0xE9]);
  }

  /** The state after round 13: the state before rotated by 2. */
  lemma State13()
    ensures State(InitialState(Unpack([0x13, 0x34, 0x57, 0x79, 0x9B, 0xBC, 0xDF, 0xF1])), 13) == Unpack([0x7F, 0x86, 0x65, 0x57, 0xAA, 0xB3, 0x3C])
  {
    State12();
    StateStep(InitialState(Unpack([0x13, 0x34, 0x57, 0x79, 0x9B, 0xBC, 0xDF, 0xF1])), 12, [0x5F, 0xE1, 0x99, 0x51, 0xEA, 0xAC, 0xCF], [0x7F, 0x86, 0x65, 0x57, 0xAA, 0xB3, 0x3C]);
  }

  /** PC2 of the state after round 13. */
  lemma Choice13()
    ensures Selects(PC2, 56) && Permute(PC2, Unpack([0x7F, 0x86, 0x65, 0x57, 0xAA, 0xB3, 0x3C])) == Unpack([0x97, 0xC5, 0xD1, 0xFA, 0xBA, 0x41])
  {
    var after: seq<Byte> := [0x7F, 0x86, 0x65, 0x57, 0xAA, 0xB3, 0x3C];
    var sub: seq<Byte> := [0x97, 0xC5, 0xD1, 0xFA, 0xBA, 0x41];
    PC2Shape();
    forall i | 0 <= i < 48
      ensures Unpack(after)[PC2[i]] == Unpack(sub)[i]
    {
      IndexCases(i, 48);
    }
    PermuteBytes(PC2, after, sub);
  }

  /** The subkey of round 13: 97C5D1FABA41. */
  lemma Subkey13()
    ensures Subkey(Unpack([0x13, 0x34, 0x57, 0x79, 0x9B, 0xBC, 0xDF, 0xF1]), 12) == Unpack([0x97, 0xC5, 0xD1, 0xFA, 0xBA, 0x41])
  {
    State13();
    Choice13();
    SubkeyStep(Unpack([0x13, 0x34, 0x57, 0x79, 0x9B, 0xBC, 0xDF, 0xF1]), 12, [0x7F, 0x86, 0x65, 0x57, 0xAA, 0xB3, 0x3C], [0x97, 0xC5, 0xD1, 0xFA, 0xBA, 0x41]);
  }

  /** The state after round 14: the state before rotated by 2. */
  lemma State14()
    ensures State(InitialState(Unpack([0x13, 0x34, 0x57, 0x79, 0x9B, 0xBC, 0xDF, 0xF1])), 14) == Unpack([0xFE, 0x19, 0x95, 0x5E, 0xAA, 0xCC, 0xF1])
  {
    State13();
    StateStep(InitialState(Unpack([0x13, 0x34, 0x57, 0x79, 0x9B, 0xBC, 0xDF, 0xF1])), 13, [0x7F, 0x86, 0x65, 0x57, 0xAA, 0xB3, 0x3C], [0xFE, 0x19, 0x95, 0x5E, 0xAA, 0xCC, 0xF1]);
  }

  /** PC2 of the state after round 14. */
  lemma Choice14()
    ensures Selects(PC2, 56) && Permute(PC2, Unpack([0xFE, 0x19, 0x95, 0x5E, 0xAA, 0xCC, 0xF1])) == Unpack([0x5F, 0x43, 0xB7, 0xF2, 0xE7, 0x3A])
  {
    var after: seq<Byte> := [0xFE, 0x19, 0x95, 0x5E, 0xAA, 0xCC, 0xF1];
    var sub: seq<Byte> := [0x5F, 0x43, 0xB7, 0xF2, 0xE7, 0x3A];
    PC2Shape();
    forall i | 0 <= i < 48
      ensures Unpack(after)[PC2[i]] == Unpack(sub)[i]
    {
      IndexCases(i, 48);
    }
    PermuteBytes(PC2, after, sub);
  }

  /** The subkey of round 14: 5F43B7F2E73A. */
  lemma Subkey14()
    ensures Subkey(Unpack([0x13, 0x34, 0x57, 0x79, 0x9B, 0xBC, 0xDF, 0xF1]), 13) == Unpack([0x5F, 0x43, 0xB7, 0xF2, 0xE7, 0x3A])
  {
    State14();
    Choice14();
    SubkeyStep(Unpack([0x13, 0x34, 0x57, 0x79, 0x9B, 0xBC, 0xDF, 0xF1]), 13, [0xFE, 0x19, 0x95, 0x5E, 0xAA, 0xCC, 0xF1], [0x5F, 0x43, 0xB7, 0xF2, 0xE7, 0x3A]);
  }

  /** The state after round 15: the state before rotated by 2. */
  lemma State15()
    ensures State(InitialState(Unpack([0x13, 0x34, 0x57, 0x79, 0x9B, 0xBC, 0xDF, 0xF1])), 15) == Unpack([0xF8, 0x66, 0x55, 0x7A, 0xAB, 0x33, 0xC7])
  {
    State14();
    StateStep(InitialState(Unpack([0x13, 0x34, 0x57, 0x79, 0x9B, 0xBC, 0xDF, 0xF1])), 14, [0xFE, 0x19, 0x95, 0x5E, 0xAA, 0xCC, 0xF1], [0xF8, 0x66, 0x55, 0x7A, 0xAB, 0x33, 0xC7]);
  }

  /** PC2 of the state after round 15. */
  lemma Choice15()
    ensures Selects(PC2, 56) && Permute(PC2, Unpack([0xF8, 0x66, 0x55, 0x7A, 0xAB, 0x33, 0xC7])) == Unpack([0xBF, 0x91, 0x8D, 0x3D, 0x3F, 0x0A])
  {
    var after: seq<Byte> := [0xF8, 0x66, 0x55, 0x7A, 0xAB, 0x33, 0xC7];
    var sub: seq<Byte> := [0xBF, 0x91, 0x8D, 0x3D, 0x3F, 0x0A];
    PC2Shape();
    forall i | 0 <= i < 48
      ensures Unpack(after)[PC2[i]] == Unpack(sub)[i]
    {
      IndexCases(i, 48);
    }
    PermuteBytes(PC2, after, sub);
  }

  /** The subkey of round 15: BF918D3D3F0A. */
  lemma Subkey15()
    ensures Subkey(Unpack([0x13, 0x34, 0x57, 0x79, 0x9B, 0xBC, 0xDF, 0xF1]), 14) == Unpack([0xBF, 0x91, 0x8D, 0x3D, 0x3F, 0x0A])
  {
    State15();
    Choice15();
    SubkeyStep(Unpack([0x13, 0x34, 0x57, 0x79, 0x9B, 0xBC, 0xDF, 0xF1]), 14, [0xF8, 0x66, 0x55, 0x7A, 0xAB, 0x33, 0xC7], [0xBF, 0x91, 0x8D, 0x3D, 0x3F, 0x0A]);
  }

  /** The state after round 16: the state before rotated by 1. */
  lemma State16()
    ensures State(InitialState(Unpack([0x13, 0x34, 0x57, 0x79, 0x9B, 0xBC, 0xDF, 0xF1])), 16) == Unpack([0xF0, 0xCC, 0xAA, 0xF5, 0x56, 0x67, 0x8F])
  {
    State15();
    StateStep(InitialState(Unpack([0x13, 0x34, 0x57, 0x79, 0x9B, 0xBC, 0xDF, 0xF1])), 15, [0xF8, 0x66, 0x55, 0x7A, 0xAB, 0x33, 0xC7], [0xF0, 0xCC, 0xAA, 0xF5, 0x56, 0x67, 0x8F]);
  }

  /** PC2 of the state after round 16. */
  lemma Choice16()
    ensures Selects(PC2, 56) && Permute(PC2, Unpack([0xF0, 0xCC, 0xAA, 0xF5, 0x56, 0x67, 0x8F])) == Unpack([0xCB, 0x3D, 0x8B, 0x0E, 0x17, 0xF5])
  {
    var after: seq<Byte> := [0xF0, 0xCC, 0xAA, 0xF5, 0x56, 0x67, 0x8F];
    var sub: seq<Byte> := [0xCB, 0x3D, 0x8B, 0x0E, 0x17, 0xF5];
    PC2Shape();
    forall i | 0 <= i < 48
      ensures Unpack(after)[PC2[i]] == Unpack(sub)[i]
    {
      IndexCases(i, 48);
    }
    PermuteBytes(PC2, after, sub);
  }

  /** The subkey of round 16: CB3D8B0E17F5. */
  lemma Subkey16()
    ensures Subkey(Unpack([0x13, 0x34, 0x57, 0x79, 0x9B, 0xBC, 0xDF, 0xF1]), 15) == Unpack([0xCB, 0x3D, 0x8B, 0x0E, 0x17, 0xF5])
  {
    State16();
    Choice16();
    SubkeyStep(Unpack([0x13, 0x34, 0x57, 0x79, 0x9B, 0xBC, 0xDF, 0xF1]), 15, [0xF0, 0xCC, 0xAA, 0xF5, 0x56, 0x67, 0x8F], [0xCB, 0x3D, 0x8B, 0x0E, 0x17, 0xF5]);
  }
}
