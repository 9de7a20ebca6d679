/** The sixteen rounds of enciphering the block 0123456789ABCDEF with the
    subkeys of the key 133457799BBCDFF1 (the engine's test table `keys` in
    `DES/test/des_test.c`), stage by stage: for each round the expansion of R,
    the eight S-box groups, the S-box output, f, and the new halves, every stage
    proved on bytes. The first round's f is the engine's test of
    `DES_F_function`. */
module RoundVectors {
  import opened Bits
  import opened Tables
  import opened Feistel
  import opened BlockCipher
  import opened Evaluation

  /** Round 1, E: R = F0AAF0AA expands to 7A15557A1555. */
  lemma Round1Expand()
    ensures Expand(Unpack([0xF0, 0xAA, 0xF0, 0xAA])) == Unpack([0x7A, 0x15, 0x55, 0x7A, 0x15, 0x55])
  {
    var r: seq<Byte> := [0xF0, 0xAA, 0xF0, 0xAA];
    var e: seq<Byte> := [0x7A, 0x15, 0x55, 0x7A, 0x15, 0x55];
    EShape();
    forall i | 0 <= i < 48
      ensures Unpack(r)[E[i]] == Unpack(e)[i]
    {
      IndexCases(i, 48);
    }
    PermuteBytes(E, r, e);
  }

  lemma Round1SBox0()
    ensures SBox(0, Group(Unpack([0x61, 0x17, 0xBA, 0x86, 0x65, 0x27]), 0)) == OutputGroup(Unpack([0x5C, 0x82, 0xB5, 0x97]), 0)
  {
    var x: seq<Byte> := [0x61, 0x17, 0xBA, 0x86, 0x65, 0x27];
    var s: seq<Byte> := [0x5C, 0x82, 0xB5, 0x97];
    GroupRowColumn(Unpack(x), 0);
    assert SBoxRow(Group(Unpack(x), 0)) == 0 && SBoxColumn(Group(Unpack(x), 0)) == 12;
    OutputGroupBits(s, 0);
  }

  lemma Round1SBox1()
    ensures SBox(1, Group(Unpack([0x61, 0x17, 0xBA, 0x86, 0x65, 0x27]), 1)) == OutputGroup(Unpack([0x5C, 0x82, 0xB5, 0x97]), 1)
  {
    var x: seq<Byte> := [0x61, 0x17, 0xBA, 0x86, 0x65, 0x27];
    var s: seq<Byte> := [0x5C, 0x82, 0xB5, 0x97];
    GroupRowColumn(Unpack(x), 1);
    assert SBoxRow(Group(Unpack(x), 1)) == 1 && SBoxColumn(Group(Unpack(x), 1)) == 8;
    OutputGroupBits(s, 1);
  }

  lemma Round1SBox2()
    ensures SBox(2, Group(Unpack([0x61, 0x17, 0xBA, 0x86, 0x65, 0x27]), 2)) == OutputGroup(Unpack([0x5C, 0x82, 0xB5, 0x97]), 2)
  {
    var x: seq<Byte> := [0x61, 0x17, 0xBA, 0x86, 0x65, 0x27];
    var s: seq<Byte> := [0x5C, 0x82, 0xB5, 0x97];
    GroupRowColumn(Unpack(x), 2);
    assert SBoxRow(Group(Unpack(x), 2)) == 0 && SBoxColumn(Group(Unpack(x), 2)) == 15;
    OutputGroupBits(s, 2);
  }

  lemma Round1SBox3()
    ensures SBox(3, Group(Unpack([0x61, 0x17, 0xBA, 0x86, 0x65, 0x27]), 3)) == OutputGroup(Unpack([0x5C, 0x82, 0xB5, 0x97]), 3)
  {
    var x: seq<Byte> := [0x61, 0x17, 0xBA, 0x86, 0x65, 0x27];
    var s: seq<Byte> := [0x5C, 0x82, 0xB5, 0x97];
    GroupRowColumn(Unpack(x), 3);
    assert SBoxRow(Group(Unpack(x), 3)) == 2 && SBoxColumn(Group(Unpack(x), 3)) == 13;
    OutputGroupBits(s, 3);
  }

  lemma Round1SBox4()
    ensures SBox(4, Group(Unpack([0x61, 0x17, 0xBA, 0x86, 0x65, 0x27]), 4)) == OutputGroup(Unpack([0x5C, 0x82, 0xB5, 0x97]), 4)
  {
    var x: seq<Byte> := [0x61, 0x17, 0xBA, 0x86, 0x65, 0x27];
    var s: seq<Byte> := [0x5C, 0x82, 0xB5, 0x97];
    GroupRowColumn(Unpack(x), 4);
    assert SBoxRow(Group(Unpack(x), 4)) == 3 && SBoxColumn(Group(Unpack(x), 4)) == 0;
    OutputGroupBits(s, 4);
  }

  lemma Round1SBox5()
    ensures SBox(5, Group(Unpack([0x61, 0x17, 0xBA, 0x86, 0x65, 0x27]), 5)) == OutputGroup(Unpack([0x5C, 0x82, 0xB5, 0x97]), 5)
  {
    var x: seq<Byte> := [0x61, 0x17, 0xBA, 0x86, 0x65, 0x27];
    var s: seq<Byte> := [0x5C, 0x82, 0xB5, 0x97];
    GroupRowColumn(Unpack(x), 5);
    assert SBoxRow(Group(Unpack(x), 5)) == 2 && SBoxColumn(Group(Unpack(x), 5)) == 3;
    OutputGroupBits(s, 5);
  }

  lemma Round1SBox6()
    ensures SBox(6, Group(Unpack([0x61, 0x17, 0xBA, 0x86, 0x65, 0x27]), 6)) == OutputGroup(Unpack([0x5C, 0x82, 0xB5, 0x97]), 6)
  {
    var x: seq<Byte> := [0x61, 0x17, 0xBA, 0x86, 0x65, 0x27];
    var s: seq<Byte> := [0x5C, 0x82, 0xB5, 0x97];
    GroupRowColumn(Unpack(x), 6);
    assert SBoxRow(Group(Unpack(x), 6)) == 0 && SBoxColumn(Group(Unpack(x), 6)) == 10;
    OutputGroupBits(s, 6);
  }

  lemma Round1SBox7()
    ensures SBox(7, Group(Unpack([0x61, 0x17, 0xBA, 0x86, 0x65, 0x27]), 7)) == OutputGroup(Unpack([0x5C, 0x82, 0xB5, 0x97]), 7)
  {
    var x: seq<Byte> := [0x61, 0x17, 0xBA, 0x86, 0x65, 0x27];
    var s: seq<Byte> := [0x5C, 0x82, 0xB5, 0x97];
    GroupRowColumn(Unpack(x), 7);
    assert SBoxRow(Group(Unpack(x), 7)) == 3 && SBoxColumn(Group(Unpack(x), 7)) == 3;
    OutputGroupBits(s, 7);
  }

  /** Round 1, S-boxes: 6117BA866527 becomes 5C82B597. */
  lemma Round1Substitute()
    ensures Substitute(Unpack([0x61, 0x17, 0xBA, 0x86, 0x65, 0x27])) == Unpack([0x5C, 0x82, 0xB5, 0x97])
  {
    var x: seq<Byte> := [0x61, 0x17, 0xBA, 0x86, 0x65, 0x27];
    var s: seq<Byte> := [0x5C, 0x82, 0xB5, 0x97];
    forall k | 0 <= k < 8
      ensures SBox(k, Group(Unpack(x), k)) == OutputGroup(Unpack(s), k)
    {
      IndexCases(k, 8);
      if k == 0 { Round1SBox0(); } else if k == 1 { Round1SBox1(); }
      else if k == 2 { Round1SBox2(); } else if k == 3 { Round1SBox3(); }
      else if k == 4 { Round1SBox4(); } else if k == 5 { Round1SBox5(); }
      else if k == 6 { Round1SBox6(); } else { Round1SBox7(); }
    }
    SubstituteOfGroups(Unpack(x), Unpack(s));
  }

  /** Round 1, P: 5C82B597 becomes f = 234AA9BB. */
  lemma Round1Output()
    ensures PermuteOutput(Unpack([0x5C, 0x82, 0xB5, 0x97])) == Unpack([0x23, 0x4A, 0xA9, 0xBB])
  {
    var s: seq<Byte> := [0x5C, 0x82, 0xB5, 0x97];
    var out: seq<Byte> := [0x23, 0x4A, 0xA9, 0xBB];
    PShape();
    forall i | 0 <= i < 32
      ensures Unpack(s)[P[i]] == Unpack(out)[i]
    {
      IndexCases(i, 32);
    }
    PermuteBytes(P, s, out);
  }

  /** Round 1: (L, R) = (CC00CCFF, F0AAF0AA) becomes (F0AAF0AA, EF4A6544). */
  lemma Round1()
    ensures F(Unpack([0xF0, 0xAA, 0xF0, 0xAA]), Unpack([0x1B, 0x02, 0xEF, 0xFC, 0x70, 0x72])) == Unpack([0x23, 0x4A, 0xA9, 0xBB])
    ensures Round(CipherF, Halves(Unpack([0xCC, 0x00, 0xCC, 0xFF]), Unpack([0xF0, 0xAA, 0xF0, 0xAA])), Unpack([0x1B, 0x02, 0xEF, 0xFC, 0x70, 0x72])) == Halves(Unpack([0xF0, 0xAA, 0xF0, 0xAA]), Unpack([0xEF, 0x4A, 0x65, 0x44]))
  {
    var left: seq<Byte> := [0xCC, 0x00, 0xCC, 0xFF];
    var right: seq<Byte> := [0xF0, 0xAA, 0xF0, 0xAA];
    var key: seq<Byte> := [0x1B, 0x02, 0xEF, 0xFC, 0x70, 0x72];
    var e: seq<Byte> := [0x7A, 0x15, 0x55, 0x7A, 0x15, 0x55];
    var x: seq<Byte> := [0x61, 0x17, 0xBA, 0x86, 0x65, 0x27];
    var s: seq<Byte> := [0x5C, 0x82, 0xB5, 0x97];
    var out: seq<Byte> := [0x23, 0x4A, 0xA9, 0xBB];
    var next: seq<Byte> := [0xEF, 0x4A, 0x65, 0x44];
    Round1Expand();
    Round1Substitute();
    Round1Output();
    forall j | 0 <= j < 6
      ensures x[j] == e[j] ^ key[j]
    {
      IndexCases(j, 6);
    }
    FOfStages(right, key, e, x, s, out);
    forall j | 0 <= j < 4
      ensures next[j] == left[j] ^ out[j]
    {
      IndexCases(j, 4);
    }
    RoundOfF(left, right, key, out, next);
  }

  /** Round 2, E: R = EF4A6544 expands to 75EA5430AA09. */
  lemma Round2Expand()
    ensures Expand(Unpack([0xEF, 0x4A, 0x65, 0x44])) == Unpack([0x75, 0xEA, 0x54, 0x30, 0xAA, 0x09])
  {
    var r: seq<Byte> := [0xEF, 0x4A, 0x65, 0x44];
    var e: seq<Byte> := [0x75, 0xEA, 0x54, 0x30, 0xAA, 0x09];
    EShape();
    forall i | 0 <= i < 48
      ensures Unpack(r)[E[i]] == Unpack(e)[i]
    {
      IndexCases(i, 48);
    }
    PermuteBytes(E, r, e);
  }

  lemma Round2SBox0()
    ensures SBox(0, Group(Unpack([0x0C, 0x44, 0x8D, 0xEB, 0x63, 0xEC]), 0)) == OutputGroup(Unpack([0xF8, 0xD0, 0x3A, 0xAE]), 0)
  {
    var x: seq<Byte> := [0x0C, 0x44, 0x8D, 0xEB, 0x63, 0xEC];
    var s: seq<Byte> := [0xF8, 0xD0, 0x3A, 0xAE];
    GroupRowColumn(Unpack(x), 0);
    assert SBoxRow(Group(Unpack(x), 0)) == 1 && SBoxColumn(Group(Unpack(x), 0)) == 1;
    OutputGroupBits(s, 0);
  }

  lemma Round2SBox1()
    ensures SBox(1, Group(Unpack([0x0C, 0x44, 0x8D, 0xEB, 0x63, 0xEC]), 1)) == OutputGroup(Unpack([0xF8, 0xD0, 0x3A, 0xAE]), 1)
  {
    var x: seq<Byte> := [0x0C, 0x44, 0x8D, 0xEB, 0x63, 0xEC];
    var s: seq<Byte> := [0xF8, 0xD0, 0x3A, 0xAE];
    GroupRowColumn(Unpack(x), 1);
    assert SBoxRow(Group(Unpack(x), 1)) == 0 && SBoxColumn(Group(Unpack(x), 1)) == 2;
    OutputGroupBits(s, 1);
  }

  lemma Round2SBox2()
    ensures SBox(2, Group(Unpack([0x0C, 0x44, 0x8D, 0xEB, 0x63, 0xEC]), 2)) == OutputGroup(Unpack([0xF8, 0xD0, 0x3A, 0xAE]), 2)
  {
    var x: seq<Byte> := [0x0C, 0x44, 0x8D, 0xEB, 0x63, 0xEC];
    var s: seq<Byte> := [0xF8, 0xD0, 0x3A, 0xAE];
    GroupRowColumn(Unpack(x), 2);
    assert SBoxRow(Group(Unpack(x), 2)) == 0 && SBoxColumn(Group(Unpack(x), 2)) == 9;
    OutputGroupBits(s, 2);
  }

  lemma Round2SBox3()
    ensures SBox(3, Group(Unpack([0x0C, 0x44, 0x8D, 0xEB, 0x63, 0xEC]), 3)) == OutputGroup(Unpack([0xF8, 0xD0, 0x3A, 0xAE]), 3)
  {
    var x: seq<Byte> := [0x0C, 0x44, 0x8D, 0xEB, 0x63, 0xEC];
    var s: seq<Byte> := [0xF8, 0xD0, 0x3A, 0xAE];
    GroupRowColumn(Unpack(x), 3);
    assert SBoxRow(Group(Unpack(x), 3)) == 1 && SBoxColumn(Group(Unpack(x), 3)) == 6;
    OutputGroupBits(s, 3);
  }

  lemma Round2SBox4()
    ensures SBox(4, Group(Unpack([0x0C, 0x44, 0x8D, 0xEB, 0x63, 0xEC]), 4)) == OutputGroup(Unpack([0xF8, 0xD0, 0x3A, 0xAE]), 4)
  {
    var x: seq<Byte> := [0x0C, 0x44, 0x8D, 0xEB, 0x63, 0xEC];
    var s: seq<Byte> := [0xF8, 0xD0, 0x3A, 0xAE];
    GroupRowColumn(Unpack(x), 4);
    assert SBoxRow(Group(Unpack(x), 4)) == 2 && SBoxColumn(Group(Unpack(x), 4)) == 13;
    OutputGroupBits(s, 4);
  }

  lemma Round2SBox5()
    ensures SBox(5, Group(Unpack([0x0C, 0x44, 0x8D, 0xEB, 0x63, 0xEC]), 5)) == OutputGroup(Unpack([0xF8, 0xD0, 0x3A, 0xAE]), 5)
  {
    var x: seq<Byte> := [0x0C, 0x44, 0x8D, 0xEB, 0x63, 0xEC];
    var s: seq<Byte> := [0xF8, 0xD0, 0x3A, 0xAE];
    GroupRowColumn(Unpack(x), 5);
    assert SBoxRow(Group(Unpack(x), 5)) == 2 && SBoxColumn(Group(Unpack(x), 5)) == 11;
    OutputGroupBits(s, 5);
  }

  lemma Round2SBox6()
    ensures SBox(6, Group(Unpack([0x0C, 0x44, 0x8D, 0xEB, 0x63, 0xEC]), 6)) == OutputGroup(Unpack([0xF8, 0xD0, 0x3A, 0xAE]), 6)
  {
    var x: seq<Byte> := [0x0C, 0x44, 0x8D, 0xEB, 0x63, 0xEC];
    var s: seq<Byte> := [0xF8, 0xD0, 0x3A, 0xAE];
    GroupRowColumn(Unpack(x), 6);
    assert SBoxRow(Group(Unpack(x), 6)) == 1 && SBoxColumn(Group(Unpack(x), 6)) == 7;
    OutputGroupBits(s, 6);
  }

  lemma Round2SBox7()
    ensures SBox(7, Group(Unpack([0x0C, 0x44, 0x8D, 0xEB, 0x63, 0xEC]), 7)) == OutputGroup(Unpack([0xF8, 0xD0, 0x3A, 0xAE]), 7)
  {
    var x: seq<Byte> := [0x0C, 0x44, 0x8D, 0xEB, 0x63, 0xEC];
    var s: seq<Byte> := [0xF8, 0xD0, 0x3A, 0xAE];
    GroupRowColumn(Unpack(x), 7);
    assert SBoxRow(Group(Unpack(x), 7)) == 2 && SBoxColumn(Group(Unpack(x), 7)) == 6;
    OutputGroupBits(s, 7);
  }

  /** Round 2, S-boxes: 0C448DEB63EC becomes F8D03AAE. */
  lemma Round2Substitute()
    ensures Substitute(Unpack([0x0C, 0x44, 0x8D, 0xEB, 0x63, 0xEC])) == Unpack([0xF8, 0xD0, 0x3A, 0xAE])
  {
    var x: seq<Byte> := [0x0C, 0x44, 0x8D, 0xEB, 0x63, 0xEC];
    var s: seq<Byte> := [0xF8, 0xD0, 0x3A, 0xAE];
    forall k | 0 <= k < 8
      ensures SBox(k, Group(Unpack(x), k)) == OutputGroup(Unpack(s), k)
    {
      IndexCases(k, 8);
      if k == 0 { Round2SBox0(); } else if k == 1 { Round2SBox1(); }
      else if k == 2 { Round2SBox2(); } else if k == 3 { Round2SBox3(); }
      else if k == 4 { Round2SBox4(); } else if k == 5 { Round2SBox5(); }
      else if k == 6 { Round2SBox6(); } else { Round2SBox7(); }
    }
    SubstituteOfGroups(Unpack(x), Unpack(s));
  }

  /** Round 2, P: F8D03AAE becomes f = 3CAB87A3. */
  lemma Round2Output()
    ensures PermuteOutput(Unpack([0xF8, 0xD0, 0x3A, 0xAE])) == Unpack([0x3C, 0xAB, 0x87, 0xA3])
  {
    var s: seq<Byte> := [0xF8, 0xD0, 0x3A, 0xAE];
    var out: seq<Byte> := [0x3C, 0xAB, 0x87, 0xA3];
    PShape();
    forall i | 0 <= i < 32
      ensures Unpack(s)[P[i]] == Unpack(out)[i]
    {
      IndexCases(i, 32);
    }
    PermuteBytes(P, s, out);
  }

  /** Round 2: (L, R) = (F0AAF0AA, EF4A6544) becomes (EF4A6544, CC017709). */
  lemma Round2()
    ensures F(Unpack([0xEF, 0x4A, 0x65, 0x44]), Unpack([0x79, 0xAE, 0xD9, 0xDB, 0xC9, 0xE5])) == Unpack([0x3C, 0xAB, 0x87, 0xA3])
    ensures Round(CipherF, Halves(Unpack([0xF0, 0xAA, 0xF0, 0xAA]), Unpack([0xEF, 0x4A, 0x65, 0x44])), Unpack([0x79, 0xAE, 0xD9, 0xDB, 0xC9, 0xE5])) == Halves(Unpack([0xEF, 0x4A, 0x65, 0x44]), Unpack([0xCC, 0x01, 0x77, 0x09]))
  {
    var left: seq<Byte> := [0xF0, 0xAA, 0xF0, 0xAA];
    var right: seq<Byte> := [0xEF, 0x4A, 0x65, 0x44];
    var key: seq<Byte> := [0x79, 0xAE, 0xD9, 0xDB, 0xC9, 0xE5];
    var e: seq<Byte> := [0x75, 0xEA, 0x54, 0x30, 0xAA, 0x09];
    var x: seq<Byte> := [0x0C, 0x44, 0x8D, 0xEB, 0x63, 0xEC];
    var s: seq<Byte> := [0xF8, 0xD0, 0x3A, 0xAE];
    var out: seq<Byte> := [0x3C, 0xAB, 0x87, 0xA3];
    var next: seq<Byte> := [0xCC, 0x01, 0x77, 0x09];
    Round2Expand();
    Round2Substitute();
    Round2Output();
    forall j | 0 <= j < 6
      ensures x[j] == e[j] ^ key[j]
    {
      IndexCases(j, 6);
    }
    FOfStages(right, key, e, x, s, out);
    forall j | 0 <= j < 4
      ensures next[j] == left[j] ^ out[j]
    {
      IndexCases(j, 4);
    }
    RoundOfF(left, right, key, out, next);
  }

  /** Round 3, E: R = CC017709 expands to E58002BAE853. */
  lemma Round3Expand()
    ensures Expand(Unpack([0xCC, 0x01, 0x77, 0x09])) == Unpack([0xE5, 0x80, 0x02, 0xBA, 0xE8, 0x53])
  {
    var r: seq<Byte> := [0xCC, 0x01, 0x77, 0x09];
    var e: seq<Byte> := [0xE5, 0x80, 0x02, 0xBA, 0xE8, 0x53];
    EShape();
    forall i | 0 <= i < 48
      ensures Unpack(r)[E[i]] == Unpack(e)[i]
    {
      IndexCases(i, 48);
    }
    PermuteBytes(E, r, e);
  }

  lemma Round3SBox0()
    ensures SBox(0, Group(Unpack([0xB0, 0x7C, 0x88, 0xF8, 0x27, 0xCA]), 0)) == OutputGroup(Unpack([0x27, 0x10, 0xE1, 0x6F]), 0)
  {
    var x: seq<Byte> := [0xB0, 0x7C, 0x88, 0xF8, 0x27, 0xCA];
    var s: seq<Byte> := [0x27, 0x10, 0xE1, 0x6F];
    GroupRowColumn(Unpack(x), 0);
    assert SBoxRow(Group(Unpack(x), 0)) == 2 && SBoxColumn(Group(Unpack(x), 0)) == 6;
    OutputGroupBits(s, 0);
  }

  lemma Round3SBox1()
    ensures SBox(1, Group(Unpack([0xB0, 0x7C, 0x88, 0xF8, 0x27, 0xCA]), 1)) == OutputGroup(Unpack([0x27, 0x10, 0xE1, 0x6F]), 1)
  {
    var x: seq<Byte> := [0xB0, 0x7C, 0x88, 0xF8, 0x27, 0xCA];
    var s: seq<Byte> := [0x27, 0x10, 0xE1, 0x6F];
    GroupRowColumn(Unpack(x), 1);
    assert SBoxRow(Group(Unpack(x), 1)) == 1 && SBoxColumn(Group(Unpack(x), 1)) == 3;
    OutputGroupBits(s, 1);
  }

  lemma Round3SBox2()
    ensures SBox(2, Group(Unpack([0xB0, 0x7C, 0x88, 0xF8, 0x27, 0xCA]), 2)) == OutputGroup(Unpack([0x27, 0x10, 0xE1, 0x6F]), 2)
  {
    var x: seq<Byte> := [0xB0, 0x7C, 0x88, 0xF8, 0x27, 0xCA];
    var s: seq<Byte> := [0x27, 0x10, 0xE1, 0x6F];
    GroupRowColumn(Unpack(x), 2);
    assert SBoxRow(Group(Unpack(x), 2)) == 2 && SBoxColumn(Group(Unpack(x), 2)) == 9;
    OutputGroupBits(s, 2);
  }

  lemma Round3SBox3()
    ensures SBox(3, Group(Unpack([0xB0, 0x7C, 0x88, 0xF8, 0x27, 0xCA]), 3)) == OutputGroup(Unpack([0x27, 0x10, 0xE1, 0x6F]), 3)
  {
    var x: seq<Byte> := [0xB0, 0x7C, 0x88, 0xF8, 0x27, 0xCA];
    var s: seq<Byte> := [0x27, 0x10, 0xE1, 0x6F];
    GroupRowColumn(Unpack(x), 3);
    assert SBoxRow(Group(Unpack(x), 3)) == 0 && SBoxColumn(Group(Unpack(x), 3)) == 4;
    OutputGroupBits(s, 3);
  }

  lemma Round3SBox4()
    ensures SBox(4, Group(Unpack([0xB0, 0x7C, 0x88, 0xF8, 0x27, 0xCA]), 4)) == OutputGroup(Unpack([0x27, 0x10, 0xE1, 0x6F]), 4)
  {
    var x: seq<Byte> := [0xB0, 0x7C, 0x88, 0xF8, 0x27, 0xCA];
    var s: seq<Byte> := [0x27, 0x10, 0xE1, 0x6F];
    GroupRowColumn(Unpack(x), 4);
    assert SBoxRow(Group(Unpack(x), 4)) == 2 && SBoxColumn(Group(Unpack(x), 4)) == 15;
    OutputGroupBits(s, 4);
  }

  lemma Round3SBox5()
    ensures SBox(5, Group(Unpack([0xB0, 0x7C, 0x88, 0xF8, 0x27, 0xCA]), 5)) == OutputGroup(Unpack([0x27, 0x10, 0xE1, 0x6F]), 5)
  {
    var x: seq<Byte> := [0xB0, 0x7C, 0x88, 0xF8, 0x27, 0xCA];
    var s: seq<Byte> := [0x27, 0x10, 0xE1, 0x6F];
    GroupRowColumn(Unpack(x), 5);
    assert SBoxRow(Group(Unpack(x), 5)) == 0 && SBoxColumn(Group(Unpack(x), 5)) == 1;
    OutputGroupBits(s, 5);
  }

  lemma Round3SBox6()
    ensures SBox(6, Group(Unpack([0xB0, 0x7C, 0x88, 0xF8, 0x27, 0xCA]), 6)) == OutputGroup(Unpack([0x27, 0x10, 0xE1, 0x6F]), 6)
  {
    var x: seq<Byte> := [0xB0, 0x7C, 0x88, 0xF8, 0x27, 0xCA];
    var s: seq<Byte> := [0x27, 0x10, 0xE1, 0x6F];
    GroupRowColumn(Unpack(x), 6);
    assert SBoxRow(Group(Unpack(x), 6)) == 1 && SBoxColumn(Group(Unpack(x), 6)) == 15;
    OutputGroupBits(s, 6);
  }

  lemma Round3SBox7()
    ensures SBox(7, Group(Unpack([0xB0, 0x7C, 0x88, 0xF8, 0x27, 0xCA]), 7)) == OutputGroup(Unpack([0x27, 0x10, 0xE1, 0x6F]), 7)
  {
    var x: seq<Byte> := [0xB0, 0x7C, 0x88, 0xF8, 0x27, 0xCA];
    var s: seq<Byte> := [0x27, 0x10, 0xE1, 0x6F];
    GroupRowColumn(Unpack(x), 7);
    assert SBoxRow(Group(Unpack(x), 7)) == 0 && SBoxColumn(Group(Unpack(x), 7)) == 5;
    OutputGroupBits(s, 7);
  }

  /** Round 3, S-boxes: B07C88F827CA becomes 2710E16F. */
  lemma Round3Substitute()
    ensures Substitute(Unpack([0xB0, 0x7C, 0x88, 0xF8, 0x27, 0xCA])) == Unpack([0x27, 0x10, 0xE1, 0x6F])
  {
    var x: seq<Byte> := [0xB0, 0x7C, 0x88, 0xF8, 0x27, 0xCA];
    var s: seq<Byte> := [0x27, 0x10, 0xE1, 0x6F];
    forall k | 0 <= k < 8
      ensures SBox(k, Group(Unpack(x), k)) == OutputGroup(Unpack(s), k)
    {
      IndexCases(k, 8);
      if k == 0 { Round3SBox0(); } else if k == 1 { Round3SBox1(); }
      else if k == 2 { Round3SBox2(); } else if k == 3 { Round3SBox3(); }
      else if k == 4 { Round3SBox4(); } else if k == 5 { Round3SBox5(); }
      else if k == 6 { Round3SBox6(); } else { Round3SBox7(); }
    }
    SubstituteOfGroups(Unpack(x), Unpack(s));
  }

  /** Round 3, P: 2710E16F becomes f = 4D166EB0. */
  lemma Round3Output()
    ensures PermuteOutput(Unpack([0x27, 0x10, 0xE1, 0x6F])) == Unpack([0x4D, 0x16, 0x6E, 0xB0])
  {
    var s: seq<Byte> := [0x27, 0x10, 0xE1, 0x6F];
    var out: seq<Byte> := [0x4D, 0x16, 0x6E, 0xB0];
    PShape();
    forall i | 0 <= i < 32
      ensures Unpack(s)[P[i]] == Unpack(out)[i]
    {
      IndexCases(i, 32);
    }
    PermuteBytes(P, s, out);
  }

  /** Round 3: (L, R) = (EF4A6544, CC017709) becomes (CC017709, A25C0BF4). */
  lemma Round3()
    ensures F(Unpack([0xCC, 0x01, 0x77, 0x09]), Unpack([0x55, 0xFC, 0x8A, 0x42, 0xCF, 0x99])) == Unpack([0x4D, 0x16, 0x6E, 0xB0])
    ensures Round(CipherF, Halves(Unpack([0xEF, 0x4A, 0x65, 0x44]), Unpack([0xCC, 0x01, 0x77, 0x09])), Unpack([0x55, 0xFC, 0x8A, 0x42, 0xCF, 0x99])) == Halves(Unpack([0xCC, 0x01, 0x77, 0x09]), Unpack([0xA2, 0x5C, 0x0B, 0xF4]))
  {
    var left: seq<Byte> := [0xEF, 0x4A, 0x65, 0x44];
    var right: seq<Byte> := [0xCC, 0x01, 0x77, 0x09];
    var key: seq<Byte> := [0x55, 0xFC, 0x8A, 0x42, 0xCF, 0x99];
    var e: seq<Byte> := [0xE5, 0x80, 0x02, 0xBA, 0xE8, 0x53];
    var x: seq<Byte> := [0xB0, 0x7C, 0x88, 0xF8, 0x27, 0xCA];
    var s: seq<Byte> := [0x27, 0x10, 0xE1, 0x6F];
    var out: seq<Byte> := [0x4D, 0x16, 0x6E, 0xB0];
    var next: seq<Byte> := [0xA2, 0x5C, 0x0B, 0xF4];
    Round3Expand();
    Round3Substitute();
    Round3Output();
    forall j | 0 <= j < 6
      ensures x[j] == e[j] ^ key[j]
    {
      IndexCases(j, 6);
    }
    FOfStages(right, key, e, x, s, out);
    forall j | 0 <= j < 4
      ensures next[j] == left[j] ^ out[j]
    {
      IndexCases(j, 4);
    }
    RoundOfF(left, right, key, out, next);
  }

  /** Round 4, E: R = A25C0BF4 expands to 5042F8057FA9. */
  lemma Round4Expand()
    ensures Expand(Unpack([0xA2, 0x5C, 0x0B, 0xF4])) == Unpack([0x50, 0x42, 0xF8, 0x05, 0x7F, 0xA9])
  {
    var r: seq<Byte> := [0xA2, 0x5C, 0x0B, 0xF4];
    var e: seq<Byte> := [0x50, 0x42, 0xF8, 0x05, 0x7F, 0xA9];
    EShape();
    forall i | 0 <= i < 48
      ensures Unpack(r)[E[i]] == Unpack(e)[i]
    {
      IndexCases(i, 48);
    }
    PermuteBytes(E, r, e);
  }

  lemma Round4SBox0()
    ensures SBox(0, Group(Unpack([0x22, 0xEF, 0x2E, 0xDE, 0x4A, 0xB4]), 0)) == OutputGroup(Unpack([0x21, 0xED, 0x9F, 0x3A]), 0)
  {
    var x: seq<Byte> := [0x22, 0xEF, 0x2E, 0xDE, 0x4A, 0xB4];
    var s: seq<Byte> := [0x21, 0xED, 0x9F, 0x3A];
    GroupRowColumn(Unpack(x), 0);
    assert SBoxRow(Group(Unpack(x), 0)) == 0 && SBoxColumn(Group(Unpack(x), 0)) == 4;
    OutputGroupBits(s, 0);
  }

  lemma Round4SBox1()
    ensures SBox(1, Group(Unpack([0x22, 0xEF, 0x2E, 0xDE, 0x4A, 0xB4]), 1)) == OutputGroup(Unpack([0x21, 0xED, 0x9F, 0x3A]), 1)
  {
    var x: seq<Byte> := [0x22, 0xEF, 0x2E, 0xDE, 0x4A, 0xB4];
    var s: seq<Byte> := [0x21, 0xED, 0x9F, 0x3A];
    GroupRowColumn(Unpack(x), 1);
    assert SBoxRow(Group(Unpack(x), 1)) == 2 && SBoxColumn(Group(Unpack(x), 1)) == 7;
    OutputGroupBits(s, 1);
  }

  lemma Round4SBox2()
    ensures SBox(2, Group(Unpack([0x22, 0xEF, 0x2E, 0xDE, 0x4A, 0xB4]), 2)) == OutputGroup(Unpack([0x21, 0xED, 0x9F, 0x3A]), 2)
  {
    var x: seq<Byte> := [0x22, 0xEF, 0x2E, 0xDE, 0x4A, 0xB4];
    var s: seq<Byte> := [0x21, 0xED, 0x9F, 0x3A];
    GroupRowColumn(Unpack(x), 2);
    assert SBoxRow(Group(Unpack(x), 2)) == 2 && SBoxColumn(Group(Unpack(x), 2)) == 14;
    OutputGroupBits(s, 2);
  }

  lemma Round4SBox3()
    ensures SBox(3, Group(Unpack([0x22, 0xEF, 0x2E, 0xDE, 0x4A, 0xB4]), 3)) == OutputGroup(Unpack([0x21, 0xED, 0x9F, 0x3A]), 3)
  {
    var x: seq<Byte> := [0x22, 0xEF, 0x2E, 0xDE, 0x4A, 0xB4];
    var s: seq<Byte> := [0x21, 0xED, 0x9F, 0x3A];
    GroupRowColumn(Unpack(x), 3);
    assert SBoxRow(Group(Unpack(x), 3)) == 2 && SBoxColumn(Group(Unpack(x), 3)) == 7;
    OutputGroupBits(s, 3);
  }

  lemma Round4SBox4()
    ensures SBox(4, Group(Unpack([0x22, 0xEF, 0x2E, 0xDE, 0x4A, 0xB4]), 4)) == OutputGroup(Unpack([0x21, 0xED, 0x9F, 0x3A]), 4)
  {
    var x: seq<Byte> := [0x22, 0xEF, 0x2E, 0xDE, 0x4A, 0xB4];
    var s: seq<Byte> := [0x21, 0xED, 0x9F, 0x3A];
    GroupRowColumn(Unpack(x), 4);
    assert SBoxRow(Group(Unpack(x), 4)) == 3 && SBoxColumn(Group(Unpack(x), 4)) == 11;
    OutputGroupBits(s, 4);
  }

  lemma Round4SBox5()
    ensures SBox(5, Group(Unpack([0x22, 0xEF, 0x2E, 0xDE, 0x4A, 0xB4]), 5)) == OutputGroup(Unpack([0x21, 0xED, 0x9F, 0x3A]), 5)
  {
    var x: seq<Byte> := [0x22, 0xEF, 0x2E, 0xDE, 0x4A, 0xB4];
    var s: seq<Byte> := [0x21, 0xED, 0x9F, 0x3A];
    GroupRowColumn(Unpack(x), 5);
    assert SBoxRow(Group(Unpack(x), 5)) == 2 && SBoxColumn(Group(Unpack(x), 5)) == 2;
    OutputGroupBits(s, 5);
  }

  lemma Round4SBox6()
    ensures SBox(6, Group(Unpack([0x22, 0xEF, 0x2E, 0xDE, 0x4A, 0xB4]), 6)) == OutputGroup(Unpack([0x21, 0xED, 0x9F, 0x3A]), 6)
  {
    var x: seq<Byte> := [0x22, 0xEF, 0x2E, 0xDE, 0x4A, 0xB4];
    var s: seq<Byte> := [0x21, 0xED, 0x9F, 0x3A];
    GroupRowColumn(Unpack(x), 6);
    assert SBoxRow(Group(Unpack(x), 6)) == 2 && SBoxColumn(Group(Unpack(x), 6)) == 5;
    OutputGroupBits(s, 6);
  }

  lemma Round4SBox7()
    ensures SBox(7, Group(Unpack([0x22, 0xEF, 0x2E, 0xDE, 0x4A, 0xB4]), 7)) == OutputGroup(Unpack([0x21, 0xED, 0x9F, 0x3A]), 7)
  {
    var x: seq<Byte> := [0x22, 0xEF, 0x2E, 0xDE, 0x4A, 0xB4];
    var s: seq<Byte> := [0x21, 0xED, 0x9F, 0x3A];
    GroupRowColumn(Unpack(x), 7);
    assert SBoxRow(Group(Unpack(x), 7)) == 2 && SBoxColumn(Group(Unpack(x), 7)) == 10;
    OutputGroupBits(s, 7);
  }

  /** Round 4, S-boxes: 22EF2EDE4AB4 becomes 21ED9F3A. */
  lemma Round4Substitute()
    ensures Substitute(Unpack([0x22, 0xEF, 0x2E, 0xDE, 0x4A, 0xB4])) == Unpack([0x21, 0xED, 0x9F, 0x3A])
  {
    var x: seq<Byte> := [0x22, 0xEF, 0x2E, 0xDE, 0x4A, 0xB4];
    var s: seq<Byte> := [0x21, 0xED, 0x9F, 0x3A];
    forall k | 0 <= k < 8
      ensures SBox(k, Group(Unpack(x), k)) == OutputGroup(Unpack(s), k)
    {
      IndexCases(k, 8);
      if k == 0 { Round4SBox0(); } else if k == 1 { Round4SBox1(); }
      else if k == 2 { Round4SBox2(); } else if k == 3 { Round4SBox3(); }
      else if k == 4 { Round4SBox4(); } else if k == 5 { Round4SBox5(); }
      else if k == 6 { Round4SBox6(); } else { Round4SBox7(); }
    }
    SubstituteOfGroups(Unpack(x), Unpack(s));
  }

  /** Round 4, P: 21ED9F3A becomes f = BB23774C. */
  lemma Round4Output()
    ensures PermuteOutput(Unpack([0x21, 0xED, 0x9F, 0x3A])) == Unpack([0xBB, 0x23, 0x77, 0x4C])
  {
    var s: seq<Byte> := [0x21, 0xED, 0x9F, 0x3A];
    var out: seq<Byte> := [0xBB, 0x23, 0x77, 0x4C];
    PShape();
    forall i | 0 <= i < 32
      ensures Unpack(s)[P[i]] == Unpack(out)[i]
    {
      IndexCases(i, 32);
    }
    PermuteBytes(P, s, out);
  }

  /** Round 4: (L, R) = (CC017709, A25C0BF4) becomes (A25C0BF4, 77220045). */
  lemma Round4()
    ensures F(Unpack([0xA2, 0x5C, 0x0B, 0xF4]), Unpack([0x72, 0xAD, 0xD6, 0xDB, 0x35, 0x1D])) == Unpack([0xBB, 0x23, 0x77, 0x4C])
    ensures Round(CipherF, Halves(Unpack([0xCC, 0x01, 0x77, 0x09]), Unpack([0xA2, 0x5C, 0x0B, 0xF4])), Unpack([0x72, 0xAD, 0xD6, 0xDB, 0x35, 0x1D])) == Halves(Unpack([0xA2, 0x5C, 0x0B, 0xF4]), Unpack([0x77, 0x22, 0x00, 0x45]))
  {
    var left: seq<Byte> := [0xCC, 0x01, 0x77, 0x09];
    var right: seq<Byte> := [0xA2, 0x5C, 0x0B, 0xF4];
    var key: seq<Byte> := [0x72, 0xAD, 0xD6, 0xDB, 0x35, 0x1D];
    var e: seq<Byte> := [0x50, 0x42, 0xF8, 0x05, 0x7F, 0xA9];
    var x: seq<Byte> := [0x22, 0xEF, 0x2E, 0xDE, 0x4A, 0xB4];
    var s: seq<Byte> := [0x21, 0xED, 0x9F, 0x3A];
    var out: seq<Byte> := [0xBB, 0x23, 0x77, 0x4C];
    var next: seq<Byte> := [0x77, 0x22, 0x00, 0x45];
    Round4Expand();
    Round4Substitute();
    Round4Output();
    forall j | 0 <= j < 6
      ensures x[j] == e[j] ^ key[j]
    {
      IndexCases(j, 6);
    }
    FOfStages(right, key, e, x, s, out);
    forall j | 0 <= j < 4
      ensures next[j] == left[j] ^ out[j]
    {
      IndexCases(j, 4);
    }
    RoundOfF(left, right, key, out, next);
  }

  /** Round 5, E: R = 77220045 expands to BAE90400020A. */
  lemma Round5Expand()
    ensures Expand(Unpack([0x77, 0x22, 0x00, 0x45])) == Unpack([0xBA, 0xE9, 0x04, 0x00, 0x02, 0x0A])
  {
    var r: seq<Byte> := [0x77, 0x22, 0x00, 0x45];
    var e: seq<Byte> := [0xBA, 0xE9, 0x04, 0x00, 0x02, 0x0A];
    EShape();
    forall i | 0 <= i < 48
      ensures Unpack(r)[E[i]] == Unpack(e)[i]
    {
      IndexCases(i, 48);
    }
    PermuteBytes(E, r, e);
  }

  lemma Round5SBox0()
    ensures SBox(0, Group(Unpack([0xC6, 0x05, 0x03, 0xEB, 0x51, 0xA2]), 0)) == OutputGroup(Unpack([0x50, 0xC8, 0x31, 0xEB]), 0)
  {
    var x: seq<Byte> := [0xC6, 0x05, 0x03, 0xEB, 0x51, 0xA2];
    var s: seq<Byte> := [0x50, 0xC8, 0x31, 0xEB];
    GroupRowColumn(Unpack(x), 0);
    assert SBoxRow(Group(Unpack(x), 0)) == 3 && SBoxColumn(Group(Unpack(x), 0)) == 8;
    OutputGroupBits(s, 0);
  }

  lemma Round5SBox1()
    ensures SBox(1, Group(Unpack([0xC6, 0x05, 0x03, 0xEB, 0x51, 0xA2]), 1)) == OutputGroup(Unpack([0x50, 0xC8, 0x31, 0xEB]), 1)
  {
    var x: seq<Byte> := [0xC6, 0x05, 0x03, 0xEB, 0x51, 0xA2];
    var s: seq<Byte> := [0x50, 0xC8, 0x31, 0xEB];
    GroupRowColumn(Unpack(x), 1);
    assert SBoxRow(Group(Unpack(x), 1)) == 2 && SBoxColumn(Group(Unpack(x), 1)) == 0;
    OutputGroupBits(s, 1);
  }

  lemma Round5SBox2()
    ensures SBox(2, Group(Unpack([0xC6, 0x05, 0x03, 0xEB, 0x51, 0xA2]), 2)) == OutputGroup(Unpack([0x50, 0xC8, 0x31, 0xEB]), 2)
  {
    var x: seq<Byte> := [0xC6, 0x05, 0x03, 0xEB, 0x51, 0xA2];
    var s: seq<Byte> := [0x50, 0xC8, 0x31, 0xEB];
    GroupRowColumn(Unpack(x), 2);
    assert SBoxRow(Group(Unpack(x), 2)) == 0 && SBoxColumn(Group(Unpack(x), 2)) == 10;
    OutputGroupBits(s, 2);
  }

  lemma Round5SBox3()
    ensures SBox(3, Group(Unpack([0xC6, 0x05, 0x03, 0xEB, 0x51, 0xA2]), 3)) == OutputGroup(Unpack([0x50, 0xC8, 0x31, 0xEB]), 3)
  {
    var x: seq<Byte> := [0xC6, 0x05, 0x03, 0xEB, 0x51, 0xA2];
    var s: seq<Byte> := [0x50, 0xC8, 0x31, 0xEB];
    GroupRowColumn(Unpack(x), 3);
    assert SBoxRow(Group(Unpack(x), 3)) == 1 && SBoxColumn(Group(Unpack(x), 3)) == 1;
    OutputGroupBits(s, 3);
  }

  lemma Round5SBox4()
    ensures SBox(4, Group(Unpack([0xC6, 0x05, 0x03, 0xEB, 0x51, 0xA2]), 4)) == OutputGroup(Unpack([0x50, 0xC8, 0x31, 0xEB]), 4)
  {
    var x: seq<Byte> := [0xC6, 0x05, 0x03, 0xEB, 0x51, 0xA2];
    var s: seq<Byte> := [0x50, 0xC8, 0x31, 0xEB];
    GroupRowColumn(Unpack(x), 4);
    assert SBoxRow(Group(Unpack(x), 4)) == 2 && SBoxColumn(Group(Unpack(x), 4)) == 13;
    OutputGroupBits(s, 4);
  }

  lemma Round5SBox5()
    ensures SBox(5, Group(Unpack([0xC6, 0x05, 0x03, 0xEB, 0x51, 0xA2]), 5)) == OutputGroup(Unpack([0x50, 0xC8, 0x31, 0xEB]), 5)
  {
    var x: seq<Byte> := [0xC6, 0x05, 0x03, 0xEB, 0x51, 0xA2];
    var s: seq<Byte> := [0x50, 0xC8, 0x31, 0xEB];
    GroupRowColumn(Unpack(x), 5);
    assert SBoxRow(Group(Unpack(x), 5)) == 3 && SBoxColumn(Group(Unpack(x), 5)) == 10;
    OutputGroupBits(s, 5);
  }

  lemma Round5SBox6()
    ensures SBox(6, Group(Unpack([0xC6, 0x05, 0x03, 0xEB, 0x51, 0xA2]), 6)) == OutputGroup(Unpack([0x50, 0xC8, 0x31, 0xEB]), 6)
  {
    var x: seq<Byte> := [0xC6, 0x05, 0x03, 0xEB, 0x51, 0xA2];
    var s: seq<Byte> := [0x50, 0xC8, 0x31, 0xEB];
    GroupRowColumn(Unpack(x), 6);
    assert SBoxRow(Group(Unpack(x), 6)) == 0 && SBoxColumn(Group(Unpack(x), 6)) == 3;
    OutputGroupBits(s, 6);
  }

  lemma Round5SBox7()
    ensures SBox(7, Group(Unpack([0xC6, 0x05, 0x03, 0xEB, 0x51, 0xA2]), 7)) == OutputGroup(Unpack([0x50, 0xC8, 0x31, 0xEB]), 7)
  {
    var x: seq<Byte> := [0xC6, 0x05, 0x03, 0xEB, 0x51, 0xA2];
    var s: seq<Byte> := [0x50, 0xC8, 0x31, 0xEB];
    GroupRowColumn(Unpack(x), 7);
    assert SBoxRow(Group(Unpack(x), 7)) == 2 && SBoxColumn(Group(Unpack(x), 7)) == 1;
    OutputGroupBits(s, 7);
  }

  /** Round 5, S-boxes: C60503EB51A2 becomes 50C831EB. */
  lemma Round5Substitute()
    ensures Substitute(Unpack([0xC6, 0x05, 0x03, 0xEB, 0x51, 0xA2])) == Unpack([0x50, 0xC8, 0x31, 0xEB])
  {
    var x: seq<Byte> := [0xC6, 0x05, 0x03, 0xEB, 0x51, 0xA2];
    var s: seq<Byte> := [0x50, 0xC8, 0x31, 0xEB];
    forall k | 0 <= k < 8
      ensures SBox(k, Group(Unpack(x), k)) == OutputGroup(Unpack(s), k)
    {
      IndexCases(k, 8);
      if k == 0 { Round5SBox0(); } else if k == 1 { Round5SBox1(); }
      else if k == 2 { Round5SBox2(); } else if k == 3 { Round5SBox3(); }
      else if k == 4 { Round5SBox4(); } else if k == 5 { Round5SBox5(); }
      else if k == 6 { Round5SBox6(); } else { Round5SBox7(); }
    }
    SubstituteOfGroups(Unpack(x), Unpack(s));
  }

  /** Round 5, P: 50C831EB becomes f = 2813ADC3. */
  lemma Round5Output()
    ensures PermuteOutput(Unpack([0x50, 0xC8, 0x31, 0xEB])) == Unpack([0x28, 0x13, 0xAD, 0xC3])
  {
    var s: seq<Byte> := [0x50, 0xC8, 0x31, 0xEB];
    var out: seq<Byte> := [0x28, 0x13, 0xAD, 0xC3];
    PShape();
    forall i | 0 <= i < 32
      ensures Unpack(s)[P[i]] == Unpack(out)[i]
    {
      IndexCases(i, 32);
    }
    PermuteBytes(P, s, out);
  }

  /** Round 5: (L, R) = (A25C0BF4, 77220045) becomes (77220045, 8A4FA637). */
  lemma Round5()
    ensures F(Unpack([0x77, 0x22, 0x00, 0x45]), Unpack([0x7C, 0xEC, 0x07, 0xEB, 0x53, 0xA8])) == Unpack([0x28, 0x13, 0xAD, 0xC3])
    ensures Round(CipherF, Halves(Unpack([0xA2, 0x5C, 0x0B, 0xF4]), Unpack([0x77, 0x22, 0x00, 0x45])), Unpack([0x7C, 0xEC, 0x07, 0xEB, 0x53, 0xA8])) == Halves(Unpack([0x77, 0x22, 0x00, 0x45]), Unpack([0x8A, 0x4F, 0xA6, 0x37]))
  {
    var left: seq<Byte> := [0xA2, 0x5C, 0x0B, 0xF4];
    var right: seq<Byte> := [0x77, 0x22, 0x00, 0x45];
    var key: seq<Byte> := [0x7C, 0xEC, 0x07, 0xEB, 0x53, 0xA8];
    var e: seq<Byte> := [0xBA, 0xE9, 0x04, 0x00, 0x02, 0x0A];
    var x: seq<Byte> := [0xC6, 0x05, 0x03, 0xEB, 0x51, 0xA2];
    var s: seq<Byte> := [0x50, 0xC8, 0x31, 0xEB];
    var out: seq<Byte> := [0x28, 0x13, 0xAD, 0xC3];
    var next: seq<Byte> := [0x8A, 0x4F, 0xA6, 0x37];
    Round5Expand();
    Round5Substitute();
    Round5Output();
    forall j | 0 <= j < 6
      ensures x[j] == e[j] ^ key[j]
    {
      IndexCases(j, 6);
    }
    FOfStages(right, key, e, x, s, out);
    forall j | 0 <= j < 4
      ensures next[j] == left[j] ^ out[j]
    {
      IndexCases(j, 4);
    }
    RoundOfF(left, right, key, out, next);
  }

  /** Round 6, E: R = 8A4FA637 expands to C5425FD0C1AF. */
  lemma Round6Expand()
    ensures Expand(Unpack([0x8A, 0x4F, 0xA6, 0x37])) == Unpack([0xC5, 0x42, 0x5F, 0xD0, 0xC1, 0xAF])
  {
    var r: seq<Byte> := [0x8A, 0x4F, 0xA6, 0x37];
    var e: seq<Byte> := [0xC5, 0x42, 0x5F, 0xD0, 0xC1, 0xAF];
    EShape();
    forall i | 0 <= i < 48
      ensures Unpack(r)[E[i]] == Unpack(e)[i]
    {
      IndexCases(i, 48);
    }
    PermuteBytes(E, r, e);
  }

  lemma Round6SBox0()
    ensures SBox(0, Group(Unpack([0xA6, 0xE7, 0x61, 0x80, 0xBA, 0x80]), 0)) == OutputGroup(Unpack([0x41, 0xF3, 0x4C, 0x3D]), 0)
  {
    var x: seq<Byte> := [0xA6, 0xE7, 0x61, 0x80, 0xBA, 0x80];
    var s: seq<Byte> := [0x41, 0xF3, 0x4C, 0x3D];
    GroupRowColumn(Unpack(x), 0);
    assert SBoxRow(Group(Unpack(x), 0)) == 3 && SBoxColumn(Group(Unpack(x), 0)) == 4;
    OutputGroupBits(s, 0);
  }

  lemma Round6SBox1()
    ensures SBox(1, Group(Unpack([0xA6, 0xE7, 0x61, 0x80, 0xBA, 0x80]), 1)) == OutputGroup(Unpack([0x41, 0xF3, 0x4C, 0x3D]), 1)
  {
    var x: seq<Byte> := [0xA6, 0xE7, 0x61, 0x80, 0xBA, 0x80];
    var s: seq<Byte> := [0x41, 0xF3, 0x4C, 0x3D];
    GroupRowColumn(Unpack(x), 1);
    assert SBoxRow(Group(Unpack(x), 1)) == 2 && SBoxColumn(Group(Unpack(x), 1)) == 7;
    OutputGroupBits(s, 1);
  }

  lemma Round6SBox2()
    ensures SBox(2, Group(Unpack([0xA6, 0xE7, 0x61, 0x80, 0xBA, 0x80]), 2)) == OutputGroup(Unpack([0x41, 0xF3, 0x4C, 0x3D]), 2)
  {
    var x: seq<Byte> := [0xA6, 0xE7, 0x61, 0x80, 0xBA, 0x80];
    var s: seq<Byte> := [0x41, 0xF3, 0x4C, 0x3D];
    GroupRowColumn(Unpack(x), 2);
    assert SBoxRow(Group(Unpack(x), 2)) == 1 && SBoxColumn(Group(Unpack(x), 2)) == 14;
    OutputGroupBits(s, 2);
  }

  lemma Round6SBox3()
    ensures SBox(3, Group(Unpack([0xA6, 0xE7, 0x61, 0x80, 0xBA, 0x80]), 3)) == OutputGroup(Unpack([0x41, 0xF3, 0x4C, 0x3D]), 3)
  {
    var x: seq<Byte> := [0xA6, 0xE7, 0x61, 0x80, 0xBA, 0x80];
    var s: seq<Byte> := [0x41, 0xF3, 0x4C, 0x3D];
    GroupRowColumn(Unpack(x), 3);
    assert SBoxRow(Group(Unpack(x), 3)) == 3 && SBoxColumn(Group(Unpack(x), 3)) == 0;
    OutputGroupBits(s, 3);
  }

  lemma Round6SBox4()
    ensures SBox(4, Group(Unpack([0xA6, 0xE7, 0x61, 0x80, 0xBA, 0x80]), 4)) == OutputGroup(Unpack([0x41, 0xF3, 0x4C, 0x3D]), 4)
  {
    var x: seq<Byte> := [0xA6, 0xE7, 0x61, 0x80, 0xBA, 0x80];
    var s: seq<Byte> := [0x41, 0xF3, 0x4C, 0x3D];
    GroupRowColumn(Unpack(x), 4);
    assert SBoxRow(Group(Unpack(x), 4)) == 2 && SBoxColumn(Group(Unpack(x), 4)) == 0;
    OutputGroupBits(s, 4);
  }

  lemma Round6SBox5()
    ensures SBox(5, Group(Unpack([0xA6, 0xE7, 0x61, 0x80, 0xBA, 0x80]), 5)) == OutputGroup(Unpack([0x41, 0xF3, 0x4C, 0x3D]), 5)
  {
    var x: seq<Byte> := [0xA6, 0xE7, 0x61, 0x80, 0xBA, 0x80];
    var s: seq<Byte> := [0x41, 0xF3, 0x4C, 0x3D];
    GroupRowColumn(Unpack(x), 5);
    assert SBoxRow(Group(Unpack(x), 5)) == 1 && SBoxColumn(Group(Unpack(x), 5)) == 5;
    OutputGroupBits(s, 5);
  }

  lemma Round6SBox6()
    ensures SBox(6, Group(Unpack([0xA6, 0xE7, 0x61, 0x80, 0xBA, 0x80]), 6)) == OutputGroup(Unpack([0x41, 0xF3, 0x4C, 0x3D]), 6)
  {
    var x: seq<Byte> := [0xA6, 0xE7, 0x61, 0x80, 0xBA, 0x80];
    var s: seq<Byte> := [0x41, 0xF3, 0x4C, 0x3D];
    GroupRowColumn(Unpack(x), 6);
    assert SBoxRow(Group(Unpack(x), 6)) == 2 && SBoxColumn(Group(Unpack(x), 6)) == 5;
    OutputGroupBits(s, 6);
  }

  lemma Round6SBox7()
    ensures SBox(7, Group(Unpack([0xA6, 0xE7, 0x61, 0x80, 0xBA, 0x80]), 7)) == OutputGroup(Unpack([0x41, 0xF3, 0x4C, 0x3D]), 7)
  {
    var x: seq<Byte> := [0xA6, 0xE7, 0x61, 0x80, 0xBA, 0x80];
    var s: seq<Byte> := [0x41, 0xF3, 0x4C, 0x3D];
    GroupRowColumn(Unpack(x), 7);
    assert SBoxRow(Group(Unpack(x), 7)) == 0 && SBoxColumn(Group(Unpack(x), 7)) == 0;
    OutputGroupBits(s, 7);
  }

  /** Round 6, S-boxes: A6E76180BA80 becomes 41F34C3D. */
  lemma Round6Substitute()
    ensures Substitute(Unpack([0xA6, 0xE7, 0x61, 0x80, 0xBA, 0x80])) == Unpack([0x41, 0xF3, 0x4C, 0x3D])
  {
    var x: seq<Byte> := [0xA6, 0xE7, 0x61, 0x80, 0xBA, 0x80];
    var s: seq<Byte> := [0x41, 0xF3, 0x4C, 0x3D];
    forall k | 0 <= k < 8
      ensures SBox(k, Group(Unpack(x), k)) == OutputGroup(Unpack(s), k)
    {
      IndexCases(k, 8);
      if k == 0 { Round6SBox0(); } else if k == 1 { Round6SBox1(); }
      else if k == 2 { Round6SBox2(); } else if k == 3 { Round6SBox3(); }
      else if k == 4 { Round6SBox4(); } else if k == 5 { Round6SBox5(); }
      else if k == 6 { Round6SBox6(); } else { Round6SBox7(); }
    }
    SubstituteOfGroups(Unpack(x), Unpack(s));
  }

  /** Round 6, P: 41F34C3D becomes f = 9E45CD2C. */
  lemma Round6Output()
    ensures PermuteOutput(Unpack([0x41, 0xF3, 0x4C, 0x3D])) == Unpack([0x9E, 0x45, 0xCD, 0x2C])
  {
    var s: seq<Byte> := [0x41, 0xF3, 0x4C, 0x3D];
    var out: seq<Byte> := [0x9E, 0x45, 0xCD, 0x2C];
    PShape();
    forall i | 0 <= i < 32
      ensures Unpack(s)[P[i]] == Unpack(out)[i]
    {
      IndexCases(i, 32);
    }
    PermuteBytes(P, s, out);
  }

  /** Round 6: (L, R) = (77220045, 8A4FA637) becomes (8A4FA637, E967CD69). */
  lemma Round6()
    ensures F(Unpack([0x8A, 0x4F, 0xA6, 0x37]), Unpack([0x63, 0xA5, 0x3E, 0x50, 0x7B, 0x2F])) == Unpack([0x9E, 0x45, 0xCD, 0x2C])
    ensures Round(CipherF, Halves(Unpack([0x77, 0x22, 0x00, 0x45]), Unpack([0x8A, 0x4F, 0xA6, 0x37])), Unpack([0x63, 0xA5, 0x3E, 0x50, 0x7B, 0x2F])) == Halves(Unpack([0x8A, 0x4F, 0xA6, 0x37]), Unpack([0xE9, 0x67, 0xCD, 0x69]))
  {
    var left: seq<Byte> := [0x77, 0x22, 0x00, 0x45];
    var right: seq<Byte> := [0x8A, 0x4F, 0xA6, 0x37];
    var key: seq<Byte> := [0x63, 0xA5, 0x3E, 0x50, 0x7B, 0x2F];
    var e: seq<Byte> := [0xC5, 0x42, 0x5F, 0xD0, 0xC1, 0xAF];
    var x: seq<Byte> := [0xA6, 0xE7, 0x61, 0x80, 0xBA, 0x80];
    var s: seq<Byte> := [0x41, 0xF3, 0x4C, 0x3D];
    var out: seq<Byte> := [0x9E, 0x45, 0xCD, 0x2C];
    var next: seq<Byte> := [0xE9, 0x67, 0xCD, 0x69];
    Round6Expand();
    Round6Substitute();
    Round6Output();
    forall j | 0 <= j < 6
      ensures x[j] == e[j] ^ key[j]
    {
      IndexCases(j, 6);
    }
    FOfStages(right, key, e, x, s, out);
    forall j | 0 <= j < 4
      ensures next[j] == left[j] ^ out[j]
    {
      IndexCases(j, 4);
    }
    RoundOfF(left, right, key, out, next);
  }

  /** Round 7, E: R = E967CD69 expands to F52B0FE5AB53. */
  lemma Round7Expand()
    ensures Expand(Unpack([0xE9, 0x67, 0xCD, 0x69])) == Unpack([0xF5, 0x2B, 0x0F, 0xE5, 0xAB, 0x53])
  {
    var r: seq<Byte> := [0xE9, 0x67, 0xCD, 0x69];
    var e: seq<Byte> := [0xF5, 0x2B, 0x0F, 0xE5, 0xAB, 0x53];
    EShape();
    forall i | 0 <= i < 48
      ensures Unpack(r)[E[i]] == Unpack(e)[i]
    {
      IndexCases(i, 48);
    }
    PermuteBytes(E, r, e);
  }

  lemma Round7SBox0()
    ensures SBox(0, Group(Unpack([0x19, 0xAF, 0xB8, 0x13, 0xB3, 0xEF]), 0)) == OutputGroup(Unpack([0x10, 0x75, 0x40, 0xAD]), 0)
  {
    var x: seq<Byte> := [0x19, 0xAF, 0xB8, 0x13, 0xB3, 0xEF];
    var s: seq<Byte> := [0x10, 0x75, 0x40, 0xAD];
    GroupRowColumn(Unpack(x), 0);
    assert SBoxRow(Group(Unpack(x), 0)) == 0 && SBoxColumn(Group(Unpack(x), 0)) == 3;
    OutputGroupBits(s, 0);
  }

  lemma Round7SBox1()
    ensures SBox(1, Group(Unpack([0x19, 0xAF, 0xB8, 0x13, 0xB3, 0xEF]), 1)) == OutputGroup(Unpack([0x10, 0x75, 0x40, 0xAD]), 1)
  {
    var x: seq<Byte> := [0x19, 0xAF, 0xB8, 0x13, 0xB3, 0xEF];
    var s: seq<Byte> := [0x10, 0x75, 0x40, 0xAD];
    GroupRowColumn(Unpack(x), 1);
    assert SBoxRow(Group(Unpack(x), 1)) == 0 && SBoxColumn(Group(Unpack(x), 1)) == 13;
    OutputGroupBits(s, 1);
  }

  lemma Round7SBox2()
    ensures SBox(2, Group(Unpack([0x19, 0xAF, 0xB8, 0x13, 0xB3, 0xEF]), 2)) == OutputGroup(Unpack([0x10, 0x75, 0x40, 0xAD]), 2)
  {
    var x: seq<Byte> := [0x19, 0xAF, 0xB8, 0x13, 0xB3, 0xEF];
    var s: seq<Byte> := [0x10, 0x75, 0x40, 0xAD];
    GroupRowColumn(Unpack(x), 2);
    assert SBoxRow(Group(Unpack(x), 2)) == 2 && SBoxColumn(Group(Unpack(x), 2)) == 15;
    OutputGroupBits(s, 2);
  }

  lemma Round7SBox3()
    ensures SBox(3, Group(Unpack([0x19, 0xAF, 0xB8, 0x13, 0xB3, 0xEF]), 3)) == OutputGroup(Unpack([0x10, 0x75, 0x40, 0xAD]), 3)
  {
    var x: seq<Byte> := [0x19, 0xAF, 0xB8, 0x13, 0xB3, 0xEF];
    var s: seq<Byte> := [0x10, 0x75, 0x40, 0xAD];
    GroupRowColumn(Unpack(x), 3);
    assert SBoxRow(Group(Unpack(x), 3)) == 2 && SBoxColumn(Group(Unpack(x), 3)) == 12;
    OutputGroupBits(s, 3);
  }

  lemma Round7SBox4()
    ensures SBox(4, Group(Unpack([0x19, 0xAF, 0xB8, 0x13, 0xB3, 0xEF]), 4)) == OutputGroup(Unpack([0x10, 0x75, 0x40, 0xAD]), 4)
  {
    var x: seq<Byte> := [0x19, 0xAF, 0xB8, 0x13, 0xB3, 0xEF];
    var s: seq<Byte> := [0x10, 0x75, 0x40, 0xAD];
    GroupRowColumn(Unpack(x), 4);
    assert SBoxRow(Group(Unpack(x), 4)) == 0 && SBoxColumn(Group(Unpack(x), 4)) == 2;
    OutputGroupBits(s, 4);
  }

  lemma Round7SBox5()
    ensures SBox(5, Group(Unpack([0x19, 0xAF, 0xB8, 0x13, 0xB3, 0xEF]), 5)) == OutputGroup(Unpack([0x10, 0x75, 0x40, 0xAD]), 5)
  {
    var x: seq<Byte> := [0x19, 0xAF, 0xB8, 0x13, 0xB3, 0xEF];
    var s: seq<Byte> := [0x10, 0x75, 0x40, 0xAD];
    GroupRowColumn(Unpack(x), 5);
    assert SBoxRow(Group(Unpack(x), 5)) == 3 && SBoxColumn(Group(Unpack(x), 5)) == 13;
    OutputGroupBits(s, 5);
  }

  lemma Round7SBox6()
    ensures SBox(6, Group(Unpack([0x19, 0xAF, 0xB8, 0x13, 0xB3, 0xEF]), 6)) == OutputGroup(Unpack([0x10, 0x75, 0x40, 0xAD]), 6)
  {
    var x: seq<Byte> := [0x19, 0xAF, 0xB8, 0x13, 0xB3, 0xEF];
    var s: seq<Byte> := [0x10, 0x75, 0x40, 0xAD];
    GroupRowColumn(Unpack(x), 6);
    assert SBoxRow(Group(Unpack(x), 6)) == 1 && SBoxColumn(Group(Unpack(x), 6)) == 7;
    OutputGroupBits(s, 6);
  }

  lemma Round7SBox7()
    ensures SBox(7, Group(Unpack([0x19, 0xAF, 0xB8, 0x13, 0xB3, 0xEF]), 7)) == OutputGroup(Unpack([0x10, 0x75, 0x40, 0xAD]), 7)
  {
    var x: seq<Byte> := [0x19, 0xAF, 0xB8, 0x13, 0xB3, 0xEF];
    var s: seq<Byte> := [0x10, 0x75, 0x40, 0xAD];
    GroupRowColumn(Unpack(x), 7);
    assert SBoxRow(Group(Unpack(x), 7)) == 3 && SBoxColumn(Group(Unpack(x), 7)) == 7;
    OutputGroupBits(s, 7);
  }

  /** Round 7, S-boxes: 19AFB813B3EF becomes 107540AD. */
  lemma Round7Substitute()
    ensures Substitute(Unpack([0x19, 0xAF, 0xB8, 0x13, 0xB3, 0xEF])) == Unpack([0x10, 0x75, 0x40, 0xAD])
  {
    var x: seq<Byte> := [0x19, 0xAF, 0xB8, 0x13, 0xB3, 0xEF];
    var s: seq<Byte> := [0x10, 0x75, 0x40, 0xAD];
    forall k | 0 <= k < 8
      ensures SBox(k, Group(Unpack(x), k)) == OutputGroup(Unpack(s), k)
    {
      IndexCases(k, 8);
      if k == 0 { Round7SBox0(); } else if k == 1 { Round7SBox1(); }
      else if k == 2 { Round7SBox2(); } else if k == 3 { Round7SBox3(); }
      else if k == 4 { Round7SBox4(); } else if k == 5 { Round7SBox5(); }
      else if k == 6 { Round7SBox6(); } else { Round7SBox7(); }
    }
    SubstituteOfGroups(Unpack(x), Unpack(s));
  }

  /** Round 7, P: 107540AD becomes f = 8C051C27. */
  lemma Round7Output()
    ensures PermuteOutput(Unpack([0x10, 0x75, 0x40, 0xAD])) == Unpack([0x8C, 0x05, 0x1C, 0x27])
  {
    var s: seq<Byte> := [0x10, 0x75, 0x40, 0xAD];
    var out: seq<Byte> := [0x8C, 0x05, 0x1C, 0x27];
    PShape();
    forall i | 0 <= i < 32
      ensures Unpack(s)[P[i]] == Unpack(out)[i]
    {
      IndexCases(i, 32);
    }
    PermuteBytes(P, s, out);
  }

  /** Round 7: (L, R) = (8A4FA637, E967CD69) becomes (E967CD69, 064ABA10). */
  lemma Round7()
    ensures F(Unpack([0xE9, 0x67, 0xCD, 0x69]), Unpack([0xEC, 0x84, 0xB7, 0xF6, 0x18, 0xBC])) == Unpack([0x8C, 0x05, 0x1C, 0x27])
    ensures Round(CipherF, Halves(Unpack([0x8A, 0x4F, 0xA6, 0x37]), Unpack([0xE9, 0x67, 0xCD, 0x69])), Unpack([0xEC, 0x84, 0xB7, 0xF6, 0x18, 0xBC])) == Halves(Unpack([0xE9, 0x67, 0xCD, 0x69]), Unpack([0x06, 0x4A, 0xBA, 0x10]))
  {
    var left: seq<Byte> := [0x8A, 0x4F, 0xA6, 0x37];
    var right: seq<Byte> := [0xE9, 0x67, 0xCD, 0x69];
    var key: seq<Byte> := [0xEC, 0x84, 0xB7, 0xF6, 0x18, 0xBC];
    var e: seq<Byte> := [0xF5, 0x2B, 0x0F, 0xE5, 0xAB, 0x53];
    var x: seq<Byte> := [0x19, 0xAF, 0xB8, 0x13, 0xB3, 0xEF];
    var s: seq<Byte> := [0x10, 0x75, 0x40, 0xAD];
    var out: seq<Byte> := [0x8C, 0x05, 0x1C, 0x27];
    var next: seq<Byte> := [0x06, 0x4A, 0xBA, 0x10];
    Round7Expand();
    Round7Substitute();
    Round7Output();
    forall j | 0 <= j < 6
      ensures x[j] == e[j] ^ key[j]
    {
      IndexCases(j, 6);
    }
    FOfStages(right, key, e, x, s, out);
    forall j | 0 <= j < 4
      ensures next[j] == left[j] ^ out[j]
    {
      IndexCases(j, 4);
    }
    RoundOfF(left, right, key, out, next);
  }

  /** Round 8, E: R = 064ABA10 expands to 00C2555F40A0. */
  lemma Round8Expand()
    ensures Expand(Unpack([0x06, 0x4A, 0xBA, 0x10])) == Unpack([0x00, 0xC2, 0x55, 0x5F, 0x40, 0xA0])
  {
    var r: seq<Byte> := [0x06, 0x4A, 0xBA, 0x10];
    var e: seq<Byte> := [0x00, 0xC2, 0x55, 0x5F, 0x40, 0xA0];
    EShape();
    forall i | 0 <= i < 48
      ensures Unpack(r)[E[i]] == Unpack(e)[i]
    {
      IndexCases(i, 48);
    }
    PermuteBytes(E, r, e);
  }

  lemma Round8SBox0()
    ensures SBox(0, Group(Unpack([0xF7, 0x48, 0x6F, 0x9E, 0x7B, 0x5B]), 0)) == OutputGroup(Unpack([0x6C, 0x18, 0x7C, 0xAE]), 0)
  {
    var x: seq<Byte> := [0xF7, 0x48, 0x6F, 0x9E, 0x7B, 0x5B];
    var s: seq<Byte> := [0x6C, 0x18, 0x7C, 0xAE];
    GroupRowColumn(Unpack(x), 0);
    assert SBoxRow(Group(Unpack(x), 0)) == 3 && SBoxColumn(Group(Unpack(x), 0)) == 14;
    OutputGroupBits(s, 0);
  }

  lemma Round8SBox1()
    ensures SBox(1, Group(Unpack([0xF7, 0x48, 0x6F, 0x9E, 0x7B, 0x5B]), 1)) == OutputGroup(Unpack([0x6C, 0x18, 0x7C, 0xAE]), 1)
  {
    var x: seq<Byte> := [0xF7, 0x48, 0x6F, 0x9E, 0x7B, 0x5B];
    var s: seq<Byte> := [0x6C, 0x18, 0x7C, 0xAE];
    GroupRowColumn(Unpack(x), 1);
    assert SBoxRow(Group(Unpack(x), 1)) == 2 && SBoxColumn(Group(Unpack(x), 1)) == 10;
    OutputGroupBits(s, 1);
  }

  lemma Round8SBox2()
    ensures SBox(2, Group(Unpack([0xF7, 0x48, 0x6F, 0x9E, 0x7B, 0x5B]), 2)) == OutputGroup(Unpack([0x6C, 0x18, 0x7C, 0xAE]), 2)
  {
    var x: seq<Byte> := [0xF7, 0x48, 0x6F, 0x9E, 0x7B, 0x5B];
    var s: seq<Byte> := [0x6C, 0x18, 0x7C, 0xAE];
    GroupRowColumn(Unpack(x), 2);
    assert SBoxRow(Group(Unpack(x), 2)) == 3 && SBoxColumn(Group(Unpack(x), 2)) == 0;
    OutputGroupBits(s, 2);
  }

  lemma Round8SBox3()
    ensures SBox(3, Group(Unpack([0xF7, 0x48, 0x6F, 0x9E, 0x7B, 0x5B]), 3)) == OutputGroup(Unpack([0x6C, 0x18, 0x7C, 0xAE]), 3)
  {
    var x: seq<Byte> := [0xF7, 0x48, 0x6F, 0x9E, 0x7B, 0x5B];
    var s: seq<Byte> := [0x6C, 0x18, 0x7C, 0xAE];
    GroupRowColumn(Unpack(x), 3);
    assert SBoxRow(Group(Unpack(x), 3)) == 3 && SBoxColumn(Group(Unpack(x), 3)) == 7;
    OutputGroupBits(s, 3);
  }

  lemma Round8SBox4()
    ensures SBox(4, Group(Unpack([0xF7, 0x48, 0x6F, 0x9E, 0x7B, 0x5B]), 4)) == OutputGroup(Unpack([0x6C, 0x18, 0x7C, 0xAE]), 4)
  {
    var x: seq<Byte> := [0xF7, 0x48, 0x6F, 0x9E, 0x7B, 0x5B];
    var s: seq<Byte> := [0x6C, 0x18, 0x7C, 0xAE];
    GroupRowColumn(Unpack(x), 4);
    assert SBoxRow(Group(Unpack(x), 4)) == 3 && SBoxColumn(Group(Unpack(x), 4)) == 3;
    OutputGroupBits(s, 4);
  }

  lemma Round8SBox5()
    ensures SBox(5, Group(Unpack([0xF7, 0x48, 0x6F, 0x9E, 0x7B, 0x5B]), 5)) == OutputGroup(Unpack([0x6C, 0x18, 0x7C, 0xAE]), 5)
  {
    var x: seq<Byte> := [0xF7, 0x48, 0x6F, 0x9E, 0x7B, 0x5B];
    var s: seq<Byte> := [0x6C, 0x18, 0x7C, 0xAE];
    GroupRowColumn(Unpack(x), 5);
    assert SBoxRow(Group(Unpack(x), 5)) == 3 && SBoxColumn(Group(Unpack(x), 5)) == 3;
    OutputGroupBits(s, 5);
  }

  lemma Round8SBox6()
    ensures SBox(6, Group(Unpack([0xF7, 0x48, 0x6F, 0x9E, 0x7B, 0x5B]), 6)) == OutputGroup(Unpack([0x6C, 0x18, 0x7C, 0xAE]), 6)
  {
    var x: seq<Byte> := [0xF7, 0x48, 0x6F, 0x9E, 0x7B, 0x5B];
    var s: seq<Byte> := [0x6C, 0x18, 0x7C, 0xAE];
    GroupRowColumn(Unpack(x), 6);
    assert SBoxRow(Group(Unpack(x), 6)) == 3 && SBoxColumn(Group(Unpack(x), 6)) == 6;
    OutputGroupBits(s, 6);
  }

  lemma Round8SBox7()
    ensures SBox(7, Group(Unpack([0xF7, 0x48, 0x6F, 0x9E, 0x7B, 0x5B]), 7)) == OutputGroup(Unpack([0x6C, 0x18, 0x7C, 0xAE]), 7)
  {
    var x: seq<Byte> := [0xF7, 0x48, 0x6F, 0x9E, 0x7B, 0x5B];
    var s: seq<Byte> := [0x6C, 0x18, 0x7C, 0xAE];
    GroupRowColumn(Unpack(x), 7);
    assert SBoxRow(Group(Unpack(x), 7)) == 1 && SBoxColumn(Group(Unpack(x), 7)) == 13;
    OutputGroupBits(s, 7);
  }

  /** Round 8, S-boxes: F7486F9E7B5B becomes 6C187CAE. */
  lemma Round8Substitute()
    ensures Substitute(Unpack([0xF7, 0x48, 0x6F, 0x9E, 0x7B, 0x5B])) == Unpack([0x6C, 0x18, 0x7C, 0xAE])
  {
    var x: seq<Byte> := [0xF7, 0x48, 0x6F, 0x9E, 0x7B, 0x5B];
    var s: seq<Byte> := [0x6C, 0x18, 0x7C, 0xAE];
    forall k | 0 <= k < 8
      ensures SBox(k, Group(Unpack(x), k)) == OutputGroup(Unpack(s), k)
    {
      IndexCases(k, 8);
      if k == 0 { Round8SBox0(); } else if k == 1 { Round8SBox1(); }
      else if k == 2 { Round8SBox2(); } else if k == 3 { Round8SBox3(); }
      else if k == 4 { Round8SBox4(); } else if k == 5 { Round8SBox5(); }
      else if k == 6 { Round8SBox6(); } else { Round8SBox7(); }
    }
    SubstituteOfGroups(Unpack(x), Unpack(s));
  }

  /** Round 8, P: 6C187CAE becomes f = 3C0E86F9. */
  lemma Round8Output()
    ensures PermuteOutput(Unpack([0x6C, 0x18, 0x7C, 0xAE])) == Unpack([0x3C, 0x0E, 0x86, 0xF9])
  {
    var s: seq<Byte> := [0x6C, 0x18, 0x7C, 0xAE];
    var out: seq<Byte> := [0x3C, 0x0E, 0x86, 0xF9];
    PShape();
    forall i | 0 <= i < 32
      ensures Unpack(s)[P[i]] == Unpack(out)[i]
    {
      IndexCases(i, 32);
    }
    PermuteBytes(P, s, out);
  }

  /** Round 8: (L, R) = (E967CD69, 064ABA10) becomes (064ABA10, D5694B90). */
  lemma Round8()
    ensures F(Unpack([0x06, 0x4A, 0xBA, 0x10]), Unpack([0xF7, 0x8A, 0x3A, 0xC1, 0x3B, 0xFB])) == Unpack([0x3C, 0x0E, 0x86, 0xF9])
    ensures Round(CipherF, Halves(Unpack([0xE9, 0x67, 0xCD, 0x69]), Unpack([0x06, 0x4A, 0xBA, 0x10])), Unpack([0xF7, 0x8A, 0x3A, 0xC1, 0x3B, 0xFB])) == Halves(Unpack([0x06, 0x4A, 0xBA, 0x10]), Unpack([0xD5, 0x69, 0x4B, 0x90]))
  {
    var left: seq<Byte> := [0xE9, 0x67, 0xCD, 0x69];
    var right: seq<Byte> := [0x06, 0x4A, 0xBA, 0x10];
    var key: seq<Byte> := [0xF7, 0x8A, 0x3A, 0xC1, 0x3B, 0xFB];
    var e: seq<Byte> := [0x00, 0xC2, 0x55, 0x5F, 0x40, 0xA0];
    var x: seq<Byte> := [0xF7, 0x48, 0x6F, 0x9E, 0x7B, 0x5B];
    var s: seq<Byte> := [0x6C, 0x18, 0x7C, 0xAE];
    var out: seq<Byte> := [0x3C, 0x0E, 0x86, 0xF9];
    var next: seq<Byte> := [0xD5, 0x69, 0x4B, 0x90];
    Round8Expand();
    Round8Substitute();
    Round8Output();
    forall j | 0 <= j < 6
      ensures x[j] == e[j] ^ key[j]
    {
      IndexCases(j, 6);
    }
    FOfStages(right, key, e, x, s, out);
    forall j | 0 <= j < 4
      ensures next[j] == left[j] ^ out[j]
    {
      IndexCases(j, 4);
    }
    RoundOfF(left, right, key, out, next);
  }

  /** Round 9, E: R = D5694B90 expands to 6AAB52A57CA1. */
  lemma Round9Expand()
    ensures Expand(Unpack([0xD5, 0x69, 0x4B, 0x90])) == Unpack([0x6A, 0xAB, 0x52, 0xA5, 0x7C, 0xA1])
  {
    var r: seq<Byte> := [0xD5, 0x69, 0x4B, 0x90];
    var e: seq<Byte> := [0x6A, 0xAB, 0x52, 0xA5, 0x7C, 0xA1];
    EShape();
    forall i | 0 <= i < 48
      ensures Unpack(r)[E[i]] == Unpack(e)[i]
    {
      IndexCases(i, 48);
    }
    PermuteBytes(E, r, e);
  }

  lemma Round9SBox0()
    ensures SBox(0, Group(Unpack([0x8A, 0x70, 0xB9, 0x48, 0x9B, 0x20]), 0)) == OutputGroup(Unpack([0x11, 0x0C, 0x57, 0x77]), 0)
  {
    var x: seq<Byte> := [0x8A, 0x70, 0xB9, 0x48, 0x9B, 0x20];
    var s: seq<Byte> := [0x11, 0x0C, 0x57, 0x77];
    GroupRowColumn(Unpack(x), 0);
    assert SBoxRow(Group(Unpack(x), 0)) == 2 && SBoxColumn(Group(Unpack(x), 0)) == 1;
    OutputGroupBits(s, 0);
  }

  lemma Round9SBox1()
    ensures SBox(1, Group(Unpack([0x8A, 0x70, 0xB9, 0x48, 0x9B, 0x20]), 1)) == OutputGroup(Unpack([0x11, 0x0C, 0x57, 0x77]), 1)
  {
    var x: seq<Byte> := [0x8A, 0x70, 0xB9, 0x48, 0x9B, 0x20];
    var s: seq<Byte> := [0x11, 0x0C, 0x57, 0x77];
    GroupRowColumn(Unpack(x), 1);
    assert SBoxRow(Group(Unpack(x), 1)) == 3 && SBoxColumn(Group(Unpack(x), 1)) == 3;
    OutputGroupBits(s, 1);
  }

  lemma Round9SBox2()
    ensures SBox(2, Group(Unpack([0x8A, 0x70, 0xB9, 0x48, 0x9B, 0x20]), 2)) == OutputGroup(Unpack([0x11, 0x0C, 0x57, 0x77]), 2)
  {
    var x: seq<Byte> := [0x8A, 0x70, 0xB9, 0x48, 0x9B, 0x20];
    var s: seq<Byte> := [0x11, 0x0C, 0x57, 0x77];
    GroupRowColumn(Unpack(x), 2);
    assert SBoxRow(Group(Unpack(x), 2)) == 0 && SBoxColumn(Group(Unpack(x), 2)) == 1;
    OutputGroupBits(s, 2);
  }

  lemma Round9SBox3()
    ensures SBox(3, Group(Unpack([0x8A, 0x70, 0xB9, 0x48, 0x9B, 0x20]), 3)) == OutputGroup(Unpack([0x11, 0x0C, 0x57, 0x77]), 3)
  {
    var x: seq<Byte> := [0x8A, 0x70, 0xB9, 0x48, 0x9B, 0x20];
    var s: seq<Byte> := [0x11, 0x0C, 0x57, 0x77];
    GroupRowColumn(Unpack(x), 3);
    assert SBoxRow(Group(Unpack(x), 3)) == 3 && SBoxColumn(Group(Unpack(x), 3)) == 12;
    OutputGroupBits(s, 3);
  }

  lemma Round9SBox4()
    ensures SBox(4, Group(Unpack([0x8A, 0x70, 0xB9, 0x48, 0x9B, 0x20]), 4)) == OutputGroup(Unpack([0x11, 0x0C, 0x57, 0x77]), 4)
  {
    var x: seq<Byte> := [0x8A, 0x70, 0xB9, 0x48, 0x9B, 0x20];
    var s: seq<Byte> := [0x11, 0x0C, 0x57, 0x77];
    GroupRowColumn(Unpack(x), 4);
    assert SBoxRow(Group(Unpack(x), 4)) == 0 && SBoxColumn(Group(Unpack(x), 4)) == 9;
    OutputGroupBits(s, 4);
  }

  lemma Round9SBox5()
    ensures SBox(5, Group(Unpack([0x8A, 0x70, 0xB9, 0x48, 0x9B, 0x20]), 5)) == OutputGroup(Unpack([0x11, 0x0C, 0x57, 0x77]), 5)
  {
    var x: seq<Byte> := [0x8A, 0x70, 0xB9, 0x48, 0x9B, 0x20];
    var s: seq<Byte> := [0x11, 0x0C, 0x57, 0x77];
    GroupRowColumn(Unpack(x), 5);
    assert SBoxRow(Group(Unpack(x), 5)) == 1 && SBoxColumn(Group(Unpack(x), 5)) == 4;
    OutputGroupBits(s, 5);
  }

  lemma Round9SBox6()
    ensures SBox(6, Group(Unpack([0x8A, 0x70, 0xB9, 0x48, 0x9B, 0x20]), 6)) == OutputGroup(Unpack([0x11, 0x0C, 0x57, 0x77]), 6)
  {
    var x: seq<Byte> := [0x8A, 0x70, 0xB9, 0x48, 0x9B, 0x20];
    var s: seq<Byte> := [0x11, 0x0C, 0x57, 0x77];
    GroupRowColumn(Unpack(x), 6);
    assert SBoxRow(Group(Unpack(x), 6)) == 2 && SBoxColumn(Group(Unpack(x), 6)) == 6;
    OutputGroupBits(s, 6);
  }

  lemma Round9SBox7()
    ensures SBox(7, Group(Unpack([0x8A, 0x70, 0xB9, 0x48, 0x9B, 0x20]), 7)) == OutputGroup(Unpack([0x11, 0x0C, 0x57, 0x77]), 7)
  {
    var x: seq<Byte> := [0x8A, 0x70, 0xB9, 0x48, 0x9B, 0x20];
    var s: seq<Byte> := [0x11, 0x0C, 0x57, 0x77];
    GroupRowColumn(Unpack(x), 7);
    assert SBoxRow(Group(Unpack(x), 7)) == 2 && SBoxColumn(Group(Unpack(x), 7)) == 0;
    OutputGroupBits(s, 7);
  }

  /** Round 9, S-boxes: 8A70B9489B20 becomes 110C5777. */
  lemma Round9Substitute()
    ensures Substitute(Unpack([0x8A, 0x70, 0xB9, 0x48, 0x9B, 0x20])) == Unpack([0x11, 0x0C, 0x57, 0x77])
  {
    var x: seq<Byte> := [0x8A, 0x70, 0xB9, 0x48, 0x9B, 0x20];
    var s: seq<Byte> := [0x11, 0x0C, 0x57, 0x77];
    forall k | 0 <= k < 8
      ensures SBox(k, Group(Unpack(x), k)) == OutputGroup(Unpack(s), k)
    {
      IndexCases(k, 8);
      if k == 0 { Round9SBox0(); } else if k == 1 { Round9SBox1(); }
      else if k == 2 { Round9SBox2(); } else if k == 3 { Round9SBox3(); }
      else if k == 4 { Round9SBox4(); } else if k == 5 { Round9SBox5(); }
      else if k == 6 { Round9SBox6(); } else { Round9SBox7(); }
    }
    SubstituteOfGroups(Unpack(x), Unpack(s));
  }

  /** Round 9, P: 110C5777 becomes f = 22367C6A. */
  lemma Round9Output()
    ensures PermuteOutput(Unpack([0x11, 0x0C, 0x57, 0x77])) == Unpack([0x22, 0x36, 0x7C, 0x6A])
  {
    var s: seq<Byte> := [0x11, 0x0C, 0x57, 0x77];
    var out: seq<Byte> := [0x22, 0x36, 0x7C, 0x6A];
    PShape();
    forall i | 0 <= i < 32
      ensures Unpack(s)[P[i]] == Unpack(out)[i]
    {
      IndexCases(i, 32);
    }
    PermuteBytes(P, s, out);
  }

  /** Round 9: (L, R) = (064ABA10, D5694B90) becomes (D5694B90, 247CC67A). */
  lemma Round9()
    ensures F(Unpack([0xD5, 0x69, 0x4B, 0x90]), Unpack([0xE0, 0xDB, 0xEB, 0xED, 0xE7, 0x81])) == Unpack([0x22, 0x36, 0x7C, 0x6A])
    ensures Round(CipherF, Halves(Unpack([0x06, 0x4A, 0xBA, 0x10]), Unpack([0xD5, 0x69, 0x4B, 0x90])), Unpack([0xE0, 0xDB, 0xEB, 0xED, 0xE7, 0x81])) == Halves(Unpack([0xD5, 0x69, 0x4B, 0x90]), Unpack([0x24, 0x7C, 0xC6, 0x7A]))
  {
    var left: seq<Byte> := [0x06, 0x4A, 0xBA, 0x10];
    var right: seq<Byte> := [0xD5, 0x69, 0x4B, 0x90];
    var key: seq<Byte> := [0xE0, 0xDB, 0xEB, 0xED, 0xE7, 0x81];
    var e: seq<Byte> := [0x6A, 0xAB, 0x52, 0xA5, 0x7C, 0xA1];
    var x: seq<Byte> := [0x8A, 0x70, 0xB9, 0x48, 0x9B, 0x20];
    var s: seq<Byte> := [0x11, 0x0C, 0x57, 0x77];
    var out: seq<Byte> := [0x22, 0x36, 0x7C, 0x6A];
    var next: seq<Byte> := [0x24, 0x7C, 0xC6, 0x7A];
    Round9Expand();
    Round9Substitute();
    Round9Output();
    forall j | 0 <= j < 6
      ensures x[j] == e[j] ^ key[j]
    {
      IndexCases(j, 6);
    }
    FOfStages(right, key, e, x, s, out);
    forall j | 0 <= j < 4
      ensures next[j] == left[j] ^ out[j]
    {
      IndexCases(j, 4);
    }
    RoundOfF(left, right, key, out, next);
  }

  /** Round 10, E: R = 247CC67A expands to 1083F960C3F4. */
  lemma Round10Expand()
    ensures Expand(Unpack([0x24, 0x7C, 0xC6, 0x7A])) == Unpack([0x10, 0x83, 0xF9, 0x60, 0xC3, 0xF4])
  {
    var r: seq<Byte> := [0x24, 0x7C, 0xC6, 0x7A];
    var e: seq<Byte> := [0x10, 0x83, 0xF9, 0x60, 0xC3, 0xF4];
    EShape();
    forall i | 0 <= i < 48
      ensures Unpack(r)[E[i]] == Unpack(e)[i]
    {
      IndexCases(i, 48);
    }
    PermuteBytes(E, r, e);
  }

  lemma Round10SBox0()
    ensures SBox(0, Group(Unpack([0xA1, 0x70, 0xBE, 0xDA, 0x85, 0xBB]), 0)) == OutputGroup(Unpack([0xDA, 0x04, 0x52, 0x75]), 0)
  {
    var x: seq<Byte> := [0xA1, 0x70, 0xBE, 0xDA, 0x85, 0xBB];
    var s: seq<Byte> := [0xDA, 0x04, 0x52, 0x75];
    GroupRowColumn(Unpack(x), 0);
    assert SBoxRow(Group(Unpack(x), 0)) == 2 && SBoxColumn(Group(Unpack(x), 0)) == 4;
    OutputGroupBits(s, 0);
  }

  lemma Round10SBox1()
    ensures SBox(1, Group(Unpack([0xA1, 0x70, 0xBE, 0xDA, 0x85, 0xBB]), 1)) == OutputGroup(Unpack([0xDA, 0x04, 0x52, 0x75]), 1)
  {
    var x: seq<Byte> := [0xA1, 0x70, 0xBE, 0xDA, 0x85, 0xBB];
    var s: seq<Byte> := [0xDA, 0x04, 0x52, 0x75];
    GroupRowColumn(Unpack(x), 1);
    assert SBoxRow(Group(Unpack(x), 1)) == 1 && SBoxColumn(Group(Unpack(x), 1)) == 11;
    OutputGroupBits(s, 1);
  }

  lemma Round10SBox2()
    ensures SBox(2, Group(Unpack([0xA1, 0x70, 0xBE, 0xDA, 0x85, 0xBB]), 2)) == OutputGroup(Unpack([0xDA, 0x04, 0x52, 0x75]), 2)
  {
    var x: seq<Byte> := [0xA1, 0x70, 0xBE, 0xDA, 0x85, 0xBB];
    var s: seq<Byte> := [0xDA, 0x04, 0x52, 0x75];
    GroupRowColumn(Unpack(x), 2);
    assert SBoxRow(Group(Unpack(x), 2)) == 0 && SBoxColumn(Group(Unpack(x), 2)) == 1;
    OutputGroupBits(s, 2);
  }

  lemma Round10SBox3()
    ensures SBox(3, Group(Unpack([0xA1, 0x70, 0xBE, 0xDA, 0x85, 0xBB]), 3)) == OutputGroup(Unpack([0xDA, 0x04, 0x52, 0x75]), 3)
  {
    var x: seq<Byte> := [0xA1, 0x70, 0xBE, 0xDA, 0x85, 0xBB];
    var s: seq<Byte> := [0xDA, 0x04, 0x52, 0x75];
    GroupRowColumn(Unpack(x), 3);
    assert SBoxRow(Group(Unpack(x), 3)) == 2 && SBoxColumn(Group(Unpack(x), 3)) == 15;
    OutputGroupBits(s, 3);
  }

  lemma Round10SBox4()
    ensures SBox(4, Group(Unpack([0xA1, 0x70, 0xBE, 0xDA, 0x85, 0xBB]), 4)) == OutputGroup(Unpack([0xDA, 0x04, 0x52, 0x75]), 4)
  {
    var x: seq<Byte> := [0xA1, 0x70, 0xBE, 0xDA, 0x85, 0xBB];
    var s: seq<Byte> := [0xDA, 0x04, 0x52, 0x75];
    GroupRowColumn(Unpack(x), 4);
    assert SBoxRow(Group(Unpack(x), 4)) == 2 && SBoxColumn(Group(Unpack(x), 4)) == 11;
    OutputGroupBits(s, 4);
  }

  lemma Round10SBox5()
    ensures SBox(5, Group(Unpack([0xA1, 0x70, 0xBE, 0xDA, 0x85, 0xBB]), 5)) == OutputGroup(Unpack([0xDA, 0x04, 0x52, 0x75]), 5)
  {
    var x: seq<Byte> := [0xA1, 0x70, 0xBE, 0xDA, 0x85, 0xBB];
    var s: seq<Byte> := [0xDA, 0x04, 0x52, 0x75];
    GroupRowColumn(Unpack(x), 5);
    assert SBoxRow(Group(Unpack(x), 5)) == 2 && SBoxColumn(Group(Unpack(x), 5)) == 4;
    OutputGroupBits(s, 5);
  }

  lemma Round10SBox6()
    ensures SBox(6, Group(Unpack([0xA1, 0x70, 0xBE, 0xDA, 0x85, 0xBB]), 6)) == OutputGroup(Unpack([0xDA, 0x04, 0x52, 0x75]), 6)
  {
    var x: seq<Byte> := [0xA1, 0x70, 0xBE, 0xDA, 0x85, 0xBB];
    var s: seq<Byte> := [0xDA, 0x04, 0x52, 0x75];
    GroupRowColumn(Unpack(x), 6);
    assert SBoxRow(Group(Unpack(x), 6)) == 0 && SBoxColumn(Group(Unpack(x), 6)) == 11;
    OutputGroupBits(s, 6);
  }

  lemma Round10SBox7()
    ensures SBox(7, Group(Unpack([0xA1, 0x70, 0xBE, 0xDA, 0x85, 0xBB]), 7)) == OutputGroup(Unpack([0xDA, 0x04, 0x52, 0x75]), 7)
  {
    var x: seq<Byte> := [0xA1, 0x70, 0xBE, 0xDA, 0x85, 0xBB];
    var s: seq<Byte> := [0xDA, 0x04, 0x52, 0x75];
    GroupRowColumn(Unpack(x), 7);
    assert SBoxRow(Group(Unpack(x), 7)) == 3 && SBoxColumn(Group(Unpack(x), 7)) == 13;
    OutputGroupBits(s, 7);
  }

  /** Round 10, S-boxes: A170BEDA85BB becomes DA045275. */
  lemma Round10Substitute()
    ensures Substitute(Unpack([0xA1, 0x70, 0xBE, 0xDA, 0x85, 0xBB])) == Unpack([0xDA, 0x04, 0x52, 0x75])
  {
    var x: seq<Byte> := [0xA1, 0x70, 0xBE, 0xDA, 0x85, 0xBB];
    var s: seq<Byte> := [0xDA, 0x04, 0x52, 0x75];
    forall k | 0 <= k < 8
      ensures SBox(k, Group(Unpack(x), k)) == OutputGroup(Unpack(s), k)
    {
      IndexCases(k, 8);
      if k == 0 { Round10SBox0(); } else if k == 1 { Round10SBox1(); }
      else if k == 2 { Round10SBox2(); } else if k == 3 { Round10SBox3(); }
      else if k == 4 { Round10SBox4(); } else if k == 5 { Round10SBox5(); }
      else if k == 6 { Round10SBox6(); } else { Round10SBox7(); }
    }
    SubstituteOfGroups(Unpack(x), Unpack(s));
  }

  /** Round 10, P: DA045275 becomes f = 62BC9C22. */
  lemma Round10Output()
    ensures PermuteOutput(Unpack([0xDA, 0x04, 0x52, 0x75])) == Unpack([0x62, 0xBC, 0x9C, 0x22])
  {
    var s: seq<Byte> := [0xDA, 0x04, 0x52, 0x75];
    var out: seq<Byte> := [0x62, 0xBC, 0x9C, 0x22];
    PShape();
    forall i | 0 <= i < 32
      ensures Unpack(s)[P[i]] == Unpack(out)[i]
    {
      IndexCases(i, 32);
    }
    PermuteBytes(P, s, out);
  }

  /** Round 10: (L, R) = (D5694B90, 247CC67A) becomes (247CC67A, B7D5D7B2). */
  lemma Round10()
    ensures F(Unpack([0x24, 0x7C, 0xC6, 0x7A]), Unpack([0xB1, 0xF3, 0x47, 0xBA, 0x46, 0x4F])) == Unpack([0x62, 0xBC, 0x9C, 0x22])
    ensures Round(CipherF, Halves(Unpack([0xD5, 0x69, 0x4B, 0x90]), Unpack([0x24, 0x7C, 0xC6, 0x7A])), Unpack([0xB1, 0xF3, 0x47, 0xBA, 0x46, 0x4F])) == Halves(Unpack([0x24, 0x7C, 0xC6, 0x7A]), Unpack([0xB7, 0xD5, 0xD7, 0xB2]))
  {
    var left: seq<Byte> := [0xD5, 0x69, 0x4B, 0x90];
    var right: seq<Byte> := [0x24, 0x7C, 0xC6, 0x7A];
    var key: seq<Byte> := [0xB1, 0xF3, 0x47, 0xBA, 0x46, 0x4F];
    var e: seq<Byte> := [0x10, 0x83, 0xF9, 0x60, 0xC3, 0xF4];
    var x: seq<Byte> := [0xA1, 0x70, 0xBE, 0xDA, 0x85, 0xBB];
    var s: seq<Byte> := [0xDA, 0x04, 0x52, 0x75];
    var out: seq<Byte> := [0x62, 0xBC, 0x9C, 0x22];
    var next: seq<Byte> := [0xB7, 0xD5, 0xD7, 0xB2];
    Round10Expand();
    Round10Substitute();
    Round10Output();
    forall j | 0 <= j < 6
      ensures x[j] == e[j] ^ key[j]
    {
      IndexCases(j, 6);
    }
    FOfStages(right, key, e, x, s, out);
    forall j | 0 <= j < 4
      ensures next[j] == left[j] ^ out[j]
    {
      IndexCases(j, 4);
    }
    RoundOfF(left, right, key, out, next);
  }

  /** Round 11, E: R = B7D5D7B2 expands to 5AFEABEAFDA5. */
  lemma Round11Expand()
    ensures Expand(Unpack([0xB7, 0xD5, 0xD7, 0xB2])) == Unpack([0x5A, 0xFE, 0xAB, 0xEA, 0xFD, 0xA5])
  {
    var r: seq<Byte> := [0xB7, 0xD5, 0xD7, 0xB2];
    var e: seq<Byte> := [0x5A, 0xFE, 0xAB, 0xEA, 0xFD, 0xA5];
    EShape();
    forall i | 0 <= i < 48
      ensures Unpack(r)[E[i]] == Unpack(e)[i]
    {
      IndexCases(i, 48);
    }
    PermuteBytes(E, r, e);
  }

  lemma Round11SBox0()
    ensures SBox(0, Group(Unpack([0x7B, 0xA1, 0x78, 0x34, 0x2E, 0x23]), 0)) == OutputGroup(Unpack([0x73, 0x05, 0xD1, 0x01]), 0)
  {
    var x: seq<Byte> := [0x7B, 0xA1, 0x78, 0x34, 0x2E, 0x23];
    var s: seq<Byte> := [0x73, 0x05, 0xD1, 0x01];
    GroupRowColumn(Unpack(x), 0);
    assert SBoxRow(Group(Unpack(x), 0)) == 0 && SBoxColumn(Group(Unpack(x), 0)) == 15;
    OutputGroupBits(s, 0);
  }

  lemma Round11SBox1()
    ensures SBox(1, Group(Unpack([0x7B, 0xA1, 0x78, 0x34, 0x2E, 0x23]), 1)) == OutputGroup(Unpack([0x73, 0x05, 0xD1, 0x01]), 1)
  {
    var x: seq<Byte> := [0x7B, 0xA1, 0x78, 0x34, 0x2E, 0x23];
    var s: seq<Byte> := [0x73, 0x05, 0xD1, 0x01];
    GroupRowColumn(Unpack(x), 1);
    assert SBoxRow(Group(Unpack(x), 1)) == 2 && SBoxColumn(Group(Unpack(x), 1)) == 13;
    OutputGroupBits(s, 1);
  }

  lemma Round11SBox2()
    ensures SBox(2, Group(Unpack([0x7B, 0xA1, 0x78, 0x34, 0x2E, 0x23]), 2)) == OutputGroup(Unpack([0x73, 0x05, 0xD1, 0x01]), 2)
  {
    var x: seq<Byte> := [0x7B, 0xA1, 0x78, 0x34, 0x2E, 0x23];
    var s: seq<Byte> := [0x73, 0x05, 0xD1, 0x01];
    GroupRowColumn(Unpack(x), 2);
    assert SBoxRow(Group(Unpack(x), 2)) == 1 && SBoxColumn(Group(Unpack(x), 2)) == 2;
    OutputGroupBits(s, 2);
  }

  lemma Round11SBox3()
    ensures SBox(3, Group(Unpack([0x7B, 0xA1, 0x78, 0x34, 0x2E, 0x23]), 3)) == OutputGroup(Unpack([0x73, 0x05, 0xD1, 0x01]), 3)
  {
    var x: seq<Byte> := [0x7B, 0xA1, 0x78, 0x34, 0x2E, 0x23];
    var s: seq<Byte> := [0x73, 0x05, 0xD1, 0x01];
    GroupRowColumn(Unpack(x), 3);
    assert SBoxRow(Group(Unpack(x), 3)) == 2 && SBoxColumn(Group(Unpack(x), 3)) == 12;
    OutputGroupBits(s, 3);
  }

  lemma Round11SBox4()
    ensures SBox(4, Group(Unpack([0x7B, 0xA1, 0x78, 0x34, 0x2E, 0x23]), 4)) == OutputGroup(Unpack([0x73, 0x05, 0xD1, 0x01]), 4)
  {
    var x: seq<Byte> := [0x7B, 0xA1, 0x78, 0x34, 0x2E, 0x23];
    var s: seq<Byte> := [0x73, 0x05, 0xD1, 0x01];
    GroupRowColumn(Unpack(x), 4);
    assert SBoxRow(Group(Unpack(x), 4)) == 1 && SBoxColumn(Group(Unpack(x), 4)) == 6;
    OutputGroupBits(s, 4);
  }

  lemma Round11SBox5()
    ensures SBox(5, Group(Unpack([0x7B, 0xA1, 0x78, 0x34, 0x2E, 0x23]), 5)) == OutputGroup(Unpack([0x73, 0x05, 0xD1, 0x01]), 5)
  {
    var x: seq<Byte> := [0x7B, 0xA1, 0x78, 0x34, 0x2E, 0x23];
    var s: seq<Byte> := [0x73, 0x05, 0xD1, 0x01];
    GroupRowColumn(Unpack(x), 5);
    assert SBoxRow(Group(Unpack(x), 5)) == 0 && SBoxColumn(Group(Unpack(x), 5)) == 1;
    OutputGroupBits(s, 5);
  }

  lemma Round11SBox6()
    ensures SBox(6, Group(Unpack([0x7B, 0xA1, 0x78, 0x34, 0x2E, 0x23]), 6)) == OutputGroup(Unpack([0x73, 0x05, 0xD1, 0x01]), 6)
  {
    var x: seq<Byte> := [0x7B, 0xA1, 0x78, 0x34, 0x2E, 0x23];
    var s: seq<Byte> := [0x73, 0x05, 0xD1, 0x01];
    GroupRowColumn(Unpack(x), 6);
    assert SBoxRow(Group(Unpack(x), 6)) == 2 && SBoxColumn(Group(Unpack(x), 6)) == 12;
    OutputGroupBits(s, 6);
  }

  lemma Round11SBox7()
    ensures SBox(7, Group(Unpack([0x7B, 0xA1, 0x78, 0x34, 0x2E, 0x23]), 7)) == OutputGroup(Unpack([0x73, 0x05, 0xD1, 0x01]), 7)
  {
    var x: seq<Byte> := [0x7B, 0xA1, 0x78, 0x34, 0x2E, 0x23];
    var s: seq<Byte> := [0x73, 0x05, 0xD1, 0x01];
    GroupRowColumn(Unpack(x), 7);
    assert SBoxRow(Group(Unpack(x), 7)) == 3 && SBoxColumn(Group(Unpack(x), 7)) == 1;
    OutputGroupBits(s, 7);
  }

  /** Round 11, S-boxes: 7BA178342E23 becomes 7305D101. */
  lemma Round11Substitute()
    ensures Substitute(Unpack([0x7B, 0xA1, 0x78, 0x34, 0x2E, 0x23])) == Unpack([0x73, 0x05, 0xD1, 0x01])
  {
    var x: seq<Byte> := [0x7B, 0xA1, 0x78, 0x34, 0x2E, 0x23];
    var s: seq<Byte> := [0x73, 0x05, 0xD1, 0x01];
    forall k | 0 <= k < 8
      ensures SBox(k, Group(Unpack(x), k)) == OutputGroup(Unpack(s), k)
    {
      IndexCases(k, 8);
      if k == 0 { Round11SBox0(); } else if k == 1 { Round11SBox1(); }
      else if k == 2 { Round11SBox2(); } else if k == 3 { Round11SBox3(); }
      else if k == 4 { Round11SBox4(); } else if k == 5 { Round11SBox5(); }
      else if k == 6 { Round11SBox6(); } else { Round11SBox7(); }
    }
    SubstituteOfGroups(Unpack(x), Unpack(s));
  }

  /** Round 11, P: 7305D101 becomes f = E104FA02. */
  lemma Round11Output()
    ensures PermuteOutput(Unpack([0x73, 0x05, 0xD1, 0x01])) == Unpack([0xE1, 0x04, 0xFA, 0x02])
  {
    var s: seq<Byte> := [0x73, 0x05, 0xD1, 0x01];
    var out: seq<Byte> := [0xE1, 0x04, 0xFA, 0x02];
    PShape();
    forall i | 0 <= i < 32
      ensures Unpack(s)[P[i]] == Unpack(out)[i]
    {
      IndexCases(i, 32);
    }
    PermuteBytes(P, s, out);
  }

  /** Round 11: (L, R) = (247CC67A, B7D5D7B2) becomes (B7D5D7B2, C5783C78). */
  lemma Round11()
    ensures F(Unpack([0xB7, 0xD5, 0xD7, 0xB2]), Unpack([0x21, 0x5F, 0xD3, 0xDE, 0xD3, 0x86])) == Unpack([0xE1, 0x04, 0xFA, 0x02])
    ensures Round(CipherF, Halves(Unpack([0x24, 0x7C, 0xC6, 0x7A]), Unpack([0xB7, 0xD5, 0xD7, 0xB2])), Unpack([0x21, 0x5F, 0xD3, 0xDE, 0xD3, 0x86])) == Halves(Unpack([0xB7, 0xD5, 0xD7, 0xB2]), Unpack([0xC5, 0x78, 0x3C, 0x78]))
  {
    var left: seq<Byte> := [0x24, 0x7C, 0xC6, 0x7A];
    var right: seq<Byte> := [0xB7, 0xD5, 0xD7, 0xB2];
    var key: seq<Byte> := [0x21, 0x5F, 0xD3, 0xDE, 0xD3, 0x86];
    var e: seq<Byte> := [0x5A, 0xFE, 0xAB, 0xEA, 0xFD, 0xA5];
    var x: seq<Byte> := [0x7B, 0xA1, 0x78, 0x34, 0x2E, 0x23];
    var s: seq<Byte> := [0x73, 0x05, 0xD1, 0x01];
    var out: seq<Byte> := [0xE1, 0x04, 0xFA, 0x02];
    var next: seq<Byte> := [0xC5, 0x78, 0x3C, 0x78];
    Round11Expand();
    Round11Substitute();
    Round11Output();
    forall j | 0 <= j < 6
      ensures x[j] == e[j] ^ key[j]
    {
      IndexCases(j, 6);
    }
    FOfStages(right, key, e, x, s, out);
    forall j | 0 <= j < 4
      ensures next[j] == left[j] ^ out[j]
    {
      IndexCases(j, 4);
    }
    RoundOfF(left, right, key, out, next);
  }

  /** Round 12, E: R = C5783C78 expands to 60ABF01F83F1. */
  lemma Round12Expand()
    ensures Expand(Unpack([0xC5, 0x78, 0x3C, 0x78])) == Unpack([0x60, 0xAB, 0xF0, 0x1F, 0x83, 0xF1])
  {
    var r: seq<Byte> := [0xC5, 0x78, 0x3C, 0x78];
    var e: seq<Byte> := [0x60, 0xAB, 0xF0, 0x1F, 0x83, 0xF1];
    EShape();
    forall i | 0 <= i < 48
      ensures Unpack(r)[E[i]] == Unpack(e)[i]
    {
      IndexCases(i, 48);
    }
    PermuteBytes(E, r, e);
  }

  lemma Round12SBox0()
    ensures SBox(0, Group(Unpack([0x15, 0xDA, 0x05, 0x8B, 0xE4, 0x18]), 0)) == OutputGroup(Unpack([0x7B, 0x8B, 0x26, 0x35]), 0)
  {
    var x: seq<Byte> := [0x15, 0xDA, 0x05, 0x8B, 0xE4, 0x18];
    var s: seq<Byte> := [0x7B, 0x8B, 0x26, 0x35];
    GroupRowColumn(Unpack(x), 0);
    assert SBoxRow(Group(Unpack(x), 0)) == 1 && SBoxColumn(Group(Unpack(x), 0)) == 2;
    OutputGroupBits(s, 0);
  }

  lemma Round12SBox1()
    ensures SBox(1, Group(Unpack([0x15, 0xDA, 0x05, 0x8B, 0xE4, 0x18]), 1)) == OutputGroup(Unpack([0x7B, 0x8B, 0x26, 0x35]), 1)
  {
    var x: seq<Byte> := [0x15, 0xDA, 0x05, 0x8B, 0xE4, 0x18];
    var s: seq<Byte> := [0x7B, 0x8B, 0x26, 0x35];
    GroupRowColumn(Unpack(x), 1);
    assert SBoxRow(Group(Unpack(x), 1)) == 1 && SBoxColumn(Group(Unpack(x), 1)) == 14;
    OutputGroupBits(s, 1);
  }

  lemma Round12SBox2()
    ensures SBox(2, Group(Unpack([0x15, 0xDA, 0x05, 0x8B, 0xE4, 0x18]), 2)) == OutputGroup(Unpack([0x7B, 0x8B, 0x26, 0x35]), 2)
  {
    var x: seq<Byte> := [0x15, 0xDA, 0x05, 0x8B, 0xE4, 0x18];
    var s: seq<Byte> := [0x7B, 0x8B, 0x26, 0x35];
    GroupRowColumn(Unpack(x), 2);
    assert SBoxRow(Group(Unpack(x), 2)) == 2 && SBoxColumn(Group(Unpack(x), 2)) == 4;
    OutputGroupBits(s, 2);
  }

  lemma Round12SBox3()
    ensures SBox(3, Group(Unpack([0x15, 0xDA, 0x05, 0x8B, 0xE4, 0x18]), 3)) == OutputGroup(Unpack([0x7B, 0x8B, 0x26, 0x35]), 3)
  {
    var x: seq<Byte> := [0x15, 0xDA, 0x05, 0x8B, 0xE4, 0x18];
    var s: seq<Byte> := [0x7B, 0x8B, 0x26, 0x35];
    GroupRowColumn(Unpack(x), 3);
    assert SBoxRow(Group(Unpack(x), 3)) == 1 && SBoxColumn(Group(Unpack(x), 3)) == 2;
    OutputGroupBits(s, 3);
  }

  lemma Round12SBox4()
    ensures SBox(4, Group(Unpack([0x15, 0xDA, 0x05, 0x8B, 0xE4, 0x18]), 4)) == OutputGroup(Unpack([0x7B, 0x8B, 0x26, 0x35]), 4)
  {
    var x: seq<Byte> := [0x15, 0xDA, 0x05, 0x8B, 0xE4, 0x18];
    var s: seq<Byte> := [0x7B, 0x8B, 0x26, 0x35];
    GroupRowColumn(Unpack(x), 4);
    assert SBoxRow(Group(Unpack(x), 4)) == 2 && SBoxColumn(Group(Unpack(x), 4)) == 1;
    OutputGroupBits(s, 4);
  }

  lemma Round12SBox5()
    ensures SBox(5, Group(Unpack([0x15, 0xDA, 0x05, 0x8B, 0xE4, 0x18]), 5)) == OutputGroup(Unpack([0x7B, 0x8B, 0x26, 0x35]), 5)
  {
    var x: seq<Byte> := [0x15, 0xDA, 0x05, 0x8B, 0xE4, 0x18];
    var s: seq<Byte> := [0x7B, 0x8B, 0x26, 0x35];
    GroupRowColumn(Unpack(x), 5);
    assert SBoxRow(Group(Unpack(x), 5)) == 2 && SBoxColumn(Group(Unpack(x), 5)) == 15;
    OutputGroupBits(s, 5);
  }

  lemma Round12SBox6()
    ensures SBox(6, Group(Unpack([0x15, 0xDA, 0x05, 0x8B, 0xE4, 0x18]), 6)) == OutputGroup(Unpack([0x7B, 0x8B, 0x26, 0x35]), 6)
  {
    var x: seq<Byte> := [0x15, 0xDA, 0x05, 0x8B, 0xE4, 0x18];
    var s: seq<Byte> := [0x7B, 0x8B, 0x26, 0x35];
    GroupRowColumn(Unpack(x), 6);
    assert SBoxRow(Group(Unpack(x), 6)) == 0 && SBoxColumn(Group(Unpack(x), 6)) == 8;
    OutputGroupBits(s, 6);
  }

  lemma Round12SBox7()
    ensures SBox(7, Group(Unpack([0x15, 0xDA, 0x05, 0x8B, 0xE4, 0x18]), 7)) == OutputGroup(Unpack([0x7B, 0x8B, 0x26, 0x35]), 7)
  {
    var x: seq<Byte> := [0x15, 0xDA, 0x05, 0x8B, 0xE4, 0x18];
    var s: seq<Byte> := [0x7B, 0x8B, 0x26, 0x35];
    GroupRowColumn(Unpack(x), 7);
    assert SBoxRow(Group(Unpack(x), 7)) == 0 && SBoxColumn(Group(Unpack(x), 7)) == 12;
    OutputGroupBits(s, 7);
  }

  /** Round 12, S-boxes: 15DA058BE418 becomes 7B8B2635. */
  lemma Round12Substitute()
    ensures Substitute(Unpack([0x15, 0xDA, 0x05, 0x8B, 0xE4, 0x18])) == Unpack([0x7B, 0x8B, 0x26, 0x35])
  {
    var x: seq<Byte> := [0x15, 0xDA, 0x05, 0x8B, 0xE4, 0x18];
    var s: seq<Byte> := [0x7B, 0x8B, 0x26, 0x35];
    forall k | 0 <= k < 8
      ensures SBox(k, Group(Unpack(x), k)) == OutputGroup(Unpack(s), k)
    {
      IndexCases(k, 8);
      if k == 0 { Round12SBox0(); } else if k == 1 { Round12SBox1(); }
      else if k == 2 { Round12SBox2(); } else if k == 3 { Round12SBox3(); }
      else if k == 4 { Round12SBox4(); } else if k == 5 { Round12SBox5(); }
      else if k == 6 { Round12SBox6(); } else { Round12SBox7(); }
    }
    SubstituteOfGroups(Unpack(x), Unpack(s));
  }

  /** Round 12, P: 7B8B2635 becomes f = C268CFEA. */
  lemma Round12Output()
    ensures PermuteOutput(Unpack([0x7B, 0x8B, 0x26, 0x35])) == Unpack([0xC2, 0x68, 0xCF, 0xEA])
  {
    var s: seq<Byte> := [0x7B, 0x8B, 0x26, 0x35];
    var out: seq<Byte> := [0xC2, 0x68, 0xCF, 0xEA];
    PShape();
    forall i | 0 <= i < 32
      ensures Unpack(s)[P[i]] == Unpack(out)[i]
    {
      IndexCases(i, 32);
    }
    PermuteBytes(P, s, out);
  }

  /** Round 12: (L, R) = (B7D5D7B2, C5783C78) becomes (C5783C78, 75BD1858). */
  lemma Round12()
    ensures F(Unpack([0xC5, 0x78, 0x3C, 0x78]), Unpack([0x75, 0x71, 0xF5, 0x94, 0x67, 0xE9])) == Unpack([0xC2, 0x68, 0xCF, 0xEA])
    ensures Round(CipherF, Halves(Unpack([0xB7, 0xD5, 0xD7, 0xB2]), Unpack([0xC5, 0x78, 0x3C, 0x78])), Unpack([0x75, 0x71, 0xF5, 0x94, 0x67, 0xE9])) == Halves(Unpack([0xC5, 0x78, 0x3C, 0x78]), Unpack([0x75, 0xBD, 0x18, 0x58]))
  {
    var left: seq<Byte> := [0xB7, 0xD5, 0xD7, 0xB2];
    var right: seq<Byte> := [0xC5, 0x78, 0x3C, 0x78];
    var key: seq<Byte> := [0x75, 0x71, 0xF5, 0x94, 0x67, 0xE9];
    var e: seq<Byte> := [0x60, 0xAB, 0xF0, 0x1F, 0x83, 0xF1];
    var x: seq<Byte> := [0x15, 0xDA, 0x05, 0x8B, 0xE4, 0x18];
    var s: seq<Byte> := [0x7B, 0x8B, 0x26, 0x35];
    var out: seq<Byte> := [0xC2, 0x68, 0xCF, 0xEA];
    var next: seq<Byte> := [0x75, 0xBD, 0x18, 0x58];
    Round12Expand();
    Round12Substitute();
    Round12Output();
    forall j | 0 <= j < 6
      ensures x[j] == e[j] ^ key[j]
    {
      IndexCases(j, 6);
    }
    FOfStages(right, key, e, x, s, out);
    forall j | 0 <= j < 4
      ensures next[j] == left[j] ^ out[j]
    {
      IndexCases(j, 4);
    }
    RoundOfF(left, right, key, out, next);
  }

  /** Round 13, E: R = 75BD1858 expands to 3ABDFA8F02F0. */
  lemma Round13Expand()
    ensures Expand(Unpack([0x75, 0xBD, 0x18, 0x58])) == Unpack([0x3A, 0xBD, 0xFA, 0x8F, 0x02, 0xF0])
  {
    var r: seq<Byte> := [0x75, 0xBD, 0x18, 0x58];
    var e: seq<Byte> := [0x3A, 0xBD, 0xFA, 0x8F, 0x02, 0xF0];
    EShape();
    forall i | 0 <= i < 48
      ensures Unpack(r)[E[i]] == Unpack(e)[i]
    {
      IndexCases(i, 48);
    }
    PermuteBytes(E, r, e);
  }

  lemma Round13SBox0()
    ensures SBox(0, Group(Unpack([0xAD, 0x78, 0x2B, 0x75, 0xB8, 0xB1]), 0)) == OutputGroup(Unpack([0x9A, 0xD1, 0x8B, 0x4F]), 0)
  {
    var x: seq<Byte> := [0xAD, 0x78, 0x2B, 0x75, 0xB8, 0xB1];
    var s: seq<Byte> := [0x9A, 0xD1, 0x8B, 0x4F];
    GroupRowColumn(Unpack(x), 0);
    assert SBoxRow(Group(Unpack(x), 0)) == 3 && SBoxColumn(Group(Unpack(x), 0)) == 5;
    OutputGroupBits(s, 0);
  }

  lemma Round13SBox1()
    ensures SBox(1, Group(Unpack([0xAD, 0x78, 0x2B, 0x75, 0xB8, 0xB1]), 1)) == OutputGroup(Unpack([0x9A, 0xD1, 0x8B, 0x4F]), 1)
  {
    var x: seq<Byte> := [0xAD, 0x78, 0x2B, 0x75, 0xB8, 0xB1];
    var s: seq<Byte> := [0x9A, 0xD1, 0x8B, 0x4F];
    GroupRowColumn(Unpack(x), 1);
    assert SBoxRow(Group(Unpack(x), 1)) == 1 && SBoxColumn(Group(Unpack(x), 1)) == 11;
    OutputGroupBits(s, 1);
  }

  lemma Round13SBox2()
    ensures SBox(2, Group(Unpack([0xAD, 0x78, 0x2B, 0x75, 0xB8, 0xB1]), 2)) == OutputGroup(Unpack([0x9A, 0xD1, 0x8B, 0x4F]), 2)
  {
    var x: seq<Byte> := [0xAD, 0x78, 0x2B, 0x75, 0xB8, 0xB1];
    var s: seq<Byte> := [0x9A, 0xD1, 0x8B, 0x4F];
    GroupRowColumn(Unpack(x), 2);
    assert SBoxRow(Group(Unpack(x), 2)) == 2 && SBoxColumn(Group(Unpack(x), 2)) == 0;
    OutputGroupBits(s, 2);
  }

  lemma Round13SBox3()
    ensures SBox(3, Group(Unpack([0xAD, 0x78, 0x2B, 0x75, 0xB8, 0xB1]), 3)) == OutputGroup(Unpack([0x9A, 0xD1, 0x8B, 0x4F]), 3)
  {
    var x: seq<Byte> := [0xAD, 0x78, 0x2B, 0x75, 0xB8, 0xB1];
    var s: seq<Byte> := [0x9A, 0xD1, 0x8B, 0x4F];
    GroupRowColumn(Unpack(x), 3);
    assert SBoxRow(Group(Unpack(x), 3)) == 3 && SBoxColumn(Group(Unpack(x), 3)) == 5;
    OutputGroupBits(s, 3);
  }

  lemma Round13SBox4()
    ensures SBox(4, Group(Unpack([0xAD, 0x78, 0x2B, 0x75, 0xB8, 0xB1]), 4)) == OutputGroup(Unpack([0x9A, 0xD1, 0x8B, 0x4F]), 4)
  {
    var x: seq<Byte> := [0xAD, 0x78, 0x2B, 0x75, 0xB8, 0xB1];
    var s: seq<Byte> := [0x9A, 0xD1, 0x8B, 0x4F];
    GroupRowColumn(Unpack(x), 4);
    assert SBoxRow(Group(Unpack(x), 4)) == 1 && SBoxColumn(Group(Unpack(x), 4)) == 14;
    OutputGroupBits(s, 4);
  }

  lemma Round13SBox5()
    ensures SBox(5, Group(Unpack([0xAD, 0x78, 0x2B, 0x75, 0xB8, 0xB1]), 5)) == OutputGroup(Unpack([0x9A, 0xD1, 0x8B, 0x4F]), 5)
  {
    var x: seq<Byte> := [0xAD, 0x78, 0x2B, 0x75, 0xB8, 0xB1];
    var s: seq<Byte> := [0x9A, 0xD1, 0x8B, 0x4F];
    GroupRowColumn(Unpack(x), 5);
    assert SBoxRow(Group(Unpack(x), 5)) == 1 && SBoxColumn(Group(Unpack(x), 5)) == 13;
    OutputGroupBits(s, 5);
  }

  lemma Round13SBox6()
    ensures SBox(6, Group(Unpack([0xAD, 0x78, 0x2B, 0x75, 0xB8, 0xB1]), 6)) == OutputGroup(Unpack([0x9A, 0xD1, 0x8B, 0x4F]), 6)
  {
    var x: seq<Byte> := [0xAD, 0x78, 0x2B, 0x75, 0xB8, 0xB1];
    var s: seq<Byte> := [0x9A, 0xD1, 0x8B, 0x4F];
    GroupRowColumn(Unpack(x), 6);
    assert SBoxRow(Group(Unpack(x), 6)) == 2 && SBoxColumn(Group(Unpack(x), 6)) == 1;
    OutputGroupBits(s, 6);
  }

  lemma Round13SBox7()
    ensures SBox(7, Group(Unpack([0xAD, 0x78, 0x2B, 0x75, 0xB8, 0xB1]), 7)) == OutputGroup(Unpack([0x9A, 0xD1, 0x8B, 0x4F]), 7)
  {
    var x: seq<Byte> := [0xAD, 0x78, 0x2B, 0x75, 0xB8, 0xB1];
    var s: seq<Byte> := [0x9A, 0xD1, 0x8B, 0x4F];
    GroupRowColumn(Unpack(x), 7);
    assert SBoxRow(Group(Unpack(x), 7)) == 3 && SBoxColumn(Group(Unpack(x), 7)) == 8;
    OutputGroupBits(s, 7);
  }

  /** Round 13, S-boxes: AD782B75B8B1 becomes 9AD18B4F. */
  lemma Round13Substitute()
    ensures Substitute(Unpack([0xAD, 0x78, 0x2B, 0x75, 0xB8, 0xB1])) == Unpack([0x9A, 0xD1, 0x8B, 0x4F])
  {
    var x: seq<Byte> := [0xAD, 0x78, 0x2B, 0x75, 0xB8, 0xB1];
    var s: seq<Byte> := [0x9A, 0xD1, 0x8B, 0x4F];
    forall k | 0 <= k < 8
      ensures SBox(k, Group(Unpack(x), k)) == OutputGroup(Unpack(s), k)
    {
      IndexCases(k, 8);
      if k == 0 { Round13SBox0(); } else if k == 1 { Round13SBox1(); }
      else if k == 2 { Round13SBox2(); } else if k == 3 { Round13SBox3(); }
      else if k == 4 { Round13SBox4(); } else if k == 5 { Round13SBox5(); }
      else if k == 6 { Round13SBox6(); } else { Round13SBox7(); }
    }
    SubstituteOfGroups(Unpack(x), Unpack(s));
  }

  /** Round 13, P: 9AD18B4F becomes f = DDBB2922. */
  lemma Round13Output()
    ensures PermuteOutput(Unpack([0x9A, 0xD1, 0x8B, 0x4F])) == Unpack([0xDD, 0xBB, 0x29, 0x22])
  {
    var s: seq<Byte> := [0x9A, 0xD1, 0x8B, 0x4F];
    var out: seq<Byte> := [0xDD, 0xBB, 0x29, 0x22];
    PShape();
    forall i | 0 <= i < 32
      ensures Unpack(s)[P[i]] == Unpack(out)[i]
    {
      IndexCases(i, 32);
    }
    PermuteBytes(P, s, out);
  }

  /** Round 13: (L, R) = (C5783C78, 75BD1858) becomes (75BD1858, 18C3155A). */
  lemma Round13()
    ensures F(Unpack([0x75, 0xBD, 0x18, 0x58]), Unpack([0x97, 0xC5, 0xD1, 0xFA, 0xBA, 0x41])) == Unpack([0xDD, 0xBB, 0x29, 0x22])
    ensures Round(CipherF, Halves(Unpack([0xC5, 0x78, 0x3C, 0x78]), Unpack([0x75, 0xBD, 0x18, 0x58])), Unpack([0x97, 0xC5, 0xD1, 0xFA, 0xBA, 0x41])) == Halves(Unpack([0x75, 0xBD, 0x18, 0x58]), Unpack([0x18, 0xC3, 0x15, 0x5A]))
  {
    var left: seq<Byte> := [0xC5, 0x78, 0x3C, 0x78];
    var right: seq<Byte> := [0x75, 0xBD, 0x18, 0x58];
    var key: seq<Byte> := [0x97, 0xC5, 0xD1, 0xFA, 0xBA, 0x41];
    var e: seq<Byte> := [0x3A, 0xBD, 0xFA, 0x8F, 0x02, 0xF0];
    var x: seq<Byte> := [0xAD, 0x78, 0x2B, 0x75, 0xB8, 0xB1];
    var s: seq<Byte> := [0x9A, 0xD1, 0x8B, 0x4F];
    var out: seq<Byte> := [0xDD, 0xBB, 0x29, 0x22];
    var next: seq<Byte> := [0x18, 0xC3, 0x15, 0x5A];
    Round13Expand();
    Round13Substitute();
    Round13Output();
    forall j | 0 <= j < 6
      ensures x[j] == e[j] ^ key[j]
    {
      IndexCases(j, 6);
    }
    FOfStages(right, key, e, x, s, out);
    forall j | 0 <= j < 4
      ensures next[j] == left[j] ^ out[j]
    {
      IndexCases(j, 4);
    }
    RoundOfF(left, right, key, out, next);
  }

  /** Round 14, E: R = 18C3155A expands to 0F16068AAAF4. */
  lemma Round14Expand()
    ensures Expand(Unpack([0x18, 0xC3, 0x15, 0x5A])) == Unpack([0x0F, 0x16, 0x06, 0x8A, 0xAA, 0xF4])
  {
    var r: seq<Byte> := [0x18, 0xC3, 0x15, 0x5A];
    var e: seq<Byte> := [0x0F, 0x16, 0x06, 0x8A, 0xAA, 0xF4];
    EShape();
    forall i | 0 <= i < 48
      ensures Unpack(r)[E[i]] == Unpack(e)[i]
    {
      IndexCases(i, 48);
    }
    PermuteBytes(E, r, e);
  }

  lemma Round14SBox0()
    ensures SBox(0, Group(Unpack([0x50, 0x55, 0xB1, 0x78, 0x4D, 0xCE]), 0)) == OutputGroup(Unpack([0x64, 0x79, 0x9A, 0xF1]), 0)
  {
    var x: seq<Byte> := [0x50, 0x55, 0xB1, 0x78, 0x4D, 0xCE];
    var s: seq<Byte> := [0x64, 0x79, 0x9A, 0xF1];
    GroupRowColumn(Unpack(x), 0);
    assert SBoxRow(Group(Unpack(x), 0)) == 0 && SBoxColumn(Group(Unpack(x), 0)) == 10;
    OutputGroupBits(s, 0);
  }

  lemma Round14SBox1()
    ensures SBox(1, Group(Unpack([0x50, 0x55, 0xB1, 0x78, 0x4D, 0xCE]), 1)) == OutputGroup(Unpack([0x64, 0x79, 0x9A, 0xF1]), 1)
  {
    var x: seq<Byte> := [0x50, 0x55, 0xB1, 0x78, 0x4D, 0xCE];
    var s: seq<Byte> := [0x64, 0x79, 0x9A, 0xF1];
    GroupRowColumn(Unpack(x), 1);
    assert SBoxRow(Group(Unpack(x), 1)) == 1 && SBoxColumn(Group(Unpack(x), 1)) == 2;
    OutputGroupBits(s, 1);
  }

  lemma Round14SBox2()
    ensures SBox(2, Group(Unpack([0x50, 0x55, 0xB1, 0x78, 0x4D, 0xCE]), 2)) == OutputGroup(Unpack([0x64, 0x79, 0x9A, 0xF1]), 2)
  {
    var x: seq<Byte> := [0x50, 0x55, 0xB1, 0x78, 0x4D, 0xCE];
    var s: seq<Byte> := [0x64, 0x79, 0x9A, 0xF1];
    GroupRowColumn(Unpack(x), 2);
    assert SBoxRow(Group(Unpack(x), 2)) == 0 && SBoxColumn(Group(Unpack(x), 2)) == 11;
    OutputGroupBits(s, 2);
  }

  lemma Round14SBox3()
    ensures SBox(3, Group(Unpack([0x50, 0x55, 0xB1, 0x78, 0x4D, 0xCE]), 3)) == OutputGroup(Unpack([0x64, 0x79, 0x9A, 0xF1]), 3)
  {
    var x: seq<Byte> := [0x50, 0x55, 0xB1, 0x78, 0x4D, 0xCE];
    var s: seq<Byte> := [0x64, 0x79, 0x9A, 0xF1];
    GroupRowColumn(Unpack(x), 3);
    assert SBoxRow(Group(Unpack(x), 3)) == 3 && SBoxColumn(Group(Unpack(x), 3)) == 8;
    OutputGroupBits(s, 3);
  }

  lemma Round14SBox4()
    ensures SBox(4, Group(Unpack([0x50, 0x55, 0xB1, 0x78, 0x4D, 0xCE]), 4)) == OutputGroup(Unpack([0x64, 0x79, 0x9A, 0xF1]), 4)
  {
    var x: seq<Byte> := [0x50, 0x55, 0xB1, 0x78, 0x4D, 0xCE];
    var s: seq<Byte> := [0x64, 0x79, 0x9A, 0xF1];
    GroupRowColumn(Unpack(x), 4);
    assert SBoxRow(Group(Unpack(x), 4)) == 0 && SBoxColumn(Group(Unpack(x), 4)) == 15;
    OutputGroupBits(s, 4);
  }

  lemma Round14SBox5()
    ensures SBox(5, Group(Unpack([0x50, 0x55, 0xB1, 0x78, 0x4D, 0xCE]), 5)) == OutputGroup(Unpack([0x64, 0x79, 0x9A, 0xF1]), 5)
  {
    var x: seq<Byte> := [0x50, 0x55, 0xB1, 0x78, 0x4D, 0xCE];
    var s: seq<Byte> := [0x64, 0x79, 0x9A, 0xF1];
    GroupRowColumn(Unpack(x), 5);
    assert SBoxRow(Group(Unpack(x), 5)) == 0 && SBoxColumn(Group(Unpack(x), 5)) == 2;
    OutputGroupBits(s, 5);
  }

  lemma Round14SBox6()
    ensures SBox(6, Group(Unpack([0x50, 0x55, 0xB1, 0x78, 0x4D, 0xCE]), 6)) == OutputGroup(Unpack([0x64, 0x79, 0x9A, 0xF1]), 6)
  {
    var x: seq<Byte> := [0x50, 0x55, 0xB1, 0x78, 0x4D, 0xCE];
    var s: seq<Byte> := [0x64, 0x79, 0x9A, 0xF1];
    GroupRowColumn(Unpack(x), 6);
    assert SBoxRow(Group(Unpack(x), 6)) == 3 && SBoxColumn(Group(Unpack(x), 6)) == 11;
    OutputGroupBits(s, 6);
  }

  lemma Round14SBox7()
    ensures SBox(7, Group(Unpack([0x50, 0x55, 0xB1, 0x78, 0x4D, 0xCE]), 7)) == OutputGroup(Unpack([0x64, 0x79, 0x9A, 0xF1]), 7)
  {
    var x: seq<Byte> := [0x50, 0x55, 0xB1, 0x78, 0x4D, 0xCE];
    var s: seq<Byte> := [0x64, 0x79, 0x9A, 0xF1];
    GroupRowColumn(Unpack(x), 7);
    assert SBoxRow(Group(Unpack(x), 7)) == 0 && SBoxColumn(Group(Unpack(x), 7)) == 7;
    OutputGroupBits(s, 7);
  }

  /** Round 14, S-boxes: 5055B1784DCE becomes 64799AF1. */
  lemma Round14Substitute()
    ensures Substitute(Unpack([0x50, 0x55, 0xB1, 0x78, 0x4D, 0xCE])) == Unpack([0x64, 0x79, 0x9A, 0xF1])
  {
    var x: seq<Byte> := [0x50, 0x55, 0xB1, 0x78, 0x4D, 0xCE];
    var s: seq<Byte> := [0x64, 0x79, 0x9A, 0xF1];
    forall k | 0 <= k < 8
      ensures SBox(k, Group(Unpack(x), k)) == OutputGroup(Unpack(s), k)
    {
      IndexCases(k, 8);
      if k == 0 { Round14SBox0(); } else if k == 1 { Round14SBox1(); }
      else if k == 2 { Round14SBox2(); } else if k == 3 { Round14SBox3(); }
      else if k == 4 { Round14SBox4(); } else if k == 5 { Round14SBox5(); }
      else if k == 6 { Round14SBox6(); } else { Round14SBox7(); }
    }
    SubstituteOfGroups(Unpack(x), Unpack(s));
  }

  /** Round 14, P: 64799AF1 becomes f = B7318E55. */
  lemma Round14Output()
    ensures PermuteOutput(Unpack([0x64, 0x79, 0x9A, 0xF1])) == Unpack([0xB7, 0x31, 0x8E, 0x55])
  {
    var s: seq<Byte> := [0x64, 0x79, 0x9A, 0xF1];
    var out: seq<Byte> := [0xB7, 0x31, 0x8E, 0x55];
    PShape();
    forall i | 0 <= i < 32
      ensures Unpack(s)[P[i]] == Unpack(out)[i]
    {
      IndexCases(i, 32);
    }
    PermuteBytes(P, s, out);
  }

  /** Round 14: (L, R) = (75BD1858, 18C3155A) becomes (18C3155A, C28C960D). */
  lemma Round14()
    ensures F(Unpack([0x18, 0xC3, 0x15, 0x5A]), Unpack([0x5F, 0x43, 0xB7, 0xF2, 0xE7, 0x3A])) == Unpack([0xB7, 0x31, 0x8E, 0x55])
    ensures Round(CipherF, Halves(Unpack([0x75, 0xBD, 0x18, 0x58]), Unpack([0x18, 0xC3, 0x15, 0x5A])), Unpack([0x5F, 0x43, 0xB7, 0xF2, 0xE7, 0x3A])) == Halves(Unpack([0x18, 0xC3, 0x15, 0x5A]), Unpack([0xC2, 0x8C, 0x96, 0x0D]))
  {
    var left: seq<Byte> := [0x75, 0xBD, 0x18, 0x58];
    var right: seq<Byte> := [0x18, 0xC3, 0x15, 0x5A];
    var key: seq<Byte> := [0x5F, 0x43, 0xB7, 0xF2, 0xE7, 0x3A];
    var e: seq<Byte> := [0x0F, 0x16, 0x06, 0x8A, 0xAA, 0xF4];
    var x: seq<Byte> := [0x50, 0x55, 0xB1, 0x78, 0x4D, 0xCE];
    var s: seq<Byte> := [0x64, 0x79, 0x9A, 0xF1];
    var out: seq<Byte> := [0xB7, 0x31, 0x8E, 0x55];
    var next: seq<Byte> := [0xC2, 0x8C, 0x96, 0x0D];
    Round14Expand();
    Round14Substitute();
    Round14Output();
    forall j | 0 <= j < 6
      ensures x[j] == e[j] ^ key[j]
    {
      IndexCases(j, 6);
    }
    FOfStages(right, key, e, x, s, out);
    forall j | 0 <= j < 4
      ensures next[j] == left[j] ^ out[j]
    {
      IndexCases(j, 4);
    }
    RoundOfF(left, right, key, out, next);
  }

  /** Round 15, E: R = C28C960D expands to E054594AC05B. */
  lemma Round15Expand()
    ensures Expand(Unpack([0xC2, 0x8C, 0x96, 0x0D])) == Unpack([0xE0, 0x54, 0x59, 0x4A, 0xC0, 0x5B])
  {
    var r: seq<Byte> := [0xC2, 0x8C, 0x96, 0x0D];
    var e: seq<Byte> := [0xE0, 0x54, 0x59, 0x4A, 0xC0, 0x5B];
    EShape();
    forall i | 0 <= i < 48
      ensures Unpack(r)[E[i]] == Unpack(e)[i]
    {
      IndexCases(i, 48);
    }
    PermuteBytes(E, r, e);
  }

  lemma Round15SBox0()
    ensures SBox(0, Group(Unpack([0x5F, 0xC5, 0xD4, 0x77, 0xFF, 0x51]), 0)) == OutputGroup(Unpack([0xB2, 0xE8, 0x8D, 0x3C]), 0)
  {
    var x: seq<Byte> := [0x5F, 0xC5, 0xD4, 0x77, 0xFF, 0x51];
    var s: seq<Byte> := [0xB2, 0xE8, 0x8D, 0x3C];
    GroupRowColumn(Unpack(x), 0);
    assert SBoxRow(Group(Unpack(x), 0)) == 1 && SBoxColumn(Group(Unpack(x), 0)) == 11;
    OutputGroupBits(s, 0);
  }

  lemma Round15SBox1()
    ensures SBox(1, Group(Unpack([0x5F, 0xC5, 0xD4, 0x77, 0xFF, 0x51]), 1)) == OutputGroup(Unpack([0xB2, 0xE8, 0x8D, 0x3C]), 1)
  {
    var x: seq<Byte> := [0x5F, 0xC5, 0xD4, 0x77, 0xFF, 0x51];
    var s: seq<Byte> := [0xB2, 0xE8, 0x8D, 0x3C];
    GroupRowColumn(Unpack(x), 1);
    assert SBoxRow(Group(Unpack(x), 1)) == 2 && SBoxColumn(Group(Unpack(x), 1)) == 14;
    OutputGroupBits(s, 1);
  }

  lemma Round15SBox2()
    ensures SBox(2, Group(Unpack([0x5F, 0xC5, 0xD4, 0x77, 0xFF, 0x51]), 2)) == OutputGroup(Unpack([0xB2, 0xE8, 0x8D, 0x3C]), 2)
  {
    var x: seq<Byte> := [0x5F, 0xC5, 0xD4, 0x77, 0xFF, 0x51];
    var s: seq<Byte> := [0xB2, 0xE8, 0x8D, 0x3C];
    GroupRowColumn(Unpack(x), 2);
    assert SBoxRow(Group(Unpack(x), 2)) == 1 && SBoxColumn(Group(Unpack(x), 2)) == 11;
    OutputGroupBits(s, 2);
  }

  lemma Round15SBox3()
    ensures SBox(3, Group(Unpack([0x5F, 0xC5, 0xD4, 0x77, 0xFF, 0x51]), 3)) == OutputGroup(Unpack([0xB2, 0xE8, 0x8D, 0x3C]), 3)
  {
    var x: seq<Byte> := [0x5F, 0xC5, 0xD4, 0x77, 0xFF, 0x51];
    var s: seq<Byte> := [0xB2, 0xE8, 0x8D, 0x3C];
    GroupRowColumn(Unpack(x), 3);
    assert SBoxRow(Group(Unpack(x), 3)) == 0 && SBoxColumn(Group(Unpack(x), 3)) == 10;
    OutputGroupBits(s, 3);
  }

  lemma Round15SBox4()
    ensures SBox(4, Group(Unpack([0x5F, 0xC5, 0xD4, 0x77, 0xFF, 0x51]), 4)) == OutputGroup(Unpack([0xB2, 0xE8, 0x8D, 0x3C]), 4)
  {
    var x: seq<Byte> := [0x5F, 0xC5, 0xD4, 0x77, 0xFF, 0x51];
    var s: seq<Byte> := [0xB2, 0xE8, 0x8D, 0x3C];
    GroupRowColumn(Unpack(x), 4);
    assert SBoxRow(Group(Unpack(x), 4)) == 1 && SBoxColumn(Group(Unpack(x), 4)) == 14;
    OutputGroupBits(s, 4);
  }

  lemma Round15SBox5()
    ensures SBox(5, Group(Unpack([0x5F, 0xC5, 0xD4, 0x77, 0xFF, 0x51]), 5)) == OutputGroup(Unpack([0xB2, 0xE8, 0x8D, 0x3C]), 5)
  {
    var x: seq<Byte> := [0x5F, 0xC5, 0xD4, 0x77, 0xFF, 0x51];
    var s: seq<Byte> := [0xB2, 0xE8, 0x8D, 0x3C];
    GroupRowColumn(Unpack(x), 5);
    assert SBoxRow(Group(Unpack(x), 5)) == 3 && SBoxColumn(Group(Unpack(x), 5)) == 15;
    OutputGroupBits(s, 5);
  }

  lemma Round15SBox6()
    ensures SBox(6, Group(Unpack([0x5F, 0xC5, 0xD4, 0x77, 0xFF, 0x51]), 6)) == OutputGroup(Unpack([0xB2, 0xE8, 0x8D, 0x3C]), 6)
  {
    var x: seq<Byte> := [0x5F, 0xC5, 0xD4, 0x77, 0xFF, 0x51];
    var s: seq<Byte> := [0xB2, 0xE8, 0x8D, 0x3C];
    GroupRowColumn(Unpack(x), 6);
    assert SBoxRow(Group(Unpack(x), 6)) == 3 && SBoxColumn(Group(Unpack(x), 6)) == 14;
    OutputGroupBits(s, 6);
  }

  lemma Round15SBox7()
    ensures SBox(7, Group(Unpack([0x5F, 0xC5, 0xD4, 0x77, 0xFF, 0x51]), 7)) == OutputGroup(Unpack([0xB2, 0xE8, 0x8D, 0x3C]), 7)
  {
    var x: seq<Byte> := [0x5F, 0xC5, 0xD4, 0x77, 0xFF, 0x51];
    var s: seq<Byte> := [0xB2, 0xE8, 0x8D, 0x3C];
    GroupRowColumn(Unpack(x), 7);
    assert SBoxRow(Group(Unpack(x), 7)) == 1 && SBoxColumn(Group(Unpack(x), 7)) == 8;
    OutputGroupBits(s, 7);
  }

  /** Round 15, S-boxes: 5FC5D477FF51 becomes B2E88D3C. */
  lemma Round15Substitute()
    ensures Substitute(Unpack([0x5F, 0xC5, 0xD4, 0x77, 0xFF, 0x51])) == Unpack([0xB2, 0xE8, 0x8D, 0x3C])
  {
    var x: seq<Byte> := [0x5F, 0xC5, 0xD4, 0x77, 0xFF, 0x51];
    var s: seq<Byte> := [0xB2, 0xE8, 0x8D, 0x3C];
    forall k | 0 <= k < 8
      ensures SBox(k, Group(Unpack(x), k)) == OutputGroup(Unpack(s), k)
    {
      IndexCases(k, 8);
      if k == 0 { Round15SBox0(); } else if k == 1 { Round15SBox1(); }
      else if k == 2 { Round15SBox2(); } else if k == 3 { Round15SBox3(); }
      else if k == 4 { Round15SBox4(); } else if k == 5 { Round15SBox5(); }
      else if k == 6 { Round15SBox6(); } else { Round15SBox7(); }
    }
    SubstituteOfGroups(Unpack(x), Unpack(s));
  }

  /** Round 15, P: B2E88D3C becomes f = 5B81276E. */
  lemma Round15Output()
    ensures PermuteOutput(Unpack([0xB2, 0xE8, 0x8D, 0x3C])) == Unpack([0x5B, 0x81, 0x27, 0x6E])
  {
    var s: seq<Byte> := [0xB2, 0xE8, 0x8D, 0x3C];
    var out: seq<Byte> := [0x5B, 0x81, 0x27, 0x6E];
    PShape();
    forall i | 0 <= i < 32
      ensures Unpack(s)[P[i]] == Unpack(out)[i]
    {
      IndexCases(i, 32);
    }
    PermuteBytes(P, s, out);
  }

  /** Round 15: (L, R) = (18C3155A, C28C960D) becomes (C28C960D, 43423234). */
  lemma Round15()
    ensures F(Unpack([0xC2, 0x8C, 0x96, 0x0D]), Unpack([0xBF, 0x91, 0x8D, 0x3D, 0x3F, 0x0A])) == Unpack([0x5B, 0x81, 0x27, 0x6E])
    ensures Round(CipherF, Halves(Unpack([0x18, 0xC3, 0x15, 0x5A]), Unpack([0xC2, 0x8C, 0x96, 0x0D])), Unpack([0xBF, 0x91, 0x8D, 0x3D, 0x3F, 0x0A])) == Halves(Unpack([0xC2, 0x8C, 0x96, 0x0D]), Unpack([0x43, 0x42, 0x32, 0x34]))
  {
    var left: seq<Byte> := [0x18, 0xC3, 0x15, 0x5A];
    var right: seq<Byte> := [0xC2, 0x8C, 0x96, 0x0D];
    var key: seq<Byte> := [0xBF, 0x91, 0x8D, 0x3D, 0x3F, 0x0A];
    var e: seq<Byte> := [0xE0, 0x54, 0x59, 0x4A, 0xC0, 0x5B];
    var x: seq<Byte> := [0x5F, 0xC5, 0xD4, 0x77, 0xFF, 0x51];
    var s: seq<Byte> := [0xB2, 0xE8, 0x8D, 0x3C];
    var out: seq<Byte> := [0x5B, 0x81, 0x27, 0x6E];
    var next: seq<Byte> := [0x43, 0x42, 0x32, 0x34];
    Round15Expand();
    Round15Substitute();
    Round15Output();
    forall j | 0 <= j < 6
      ensures x[j] == e[j] ^ key[j]
    {
      IndexCases(j, 6);
    }
    FOfStages(right, key, e, x, s, out);
    forall j | 0 <= j < 4
      ensures next[j] == left[j] ^ out[j]
    {
      IndexCases(j, 4);
    }
    RoundOfF(left, right, key, out, next);
  }

  /** Round 16, E: R = 43423234 expands to 206A041A41A8. */
  lemma Round16Expand()
    ensures Expand(Unpack([0x43, 0x42, 0x32, 0x34])) == Unpack([0x20, 0x6A, 0x04, 0x1A, 0x41, 0xA8])
  {
    var r: seq<Byte> := [0x43, 0x42, 0x32, 0x34];
    var e: seq<Byte> := [0x20, 0x6A, 0x04, 0x1A, 0x41, 0xA8];
    EShape();
    forall i | 0 <= i < 48
      ensures Unpack(r)[E[i]] == Unpack(e)[i]
    {
      IndexCases(i, 48);
    }
    PermuteBytes(E, r, e);
  }

  lemma Round16SBox0()
    ensures SBox(0, Group(Unpack([0xEB, 0x57, 0x8F, 0x14, 0x56, 0x5D]), 0)) == OutputGroup(Unpack([0xA7, 0x83, 0x24, 0x29]), 0)
  {
    var x: seq<Byte> := [0xEB, 0x57, 0x8F, 0x14, 0x56, 0x5D];
    var s: seq<Byte> := [0xA7, 0x83, 0x24, 0x29];
    GroupRowColumn(Unpack(x), 0);
    assert SBoxRow(Group(Unpack(x), 0)) == 2 && SBoxColumn(Group(Unpack(x), 0)) == 13;
    OutputGroupBits(s, 0);
  }

  lemma Round16SBox1()
    ensures SBox(1, Group(Unpack([0xEB, 0x57, 0x8F, 0x14, 0x56, 0x5D]), 1)) == OutputGroup(Unpack([0xA7, 0x83, 0x24, 0x29]), 1)
  {
    var x: seq<Byte> := [0xEB, 0x57, 0x8F, 0x14, 0x56, 0x5D];
    var s: seq<Byte> := [0xA7, 0x83, 0x24, 0x29];
    GroupRowColumn(Unpack(x), 1);
    assert SBoxRow(Group(Unpack(x), 1)) == 3 && SBoxColumn(Group(Unpack(x), 1)) == 10;
    OutputGroupBits(s, 1);
  }

  lemma Round16SBox2()
    ensures SBox(2, Group(Unpack([0xEB, 0x57, 0x8F, 0x14, 0x56, 0x5D]), 2)) == OutputGroup(Unpack([0xA7, 0x83, 0x24, 0x29]), 2)
  {
    var x: seq<Byte> := [0xEB, 0x57, 0x8F, 0x14, 0x56, 0x5D];
    var s: seq<Byte> := [0xA7, 0x83, 0x24, 0x29];
    GroupRowColumn(Unpack(x), 2);
    assert SBoxRow(Group(Unpack(x), 2)) == 0 && SBoxColumn(Group(Unpack(x), 2)) == 15;
    OutputGroupBits(s, 2);
  }

  lemma Round16SBox3()
    ensures SBox(3, Group(Unpack([0xEB, 0x57, 0x8F, 0x14, 0x56, 0x5D]), 3)) == OutputGroup(Unpack([0xA7, 0x83, 0x24, 0x29]), 3)
  {
    var x: seq<Byte> := [0xEB, 0x57, 0x8F, 0x14, 0x56, 0x5D];
    var s: seq<Byte> := [0xA7, 0x83, 0x24, 0x29];
    GroupRowColumn(Unpack(x), 3);
    assert SBoxRow(Group(Unpack(x), 3)) == 1 && SBoxColumn(Group(Unpack(x), 3)) == 7;
    OutputGroupBits(s, 3);
  }

  lemma Round16SBox4()
    ensures SBox(4, Group(Unpack([0xEB, 0x57, 0x8F, 0x14, 0x56, 0x5D]), 4)) == OutputGroup(Unpack([0xA7, 0x83, 0x24, 0x29]), 4)
  {
    var x: seq<Byte> := [0xEB, 0x57, 0x8F, 0x14, 0x56, 0x5D];
    var s: seq<Byte> := [0xA7, 0x83, 0x24, 0x29];
    GroupRowColumn(Unpack(x), 4);
    assert SBoxRow(Group(Unpack(x), 4)) == 1 && SBoxColumn(Group(Unpack(x), 4)) == 2;
    OutputGroupBits(s, 4);
  }

  lemma Round16SBox5()
    ensures SBox(5, Group(Unpack([0xEB, 0x57, 0x8F, 0x14, 0x56, 0x5D]), 5)) == OutputGroup(Unpack([0xA7, 0x83, 0x24, 0x29]), 5)
  {
    var x: seq<Byte> := [0xEB, 0x57, 0x8F, 0x14, 0x56, 0x5D];
    var s: seq<Byte> := [0xA7, 0x83, 0x24, 0x29];
    GroupRowColumn(Unpack(x), 5);
    assert SBoxRow(Group(Unpack(x), 5)) == 1 && SBoxColumn(Group(Unpack(x), 5)) == 2;
    OutputGroupBits(s, 5);
  }

  lemma Round16SBox6()
    ensures SBox(6, Group(Unpack([0xEB, 0x57, 0x8F, 0x14, 0x56, 0x5D]), 6)) == OutputGroup(Unpack([0xA7, 0x83, 0x24, 0x29]), 6)
  {
    var x: seq<Byte> := [0xEB, 0x57, 0x8F, 0x14, 0x56, 0x5D];
    var s: seq<Byte> := [0xA7, 0x83, 0x24, 0x29];
    GroupRowColumn(Unpack(x), 6);
    assert SBoxRow(Group(Unpack(x), 6)) == 1 && SBoxColumn(Group(Unpack(x), 6)) == 12;
    OutputGroupBits(s, 6);
  }

  lemma Round16SBox7()
    ensures SBox(7, Group(Unpack([0xEB, 0x57, 0x8F, 0x14, 0x56, 0x5D]), 7)) == OutputGroup(Unpack([0xA7, 0x83, 0x24, 0x29]), 7)
  {
    var x: seq<Byte> := [0xEB, 0x57, 0x8F, 0x14, 0x56, 0x5D];
    var s: seq<Byte> := [0xA7, 0x83, 0x24, 0x29];
    GroupRowColumn(Unpack(x), 7);
    assert SBoxRow(Group(Unpack(x), 7)) == 1 && SBoxColumn(Group(Unpack(x), 7)) == 14;
    OutputGroupBits(s, 7);
  }

  /** Round 16, S-boxes: EB578F14565D becomes A7832429. */
  lemma Round16Substitute()
    ensures Substitute(Unpack([0xEB, 0x57, 0x8F, 0x14, 0x56, 0x5D])) == Unpack([0xA7, 0x83, 0x24, 0x29])
  {
    var x: seq<Byte> := [0xEB, 0x57, 0x8F, 0x14, 0x56, 0x5D];
    var s: seq<Byte> := [0xA7, 0x83, 0x24, 0x29];
    forall k | 0 <= k < 8
      ensures SBox(k, Group(Unpack(x), k)) == OutputGroup(Unpack(s), k)
    {
      IndexCases(k, 8);
      if k == 0 { Round16SBox0(); } else if k == 1 { Round16SBox1(); }
      else if k == 2 { Round16SBox2(); } else if k == 3 { Round16SBox3(); }
      else if k == 4 { Round16SBox4(); } else if k == 5 { Round16SBox5(); }
      else if k == 6 { Round16SBox6(); } else { Round16SBox7(); }
    }
    SubstituteOfGroups(Unpack(x), Unpack(s));
  }

  /** Round 16, P: A7832429 becomes f = C8C04F98. */
  lemma Round16Output()
    ensures PermuteOutput(Unpack([0xA7, 0x83, 0x24, 0x29])) == Unpack([0xC8, 0xC0, 0x4F, 0x98])
  {
    var s: seq<Byte> := [0xA7, 0x83, 0x24, 0x29];
    var out: seq<Byte> := [0xC8, 0xC0, 0x4F, 0x98];
    PShape();
    forall i | 0 <= i < 32
      ensures Unpack(s)[P[i]] == Unpack(out)[i]
    {
      IndexCases(i, 32);
    }
    PermuteBytes(P, s, out);
  }

  /** Round 16: (L, R) = (C28C960D, 43423234) becomes (43423234, 0A4CD995). */
  lemma Round16()
    ensures F(Unpack([0x43, 0x42, 0x32, 0x34]), Unpack([0xCB, 0x3D, 0x8B, 0x0E, 0x17, 0xF5])) == Unpack([0xC8, 0xC0, 0x4F, 0x98])
    ensures Round(CipherF, Halves(Unpack([0xC2, 0x8C, 0x96, 0x0D]), Unpack([0x43, 0x42, 0x32, 0x34])), Unpack([0xCB, 0x3D, 0x8B, 0x0E, 0x17, 0xF5])) == Halves(Unpack([0x43, 0x42, 0x32, 0x34]), Unpack([0x0A, 0x4C, 0xD9, 0x95]))
  {
    var left: seq<Byte> := [0xC2, 0x8C, 0x96, 0x0D];
    var right: seq<Byte> := [0x43, 0x42, 0x32, 0x34];
    var key: seq<Byte> := [0xCB, 0x3D, 0x8B, 0x0E, 0x17, 0xF5];
    var e: seq<Byte> := [0x20, 0x6A, 0x04, 0x1A, 0x41, 0xA8];
    var x: seq<Byte> := [0xEB, 0x57, 0x8F, 0x14, 0x56, 0x5D];
    var s: seq<Byte> := [0xA7, 0x83, 0x24, 0x29];
    var out: seq<Byte> := [0xC8, 0xC0, 0x4F, 0x98];
    var next: seq<Byte> := [0x0A, 0x4C, 0xD9, 0x95];
    Round16Expand();
    Round16Substitute();
    Round16Output();
    forall j | 0 <= j < 6
      ensures x[j] == e[j] ^ key[j]
    {
      IndexCases(j, 6);
    }
    FOfStages(right, key, e, x, s, out);
    forall j | 0 <= j < 4
      ensures next[j] == left[j] ^ out[j]
    {
      IndexCases(j, 4);
    }
    RoundOfF(left, right, key, out, next);
  }

  /** IP of the block, bits 0 to 31. */
  lemma InitialFirstHalf()
    ensures forall i :: 0 <= i < 32 ==> 0 <= IP[i] < 64 && Unpack([0x01, 0x23, 0x45, 0x67, 0x89, 0xAB, 0xCD, 0xEF])[IP[i]] == Unpack([0xCC, 0x00, 0xCC, 0xFF, 0xF0, 0xAA, 0xF0, 0xAA])[i]
  {
    var input: seq<Byte> := [0x01, 0x23, 0x45, 0x67, 0x89, 0xAB, 0xCD, 0xEF];
    var output: seq<Byte> := [0xCC, 0x00, 0xCC, 0xFF, 0xF0, 0xAA, 0xF0, 0xAA];
    forall i | 0 <= i < 32
      ensures 0 <= IP[i] < 64 && Unpack(input)[IP[i]] == Unpack(output)[i]
    {
      IndexCases(i, 32);
    }
  }

  /** IP of the block, bits 32 to 63. */
  lemma InitialSecondHalf()
    ensures forall i :: 32 <= i < 64 ==> 0 <= IP[i] < 64 && Unpack([0x01, 0x23, 0x45, 0x67, 0x89, 0xAB, 0xCD, 0xEF])[IP[i]] == Unpack([0xCC, 0x00, 0xCC, 0xFF, 0xF0, 0xAA, 0xF0, 0xAA])[i]
  {
    var input: seq<Byte> := [0x01, 0x23, 0x45, 0x67, 0x89, 0xAB, 0xCD, 0xEF];
    var output: seq<Byte> := [0xCC, 0x00, 0xCC, 0xFF, 0xF0, 0xAA, 0xF0, 0xAA];
    forall i | 32 <= i < 64
      ensures 0 <= IP[i] < 64 && Unpack(input)[IP[i]] == Unpack(output)[i]
    {
      IndexCases(i, 64);
    }
  }

  /** IP_INV of the swapped final halves, bits 0 to 31. */
  lemma FinalFirstHalf()
    ensures forall i :: 0 <= i < 32 ==> 0 <= IPInverse[i] < 64 && Unpack([0x0A, 0x4C, 0xD9, 0x95, 0x43, 0x42, 0x32, 0x34])[IPInverse[i]] == Unpack([0x85, 0xE8, 0x13, 0x54, 0x0F, 0x0A, 0xB4, 0x05])[i]
  {
    var input: seq<Byte> := [0x0A, 0x4C, 0xD9, 0x95, 0x43, 0x42, 0x32, 0x34];
    var output: seq<Byte> := [0x85, 0xE8, 0x13, 0x54, 0x0F, 0x0A, 0xB4, 0x05];
    forall i | 0 <= i < 32
      ensures 0 <= IPInverse[i] < 64 && Unpack(input)[IPInverse[i]] == Unpack(output)[i]
    {
      IndexCases(i, 32);
    }
  }

  /** IP_INV of the swapped final halves, bits 32 to 63. */
  lemma FinalSecondHalf()
    ensures forall i :: 32 <= i < 64 ==> 0 <= IPInverse[i] < 64 && Unpack([0x0A, 0x4C, 0xD9, 0x95, 0x43, 0x42, 0x32, 0x34])[IPInverse[i]] == Unpack([0x85, 0xE8, 0x13, 0x54, 0x0F, 0x0A, 0xB4, 0x05])[i]
  {
    var input: seq<Byte> := [0x0A, 0x4C, 0xD9, 0x95, 0x43, 0x42, 0x32, 0x34];
    var output: seq<Byte> := [0x85, 0xE8, 0x13, 0x54, 0x0F, 0x0A, 0xB4, 0x05];
    forall i | 32 <= i < 64
      ensures 0 <= IPInverse[i] < 64 && Unpack(input)[IPInverse[i]] == Unpack(output)[i]
    {
      IndexCases(i, 64);
    }
  }

  /** IP of the block 0123456789ABCDEF gives L0 = CC00CCFF and R0 = F0AAF0AA. */
  lemma InitialHalvesKnown()
    ensures InitialHalves(Unpack([0x01, 0x23, 0x45, 0x67, 0x89, 0xAB, 0xCD, 0xEF])) == Halves(Unpack([0xCC, 0x00, 0xCC, 0xFF]), Unpack([0xF0, 0xAA, 0xF0, 0xAA]))
  {
    var left: seq<Byte> := [0xCC, 0x00, 0xCC, 0xFF];
    var right: seq<Byte> := [0xF0, 0xAA, 0xF0, 0xAA];
    IPShape();
    InitialFirstHalf();
    InitialSecondHalf();
    PermuteBytes(IP, [0x01, 0x23, 0x45, 0x67, 0x89, 0xAB, 0xCD, 0xEF], left + right);
    UnpackAppend(left, right);
    var x := Unpack(left) + Unpack(right);
    assert x[..32] == Unpack(left) && x[32..] == Unpack(right);
  }

  /** IP_INV of the final halves L16 = 43423234 and R16 = 0A4CD995, swapped, gives 85E813540F0AB405. */
  lemma FinalBlockKnown()
    ensures FinalBlock(Halves(Unpack([0x43, 0x42, 0x32, 0x34]), Unpack([0x0A, 0x4C, 0xD9, 0x95]))) == Unpack([0x85, 0xE8, 0x13, 0x54, 0x0F, 0x0A, 0xB4, 0x05])
  {
    var left: seq<Byte> := [0x43, 0x42, 0x32, 0x34];
    var right: seq<Byte> := [0x0A, 0x4C, 0xD9, 0x95];
    IPShape();
    FinalFirstHalf();
    FinalSecondHalf();
    PermuteBytes(IPInverse, right + left, [0x85, 0xE8, 0x13, 0x54, 0x0F, 0x0A, 0xB4, 0x05]);
    UnpackAppend(right, left);
  }
}
