/** The weak keys of the key schedule: keys whose PC1 halves C and D are each
    constant, so that every round produces the same subkey. The engine's
    tests list four of them with the subkey each must produce in all 16 rounds. */
module WeakKeys {
  import opened Options
  import opened Bits
  import opened Parity
  import opened Tables
  import opened KeySchedule

  /** An 8-byte key whose first four bytes are `x` and last four are `y`. */
  function SplitKey(x: Byte, y: Byte): (key: seq<Byte>)
    ensures |key| == 8
    ensures forall j :: 0 <= j < 8 ==> key[j] == if j < 4 then x else y
  {
    [x, x, x, x, y, y, y, y]
  }

  /** The byte of eight copies of bit `b`. */
  function FillByte(b: bool): (r: Byte)
    ensures forall k :: 0 <= k < 8 ==> BitOf(r, k) == b
  {
    if b then 0xFF else 0x00
  }

  /** PC1 of a split key is constant on each half when C's columns (bits 0-2
      of every byte, bit 3 of `y`) all hold `c` and D's columns (bits 4-6 of
      every byte, bit 3 of `x`) all hold `d`. */
  lemma SplitKeyInitialState(x: Byte, y: Byte, c: bool, d: bool)
    requires forall k :: 0 <= k < 3 ==> BitOf(x, k) == c && BitOf(y, k) == c
    requires BitOf(y, 3) == c && BitOf(x, 3) == d
    requires forall k :: 4 <= k < 7 ==> BitOf(x, k) == d && BitOf(y, k) == d
    ensures InitialState(Unpack(SplitKey(x, y))) == Fill(c, 28) + Fill(d, 28)
  {
    var key := SplitKey(x, y);
    PC1Columns();
    var cd := InitialState(Unpack(key));
    forall i | 0 <= i < 56
      ensures cd[i] == (Fill(c, 28) + Fill(d, 28))[i]
    {
      var n := PC1[i];
      assert cd[i] == BitOf(key[n / 8], n % 8);
      assert n / 8 < 4 <==> n < 32;
    }
  }

  /** The schedule of a split key with constant halves: all 16 subkeys are the
      three bytes of C's bit followed by the three bytes of D's bit. */
  lemma SplitKeySchedule(x: Byte, y: Byte, c: bool, d: bool)
    requires forall k :: 0 <= k < 3 ==> BitOf(x, k) == c && BitOf(y, k) == c
    requires BitOf(y, 3) == c && BitOf(x, 3) == d
    requires forall k :: 4 <= k < 7 ==> BitOf(x, k) == d && BitOf(y, k) == d
    ensures forall i :: 0 <= i < 16 ==>
      Schedule(SplitKey(x, y))[i] == [FillByte(c), FillByte(c), FillByte(c), FillByte(d), FillByte(d), FillByte(d)]
  {
    var key := SplitKey(x, y);
    SplitKeyInitialState(x, y, c, d);
    WeakKeySubkeys(Unpack(key), c, d);
    var sub := [FillByte(c), FillByte(c), FillByte(c), FillByte(d), FillByte(d), FillByte(d)];
    assert Unpack(sub) == Fill(c, 24) + Fill(d, 24) by {
      forall n | 0 <= n < 48
        ensures Unpack(sub)[n] == (Fill(c, 24) + Fill(d, 24))[n]
      {
        assert n / 8 < 3 <==> n < 24;
      }
    }
    forall i | 0 <= i < 16
      ensures Schedule(key)[i] == sub
    {
      UnpackInjective(Schedule(key)[i], sub);
    }
  }

  /** The key 0101010101010101 gives the all-zero subkey in every round. */
  lemma WeakKeyAllOnes()
    ensures forall i :: 0 <= i < 16 ==>
      Schedule([0x01, 0x01, 0x01, 0x01, 0x01, 0x01, 0x01, 0x01])[i] == [0x00, 0x00, 0x00, 0x00, 0x00, 0x00]
  {
    forall k | 0 <= k < 8
      ensures k < 3 ==> BitOf(0x01, k) == false
      ensures 4 <= k < 7 ==> BitOf(0x01, k) == false
    {
      IndexCases(k, 8);
    }
    assert BitOf(0x01, 3) == false;
    SplitKeySchedule(0x01, 0x01, false, false);
    assert SplitKey(0x01, 0x01) == [0x01, 0x01, 0x01, 0x01, 0x01, 0x01, 0x01, 0x01];
    assert [FillByte(false), FillByte(false), FillByte(false), FillByte(false), FillByte(false), FillByte(false)] == [0x00, 0x00, 0x00, 0x00, 0x00, 0x00];
  }

  /** The key FEFEFEFEFEFEFEFE gives the all-one subkey in every round. */
  lemma WeakKeyAllFE()
    ensures forall i :: 0 <= i < 16 ==>
      Schedule([0xFE, 0xFE, 0xFE, 0xFE, 0xFE, 0xFE, 0xFE, 0xFE])[i] == [0xFF, 0xFF, 0xFF, 0xFF, 0xFF, 0xFF]
  {
    forall k | 0 <= k < 8
      ensures k < 3 ==> BitOf(0xFE, k) == true
      ensures 4 <= k < 7 ==> BitOf(0xFE, k) == true
    {
      IndexCases(k, 8);
    }
    assert BitOf(0xFE, 3) == true;
    SplitKeySchedule(0xFE, 0xFE, true, true);
    assert SplitKey(0xFE, 0xFE) == [0xFE, 0xFE, 0xFE, 0xFE, 0xFE, 0xFE, 0xFE, 0xFE];
    assert [FillByte(true), FillByte(true), FillByte(true), FillByte(true), FillByte(true), FillByte(true)] == [0xFF, 0xFF, 0xFF, 0xFF, 0xFF, 0xFF];
  }

  /** The key E0E0E0E0F1F1F1F1 gives FFFFFF000000 in every round. */
  lemma WeakKeyE0F1()
    ensures forall i :: 0 <= i < 16 ==>
      Schedule([0xE0, 0xE0, 0xE0, 0xE0, 0xF1, 0xF1, 0xF1, 0xF1])[i] == [0xFF, 0xFF, 0xFF, 0x00, 0x00, 0x00]
  {
    forall k | 0 <= k < 8
      ensures k < 3 ==> BitOf(0xE0, k) == true && BitOf(0xF1, k) == true
      ensures 4 <= k < 7 ==> BitOf(0xE0, k) == false && BitOf(0xF1, k) == false
    {
      IndexCases(k, 8);
    }
    assert BitOf(0xF1, 3) == true && BitOf(0xE0, 3) == false;
    SplitKeySchedule(0xE0, 0xF1, true, false);
    assert SplitKey(0xE0, 0xF1) == [0xE0, 0xE0, 0xE0, 0xE0, 0xF1, 0xF1, 0xF1, 0xF1];
    assert [FillByte(true), FillByte(true), FillByte(true), FillByte(false), FillByte(false), FillByte(false)] == [0xFF, 0xFF, 0xFF, 0x00, 0x00, 0x00];
  }

  /** The key 1F1F1F1F0E0E0E0E gives 000000FFFFFF in every round. */
  lemma WeakKey1F0E()
    ensures forall i :: 0 <= i < 16 ==>
      Schedule([0x1F, 0x1F, 0x1F, 0x1F, 0x0E, 0x0E, 0x0E, 0x0E])[i] == [0x00, 0x00, 0x00, 0xFF, 0xFF, 0xFF]
  {
    forall k | 0 <= k < 8
      ensures k < 3 ==> BitOf(0x1F, k) == false && BitOf(0x0E, k) == false
      ensures 4 <= k < 7 ==> BitOf(0x1F, k) == true && BitOf(0x0E, k) == true
    {
      IndexCases(k, 8);
    }
    assert BitOf(0x0E, 3) == false && BitOf(0x1F, 3) == true;
    SplitKeySchedule(0x1F, 0x0E, false, true);
    assert SplitKey(0x1F, 0x0E) == [0x1F, 0x1F, 0x1F, 0x1F, 0x0E, 0x0E, 0x0E, 0x0E];
    assert [FillByte(false), FillByte(false), FillByte(false), FillByte(true), FillByte(true), FillByte(true)] == [0x00, 0x00, 0x00, 0xFF, 0xFF, 0xFF];
  }

  /** The four weak keys of the test suite, in its order. */
  const WeakKeyTable: seq<seq<Byte>> := [
    [0x01, 0x01, 0x01, 0x01, 0x01, 0x01, 0x01, 0x01],
    [0xFE, 0xFE, 0xFE, 0xFE, 0xFE, 0xFE, 0xFE, 0xFE],
    [0xE0, 0xE0, 0xE0, 0xE0, 0xF1, 0xF1, 0xF1, 0xF1],
    [0x1F, 0x1F, 0x1F, 0x1F, 0x0E, 0x0E, 0x0E, 0x0E]]

  /** The subkey each weak key must produce in every round. */
  const WeakSubkeyTable: seq<seq<Byte>> := [
    [0x00, 0x00, 0x00, 0x00, 0x00, 0x00],
    [0xFF, 0xFF, 0xFF, 0xFF, 0xFF, 0xFF],
    [0xFF, 0xFF, 0xFF, 0x00, 0x00, 0x00],
    [0x00, 0x00, 0x00, 0xFF, 0xFF, 0xFF]]

  /** The six bytes the weak keys are made of each have an odd number of set
      bits: 01 has 1, FE has 7, E0 has 3, F1 has 5, 1F has 5 and 0E has 3. */
  lemma WeakKeyBytesOdd()
    ensures OddParity(0x01) && OddParity(0xFE) && OddParity(0xE0)
    ensures OddParity(0xF1) && OddParity(0x1F) && OddParity(0x0E)
  {
    assert PopCount(0x01) == 1 && PopCount(0x03) == 2 && PopCount(0x07) == 3 && PopCount(0x0F) == 4 && PopCount(0x1F) == 5;
    assert PopCount(0x3F) == 6 && PopCount(0x7F) == 7 && PopCount(0xFE) == 7;
    assert PopCount(0x0E) == 3 && PopCount(0x1C) == 3 && PopCount(0x38) == 3 && PopCount(0x70) == 3 && PopCount(0xE0) == 3;
    assert PopCount(0x1E) == 4 && PopCount(0x3C) == 4 && PopCount(0x78) == 4 && PopCount(0xF1) == 5;
  }

  /** Every weak key passes the parity check of `DES_generate_subKeys`. */
  lemma WeakKeyHasOddParity(w: nat)
    requires w < |WeakKeyTable|
    ensures |WeakKeyTable[w]| == 8 && AllOddParity(WeakKeyTable[w], 8)
  {
    WeakKeyBytesOdd();
    IndexCases(w, 4);
    assert forall j :: 0 <= j < 8 ==> WeakKeyTable[w][j] == if j < 4 then WeakKeyTable[w][0] else WeakKeyTable[w][4];
  }

  /** The schedule of weak key `w` is its table subkey in all 16 rounds. */
  lemma WeakKeySchedule(w: nat)
    requires w < |WeakKeyTable|
    ensures |WeakKeyTable[w]| == 8
    ensures forall i :: 0 <= i < 16 ==> Schedule(WeakKeyTable[w])[i] == WeakSubkeyTable[w]
  {
    IndexCases(w, 4);
    if w == 0 { WeakKeyAllOnes(); }
    else if w == 1 { WeakKeyAllFE(); }
    else if w == 2 { WeakKeyE0F1(); }
    else { WeakKey1F0E(); }
  }

  /** `DES_generate_subKeys` on weak key `w`: it returns subkeys, and every
      one of the 16 is the table subkey of `w`. */
  method GenerateWeakKeySubkeys(w: nat) returns (r: Option<seq<seq<Byte>>>)
    requires w < |WeakKeyTable|
    ensures r.Some? && |r.value| == 16
    ensures forall i :: 0 <= i < 16 ==> r.value[i] == WeakSubkeyTable[w]
  {
    WeakKeyHasOddParity(w);
    WeakKeySchedule(w);
    r := GenerateSubkeys(Some(WeakKeyTable[w]));
  }
}
