/** The constant tables of the engine, 0-based, exactly as listed in the C
    source (`DES/des.c`), with the structural facts the rest of the model
    relies on.

    Every table that selects bits is applied by `Bits.Permute`: output bit `i`
    is input bit `t[i]`. Long tables are written as a concatenation of rows of
    eight entries, which is how the verifier evaluates them cheaply. The
    `...Inverse` and `ECover` tables are witnesses added by the model to prove
    distinctness and coverage; lemmas relate them to the engine's tables
    and play no part in the cipher itself. */
module Tables {
  import opened Bits

  /** Permuted choice 1: selects 56 key bits and orders them as the halves C (0..27) and D (28..55). */
  const PC1: seq<int> :=
    [56, 48, 40, 32, 24, 16, 8, 0] +
    [57, 49, 41, 33, 25, 17, 9, 1] +
    [58, 50, 42, 34, 26, 18, 10, 2] +
    [59, 51, 43, 35, 62, 54, 46, 38] +
    [30, 22, 14, 6, 61, 53, 45, 37] +
    [29, 21, 13, 5, 60, 52, 44, 36] +
    [28, 20, 12, 4, 27, 19, 11, 3]

  /** The left-rotation amount of each of the 16 rounds of the key schedule. */
  const RoundShifts: seq<int> := [1, 1, 2, 2, 2, 2, 2, 2, 1, 2, 2, 2, 2, 2, 2, 1]

  /** Permuted choice 2: selects the 48 subkey bits from the 56-bit state C ++ D. */
  const PC2: seq<int> :=
    [13, 16, 10, 23, 0, 4, 2, 27] +
    [14, 5, 20, 9, 22, 18, 11, 3] +
    [25, 7, 15, 6, 26, 19, 12, 1] +
    [40, 51, 30, 36, 46, 54, 29, 39] +
    [50, 44, 32, 47, 43, 48, 38, 55] +
    [33, 52, 45, 41, 49, 35, 28, 31]

  /** The initial permutation of a 64-bit block. */
  const IP: seq<int> :=
    [57, 49, 41, 33, 25, 17, 9, 1] +
    [59, 51, 43, 35, 27, 19, 11, 3] +
    [61, 53, 45, 37, 29, 21, 13, 5] +
    [63, 55, 47, 39, 31, 23, 15, 7] +
    [56, 48, 40, 32, 24, 16, 8, 0] +
    [58, 50, 42, 34, 26, 18, 10, 2] +
    [60, 52, 44, 36, 28, 20, 12, 4] +
    [62, 54, 46, 38, 30, 22, 14, 6]

  /** The final permutation, which undoes IP. */
  const IPInverse: seq<int> :=
    [39, 7, 47, 15, 55, 23, 63, 31] +
    [38, 6, 46, 14, 54, 22, 62, 30] +
    [37, 5, 45, 13, 53, 21, 61, 29] +
    [36, 4, 44, 12, 52, 20, 60, 28] +
    [35, 3, 43, 11, 51, 19, 59, 27] +
    [34, 2, 42, 10, 50, 18, 58, 26] +
    [33, 1, 41, 9, 49, 17, 57, 25] +
    [32, 0, 40, 8, 48, 16, 56, 24]

  /** The expansion of a 32-bit half block to 48 bits (it repeats 16 of the input bits). */
  const E: seq<int> :=
    [31, 0, 1, 2, 3, 4, 3, 4] +
    [5, 6, 7, 8, 7, 8, 9, 10] +
    [11, 12, 11, 12, 13, 14, 15, 16] +
    [15, 16, 17, 18, 19, 20, 19, 20] +
    [21, 22, 23, 24, 23, 24, 25, 26] +
    [27, 28, 27, 28, 29, 30, 31, 0]

  /** The eight substitution boxes S1..S8, each of 4 rows by 16 columns. */
  const SBoxes: seq<seq<seq<int>>> := [
    [ [14, 4, 13, 1, 2, 15, 11, 8, 3, 10, 6, 12, 5, 9, 0, 7],
      [0, 15, 7, 4, 14, 2, 13, 1, 10, 6, 12, 11, 9, 5, 3, 8],
      [4, 1, 14, 8, 13, 6, 2, 11, 15, 12, 9, 7, 3, 10, 5, 0],
      [15, 12, 8, 2, 4, 9, 1, 7, 5, 11, 3, 14, 10, 0, 6, 13] ],
    [ [15, 1, 8, 14, 6, 11, 3, 4, 9, 7, 2, 13, 12, 0, 5, 10],
      [3, 13, 4, 7, 15, 2, 8, 14, 12, 0, 1, 10, 6, 9, 11, 5],
      [0, 14, 7, 11, 10, 4, 13, 1, 5, 8, 12, 6, 9, 3, 2, 15],
      [13, 8, 10, 1, 3, 15, 4, 2, 11, 6, 7, 12, 0, 5, 14, 9] ],
    [ [10, 0, 9, 14, 6, 3, 15, 5, 1, 13, 12, 7, 11, 4, 2, 8],
      [13, 7, 0, 9, 3, 4, 6, 10, 2, 8, 5, 14, 12, 11, 15, 1],
      [13, 6, 4, 9, 8, 15, 3, 0, 11, 1, 2, 12, 5, 10, 14, 7],
      [1, 10, 13, 0, 6, 9, 8, 7, 4, 15, 14, 3, 11, 5, 2, 12] ],
    [ [7, 13, 14, 3, 0, 6, 9, 10, 1, 2, 8, 5, 11, 12, 4, 15],
      [13, 8, 11, 5, 6, 15, 0, 3, 4, 7, 2, 12, 1, 10, 14, 9],
      [10, 6, 9, 0, 12, 11, 7, 13, 15, 1, 3, 14, 5, 2, 8, 4],
      [3, 15, 0, 6, 10, 1, 13, 8, 9, 4, 5, 11, 12, 7, 2, 14] ],
    [ [2, 12, 4, 1, 7, 10, 11, 6, 8, 5, 3, 15, 13, 0, 14, 9],
      [14, 11, 2, 12, 4, 7, 13, 1, 5, 0, 15, 10, 3, 9, 8, 6],
      [4, 2, 1, 11, 10, 13, 7, 8, 15, 9, 12, 5, 6, 3, 0, 14],
      [11, 8, 12, 7, 1, 14, 2, 13, 6, 15, 0, 9, 10, 4, 5, 3] ],
    [ [12, 1, 10, 15, 9, 2, 6, 8, 0, 13, 3, 4, 14, 7, 5, 11],
      [10, 15, 4, 2, 7, 12, 9, 5, 6, 1, 13, 14, 0, 11, 3, 8],
      [9, 14, 15, 5, 2, 8, 12, 3, 7, 0, 4, 10, 1, 13, 11, 6],
      [4, 3, 2, 12, 9, 5, 15, 10, 11, 14, 1, 7, 6, 0, 8, 13] ],
    [ [4, 11, 2, 14, 15, 0, 8, 13, 3, 12, 9, 7, 5, 10, 6, 1],
      [13, 0, 11, 7, 4, 9, 1, 10, 14, 3, 5, 12, 2, 15, 8, 6],
      [1, 4, 11, 13, 12, 3, 7, 14, 10, 15, 6, 8, 0, 5, 9, 2],
      [6, 11, 13, 8, 1, 4, 10, 7, 9, 5, 0, 15, 14, 2, 3, 12] ],
    [ [13, 2, 8, 4, 6, 15, 11, 1, 10, 9, 3, 14, 5, 0, 12, 7],
      [1, 15, 13, 8, 10, 3, 7, 4, 12, 5, 6, 11, 0, 14, 9, 2],
      [7, 11, 4, 1, 9, 12, 14, 2, 0, 6, 10, 13, 15, 3, 5, 8],
      [2, 1, 14, 7, 4, 10, 8, 13, 15, 12, 9, 0, 3, 5, 6, 11] ]
  ]

  /** The permutation of the 32 S-box output bits. */
  const P: seq<int> :=
    [15, 6, 19, 20, 28, 11, 27, 16] +
    [0, 14, 22, 25, 4, 17, 30, 9] +
    [1, 7, 23, 13, 31, 26, 2, 8] +
    [18, 12, 29, 5, 21, 10, 3, 24]

  /** Witness: the position in P of each bit index. */
  const PInverse: seq<int> :=
    [8, 16, 22, 30, 12, 27, 1, 17] +
    [23, 15, 29, 5, 25, 19, 9, 0] +
    [7, 13, 24, 2, 3, 28, 10, 18] +
    [31, 11, 21, 6, 4, 26, 14, 20]

  /** Witness: the position in PC1 of each key bit index (0 for the parity bits, which PC1 never selects). */
  const PC1Inverse: seq<int> :=
    [7, 15, 23, 55, 51, 43, 35, 0] +
    [6, 14, 22, 54, 50, 42, 34, 0] +
    [5, 13, 21, 53, 49, 41, 33, 0] +
    [4, 12, 20, 52, 48, 40, 32, 0] +
    [3, 11, 19, 27, 47, 39, 31, 0] +
    [2, 10, 18, 26, 46, 38, 30, 0] +
    [1, 9, 17, 25, 45, 37, 29, 0] +
    [0, 8, 16, 24, 44, 36, 28, 0]

  /** Witness: the position in PC2 of each state bit index (0 for the 8 bits PC2 drops). */
  const PC2Inverse: seq<int> :=
    [4, 23, 6, 15, 5, 9, 19, 17] +
    [0, 11, 2, 14, 22, 0, 8, 18] +
    [1, 0, 13, 21, 10, 0, 12, 3] +
    [0, 16, 20, 7, 46, 30, 26, 47] +
    [34, 40, 0, 45, 27, 0, 38, 31] +
    [24, 43, 0, 36, 33, 42, 28, 35] +
    [37, 44, 32, 25, 41, 0, 29, 39]

  /** Witness: for every bit of a half block, a position of E that selects it. */
  const ECover: seq<int> :=
    [47, 2, 3, 6, 7, 8, 9, 12] +
    [13, 14, 15, 18, 19, 20, 21, 24] +
    [25, 26, 27, 30, 31, 32, 33, 36] +
    [37, 38, 39, 42, 43, 44, 45, 46]

  /** No two positions of `t` hold the same entry. */
  predicate Distinct(t: seq<int>)
  {
    forall i, j :: 0 <= i < j < |t| ==> t[i] != t[j]
  }

  /** Every index below `n` occurs in `t`. */
  predicate Covers(t: seq<int>, n: nat)
  {
    forall v :: 0 <= v < n ==> v in t
  }

  /** A table with a left inverse `u` has distinct entries. */
  lemma LeftInverseDistinct(t: seq<int>, u: seq<int>)
    requires forall i :: 0 <= i < |t| ==> 0 <= t[i] < |u| && u[t[i]] == i
    ensures Distinct(t)
  {
    forall i, j | 0 <= i < j < |t|
      ensures t[i] != t[j]
    {
      assert u[t[i]] == i && u[t[j]] == j;
    }
  }

  /** A table with a right inverse `u` covers every index `u` is defined on. */
  lemma RightInverseCovers(t: seq<int>, u: seq<int>)
    requires forall v :: 0 <= v < |u| ==> 0 <= u[v] < |t| && t[u[v]] == v
    ensures Covers(t, |u|)
  {
    forall v | 0 <= v < |u|
      ensures v in t
    {
      assert t[u[v]] == v;
    }
  }


  /** An index below 64 is one of the 64 constants; this case split lets the
      verifier check a property of a constant table entry by entry. */
  lemma IndexCases(i: int, n: nat)
    requires 0 <= i < n <= 64
    ensures
      i == 0 || i == 1 || i == 2 || i == 3 || i == 4 || i == 5 || i == 6 || i == 7 ||
      i == 8 || i == 9 || i == 10 || i == 11 || i == 12 || i == 13 || i == 14 || i == 15 ||
      i == 16 || i == 17 || i == 18 || i == 19 || i == 20 || i == 21 || i == 22 || i == 23 ||
      i == 24 || i == 25 || i == 26 || i == 27 || i == 28 || i == 29 || i == 30 || i == 31 ||
      i == 32 || i == 33 || i == 34 || i == 35 || i == 36 || i == 37 || i == 38 || i == 39 ||
      i == 40 || i == 41 || i == 42 || i == 43 || i == 44 || i == 45 || i == 46 || i == 47 ||
      i == 48 || i == 49 || i == 50 || i == 51 || i == 52 || i == 53 || i == 54 || i == 55 ||
      i == 56 || i == 57 || i == 58 || i == 59 || i == 60 || i == 61 || i == 62 || i == 63
  {
  }

  // The sizes and ranges of the tables, stated apart from the heavier
  // structural lemmas below so that functions applying a table need only these.

  lemma PC1Shape()
    ensures |PC1| == 56 && Selects(PC1, 64)
  {
    forall i | 0 <= i < 56 ensures 0 <= PC1[i] < 64 { IndexCases(i, 56); }
  }

  lemma PC2Shape()
    ensures |PC2| == 48 && Selects(PC2, 56)
  {
    forall i | 0 <= i < 48 ensures 0 <= PC2[i] < 56 { IndexCases(i, 48); }
  }

  lemma IPShape()
    ensures |IP| == 64 && Selects(IP, 64) && |IPInverse| == 64 && Selects(IPInverse, 64)
  {
    IPSelects();
    IPInverseSelects();
  }

  lemma IPSelects()
    ensures |IP| == 64 && Selects(IP, 64)
  {
    forall i | 0 <= i < 64 ensures 0 <= IP[i] < 64 { IndexCases(i, 64); }
  }

  lemma IPInverseSelects()
    ensures |IPInverse| == 64 && Selects(IPInverse, 64)
  {
    forall i | 0 <= i < 64 ensures 0 <= IPInverse[i] < 64 { IndexCases(i, 64); }
  }

  lemma EShape()
    ensures |E| == 48 && Selects(E, 32)
  {
    forall i | 0 <= i < 48 ensures 0 <= E[i] < 32 { IndexCases(i, 48); }
  }

  lemma PShape()
    ensures |P| == 32 && Selects(P, 32)
  {
    forall i | 0 <= i < 32 ensures 0 <= P[i] < 32 { IndexCases(i, 32); }
  }

  /** IP_INV undoes IP and IP undoes IP_INV: the final permutation is the inverse of the initial one. */
  lemma IPInverseUndoesIP()
    ensures Undoes(IPInverse, IP, 64)
    ensures Undoes(IP, IPInverse, 64)
  {
    IPShape();
    IPAfterIPInverse();
    IPInverseAfterIP();
  }

  lemma IPAfterIPInverse()
    requires |IP| == 64 && Selects(IPInverse, 64)
    ensures forall i :: 0 <= i < 64 ==> IP[IPInverse[i]] == i
  {
    forall i | 0 <= i < 64 ensures IP[IPInverse[i]] == i { IndexCases(i, 64); }
  }

  lemma IPInverseAfterIP()
    requires |IPInverse| == 64 && Selects(IP, 64)
    ensures forall i :: 0 <= i < 64 ==> IPInverse[IP[i]] == i
  {
    forall i | 0 <= i < 64 ensures IPInverse[IP[i]] == i { IndexCases(i, 64); }
  }

  /** P is a permutation of the 32 bit positions of a half block. */
  lemma PIsPermutation()
    ensures |P| == 32 && Selects(P, 32)
    ensures Distinct(P) && Covers(P, 32)
  {
    assert forall i :: 0 <= i < 32 ==> 0 <= P[i] < 32 && PInverse[P[i]] == i;
    LeftInverseDistinct(P, PInverse);
    assert forall v :: 0 <= v < 32 ==> 0 <= PInverse[v] < 32 && P[PInverse[v]] == v;
    RightInverseCovers(P, PInverse);
  }

  /** The eight S-boxes have 4 rows of 16 columns, and every entry is a 4-bit value. */
  lemma SBoxEntriesAreNibbles()
    ensures |SBoxes| == 8
    ensures forall k :: 0 <= k < 8 ==> |SBoxes[k]| == 4
    ensures forall k, r :: 0 <= k < 8 && 0 <= r < 4 ==> |SBoxes[k][r]| == 16
    ensures forall k, r, c :: 0 <= k < 8 && 0 <= r < 4 && 0 <= c < 16 ==> 0 <= SBoxes[k][r][c] < 16
  {
  }

  /** E selects 48 bits of a 32-bit half block and every half-block bit is among them. */
  lemma ECoversHalfBlock()
    ensures |E| == 48 && Selects(E, 32)
    ensures Covers(E, 32)
  {
    assert forall v :: 0 <= v < 32 ==> 0 <= ECover[v] < 48 && E[ECover[v]] == v;
    RightInverseCovers(E, ECover);
  }

  /** PC1 selects 56 distinct key bits and never a parity bit (the last bit of a key byte). */
  lemma PC1SkipsParityBits()
    ensures |PC1| == 56 && Selects(PC1, 64) && Distinct(PC1)
    ensures forall i :: 0 <= i < 56 ==> PC1[i] % 8 != 7
  {
    forall i | 0 <= i < 56
      ensures 0 <= PC1[i] < 64 && PC1Inverse[PC1[i]] == i && PC1[i] % 8 != 7
    {
      IndexCases(i, 56);
    }
    LeftInverseDistinct(PC1, PC1Inverse);
  }

  /** Which bit columns PC1 reads: C takes bits 0-2 of every key byte and bit 3
      of bytes 4-7; D takes bits 4-6 of every key byte and bit 3 of bytes 0-3. */
  lemma PC1Columns()
    ensures |PC1| == 56
    ensures forall i :: 0 <= i < 28 ==> 0 <= PC1[i] < 64 && (PC1[i] % 8 < 3 || (PC1[i] % 8 == 3 && PC1[i] >= 32))
    ensures forall i :: 28 <= i < 56 ==> 0 <= PC1[i] < 64 && (4 <= PC1[i] % 8 < 7 || (PC1[i] % 8 == 3 && PC1[i] < 32))
  {
    forall i | 0 <= i < 56
      ensures 0 <= PC1[i] < 64
      ensures i < 28 ==> PC1[i] % 8 < 3 || (PC1[i] % 8 == 3 && PC1[i] >= 32)
      ensures i >= 28 ==> 4 <= PC1[i] % 8 < 7 || (PC1[i] % 8 == 3 && PC1[i] < 32)
    {
      IndexCases(i, 56);
    }
  }

  /** PC2 selects 48 distinct state bits: its first 24 from C (below 28), its last 24 from D. */
  lemma PC2SplitsHalves()
    ensures |PC2| == 48 && Selects(PC2, 56) && Distinct(PC2)
    ensures forall i :: 0 <= i < 24 ==> PC2[i] < 28
    ensures forall i :: 24 <= i < 48 ==> PC2[i] >= 28
  {
    forall i | 0 <= i < 48
      ensures 0 <= PC2[i] < 56 && PC2Inverse[PC2[i]] == i && (i < 24 <==> PC2[i] < 28)
    {
      IndexCases(i, 48);
    }
    LeftInverseDistinct(PC2, PC2Inverse);
  }

  /** The total rotation of the first `rounds` rounds of the key schedule. */
  function TotalShift(rounds: nat): (s: nat)
    requires rounds <= 16
  {
    if rounds == 0 then 0 else TotalShift(rounds - 1) + RoundShifts[rounds - 1]
  }

  /** Every round rotates by 1 or 2, and the 16 rotations add up to 28, the length of a half. */
  lemma RoundShiftsSumToHalf()
    ensures |RoundShifts| == 16
    ensures forall r :: 0 <= r < 16 ==> RoundShifts[r] == 1 || RoundShifts[r] == 2
    ensures forall r :: 0 <= r <= 16 ==> TotalShift(r) <= 28
    ensures TotalShift(16) == 28
  {
    forall r | 0 <= r < 16
      ensures RoundShifts[r] == 1 || RoundShifts[r] == 2
    {
      IndexCases(r, 16);
    }
    TotalShiftValues();
    forall r | 0 <= r <= 16
      ensures TotalShift(r) <= 28
    {
      IndexCases(r, 17);
    }
  }

  /** The running totals of the round shifts. */
  lemma TotalShiftValues()
    ensures TotalShift(0) == 0
    ensures TotalShift(1) == 1
    ensures TotalShift(2) == 2
    ensures TotalShift(3) == 4
    ensures TotalShift(4) == 6
    ensures TotalShift(5) == 8
    ensures TotalShift(6) == 10
    ensures TotalShift(7) == 12
    ensures TotalShift(8) == 14
    ensures TotalShift(9) == 15
    ensures TotalShift(10) == 17
    ensures TotalShift(11) == 19
    ensures TotalShift(12) == 21
    ensures TotalShift(13) == 23
    ensures TotalShift(14) == 25
    ensures TotalShift(15) == 27
    ensures TotalShift(16) == 28
  {
    assert TotalShift(1) == 1;
    assert TotalShift(2) == 2;
    assert TotalShift(3) == 4;
    assert TotalShift(4) == 6;
    assert TotalShift(5) == 8;
    assert TotalShift(6) == 10;
    assert TotalShift(7) == 12;
    assert TotalShift(8) == 14;
    assert TotalShift(9) == 15;
    assert TotalShift(10) == 17;
    assert TotalShift(11) == 19;
    assert TotalShift(12) == 21;
    assert TotalShift(13) == 23;
    assert TotalShift(14) == 25;
    assert TotalShift(15) == 27;
    assert TotalShift(16) == 28;
  }
}
