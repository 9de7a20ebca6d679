/** Steps that reduce statements about particular bit strings to facts about
    their bytes. The known-answer lemmas use them to follow a computation of
    the cipher stage by stage: each stage is proved on its own bytes, and
    these lemmas put the stages together. */
module Evaluation {
  import opened Bits
  import opened Tables
  import opened Feistel
  import opened BlockCipher
  import opened KeySchedule

  /** A table selection from a buffer is the bit string of another buffer when the two agree bit by bit. */
  lemma PermuteBytes(t: seq<int>, input: seq<Byte>, output: seq<Byte>)
    requires Selects(t, 8 * |input|) && |t| == 8 * |output|
    requires forall i :: 0 <= i < |t| ==> Unpack(input)[t[i]] == Unpack(output)[i]
    ensures Permute(t, Unpack(input)) == Unpack(output)
  {
  }

  /** The S-box row and column of input group `k`, read off the string's own bits. */
  lemma GroupRowColumn(x: Bits, k: nat)
    requires |x| == 48 && k < 8
    ensures SBoxRow(Group(x, k)) == (if x[6 * k] then 2 else 0) + (if x[6 * k + 5] then 1 else 0)
    ensures SBoxColumn(Group(x, k)) ==
      (if x[6 * k + 1] then 8 else 0) + (if x[6 * k + 2] then 4 else 0) +
      (if x[6 * k + 3] then 2 else 0) + (if x[6 * k + 4] then 1 else 0)
  {
    var six := Group(x, k);
    assert six[1..5][0] == x[6 * k + 1] && six[1..5][1] == x[6 * k + 2];
    assert six[1..5][2] == x[6 * k + 3] && six[1..5][3] == x[6 * k + 4];
  }

  /** The four bits of output group `k` of a 4-byte buffer: the high or low half of byte `k / 2`. */
  lemma OutputGroupBits(s: seq<Byte>, k: nat)
    requires |s| == 4 && k < 8
    ensures OutputGroup(Unpack(s), k) ==
      [BitOf(s[k / 2], 4 * (k % 2)), BitOf(s[k / 2], 4 * (k % 2) + 1),
       BitOf(s[k / 2], 4 * (k % 2) + 2), BitOf(s[k / 2], 4 * (k % 2) + 3)]
  {
    var j, o := k / 2, 4 * (k % 2);
    assert 4 * k == 8 * j + o && o + 3 < 8;
    UnpackAt(s, j, o);
    UnpackAt(s, j, o + 1);
    UnpackAt(s, j, o + 2);
    UnpackAt(s, j, o + 3);
    SliceOfFour(Unpack(s), 4 * k, BitOf(s[j], o), BitOf(s[j], o + 1), BitOf(s[j], o + 2), BitOf(s[j], o + 3));
  }

  /** Four consecutive bits of a string, as a sequence of four. */
  lemma SliceOfFour(x: Bits, a: nat, b0: bool, b1: bool, b2: bool, b3: bool)
    requires a + 4 <= |x| && x[a] == b0 && x[a + 1] == b1 && x[a + 2] == b2 && x[a + 3] == b3
    ensures x[a .. a + 4] == [b0, b1, b2, b3]
  {
  }

  /** Two 32-bit strings with the same eight output groups are equal. */
  lemma GroupsDetermine(a: Bits, b: Bits)
    requires |a| == 32 && |b| == 32
    requires forall k :: 0 <= k < 8 ==> OutputGroup(a, k) == OutputGroup(b, k)
    ensures a == b
  {
    forall i | 0 <= i < 32
      ensures a[i] == b[i]
    {
      assert OutputGroup(a, i / 4)[i % 4] == a[i];
      assert OutputGroup(b, i / 4)[i % 4] == b[i];
    }
  }

  /** The S-box layer gives `s` when every S-box gives the matching group of `s`. */
  lemma SubstituteOfGroups(x: Bits, s: Bits)
    requires |x| == 48 && |s| == 32
    requires forall k :: 0 <= k < 8 ==> SBox(k, Group(x, k)) == OutputGroup(s, k)
    ensures Substitute(x) == s
  {
    GroupsDetermine(Substitute(x), s);
  }

  /** f from its stages: expansion `e`, the subkey added to give `x`, substitution
      `s` and permutation `out`, each a byte buffer. */
  lemma FOfStages(right: seq<Byte>, key: seq<Byte>, e: seq<Byte>, x: seq<Byte>, s: seq<Byte>, out: seq<Byte>)
    requires |right| == 4 && |key| == 6 && |e| == 6 && |x| == 6 && |s| == 4 && |out| == 4
    requires Expand(Unpack(right)) == Unpack(e)
    requires forall j :: 0 <= j < 6 ==> x[j] == e[j] ^ key[j]
    requires Substitute(Unpack(x)) == Unpack(s)
    requires PermuteOutput(Unpack(s)) == Unpack(out)
    ensures F(Unpack(right), Unpack(key)) == Unpack(out)
  {
    XorUnpack(e, key, x);
  }

  /** One round from f's output: (L, R) becomes (R, L xor f(R, K)), byte by byte. */
  lemma RoundOfF(left: seq<Byte>, right: seq<Byte>, key: seq<Byte>, out: seq<Byte>, next: seq<Byte>)
    requires |left| == 4 && |right| == 4 && |key| == 6 && |out| == 4 && |next| == 4
    requires F(Unpack(right), Unpack(key)) == Unpack(out)
    requires forall j :: 0 <= j < 4 ==> next[j] == left[j] ^ out[j]
    ensures Round(CipherF, Halves(Unpack(left), Unpack(right)), Unpack(key)) == Halves(Unpack(right), Unpack(next))
  {
    CipherFHalfBlockValued();
    XorUnpack(left, out, next);
  }

  /** A run of rounds from the state before and after each round. */
  lemma {:induction false} RoundsOfSteps(f: RoundFunction, hs: seq<Halves>, keys: seq<Bits>)
    requires HalfBlockValued(f) && |hs| == |keys| + 1
    requires forall i :: 0 <= i < |hs| ==> ValidHalves(hs[i])
    requires forall i :: 0 <= i < |keys| ==> Round(f, hs[i], keys[i]) == hs[i + 1]
    ensures Rounds(f, hs[0], keys) == hs[|keys|]
    decreases |keys|
  {
    if |keys| > 0 {
      RoundsOfSteps(f, hs[1..], keys[1..]);
    }
  }

  /** One round of the key schedule on bytes: when the state after `n` rounds is
      the buffer `before`, the state after `n + 1` rounds is `before` rotated in place. */
  lemma StateStep(cd0: Bits, n: nat, before: seq<Byte>, after: seq<Byte>)
    requires |cd0| == 56 && n < 16 && |before| == 7
    requires State(cd0, n) == Unpack(before)
    requires RoundShifts[n] == 1 || RoundShifts[n] == 2
    requires RotateKeyBytes(before, RoundShifts[n]) == after
    ensures State(cd0, n + 1) == Unpack(after)
  {
    RotateKeyBytesRefines(before, RoundShifts[n]);
  }

  /** The subkey of round `n` from the state after the round, on bytes. */
  lemma SubkeyStep(key: Bits, n: nat, after: seq<Byte>, sub: seq<Byte>)
    requires |key| == 64 && n < 16 && |after| == 7 && |sub| == 6
    requires State(InitialState(key), n + 1) == Unpack(after)
    requires Selects(PC2, 56)
    requires Permute(PC2, Unpack(after)) == Unpack(sub)
    ensures Subkey(key, n) == Unpack(sub)
  {
  }
}
