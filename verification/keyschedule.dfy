/** The key schedule (`DES_generate_subKeys` in `DES/des.c`).

    The model has two levels. The bit level follows the standard: PC1 selects
    56 bits split into halves C and D, each round rotates both halves left by
    the round's shift, and PC2 selects the round's 48-bit subkey. The byte
    level follows the C code: PC1 and PC2 are applied by a loop that sets bits
    of a zeroed buffer, and the rotation is done in place on a 7-byte buffer
    whose byte 3 holds the last four bits of C and the first four of D. The
    refinement lemma `RotateKeyBytesRefines` ties the two rotations together. */
module KeySchedule {
  import opened Bits
  import opened Tables
  import opened Options
  import opened Parity

  /** Rotates each 28-bit half of the 56-bit state C ++ D left by `s`; no bit crosses between halves. */
  function RotateHalves(cd: Bits, s: nat): (r: Bits)
    requires |cd| == 56 && s <= 28
    ensures |r| == 56
    ensures r[..28] == RotateLeft(cd[..28], s) && r[28..] == RotateLeft(cd[28..], s)
  {
    RotateLeft(cd[..28], s) + RotateLeft(cd[28..], s)
  }

  /** The index form of `RotateHalves`: bit `i` comes from `i + s` in the same half, wrapping inside the half. */
  lemma RotateHalvesIndex(cd: Bits, s: nat, i: nat)
    requires |cd| == 56 && s <= 28 && i < 56
    ensures i < 28 ==> RotateHalves(cd, s)[i] == if i + s < 28 then cd[i + s] else cd[i + s - 28]
    ensures i >= 28 ==> RotateHalves(cd, s)[i] == if i + s < 56 then cd[i + s] else cd[i + s - 28]
  {
    if i < 28 {
      RotateLeftIndex(cd[..28], s, i);
    } else {
      RotateLeftIndex(cd[28..], s, i - 28);
    }
  }

  /** The 56-bit state after `rounds` rounds, starting from the PC1 output `cd0`. */
  function State(cd0: Bits, rounds: nat): (cd: Bits)
    requires |cd0| == 56 && rounds <= 16
    ensures |cd| == 56
  {
    if rounds == 0 then cd0
    else
      RoundShiftsSumToHalf();
      RotateHalves(State(cd0, rounds - 1), RoundShifts[rounds - 1])
  }

  /** The 56-bit state C ++ D selected from a 64-bit key by PC1. */
  function InitialState(key: Bits): (cd: Bits)
    requires |key| == 64
    ensures |cd| == 56
  {
    PC1Shape();
    Permute(PC1, key)
  }

  /** Subkey `i` (0-based) of a 64-bit key: PC2 of the state after `i + 1` rounds. */
  function Subkey(key: Bits, i: nat): (k: Bits)
    requires |key| == 64 && i < 16
    ensures |k| == 48
  {
    PC2Shape();
    Permute(PC2, State(InitialState(key), i + 1))
  }

  /** The 16 48-bit subkeys of a 64-bit key. */
  function SubkeyBits(key: Bits): (ks: seq<Bits>)
    requires |key| == 64
    ensures |ks| == 16
    ensures forall i :: 0 <= i < 16 ==> ks[i] == Subkey(key, i)
  {
    seq(16, i requires 0 <= i < 16 => Subkey(key, i))
  }

  /** The subkeys of an 8-byte key as the 16 6-byte buffers the engine returns. */
  function Schedule(key: seq<Byte>): (ks: seq<seq<Byte>>)
    requires |key| == 8
    ensures |ks| == 16
    ensures forall i :: 0 <= i < 16 ==> |ks[i]| == 6 && Unpack(ks[i]) == Subkey(Unpack(key), i)
  {
    var ks := seq(16, i requires 0 <= i < 16 => Pack(Subkey(Unpack(key), i)));
    forall i | 0 <= i < 16
      ensures |ks[i]| == 6 && Unpack(ks[i]) == Subkey(Unpack(key), i)
    {
      UnpackPack(Subkey(Unpack(key), i));
    }
    ks
  }

  /** Rotating both halves by `a` and then by `b` rotates them by `a + b`. */
  lemma RotateHalvesCompose(cd: Bits, a: nat, b: nat)
    requires |cd| == 56 && a + b <= 28
    ensures RotateHalves(RotateHalves(cd, a), b) == RotateHalves(cd, a + b)
  {
    var r := RotateHalves(cd, a);
    RotateLeftCompose(cd[..28], a, b);
    RotateLeftCompose(cd[28..], a, b);
    assert r[..28] == RotateLeft(cd[..28], a);
    assert r[28..] == RotateLeft(cd[28..], a);
  }

  /** The state after `rounds` rounds is the initial state with both halves
      rotated by the total shift of those rounds. */
  lemma {:induction false} StateIsTotalRotation(cd0: Bits, rounds: nat)
    requires |cd0| == 56 && rounds <= 16
    ensures TotalShift(rounds) <= 28
    ensures State(cd0, rounds) == RotateHalves(cd0, TotalShift(rounds))
  {
    RoundShiftsSumToHalf();
    if rounds == 0 {
      assert RotateHalves(cd0, 0) == cd0[..28] + cd0[28..];
      assert cd0[..28] + cd0[28..] == cd0;
    } else {
      StateIsTotalRotation(cd0, rounds - 1);
      RotateHalvesCompose(cd0, TotalShift(rounds - 1), RoundShifts[rounds - 1]);
    }
  }

  /** The shifts add up to 28, so after the sixteenth round the state is the PC1 output again. */
  lemma StateReturnsAfterSixteenRounds(cd0: Bits)
    requires |cd0| == 56
    ensures State(cd0, 16) == cd0
  {
    StateIsTotalRotation(cd0, 16);
    RoundShiftsSumToHalf();
    assert cd0[..28][28..] + cd0[..28][..28] == cd0[..28];
    assert cd0[28..][28..] + cd0[28..][..28] == cd0[28..];
    assert cd0[..28] + cd0[28..] == cd0;
  }

  /** Two keys that agree on every bit except the parity bits (bit 7 of each
      byte) have the same subkeys: PC1 never reads a parity bit. */
  lemma SubkeysIgnoreParityBits(a: Bits, b: Bits)
    requires |a| == 64 && |b| == 64
    requires forall n :: 0 <= n < 64 && n % 8 != 7 ==> a[n] == b[n]
    ensures SubkeyBits(a) == SubkeyBits(b)
  {
    PC1SkipsParityBits();
    assert InitialState(a) == InitialState(b);
  }

  /** The byte-level form: keys whose bytes agree outside the low-order bit have the same schedule. */
  lemma ScheduleIgnoresParityBits(a: seq<Byte>, b: seq<Byte>)
    requires |a| == 8 && |b| == 8
    requires forall j :: 0 <= j < 8 ==> a[j] & 0xFE == b[j] & 0xFE
    ensures Schedule(a) == Schedule(b)
  {
    forall n | 0 <= n < 64 && n % 8 != 7
      ensures Unpack(a)[n] == Unpack(b)[n]
    {
      ParityMaskKeepsBit(a[n / 8], b[n / 8], n % 8);
    }
    SubkeysIgnoreParityBits(Unpack(a), Unpack(b));
    forall i | 0 <= i < 16
      ensures Schedule(a)[i] == Schedule(b)[i]
    {
      UnpackInjective(Schedule(a)[i], Schedule(b)[i]);
    }
  }

  lemma ParityMaskKeepsBit(x: Byte, y: Byte, k: nat)
    requires x & 0xFE == y & 0xFE && k < 7
    ensures BitOf(x, k) == BitOf(y, k)
  {
    IndexCases(k, 7);
  }

  /** A state whose halves are each constant is left unchanged by every round. */
  lemma {:induction false} StateOfConstantHalves(c: bool, d: bool, rounds: nat)
    requires rounds <= 16
    ensures State(Fill(c, 28) + Fill(d, 28), rounds) == Fill(c, 28) + Fill(d, 28)
  {
    var cd := Fill(c, 28) + Fill(d, 28);
    if rounds > 0 {
      StateOfConstantHalves(c, d, rounds - 1);
      RoundShiftsSumToHalf();
      assert cd[..28] == Fill(c, 28) && cd[28..] == Fill(d, 28);
      RotateLeftFill(c, 28, RoundShifts[rounds - 1]);
      RotateLeftFill(d, 28, RoundShifts[rounds - 1]);
    }
  }

  /** Weak keys: when PC1 yields a constant C and a constant D, every one of the
      16 subkeys is 24 copies of C's bit followed by 24 copies of D's bit,
      because the rounds leave the state alone and PC2 takes its first 24 bits
      from C and its last 24 from D. */
  lemma WeakKeySubkeys(key: Bits, c: bool, d: bool)
    requires |key| == 64
    requires InitialState(key) == Fill(c, 28) + Fill(d, 28)
    ensures forall i :: 0 <= i < 16 ==> Subkey(key, i) == Fill(c, 24) + Fill(d, 24)
  {
    forall i | 0 <= i < 16
      ensures Subkey(key, i) == Fill(c, 24) + Fill(d, 24)
    {
      StateOfConstantHalves(c, d, i + 1);
      PC2SplitsHalves();
      PC2OfConstantHalves(c, d);
    }
  }

  /** PC2 of a state with constant halves: 24 bits of C, then 24 bits of D. */
  lemma PC2OfConstantHalves(c: bool, d: bool)
    requires Selects(PC2, 56)
    ensures Permute(PC2, Fill(c, 28) + Fill(d, 28)) == Fill(c, 24) + Fill(d, 24)
  {
    PC2SplitsHalves();
    var r := Permute(PC2, Fill(c, 28) + Fill(d, 28));
    forall i | 0 <= i < 48
      ensures r[i] == (Fill(c, 24) + Fill(d, 24))[i]
    {
    }
  }

  // ---------------------------------------------------------------------------
  // Byte level: the code of DES_generate_subKeys
  // ---------------------------------------------------------------------------

  /** Bytes 0-2, 4 and 5 of the rotation: byte `a` shifted left, refilled from the top of the next byte `b`. */
  function ShiftPair(a: Byte, b: Byte, shift: nat): Byte
    requires shift == 1 || shift == 2
  {
    (a << shift) | (b >> (8 - shift))
  }

  /** Byte 3 of the rotation: its high nibble ends C and is refilled from the
      top `shift` bits of C saved from byte 0 (`mask_1`); its low nibble starts D
      and is refilled from byte 4. */
  function SharedByte(k0: Byte, k3: Byte, k4: Byte, shift: nat): Byte
    requires shift == 1 || shift == 2
  {
    var mask1: Byte := if shift == 1 then 0x80 else 0xC0;
    ((k3 & 0xF0) << shift) | ((mask1 & k0) >> (4 - shift)) | ((k3 << shift) & 0x0F) | (k4 >> (8 - shift))
  }

  /** Byte 6 of the rotation: it ends D and is refilled from the top `shift`
      bits of D saved from the low nibble of byte 3 (`mask_2`). */
  function LastByte(k3: Byte, k6: Byte, shift: nat): Byte
    requires shift == 1 || shift == 2
  {
    var mask2: Byte := (if shift == 1 then 0x80 else 0xC0) >> 4;
    (k6 << shift) | ((mask2 & k3) >> (4 - shift))
  }

  /** One round of the in-place rotation of the 7-byte buffer `key_gen`. Every
      byte is computed from the buffer as it was before the round: the two bits
      the C code overwrites before reading are saved first in `mask_1` and `mask_2`. */
  function RotateKeyBytes(kg: seq<Byte>, shift: nat): (r: seq<Byte>)
    requires |kg| == 7 && (shift == 1 || shift == 2)
    ensures |r| == 7
  {
    [ ShiftPair(kg[0], kg[1], shift), ShiftPair(kg[1], kg[2], shift), ShiftPair(kg[2], kg[3], shift),
      SharedByte(kg[0], kg[3], kg[4], shift),
      ShiftPair(kg[4], kg[5], shift), ShiftPair(kg[5], kg[6], shift),
      LastByte(kg[3], kg[6], shift) ]
  }

  /** Where bit `k` of byte `j` of the rotated buffer comes from, as a (byte,
      bit) position of the buffer before the round, read off the code: inside C
      or D a byte takes its bits from `shift` places further on; the end of C
      (byte 3, high nibble) wraps to byte 0 and the end of D (byte 6) wraps to
      the low nibble of byte 3. */
  function RotatedFrom(shift: nat, j: nat, k: nat): (src: (nat, nat))
    requires (shift == 1 || shift == 2) && j < 7 && k < 8
    ensures src.0 < 7 && src.1 < 8
  {
    if j == 3 then
      if k < 4 then (if k + shift < 4 then (3, k + shift) else (0, k + shift - 4))
      else (if k + shift < 8 then (3, k + shift) else (4, k + shift - 8))
    else if j == 6 then
      if k + shift < 8 then (6, k + shift) else (3, k + shift - 4)
    else
      if k + shift < 8 then (j, k + shift) else (j + 1, k + shift - 8)
  }

  lemma ShiftPairFrom(a: Byte, b: Byte, shift: nat, j: nat, k: nat)
    requires (shift == 1 || shift == 2) && j < 7 && j != 3 && j != 6 && k < 8
    ensures var src := RotatedFrom(shift, j, k);
      BitOf(ShiftPair(a, b, shift), k) == if src.0 == j then BitOf(a, src.1) else BitOf(b, src.1)
  {
    IndexCases(k, 8);
  }

  lemma SharedByteFrom(k0: Byte, k3: Byte, k4: Byte, shift: nat, k: nat)
    requires (shift == 1 || shift == 2) && k < 8
    ensures var src := RotatedFrom(shift, 3, k);
      BitOf(SharedByte(k0, k3, k4, shift), k) ==
      if src.0 == 0 then BitOf(k0, src.1) else if src.0 == 3 then BitOf(k3, src.1) else BitOf(k4, src.1)
  {
    IndexCases(k, 8);
  }

  lemma LastByteFrom(k3: Byte, k6: Byte, shift: nat, k: nat)
    requires (shift == 1 || shift == 2) && k < 8
    ensures var src := RotatedFrom(shift, 6, k);
      BitOf(LastByte(k3, k6, shift), k) == if src.0 == 6 then BitOf(k6, src.1) else BitOf(k3, src.1)
  {
    IndexCases(k, 8);
  }

  /** `RotateHalves` takes bit `8 * j + k` from the position `RotatedFrom` names. */
  lemma RotateHalvesFrom(cd: Bits, shift: nat, j: nat, k: nat)
    requires |cd| == 56 && (shift == 1 || shift == 2) && j < 7 && k < 8
    ensures var src := RotatedFrom(shift, j, k); RotateHalves(cd, shift)[8 * j + k] == cd[8 * src.0 + src.1]
  {
    RotateHalvesIndex(cd, shift, 8 * j + k);
  }

  /** The code takes bit `k` of byte `j` from the position `RotatedFrom` names. */
  lemma RotateKeyBytesFrom(kg: seq<Byte>, shift: nat, j: nat, k: nat)
    requires |kg| == 7 && (shift == 1 || shift == 2) && j < 7 && k < 8
    ensures var src := RotatedFrom(shift, j, k); BitOf(RotateKeyBytes(kg, shift)[j], k) == BitOf(kg[src.0], src.1)
  {
    if j == 3 {
      SharedByteFromBuffer(kg, shift, k);
    } else if j == 6 {
      LastByteFromBuffer(kg, shift, k);
    } else {
      ShiftPairFromBuffer(kg, shift, j, k);
    }
  }

  lemma ShiftPairFromBuffer(kg: seq<Byte>, shift: nat, j: nat, k: nat)
    requires |kg| == 7 && (shift == 1 || shift == 2) && j < 7 && j != 3 && j != 6 && k < 8
    ensures var src := RotatedFrom(shift, j, k); BitOf(RotateKeyBytes(kg, shift)[j], k) == BitOf(kg[src.0], src.1)
  {
    assert RotateKeyBytes(kg, shift)[j] == ShiftPair(kg[j], kg[j + 1], shift);
    ShiftPairFrom(kg[j], kg[j + 1], shift, j, k);
  }

  lemma SharedByteFromBuffer(kg: seq<Byte>, shift: nat, k: nat)
    requires |kg| == 7 && (shift == 1 || shift == 2) && k < 8
    ensures var src := RotatedFrom(shift, 3, k); BitOf(RotateKeyBytes(kg, shift)[3], k) == BitOf(kg[src.0], src.1)
  {
    assert RotateKeyBytes(kg, shift)[3] == SharedByte(kg[0], kg[3], kg[4], shift);
    SharedByteFrom(kg[0], kg[3], kg[4], shift, k);
  }

  lemma LastByteFromBuffer(kg: seq<Byte>, shift: nat, k: nat)
    requires |kg| == 7 && (shift == 1 || shift == 2) && k < 8
    ensures var src := RotatedFrom(shift, 6, k); BitOf(RotateKeyBytes(kg, shift)[6], k) == BitOf(kg[src.0], src.1)
  {
    assert RotateKeyBytes(kg, shift)[6] == LastByte(kg[3], kg[6], shift);
    LastByteFrom(kg[3], kg[6], shift, k);
  }

  /** Bit `8 * j + k` of the rotated halves of a buffer's bit string is the buffer bit `RotatedFrom` names. */
  lemma RotateHalvesBit(kg: seq<Byte>, shift: nat, j: nat, k: nat)
    requires |kg| == 7 && (shift == 1 || shift == 2) && j < 7 && k < 8
    ensures var src := RotatedFrom(shift, j, k); RotateHalves(Unpack(kg), shift)[8 * j + k] == BitOf(kg[src.0], src.1)
  {
    var src := RotatedFrom(shift, j, k);
    RotateHalvesFrom(Unpack(kg), shift, j, k);
    UnpackAt(kg, src.0, src.1);
  }

  /** Bit `8 * j + k` of the byte-level rotation is the buffer bit `RotatedFrom` names. */
  lemma RotateKeyBytesUnpackedBit(kg: seq<Byte>, shift: nat, j: nat, k: nat)
    requires |kg| == 7 && (shift == 1 || shift == 2) && j < 7 && k < 8
    ensures var src := RotatedFrom(shift, j, k); Unpack(RotateKeyBytes(kg, shift))[8 * j + k] == BitOf(kg[src.0], src.1)
  {
    RotateKeyBytesFrom(kg, shift, j, k);
    UnpackAt(RotateKeyBytes(kg, shift), j, k);
  }

  /** Bit `8 * j + k` of the byte-level rotation is that bit of `RotateHalves`. */
  lemma RotateKeyBytesBit(kg: seq<Byte>, shift: nat, j: nat, k: nat)
    requires |kg| == 7 && (shift == 1 || shift == 2) && j < 7 && k < 8
    ensures Unpack(RotateKeyBytes(kg, shift))[8 * j + k] == RotateHalves(Unpack(kg), shift)[8 * j + k]
  {
    RotateHalvesBit(kg, shift, j, k);
    RotateKeyBytesUnpackedBit(kg, shift, j, k);
  }

  /** Refinement: the byte-level rotation rotates C (bits 0..27) and D (bits 28..55) of the packed state independently. */
  lemma RotateKeyBytesRefines(kg: seq<Byte>, shift: nat)
    requires |kg| == 7 && (shift == 1 || shift == 2)
    ensures Unpack(RotateKeyBytes(kg, shift)) == RotateHalves(Unpack(kg), shift)
  {
    forall i | 0 <= i < 56
      ensures Unpack(RotateKeyBytes(kg, shift))[i] == RotateHalves(Unpack(kg), shift)[i]
    {
      RotateKeyBytesBit(kg, shift, i / 8, i % 8);
    }
  }

  /** After `i` iterations of the selection loop, output bits below `i` are the
      selected input bits and the rest are still clear. */
  predicate SelectedUpTo(t: seq<int>, input: seq<Byte>, out: seq<Byte>, i: nat)
    requires Selects(t, 8 * |input|) && |t| == 8 * |out| && i <= |t|
  {
    && (forall n :: 0 <= n < i ==> Unpack(out)[n] == Unpack(input)[t[n]])
    && (forall n :: i <= n < |t| ==> !Unpack(out)[n])
  }

  /** One iteration of the selection loop keeps `SelectedUpTo`. */
  lemma SelectStep(t: seq<int>, input: seq<Byte>, out: seq<Byte>, i: nat)
    requires Selects(t, 8 * |input|) && |t| == 8 * |out| && i < |t|
    requires SelectedUpTo(t, input, out, i)
    ensures var next := if BitOf(input[t[i] / 8], t[i] % 8) then SetBit(out, i) else out;
      |next| == |out| && SelectedUpTo(t, input, next, i + 1)
  {
    assert Unpack(input)[t[i]] == BitOf(input[t[i] / 8], t[i] % 8);
  }

  /** The selection loop the engine uses for PC1 (`DES/des.c:107-112`) and PC2
      (`DES/des.c:154-159`): for each table position `i`, if input bit `t[i]`
      is set, bit `i` of a zeroed output buffer is set. The result packs the
      permuted bit string. */
  method SelectBits(t: seq<int>, input: seq<Byte>, outLen: nat) returns (out: seq<Byte>)
    requires Selects(t, 8 * |input|) && |t| == 8 * outLen
    ensures |out| == outLen
    ensures Unpack(out) == Permute(t, Unpack(input))
  {
    out := Zeros(outLen);
    var i := 0;
    while i < |t|
      invariant 0 <= i <= |t| && |out| == outLen
      invariant SelectedUpTo(t, input, out, i)
    {
      var index := t[i];
      var mask1 := Mask(index % 8);
      SelectStep(t, input, out, i);
      if input[index / 8] & mask1 != 0 {
        out := SetBit(out, i);
      }
      i := i + 1;
    }
  }

  /** Round `i` of the byte-level schedule advances the packed state by one round. */
  lemma RoundStep(cd0: Bits, keyGen: seq<Byte>, i: nat)
    requires |cd0| == 56 && |keyGen| == 7 && i < 16
    requires Unpack(keyGen) == State(cd0, i)
    ensures RoundShifts[i] == 1 || RoundShifts[i] == 2
    ensures Unpack(RotateKeyBytes(keyGen, RoundShifts[i])) == State(cd0, i + 1)
  {
    RoundShiftsSumToHalf();
    RotateKeyBytesRefines(keyGen, RoundShifts[i]);
  }

  /** The 6-byte PC2 selection from a buffer holding the state after `i + 1`
      rounds is subkey `i` of `Schedule`. */
  lemma ScheduleAt(key: seq<Byte>, i: nat, keyGen: seq<Byte>, sub: seq<Byte>)
    requires |key| == 8 && i < 16 && |keyGen| == 7 && |sub| == 6
    requires Selects(PC2, 56)
    requires Unpack(keyGen) == State(InitialState(Unpack(key)), i + 1)
    requires Unpack(sub) == Permute(PC2, Unpack(keyGen))
    ensures sub == Schedule(key)[i]
  {
    PackUnpack(sub);
    assert Subkey(Unpack(key), i) == Permute(PC2, State(InitialState(Unpack(key)), i + 1));
  }

  /** The sixteen rounds of `DES_generate_subKeys` (`DES/des.c:128-160`): from
      the PC1 buffer of `key`, rotate in place and select PC2 each round. */
  method GenerateRounds(key: seq<Byte>, keyGen0: seq<Byte>) returns (subkeys: seq<seq<Byte>>)
    requires |key| == 8 && |keyGen0| == 7
    requires Unpack(keyGen0) == InitialState(Unpack(key))
    ensures subkeys == Schedule(key)
  {
    PC2SplitsHalves();
    var cd0 := InitialState(Unpack(key));
    var keyGen := keyGen0;
    subkeys := [];
    var i := 0;
    while i < 16
      invariant 0 <= i <= 16 && |keyGen| == 7
      invariant Unpack(keyGen) == State(cd0, i)
      invariant subkeys == Schedule(key)[..i]
    {
      RoundStep(cd0, keyGen, i);
      keyGen := RotateKeyBytes(keyGen, RoundShifts[i]);
      var sub := SelectBits(PC2, keyGen, 6);
      ScheduleAt(key, i, keyGen, sub);
      PrefixSnoc(Schedule(key), i);
      subkeys := subkeys + [sub];
      i := i + 1;
    }
    assert Schedule(key)[..16] == Schedule(key);
  }

  /** The prefix of `i + 1` elements extends the prefix of `i` by element `i`. */
  lemma PrefixSnoc<T>(s: seq<T>, i: nat)
    requires i < |s|
    ensures s[..i + 1] == s[..i] + [s[i]]
  {
  }

  /** `DES_generate_subKeys`: no subkeys for an absent key or a key failing the
      odd-parity check; otherwise the 16 subkeys of `Schedule`, computed the
      way the C code does, by PC1 into a 7-byte buffer, sixteen in-place byte
      rotations and PC2 after each. */
  method GenerateSubkeys(key: Option<seq<Byte>>) returns (r: Option<seq<seq<Byte>>>)
    requires key.Some? ==> |key.value| == 8
    ensures r.Some? <==> key.Some? && AllOddParity(key.value, 8)
    ensures r.Some? ==> r.value == Schedule(key.value)
  {
    if key.None? {
      return None;
    }
    var k := key.value;
    var parity := CheckOddParity(k, 8);
    if parity != 0 {
      return None;
    }
    PC1SkipsParityBits();
    var keyGen := SelectBits(PC1, k, 7);
    var subkeys := GenerateRounds(k, keyGen);
    return Some(subkeys);
  }
}
