/** The enciphering and deciphering of one 64-bit block (FIPS PUB 46-3),
    declared by the engine as `DES_block_cipher` in `DES/des.h`.

    The block goes through IP and splits into halves L and R; each of the 16
    rounds maps (L, R) to (R, L xor f(R, K)); the final halves are swapped and
    IP_INV is applied. Enciphering uses the subkeys in order, deciphering in
    reverse order. */
module BlockCipher {
  import opened Bits
  import opened Tables
  import opened Options
  import opened Feistel

  /** A pair of 32-bit halves. */
  datatype Halves = Halves(left: Bits, right: Bits)

  predicate ValidHalves(h: Halves)
  {
    |h.left| == 32 && |h.right| == 32
  }

  /** A sequence of 48-bit subkeys. */
  predicate ValidKeys(ks: seq<Bits>)
  {
    forall i :: 0 <= i < |ks| ==> |ks[i]| == 48
  }

  /** A round function: 32 output bits for a half block and a subkey. The
      cipher uses f; the structural lemmas below hold for any such function. */
  type RoundFunction = (Bits, Bits) -> Bits

  ghost predicate HalfBlockValued(f: RoundFunction)
  {
    forall right, key :: |f(right, key)| == 32
  }

  /** One Feistel round: (L, R) becomes (R, L xor f(R, K)). */
  function Round(f: RoundFunction, h: Halves, key: Bits): (r: Halves)
    requires HalfBlockValued(f) && ValidHalves(h)
    ensures ValidHalves(r)
  {
    Halves(h.right, Xor(h.left, f(h.right, key)))
  }

  /** The rounds of `keys`, applied in order. */
  function Rounds(f: RoundFunction, h: Halves, keys: seq<Bits>): (r: Halves)
    requires HalfBlockValued(f) && ValidHalves(h)
    ensures ValidHalves(r)
    decreases |keys|
  {
    if |keys| == 0 then h else Rounds(f, Round(f, h, keys[0]), keys[1..])
  }

  /** The last key of a run of rounds is applied last. */
  lemma {:induction false} RoundsSnoc(f: RoundFunction, h: Halves, keys: seq<Bits>, key: Bits)
    requires HalfBlockValued(f) && ValidHalves(h)
    ensures Rounds(f, h, keys + [key]) == Round(f, Rounds(f, h, keys), key)
    decreases |keys|
  {
    var ks := keys + [key];
    if |keys| == 0 {
      assert ks[1..] == [];
    } else {
      var h1 := Round(f, h, keys[0]);
      assert ks[0] == keys[0] && ks[1..] == keys[1..] + [key];
      RoundsSnoc(f, h1, keys[1..], key);
    }
  }

  /** The subkeys in reverse order. */
  function Reverse(keys: seq<Bits>): (r: seq<Bits>)
    ensures |r| == |keys|
    ensures forall i :: 0 <= i < |keys| ==> r[i] == keys[|keys| - 1 - i]
  {
    seq(|keys|, i requires 0 <= i < |keys| => keys[|keys| - 1 - i])
  }

  /** Swapping the halves. */
  function Swap(h: Halves): (r: Halves)
  {
    Halves(h.right, h.left)
  }

  /** The Feistel structure undoes itself: running the rounds with the keys
      reversed on the swapped output gives back the swapped input, whatever f is. */
  lemma {:induction false} RoundsReverse(f: RoundFunction, h: Halves, keys: seq<Bits>)
    requires HalfBlockValued(f) && ValidHalves(h)
    ensures Rounds(f, Swap(Rounds(f, h, keys)), Reverse(keys)) == Swap(h)
    decreases |keys|
  {
    if |keys| > 0 {
      var k := keys[0];
      var rest := keys[1..];
      var h1 := Round(f, h, k);
      assert Reverse(keys) == Reverse(rest) + [k];
      RoundsReverse(f, h1, rest);
      RoundsSnoc(f, Swap(Rounds(f, h1, rest)), Reverse(rest), k);
      XorXor(h.left, f(h.right, k));
    }
  }

  /** f as a round function. The rounds only ever apply it to 32-bit halves
      and 48-bit subkeys, where it is f itself; other sizes give 32 zero bits. */
  function CipherF(right: Bits, key: Bits): (out: Bits)
    ensures |out| == 32
  {
    if |right| == 32 && |key| == 48 then F(right, key) else Fill(false, 32)
  }

  lemma CipherFHalfBlockValued()
    ensures HalfBlockValued(CipherF)
  {
    forall right, key ensures |CipherF(right, key)| == 32 {}
  }

  /** IP of a 64-bit block, split into halves. */
  function InitialHalves(block: Bits): (h: Halves)
    requires |block| == 64
    ensures ValidHalves(h)
  {
    IPShape();
    var x := Permute(IP, block);
    Halves(x[..32], x[32..])
  }

  /** IP_INV of the swapped halves. */
  function FinalBlock(h: Halves): (block: Bits)
    requires ValidHalves(h)
    ensures |block| == 64
  {
    IPShape();
    Permute(IPInverse, h.right + h.left)
  }

  /** Enciphering or deciphering of a 64-bit block with 16 subkeys. */
  function Cipher(block: Bits, keys: seq<Bits>, encrypt: bool): (r: Bits)
    requires |block| == 64 && |keys| == 16 && ValidKeys(keys)
    ensures |r| == 64
  {
    CipherFHalfBlockValued();
    FinalBlock(Rounds(CipherF, InitialHalves(block), if encrypt then keys else Reverse(keys)))
  }

  /** The initial permutation takes the final permutation's output back to the swapped halves. */
  lemma InitialOfFinal(h: Halves)
    requires ValidHalves(h)
    ensures InitialHalves(FinalBlock(h)) == Swap(h)
  {
    IPInverseUndoesIP();
    PermuteUndo(IP, IPInverse, h.right + h.left);
    var x := Permute(IP, FinalBlock(h));
    assert x == h.right + h.left;
    assert x[..32] == h.right && x[32..] == h.left;
  }

  /** The final permutation of the initial halves, unswapped, is the block itself. */
  lemma FinalOfInitial(block: Bits)
    requires |block| == 64
    ensures FinalBlock(Swap(InitialHalves(block))) == block
  {
    IPInverseUndoesIP();
    var x := Permute(IP, block);
    assert x[..32] + x[32..] == x;
    PermuteUndo(IPInverse, IP, block);
  }

  /** Reversing twice gives the keys back. */
  lemma ReverseReverse(keys: seq<Bits>)
    ensures Reverse(Reverse(keys)) == keys
  {
  }

  /** Deciphering undoes enciphering and enciphering undoes deciphering, for every block and every 16 subkeys. */
  lemma CipherRoundTrip(block: Bits, keys: seq<Bits>)
    requires |block| == 64 && |keys| == 16 && ValidKeys(keys)
    ensures Cipher(Cipher(block, keys, true), keys, false) == block
    ensures Cipher(Cipher(block, keys, false), keys, true) == block
  {
    var h := InitialHalves(block);
    CipherFHalfBlockValued();
    RoundsReverse(CipherF, h, keys);
    InitialOfFinal(Rounds(CipherF, h, keys));
    FinalOfInitial(block);
    RoundsReverse(CipherF, h, Reverse(keys));
    ReverseReverse(keys);
    InitialOfFinal(Rounds(CipherF, h, Reverse(keys)));
  }

  /** The bit strings of 16 6-byte subkeys. */
  function KeyBits(keys: seq<seq<Byte>>): (ks: seq<Bits>)
    requires forall i :: 0 <= i < |keys| ==> |keys[i]| == 6
    ensures |ks| == |keys| && ValidKeys(ks)
    ensures forall i :: 0 <= i < |keys| ==> ks[i] == Unpack(keys[i])
  {
    seq(|keys|, i requires 0 <= i < |keys| => Unpack(keys[i]))
  }

  /** The shape the engine expects of its subkey argument: 16 subkeys of 6 bytes. */
  predicate ValidSubkeys(keys: seq<seq<Byte>>)
  {
    |keys| == 16 && forall i :: 0 <= i < 16 ==> |keys[i]| == 6
  }

  /** `DES_block_cipher`: the 8-byte result of enciphering (`mode` true) or
      deciphering (`mode` false) an 8-byte block with 16 subkeys, or `None`
      when the block or the subkeys are absent. */
  function BlockCipherBytes(block: Option<seq<Byte>>, keys: Option<seq<seq<Byte>>>, mode: bool): (r: Option<seq<Byte>>)
    requires block.Some? ==> |block.value| == 8
    requires keys.Some? ==> ValidSubkeys(keys.value)
    ensures r.Some? <==> block.Some? && keys.Some?
    ensures r.Some? ==> |r.value| == 8 && Unpack(r.value) == Cipher(Unpack(block.value), KeyBits(keys.value), mode)
  {
    if block.None? || keys.None? then None
    else
      var out := Cipher(Unpack(block.value), KeyBits(keys.value), mode);
      UnpackPack(out);
      Some(Pack(out))
  }

  /** At the byte level, deciphering returns the block that was enciphered (and the other way round). */
  lemma BlockCipherRoundTrip(block: seq<Byte>, keys: seq<seq<Byte>>, mode: bool)
    requires |block| == 8 && ValidSubkeys(keys)
    ensures var c := BlockCipherBytes(Some(block), Some(keys), mode);
      c.Some? && BlockCipherBytes(c, Some(keys), !mode) == Some(block)
  {
    var ks := KeyBits(keys);
    var c := BlockCipherBytes(Some(block), Some(keys), mode);
    CipherRoundTrip(Unpack(block), ks);
    var d := BlockCipherBytes(c, Some(keys), !mode);
    UnpackInjective(d.value, block);
  }
}
