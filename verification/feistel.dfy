/** The cipher function f of the Data Encryption Standard (FIPS PUB 46-3),
    declared by the engine as `DES_F_function` in `DES/des.h`.

    f expands the 32-bit right half to 48 bits with E, adds the round's
    subkey bitwise modulo 2, passes each 6-bit group through its S-box and
    permutes the 32 result bits with P. */
module Feistel {
  import opened Bits
  import opened Tables
  import opened Options

  /** The 4 bits, most significant first, of a value below 16. */
  function Nibble(v: int): (bs: Bits)
    requires 0 <= v < 16
    ensures |bs| == 4
  {
    [v >= 8, v % 8 >= 4, v % 4 >= 2, v % 2 == 1]
  }

  /** The value of 4 bits, most significant first. */
  function NibbleValue(bs: Bits): (v: int)
    requires |bs| == 4
    ensures 0 <= v < 16
  {
    (if bs[0] then 8 else 0) + (if bs[1] then 4 else 0) + (if bs[2] then 2 else 0) + (if bs[3] then 1 else 0)
  }

  /** `Nibble` and `NibbleValue` are inverse to each other. */
  lemma NibbleRoundTrip(v: int, bs: Bits)
    requires 0 <= v < 16 && |bs| == 4
    ensures NibbleValue(Nibble(v)) == v
    ensures Nibble(NibbleValue(bs)) == bs
  {
  }

  /** The S-box row of a 6-bit group: its first and last bits. */
  function SBoxRow(six: Bits): (row: int)
    requires |six| == 6
    ensures 0 <= row < 4
  {
    (if six[0] then 2 else 0) + (if six[5] then 1 else 0)
  }

  /** The S-box column of a 6-bit group: its four middle bits. */
  function SBoxColumn(six: Bits): (col: int)
    requires |six| == 6
    ensures 0 <= col < 16
  {
    NibbleValue(six[1..5])
  }

  /** Entry `col` of row `row` of S-box `k`: a 4-bit value. */
  function SBoxEntry(k: nat, row: nat, col: nat): (v: int)
    requires k < 8 && row < 4 && col < 16
    ensures 0 <= v < 16
  {
    SBoxEntriesAreNibbles();
    SBoxes[k][row][col]
  }

  /** S-box `k` applied to a 6-bit group: the 4 bits of the entry at the group's row and column. */
  function SBox(k: nat, six: Bits): (out: Bits)
    requires k < 8 && |six| == 6
    ensures |out| == 4
    ensures NibbleValue(out) == SBoxEntry(k, SBoxRow(six), SBoxColumn(six))
  {
    var v := SBoxEntry(k, SBoxRow(six), SBoxColumn(six));
    NibbleRoundTrip(v, [false, false, false, false]);
    Nibble(v)
  }

  /** Input group `k` of the S-box layer: bits `6k` to `6k + 5` of the 48-bit string. */
  function Group(x: Bits, k: nat): (six: Bits)
    requires |x| == 48 && k < 8
    ensures |six| == 6
  {
    x[6 * k .. 6 * k + 6]
  }

  /** Output group `k` of the S-box layer: bits `4k` to `4k + 3` of the 32-bit string. */
  function OutputGroup(r: Bits, k: nat): (four: Bits)
    requires |r| == 32 && k < 8
    ensures |four| == 4
  {
    r[4 * k .. 4 * k + 4]
  }

  /** The eight S-boxes side by side: 48 bits in, 32 bits out, output group `k`
      being S-box `k` applied to input group `k`. */
  function Substitute(x: Bits): (r: Bits)
    requires |x| == 48
    ensures |r| == 32
    ensures forall k :: 0 <= k < 8 ==> OutputGroup(r, k) == SBox(k, Group(x, k))
  {
    var r := seq(32, i requires 0 <= i < 32 => SBox(i / 4, Group(x, i / 4))[i % 4]);
    forall k | 0 <= k < 8
      ensures OutputGroup(r, k) == SBox(k, Group(x, k))
    {
      forall m | 0 <= m < 4
        ensures OutputGroup(r, k)[m] == SBox(k, Group(x, k))[m]
      {
        assert (4 * k + m) / 4 == k && (4 * k + m) % 4 == m;
      }
    }
    r
  }

  /** E: the 32-bit half block expanded to 48 bits. */
  function Expand(right: Bits): (x: Bits)
    requires |right| == 32
    ensures |x| == 48
  {
    EShape();
    Permute(E, right)
  }

  /** P: the permutation of the 32 bits the S-boxes produce. */
  function PermuteOutput(s: Bits): (r: Bits)
    requires |s| == 32
    ensures |r| == 32
  {
    PShape();
    Permute(P, s)
  }

  /** The cipher function f of a 32-bit half block and a 48-bit subkey. */
  function F(right: Bits, key: Bits): (out: Bits)
    requires |right| == 32 && |key| == 48
    ensures |out| == 32
  {
    PermuteOutput(Substitute(Xor(Expand(right), key)))
  }

  /** `DES_F_function`: the 4-byte result of f on a 4-byte half block and a
      6-byte subkey, or `None` when either argument is absent. */
  function FFunction(right: Option<seq<Byte>>, key: Option<seq<Byte>>): (r: Option<seq<Byte>>)
    requires right.Some? ==> |right.value| == 4
    requires key.Some? ==> |key.value| == 6
    ensures r.Some? <==> right.Some? && key.Some?
    ensures r.Some? ==> |r.value| == 4 && Unpack(r.value) == F(Unpack(right.value), Unpack(key.value))
  {
    if right.None? || key.None? then None
    else
      var out := F(Unpack(right.value), Unpack(key.value));
      UnpackPack(out);
      Some(Pack(out))
  }
}
