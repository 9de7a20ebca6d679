/** Bit strings and their packing into bytes.

    The engine addresses individual bits of byte buffers most-significant bit
    first: bit `n` of a buffer is the bit `0x80 >> (n % 8)` of byte `n / 8`.
    The model keeps bit strings as `seq<bool>` and bytes as `bv8`, and relates
    the two through `Unpack` and `Pack`. */
module Bits {

  type Byte = bv8
  type Bits = seq<bool>

  /** The mask the engine builds as `0b1 << (7 - k)` to address bit `k` of a byte. */
  function Mask(k: nat): (m: Byte)
    requires k < 8
  {
    if k == 0 then 0x80 else if k == 1 then 0x40 else if k == 2 then 0x20
    else if k == 3 then 0x10 else if k == 4 then 0x08 else if k == 5 then 0x04
    else if k == 6 then 0x02 else 0x01
  }

  /** Bit `k` (0 = most significant) of byte `b`. */
  predicate BitOf(b: Byte, k: nat)
    requires k < 8
  {
    b & Mask(k) != 0
  }

  /** Setting bit `k` of a byte sets that bit and leaves the other seven alone. */
  lemma BitOfOrMask(b: Byte, k: nat, j: nat)
    requires k < 8 && j < 8
    ensures BitOf(b | Mask(k), j) == (BitOf(b, j) || j == k)
  {
  }

  /** The byte whose bits, most significant first, are `bs`. */
  function ByteOf(bs: Bits): (b: Byte)
    requires |bs| == 8
    ensures forall k :: 0 <= k < 8 ==> BitOf(b, k) == bs[k]
  {
    (if bs[0] then 0x80 else 0) | (if bs[1] then 0x40 else 0) |
    (if bs[2] then 0x20 else 0) | (if bs[3] then 0x10 else 0) |
    (if bs[4] then 0x08 else 0) | (if bs[5] then 0x04 else 0) |
    (if bs[6] then 0x02 else 0) | (if bs[7] then 0x01 else 0)
  }

  /** Two bytes with the same eight bits are the same byte. */
  lemma ByteExt(a: Byte, b: Byte)
    requires forall k :: 0 <= k < 8 ==> BitOf(a, k) == BitOf(b, k)
    ensures a == b
  {
    assert BitOf(a, 0) == BitOf(b, 0) && BitOf(a, 1) == BitOf(b, 1);
    assert BitOf(a, 2) == BitOf(b, 2) && BitOf(a, 3) == BitOf(b, 3);
    assert BitOf(a, 4) == BitOf(b, 4) && BitOf(a, 5) == BitOf(b, 5);
    assert BitOf(a, 6) == BitOf(b, 6) && BitOf(a, 7) == BitOf(b, 7);
  }

  /** The bit string of a byte buffer, eight bits per byte. */
  function Unpack(bytes: seq<Byte>): (bs: Bits)
    ensures |bs| == 8 * |bytes|
    ensures forall n :: 0 <= n < |bs| ==> bs[n] == BitOf(bytes[n / 8], n % 8)
  {
    seq(8 * |bytes|, n requires 0 <= n < 8 * |bytes| => BitOf(bytes[n / 8], n % 8))
  }

  /** Bit `k` of byte `j` of a buffer sits at position `8 * j + k` of its bit string. */
  lemma UnpackAt(bytes: seq<Byte>, j: nat, k: nat)
    requires j < |bytes| && k < 8
    ensures Unpack(bytes)[8 * j + k] == BitOf(bytes[j], k)
  {
    assert (8 * j + k) / 8 == j && (8 * j + k) % 8 == k;
  }

  /** The byte buffer holding the bit string `bs`, whose length is a whole number of bytes. */
  function Pack(bs: Bits): (bytes: seq<Byte>)
    requires |bs| % 8 == 0
    ensures |bytes| == |bs| / 8
  {
    seq(|bs| / 8, j requires 0 <= j < |bs| / 8 => ByteOf(bs[8 * j .. 8 * j + 8]))
  }

  /** Bit `n` of a packed buffer is bit `n` of the string it packs. */
  lemma PackBit(bs: Bits, n: nat)
    requires |bs| % 8 == 0 && n < |bs|
    ensures BitOf(Pack(bs)[n / 8], n % 8) == bs[n]
  {
    var j := n / 8;
    assert bs[8 * j .. 8 * j + 8][n % 8] == bs[n];
  }

  /** Unpacking undoes packing. */
  lemma UnpackPack(bs: Bits)
    requires |bs| % 8 == 0
    ensures Unpack(Pack(bs)) == bs
  {
    forall n | 0 <= n < |bs|
      ensures Unpack(Pack(bs))[n] == bs[n]
    {
      PackBit(bs, n);
    }
  }

  /** Packing undoes unpacking. */
  lemma PackUnpack(bytes: seq<Byte>)
    ensures Pack(Unpack(bytes)) == bytes
  {
    forall j | 0 <= j < |bytes|
      ensures Pack(Unpack(bytes))[j] == bytes[j]
    {
      PackUnpackByte(bytes, j);
    }
  }

  /** Bit `k` of byte `j` of a packed buffer is bit `8 * j + k` of the string it packs. */
  lemma PackAt(bs: Bits, j: nat, k: nat)
    requires |bs| % 8 == 0 && j < |bs| / 8 && k < 8
    ensures BitOf(Pack(bs)[j], k) == bs[8 * j + k]
  {
    assert bs[8 * j .. 8 * j + 8][k] == bs[8 * j + k];
  }

  lemma PackUnpackByte(bytes: seq<Byte>, j: nat)
    requires j < |bytes|
    ensures Pack(Unpack(bytes))[j] == bytes[j]
  {
    var bs := Unpack(bytes);
    var b := Pack(bs)[j];
    forall k | 0 <= k < 8
      ensures BitOf(b, k) == BitOf(bytes[j], k)
    {
      PackAt(bs, j, k);
      UnpackAt(bytes, j, k);
    }
    ByteExt(b, bytes[j]);
  }

  /** Two buffers with the same bit string are equal. */
  lemma UnpackInjective(a: seq<Byte>, b: seq<Byte>)
    requires Unpack(a) == Unpack(b)
    ensures a == b
  {
    PackUnpack(a);
    PackUnpack(b);
  }

  /** The buffer with bit `n` set, as the engine does it: `buf[n / 8] |= 0b1 << (7 - n % 8)`.
      Bit `n` becomes 1 and every other bit keeps its value. */
  function SetBit(bytes: seq<Byte>, n: nat): (r: seq<Byte>)
    requires n < 8 * |bytes|
    ensures |r| == |bytes|
    ensures forall m :: 0 <= m < 8 * |bytes| ==> Unpack(r)[m] == (Unpack(bytes)[m] || m == n)
  {
    var r := bytes[n / 8 := bytes[n / 8] | Mask(n % 8)];
    forall m | 0 <= m < 8 * |bytes|
      ensures Unpack(r)[m] == (Unpack(bytes)[m] || m == n)
    {
      if m / 8 == n / 8 {
        BitOfOrMask(bytes[n / 8], n % 8, m % 8);
      }
    }
    r
  }

  /** A buffer of `len` zero bytes (the engine's `calloc`ed and zero-initialised buffers): no bit is set. */
  function Zeros(len: nat): (r: seq<Byte>)
    ensures |r| == len
    ensures forall m :: 0 <= m < 8 * len ==> !Unpack(r)[m]
  {
    var r := seq(len, _ => 0 as Byte);
    forall m | 0 <= m < 8 * len
      ensures !Unpack(r)[m]
    {
      assert r[m / 8] == 0;
    }
    r
  }

  /** Bitwise exclusive or of two strings of equal length. */
  function Xor(a: Bits, b: Bits): (r: Bits)
    requires |a| == |b|
    ensures |r| == |a|
    ensures forall i :: 0 <= i < |r| ==> r[i] == (a[i] != b[i])
  {
    seq(|a|, i requires 0 <= i < |a| => a[i] != b[i])
  }

  /** Exclusive or with the same string twice is the identity. */
  lemma XorXor(a: Bits, b: Bits)
    requires |a| == |b|
    ensures Xor(Xor(a, b), b) == a
  {
  }

  /** Bit `k` of the exclusive or of two bytes is the exclusive or of their bits `k`. */
  lemma BitOfXor(x: Byte, y: Byte, k: nat)
    requires k < 8
    ensures BitOf(x ^ y, k) == (BitOf(x, k) != BitOf(y, k))
  {
    var m := Mask(k);
    assert m == 0x80 || m == 0x40 || m == 0x20 || m == 0x10 || m == 0x08 || m == 0x04 || m == 0x02 || m == 0x01;
  }

  /** Exclusive or byte by byte is exclusive or of the bit strings. */
  lemma XorUnpack(a: seq<Byte>, b: seq<Byte>, c: seq<Byte>)
    requires |a| == |b| == |c|
    requires forall j :: 0 <= j < |c| ==> c[j] == a[j] ^ b[j]
    ensures Xor(Unpack(a), Unpack(b)) == Unpack(c)
  {
    forall n | 0 <= n < 8 * |c|
      ensures Unpack(c)[n] == (Unpack(a)[n] != Unpack(b)[n])
    {
      BitOfXor(a[n / 8], b[n / 8], n % 8);
    }
  }

  /** The bit string of two buffers one after the other is their bit strings one after the other. */
  lemma UnpackAppend(a: seq<Byte>, b: seq<Byte>)
    ensures Unpack(a + b) == Unpack(a) + Unpack(b)
  {
    forall n | 0 <= n < 8 * |a + b|
      ensures Unpack(a + b)[n] == (Unpack(a) + Unpack(b))[n]
    {
      UnpackAppendAt(a, b, n);
    }
  }

  lemma UnpackAppendAt(a: seq<Byte>, b: seq<Byte>, n: nat)
    requires n < 8 * |a + b|
    ensures Unpack(a + b)[n] == (Unpack(a) + Unpack(b))[n]
  {
    if n < 8 * |a| {
      UnpackAppendLeft(a, b, n);
    } else {
      UnpackAppendRight(a, b, n);
    }
  }

  lemma UnpackAppendLeft(a: seq<Byte>, b: seq<Byte>, n: nat)
    requires n < 8 * |a|
    ensures Unpack(a + b)[n] == (Unpack(a) + Unpack(b))[n]
  {
    assert (Unpack(a) + Unpack(b))[n] == Unpack(a)[n];
    assert n / 8 < |a|;
  }

  lemma UnpackAppendRight(a: seq<Byte>, b: seq<Byte>, n: nat)
    requires 8 * |a| <= n < 8 * |a + b|
    ensures Unpack(a + b)[n] == (Unpack(a) + Unpack(b))[n]
  {
    var m := n - 8 * |a|;
    assert (Unpack(a) + Unpack(b))[n] == Unpack(b)[m];
    assert n / 8 == |a| + m / 8 && n % 8 == m % 8;
  }

  /** A table `t` is a valid selection from strings of `n` bits: every entry is a bit index below `n`. */
  predicate Selects(t: seq<int>, n: nat)
  {
    forall i :: 0 <= i < |t| ==> 0 <= t[i] < n
  }

  /** Output bit `i` of a permutation table is input bit `t[i]`; this is how
      every table of the engine (PC1, PC2, IP, IP_INV, E, P) is applied. */
  function Permute(t: seq<int>, bs: Bits): (r: Bits)
    requires Selects(t, |bs|)
    ensures |r| == |t|
    ensures forall i :: 0 <= i < |t| ==> r[i] == bs[t[i]]
  {
    seq(|t|, i requires 0 <= i < |t| => bs[t[i]])
  }

  /** `u` undoes `t` on strings of `n` bits when it maps every output position of `t` back. */
  predicate Undoes(u: seq<int>, t: seq<int>, n: nat)
  {
    && |t| == n && |u| == n && Selects(t, n) && Selects(u, n)
    && forall i :: 0 <= i < n ==> t[u[i]] == i
  }

  /** Applying a table and then a table that undoes it gives back the input. */
  lemma PermuteUndo(u: seq<int>, t: seq<int>, bs: Bits)
    requires Undoes(u, t, |bs|)
    ensures Permute(u, Permute(t, bs)) == bs
  {
  }

  /** A string of `n` copies of `b`. */
  function Fill(b: bool, n: nat): (r: Bits)
    ensures |r| == n
    ensures forall i :: 0 <= i < n ==> r[i] == b
  {
    seq(n, _ => b)
  }

  /** Left rotation of a bit string by `s` places: output bit `i` is input bit `(i + s) mod |x|`. */
  function RotateLeft(x: Bits, s: nat): (r: Bits)
    requires s <= |x|
    ensures |r| == |x|
  {
    x[s..] + x[..s]
  }

  /** The index form of a rotation: output bit `i` is input bit `i + s`, wrapping past the end. */
  lemma RotateLeftIndex(x: Bits, s: nat, i: nat)
    requires s <= |x| && i < |x|
    ensures RotateLeft(x, s)[i] == if i + s < |x| then x[i + s] else x[i + s - |x|]
  {
  }

  /** Rotating by `a` and then by `b` is rotating by `a + b`, wrapping at the length. */
  lemma RotateLeftCompose(x: Bits, a: nat, b: nat)
    requires a <= |x| && b <= |x|
    ensures a + b <= |x| ==> RotateLeft(RotateLeft(x, a), b) == RotateLeft(x, a + b)
    ensures a + b >= |x| ==> RotateLeft(RotateLeft(x, a), b) == RotateLeft(x, a + b - |x|)
  {
    var n := |x|;
    var y := RotateLeft(RotateLeft(x, a), b);
    var c := if a + b <= n then a + b else a + b - n;
    forall i | 0 <= i < n
      ensures y[i] == RotateLeft(x, c)[i]
    {
      RotateLeftIndex(RotateLeft(x, a), b, i);
      var j := if i + b < n then i + b else i + b - n;
      RotateLeftIndex(x, a, j);
      RotateLeftIndex(x, c, i);
    }
  }

  /** A constant string is unchanged by any rotation. */
  lemma RotateLeftFill(b: bool, n: nat, s: nat)
    requires s <= n
    ensures RotateLeft(Fill(b, n), s) == Fill(b, n)
  {
  }
}
