/** The odd-parity check of DES keys (`checkOddParity` in `DES/des.c`).

    A DES key carries one parity bit per byte, the least significant one,
    chosen so that every byte has an odd number of set bits. */
module Parity {
  import opened Bits
  import opened Options

  /** The number of set bits of a byte. */
  function PopCount(b: Byte): (n: nat)
    ensures b == 0 <==> n == 0
    decreases b as int
  {
    if b == 0 then 0 else (if b & 1 == 1 then 1 else 0) + PopCount(b >> 1)
  }

  /** A byte has odd parity when it has an odd number of set bits. */
  predicate OddParity(b: Byte)
  {
    PopCount(b) % 2 == 1
  }

  /** Every one of the first `length` bytes of `data` has odd parity (vacuous for `length <= 0`). */
  predicate AllOddParity(data: seq<Byte>, length: int)
    requires length <= |data|
  {
    forall i :: 0 <= i < length ==> OddParity(data[i])
  }

  /** The popcount of a byte is its lowest bit plus the popcount of the remaining seven. */
  lemma PopCountSplit(b: Byte)
    ensures PopCount(b) == (if b & 1 == 1 then 1 else 0) + PopCount(b >> 1)
  {
  }

  /** `checkOddParity`: scans the first `length` bytes; for each it counts the
      set bits above the parity bit and returns 1 as soon as a byte's count and
      parity bit make its total even. Returns 0 when no byte fails, which
      includes every `length <= 0`. */
  method CheckOddParity(data: seq<Byte>, length: int) returns (r: int)
    requires length <= |data|
    ensures r == 0 || r == 1
    ensures r == 0 <==> AllOddParity(data, length)
    ensures r == 1 ==> exists i :: 0 <= i < length && !OddParity(data[i])
  {
    var i := 0;
    while i < length
      invariant 0 <= i
      invariant length <= 0 ==> i == 0
      invariant length > 0 ==> i <= length
      invariant forall j :: 0 <= j < i ==> OddParity(data[j])
    {
      var byte := data[i];
      var parity := data[i] & 1;
      var count := 0;
      byte := byte >> 1;
      while byte != 0
        invariant count + PopCount(byte) == PopCount(data[i] >> 1)
        decreases byte as int
      {
        count := count + (if byte & 1 == 1 then 1 else 0);
        byte := byte >> 1;
      }
      PopCountSplit(data[i]);
      if count % 2 == 0 && parity == 0 {
        return 1;
      } else if count % 2 != 0 && parity != 0 {
        return 1;
      }
      i := i + 1;
    }
    return 0;
  }

  /** The parity check as the header and its tests promise it: 1 when the data
      is absent or `length < 1`, otherwise the result of `CheckOddParity`. */
  method CheckOddParityGuarded(data: Option<seq<Byte>>, length: int) returns (r: int)
    requires data.Some? ==> length <= |data.value|
    ensures r == 0 || r == 1
    ensures r == 0 <==> data.Some? && length >= 1 && AllOddParity(data.value, length)
  {
    if data.None? || length < 1 {
      return 1;
    }
    r := CheckOddParity(data.value, length);
  }

  /** The examples of the test suite: 0x01, 0xA2 and 0xD3 have odd parity, 0xA3 does not. */
  lemma ParityExamples()
    ensures !AllOddParity([0x01, 0xA3, 0xFE], 3)
    ensures AllOddParity([0x01, 0xA2, 0xD3, 0xFE], 3)
  {
    assert PopCount(0x01) == 1 && PopCount(0x02) == 1 && PopCount(0x05) == 2 && PopCount(0x0A) == 2 && PopCount(0x14) == 2 && PopCount(0x28) == 2 && PopCount(0x51) == 3 && PopCount(0xA3) == 4;
    var bad: seq<Byte> := [0x01, 0xA3, 0xFE];
    assert !OddParity(bad[1]);
    assert PopCount(0x01) == 1 && PopCount(0x02) == 1 && PopCount(0x05) == 2 && PopCount(0x0A) == 2 && PopCount(0x14) == 2 && PopCount(0x28) == 2 && PopCount(0x51) == 3 && PopCount(0xA2) == 3;
    assert PopCount(0x01) == 1 && PopCount(0x03) == 2 && PopCount(0x06) == 2 && PopCount(0x0D) == 3 && PopCount(0x1A) == 3 && PopCount(0x34) == 3 && PopCount(0x69) == 4 && PopCount(0xD3) == 5;
  }
}
