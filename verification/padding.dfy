/** The completion of a short last block (`add_padding` in `DES/des.h`,
    selector `enum DES_padding`).

    A block of `size` bytes, `0 <= size < 8`, is completed to 8 bytes; the
    `p = 8 - size` filler bytes depend on the scheme:
    - PKCS #5: every filler byte is `p`;
    - ANSI X9.23: zeros, then `p` in the last byte;
    - ISO 10126: random bytes, then `p` in the last byte.
    The random bytes of ISO 10126 are a parameter here. */
module Padding {
  import opened Bits
  import opened Options

  /** The length of a DES block in bytes. */
  const BlockLength := 8

  datatype Scheme = Pkcs5 | AnsiX923 | Iso10126

  /** The scheme a selector of `enum DES_padding` names: `PKCS_5` is 0,
      `ANSIX9_23` is 1 and `ISO_10126` is 2; any other value names none. */
  function SchemeOf(selector: int): (s: Option<Scheme>)
    ensures s.Some? <==> 0 <= selector <= 2
  {
    if selector == 0 then Some(Pkcs5)
    else if selector == 1 then Some(AnsiX923)
    else if selector == 2 then Some(Iso10126)
    else None
  }

  /** The selector of a scheme. */
  function Selector(s: Scheme): (selector: int)
    ensures 0 <= selector <= 2
  {
    match s
    case Pkcs5 => 0
    case AnsiX923 => 1
    case Iso10126 => 2
  }

  /** Every scheme is named by its own selector. */
  lemma SchemeOfSelector(s: Scheme)
    ensures SchemeOf(Selector(s)) == Some(s)
  {
  }

  /** A selector that names a scheme is that scheme's selector. */
  lemma SelectorOfScheme(selector: int)
    ensures SchemeOf(selector).Some? ==> Selector(SchemeOf(selector).value) == selector
  {
  }

  /** The filler byte at a position of the block: `last` says whether it is
      byte 7, `p` is the padding length and `random` the byte the random
      source supplies for that position. */
  function FillerByte(scheme: Scheme, p: Byte, last: bool, random: Byte): Byte
  {
    if last then p
    else match scheme
      case Pkcs5 => p
      case AnsiX923 => 0
      case Iso10126 => random
  }

  /** `add_padding`: `block` (absent or the caller's buffer, of which the first
      `size` bytes count), completed to 8 bytes by the scheme `selector` names;
      `random` supplies the ISO 10126 filler. `None` when `size` is below 0 or
      above 8, when the block is absent but `size` is not 0, or when the
      selector names no scheme. */
  function AddPadding(block: Option<seq<Byte>>, size: int, selector: int, random: seq<Byte>): (r: Option<seq<Byte>>)
    requires block.Some? && 0 <= size <= BlockLength ==> size <= |block.value|
    requires |random| == BlockLength
    ensures r.Some? <==>
      0 <= size <= BlockLength && (block.Some? || size == 0) && SchemeOf(selector).Some?
    ensures r.Some? ==> |r.value| == BlockLength
    ensures r.Some? && size < BlockLength ==>
      (forall i :: 0 <= i < size ==> r.value[i] == block.value[i]) &&
      r.value[BlockLength - 1] == (BlockLength - size) as Byte
    ensures r.Some? && size < BlockLength && selector == Selector(Pkcs5) ==>
      forall i :: size <= i < BlockLength ==> r.value[i] == (BlockLength - size) as Byte
    ensures r.Some? && size < BlockLength && selector == Selector(AnsiX923) ==>
      forall i :: size <= i < BlockLength - 1 ==> r.value[i] == 0
    ensures r.Some? && size < BlockLength && selector == Selector(Iso10126) ==>
      forall i :: size <= i < BlockLength - 1 ==> r.value[i] == random[i]
  {
    if size < 0 || size > BlockLength || (block.None? && size != 0) || SchemeOf(selector).None? then None
    else
      var scheme := SchemeOf(selector).value;
      var p := (BlockLength - size) as Byte;
      Some(seq(BlockLength, i requires 0 <= i < BlockLength =>
        if i < size then block.value[i] else FillerByte(scheme, p, i == BlockLength - 1, random[i])))
  }

  /** Removing the padding of a completed block: the last byte gives the
      padding length `p`, which must lie in 1..8, and the first `8 - p`
      bytes are the data. */
  function RemovePadding(out: seq<Byte>): (r: Option<seq<Byte>>)
    requires |out| == BlockLength
    ensures r.Some? ==> |r.value| < BlockLength && r.value == out[..|r.value|]
  {
    var p := out[BlockLength - 1] as int;
    if 1 <= p <= BlockLength then Some(out[..BlockLength - p]) else None
  }

  /** Round trip: removing the padding of a completed block gives back the
      block's `size` bytes, under every scheme and every random filler. */
  lemma RemoveAddPadding(block: Option<seq<Byte>>, size: int, selector: int, random: seq<Byte>)
    requires block.Some? && 0 <= size <= BlockLength ==> size <= |block.value|
    requires |random| == BlockLength
    requires 0 <= size < BlockLength && (block.Some? || size == 0) && SchemeOf(selector).Some?
    ensures var r := AddPadding(block, size, selector, random);
      r.Some? && RemovePadding(r.value) == Some(if block.Some? then block.value[..size] else [])
  {
    var r := AddPadding(block, size, selector, random).value;
    assert r[..size] == if block.Some? then block.value[..size] else [];
  }

  /** The filler a scheme prescribes: `out` is `size` bytes of data followed by
      the padding of `scheme`, whatever the ISO 10126 random bytes are. */
  predicate WellPadded(scheme: Scheme, out: seq<Byte>, size: int)
    requires |out| == BlockLength && 0 <= size < BlockLength
  {
    && out[BlockLength - 1] == (BlockLength - size) as Byte
    && (scheme == Pkcs5 ==> forall i :: size <= i < BlockLength ==> out[i] == (BlockLength - size) as Byte)
    && (scheme == AnsiX923 ==> forall i :: size <= i < BlockLength - 1 ==> out[i] == 0)
  }

  /** A block is well padded under a scheme exactly when it is the completion
      of its own data under that scheme, the ISO 10126 filler being its own
      filler bytes. */
  lemma WellPaddedIffAdded(scheme: Scheme, out: seq<Byte>, size: int)
    requires |out| == BlockLength && 0 <= size < BlockLength
    ensures WellPadded(scheme, out, size) <==>
      AddPadding(Some(out[..size]), size, Selector(scheme), out) == Some(out)
  {
    SchemeOfSelector(scheme);
    var r := AddPadding(Some(out[..size]), size, Selector(scheme), out).value;
    if WellPadded(scheme, out, size) {
      forall i | 0 <= i < BlockLength
        ensures r[i] == out[i]
      {
        if i < size {
          assert out[..size][i] == out[i];
        } else {
          assert r[i] == FillerByte(scheme, (BlockLength - size) as Byte, i == BlockLength - 1, out[i]);
        }
      }
      assert r == out;
    }
  }

  /** The examples of the test suite: the block 00 0F FF of 3 bytes, and the
      rejected arguments. */
  lemma PaddingExamples(random: seq<Byte>)
    requires |random| == BlockLength
    ensures AddPadding(Some([0x00, 0x0F, 0xFF]), 3, 0, random) == Some([0x00, 0x0F, 0xFF, 0x05, 0x05, 0x05, 0x05, 0x05])
    ensures AddPadding(Some([0x00, 0x0F, 0xFF]), 3, 1, random) == Some([0x00, 0x0F, 0xFF, 0x00, 0x00, 0x00, 0x00, 0x05])
    ensures var r := AddPadding(Some([0x00, 0x0F, 0xFF]), 3, 2, random);
      r.Some? && r.value[..3] == [0x00, 0x0F, 0xFF] && r.value[7] == 0x05
    ensures AddPadding(None, -1, 0, random) == None
    ensures AddPadding(None, BlockLength + 1, 0, random) == None
    ensures AddPadding(None, 1, 0, random) == None
    ensures AddPadding(None, 0, -1, random) == None
  {
    var b: seq<Byte> := [0x00, 0x0F, 0xFF];
    var pkcs := AddPadding(Some(b), 3, 0, random).value;
    assert pkcs == [0x00, 0x0F, 0xFF, 0x05, 0x05, 0x05, 0x05, 0x05];
    var ansi := AddPadding(Some(b), 3, 1, random).value;
    assert ansi == [0x00, 0x0F, 0xFF, 0x00, 0x00, 0x00, 0x00, 0x05];
    var iso := AddPadding(Some(b), 3, 2, random).value;
    assert iso[..3] == b;
  }
}
