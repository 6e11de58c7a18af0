/**
 * Machine integers and the few standard-library operations on them that the
 * cartridge code relies on: the `u8`/`u16` ranges, `<<` and `|` on `u16`,
 * `u16::from_be_bytes`, the `u8 as char` cast, and `get` on a byte slice.
 */
module Bytes {
  import opened Wrappers

  type byte = b: int | 0 <= b < 0x100
  type u16 = w: int | 0 <= w < 0x1_0000

  /** 2 to the power `n`, the factor `<< n` multiplies by. */
  function Pow2(n: nat): nat
  {
    if n == 0 then 1 else 2 * Pow2(n - 1)
  }

  /** The two powers the byte and word arithmetic uses. */
  lemma Pow2Of8And16()
    ensures Pow2(8) == 0x100 && Pow2(16) == 0x1_0000
  {
  }

  /** Bitwise `x | y` on naturals, one bit at a time from the least significant. */
  function BitOr(x: nat, y: nat): nat
    decreases x + y
  {
    if x == 0 then y
    else if y == 0 then x
    else 2 * BitOr(x / 2, y / 2) + (if x % 2 == 1 || y % 2 == 1 then 1 else 0)
  }

  /** `x << n` on a `u16`: the bits shifted past bit 15 are lost. */
  function Shl16(x: u16, n: nat): u16 {
    (x * Pow2(n)) % 0x1_0000
  }

  /** `c as u16` on a `char`: the code point truncated to its low 16 bits. */
  function CharAsU16(c: char): u16 {
    (c as int) % 0x1_0000
  }

  /** `u16::from_be_bytes([hi, lo])`: the first byte is the most significant. */
  function FromBeBytes(hi: byte, lo: byte): u16 {
    hi * 0x100 + lo
  }

  /** `u16::to_be_bytes(w)`: the most significant byte first. */
  function ToBeBytes(w: u16): (bs: seq<byte>)
    ensures |bs| == 2 && FromBeBytes(bs[0], bs[1]) == w
  {
    [w / 0x100, w % 0x100]
  }

  /** `from_be_bytes` and `to_be_bytes` are inverse: a word keeps both of its bytes. */
  lemma BeBytesRoundTrip(hi: byte, lo: byte)
    ensures ToBeBytes(FromBeBytes(hi, lo)) == [hi, lo]
  {
  }

  /** Or-ing a value below `2^k` into a multiple of `2^k` is addition: the bits do not overlap. */
  lemma {:induction false} BitOrDisjoint(h: nat, l: nat, k: nat)
    requires l < Pow2(k)
    ensures BitOr(h * Pow2(k), l) == h * Pow2(k) + l
  {
    if k == 0 {
      assert l == 0;
    } else if h == 0 || l == 0 {
      assert h * Pow2(k) == 0 || l == 0;
    } else {
      var x := h * Pow2(k);
      assert x == 2 * (h * Pow2(k - 1));
      assert x / 2 == h * Pow2(k - 1) && x % 2 == 0;
      assert l / 2 < Pow2(k - 1);
      BitOrDisjoint(h, l / 2, k - 1);
      assert BitOr(x, l) == 2 * BitOr(x / 2, l / 2) + l % 2;
    }
  }

  /** The `ascii_pair!` macro as written, `(a as u16) << 8 | (b as u16)`. */
  function AsciiPair(a: char, b: char): u16 {
    var hi := Shl16(CharAsU16(a), 8);
    var lo := CharAsU16(b);
    Pow2Of8And16();
    BitOrBound(hi, lo, 16);
    BitOr(hi, lo)
  }

  /**
   * The word a two-character code stands for: the big-endian word of the two
   * character codes. Every code in the licensee tables is of this form.
   */
  function AsciiCode(a: char, b: char): u16
    requires a as int < 0x100 && b as int < 0x100
  {
    FromBeBytes(a as int, b as int)
  }

  /**
   * For characters below U+0100 the macro's shift-and-or is the big-endian
   * word, the same value `u16::from_be_bytes` gives for the two codes.
   */
  lemma AsciiPairIsBigEndian(a: char, b: char)
    requires a as int < 0x100 && b as int < 0x100
    ensures AsciiPair(a, b) == AsciiCode(a, b) == FromBeBytes(a as int, b as int)
  {
    var hi, lo := Shl16(CharAsU16(a), 8), CharAsU16(b);
    Pow2Of8And16();
    assert hi == (a as int) * Pow2(8) by {
      assert (a as int) * 0x100 < 0x1_0000;
    }
    assert lo == b as int < Pow2(8);
    BitOrDisjoint(a as int, lo, 8);
  }

  /** Or-ing two values below `2^k` stays below `2^k`. */
  lemma {:induction false} BitOrBound(x: nat, y: nat, k: nat)
    requires x < Pow2(k) && y < Pow2(k)
    ensures BitOr(x, y) < Pow2(k)
  {
    if x != 0 && y != 0 {
      assert k > 0;
      BitOrBound(x / 2, y / 2, k - 1);
    }
  }

  /** `b as char` on a `u8`: the character with that code point (U+0000 to U+00FF). */
  function ByteAsChar(b: byte): (c: char)
    ensures c as int == b
  {
    b as char
  }

  /** `slice.get(i)`: the element at `i`, or nothing when `i` is past the end. */
  function Get(s: seq<byte>, i: nat): (r: Option<byte>)
    ensures r.Some? <==> i < |s|
    ensures r.Some? ==> r.value == s[i]
  {
    if i < |s| then Some(s[i]) else None
  }

  /**
   * `slice.get(first..=last)`: the `last - first + 1` elements from `first`,
   * or nothing when the range does not lie inside the slice.
   */
  function GetInclusive(s: seq<byte>, first: nat, last: nat): (r: Option<seq<byte>>)
    ensures r.Some? <==> first <= last + 1 <= |s|
    ensures r.Some? ==> |r.value| == last + 1 - first
    ensures r.Some? ==> forall i :: 0 <= i < |r.value| ==> r.value[i] == s[first + i]
  {
    if first <= last + 1 <= |s| then Some(s[first..last + 1]) else None
  }
}
