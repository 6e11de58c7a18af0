/**
 * The two-character codes both licensee enums are keyed by. Each variant's
 * `u16` discriminant is `ascii_pair!` of its two ASCII characters, so a
 * variant is identified here by the character pair itself.
 */
module LicenseeCode {
  import opened Bytes

  /** A pair of characters, first character in the high byte of the discriminant. */
  datatype Code = Code(first: char, second: char)

  /** Both characters fit in a byte, as every declared licensee code's do. */
  predicate IsByteCode(c: Code) {
    c.first as int < 0x100 && c.second as int < 0x100
  }

  /** The discriminant `ascii_pair!(first, second)` of a code. */
  function Word(c: Code): u16
    requires IsByteCode(c)
  {
    AsciiCode(c.first, c.second)
  }

  /** The code whose discriminant is `w`: its high byte and its low byte as characters. */
  function OfWord(w: u16): (c: Code)
    ensures IsByteCode(c) && Word(c) == w
  {
    Code(ByteAsChar(w / 0x100), ByteAsChar(w % 0x100))
  }

  /** Every byte code is the code of its own discriminant, so `Word` is injective. */
  lemma OfWordInvertsWord(c: Code)
    requires IsByteCode(c)
    ensures OfWord(Word(c)) == c
  {
  }
}
