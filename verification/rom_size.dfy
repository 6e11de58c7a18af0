/** The ROM size code, header byte 0x0148, and the number of 16 KiB ROM banks it stands for. */
module RomSize {
  import opened Bytes
  import Wrappers
  import NumEnum

  datatype RomSize =
    | Size32KiB
    | Size64KiB
    | Size128KiB
    | Size256KiB
    | Size512KiB
    | Size1MiB
    | Size2MiB
    | Size4MiB
    | Size8MiB
    | Size1_1MiB
    | Size1_2MiB
    | Size1_5MiB
    | Unknown

  /**
   * The `#[repr(u8)]` discriminant of each variant. A variant declared
   * without one, like `Unknown`, takes its predecessor's plus one.
   */
  function Discriminant(v: RomSize): byte {
    match v
    case Size32KiB => 0x00
    case Size64KiB => 0x01
    case Size128KiB => 0x02
    case Size256KiB => 0x03
    case Size512KiB => 0x04
    case Size1MiB => 0x05
    case Size2MiB => 0x06
    case Size4MiB => 0x07
    case Size8MiB => 0x08
    case Size1_1MiB => 0x52
    case Size1_2MiB => 0x53
    case Size1_5MiB => 0x54
    case Unknown => 0x54 + 1
  }

  /**
   * The derived `TryFromPrimitive::try_from` under `reading`: the variant whose
   * discriminant is `b`; for any other byte an error, or the default variant
   * `Unknown` when the derive reads `#[default]` as its catch-all.
   */
  function TryFromPrimitive(b: byte, reading: NumEnum.Reading): Wrappers.Option<RomSize>
  {
    match b
    case 0x00 => Wrappers.Some(Size32KiB)
    case 0x01 => Wrappers.Some(Size64KiB)
    case 0x02 => Wrappers.Some(Size128KiB)
    case 0x03 => Wrappers.Some(Size256KiB)
    case 0x04 => Wrappers.Some(Size512KiB)
    case 0x05 => Wrappers.Some(Size1MiB)
    case 0x06 => Wrappers.Some(Size2MiB)
    case 0x07 => Wrappers.Some(Size4MiB)
    case 0x08 => Wrappers.Some(Size8MiB)
    case 0x52 => Wrappers.Some(Size1_1MiB)
    case 0x53 => Wrappers.Some(Size1_2MiB)
    case 0x54 => Wrappers.Some(Size1_5MiB)
    case 0x55 => Wrappers.Some(Unknown)
    case _ => NumEnum.OnMiss(reading, Unknown)
  }

  /** Decoding a variant's own discriminant finds that variant, under either reading. */
  lemma TryFromPrimitiveInvertsDiscriminant(v: RomSize, reading: NumEnum.Reading)
    ensures TryFromPrimitive(Discriminant(v), reading) == Wrappers.Some(v)
  {
  }

  /**
   * `try_from` only answers with a variant whose discriminant is the byte it
   * was given, except that with a catch-all it may answer with `Unknown`.
   */
  lemma TryFromPrimitiveSound(b: byte, reading: NumEnum.Reading)
    ensures var r := TryFromPrimitive(b, reading);
      r.Some? ==> Discriminant(r.value) == b || (reading == NumEnum.DefaultOnMiss && r.value == Unknown)
  {
  }

  /**
   * Without a catch-all, `try_from` fails exactly on the bytes that are no
   * variant's discriminant; with one it never fails and answers those bytes
   * with `Unknown`.
   */
  lemma TryFromPrimitiveComplete(b: byte)
    ensures TryFromPrimitive(b, NumEnum.ErrorOnMiss).None? <==> forall w :: Discriminant(w) != b
    ensures TryFromPrimitive(b, NumEnum.DefaultOnMiss).Some?
    ensures (forall w :: Discriminant(w) != b) ==> TryFromPrimitive(b, NumEnum.DefaultOnMiss) == Wrappers.Some(Unknown)
  {
    TryFromPrimitiveSound(b, NumEnum.ErrorOnMiss);
    forall w | Discriminant(w) == b
      ensures TryFromPrimitive(b, NumEnum.ErrorOnMiss) == Wrappers.Some(w)
    {
      TryFromPrimitiveInvertsDiscriminant(w, NumEnum.ErrorOnMiss);
    }
  }

  /**
   * `from_byte`: the variant a header byte stands for. It never fails: a byte
   * that is no variant's discriminant decodes to the default variant `Unknown`.
   */
  function FromByte(b: byte): (v: RomSize)
    ensures Discriminant(v) == b || (v == Unknown && forall w :: Discriminant(w) != b)
  {
    TryFromPrimitiveComplete(b);
    NumEnum.OrDefault(TryFromPrimitive(b, NumEnum.ErrorOnMiss), Unknown)
  }

  /**
   * `from_byte` decodes every byte alike under either reading: whether a miss
   * comes back from `try_from` as an error or as `Unknown`, the result is `Unknown`.
   */
  lemma FromByteUnderEitherReading(b: byte, reading: NumEnum.Reading)
    ensures FromByte(b) == NumEnum.OrDefault(TryFromPrimitive(b, reading), Unknown)
  {
    TryFromPrimitiveComplete(b);
  }

  /** Decoding a variant's own discriminant gives that variant back: no two variants share a discriminant. */
  lemma FromByteInvertsDiscriminant(v: RomSize)
    ensures FromByte(Discriminant(v)) == v
  {
    TryFromPrimitiveInvertsDiscriminant(v, NumEnum.ErrorOnMiss);
  }

  /**
   * `number_of_rom_banks`: how many 16 KiB ROM banks a cartridge of this size
   * holds. The three sizes 0x52-0x54 appear only in unofficial documents and
   * are not powers of two; `Unknown` has no banks.
   */
  function NumberOfRomBanks(s: RomSize): (n: nat)
    ensures Discriminant(s) <= 0x08 ==> n == 2 * Pow2(Discriminant(s))
    ensures n == 0 <==> s == Unknown
  {
    match s
    case Size32KiB => 2
    case Size64KiB => 4
    case Size128KiB => 8
    case Size256KiB => 16
    case Size512KiB => 32
    case Size1MiB => 64
    case Size2MiB => 128
    case Size4MiB => 256
    case Size8MiB => 512
    case Size1_1MiB => 72
    case Size1_2MiB => 80
    case Size1_5MiB => 96
    case Unknown => 0
  }

  /**
   * The banks a ROM size byte stands for: codes 0x00-0x08 mean 32 KiB shifted
   * left by the code, i.e. `2 << code` banks; 0x52, 0x53 and 0x54 mean 72, 80
   * and 96 banks; every other byte decodes to `Unknown` and means no banks.
   */
  lemma RomBanksOfCode(b: byte)
    ensures b <= 0x08 ==> NumberOfRomBanks(FromByte(b)) == 2 * Pow2(b)
    ensures b == 0x52 ==> NumberOfRomBanks(FromByte(b)) == 72
    ensures b == 0x53 ==> NumberOfRomBanks(FromByte(b)) == 80
    ensures b == 0x54 ==> NumberOfRomBanks(FromByte(b)) == 96
    ensures 0x08 < b && b !in {0x52, 0x53, 0x54} ==> NumberOfRomBanks(FromByte(b)) == 0
  {
  }
}
