/** The RAM size code, header byte 0x0149, and the number of 8 KiB external RAM banks it stands for. */
module RamSize {
  import opened Bytes
  import Wrappers
  import NumEnum

  datatype RamSize =
    | Size0
    | Unused
    | Size8KiB
    | Size32KiB
    | Size128KiB
    | Size64KiB
    | Unknown

  /**
   * The `#[repr(u8)]` discriminant of each variant. A variant declared
   * without one, like `Unknown`, takes its predecessor's plus one.
   */
  function Discriminant(v: RamSize): byte {
    match v
    case Size0 => 0x00
    case Unused => 0x01
    case Size8KiB => 0x02
    case Size32KiB => 0x03
    case Size128KiB => 0x04
    case Size64KiB => 0x05
    case Unknown => 0x05 + 1
  }

  /**
   * The derived `TryFromPrimitive::try_from` under `reading`: the variant whose
   * discriminant is `b`; for any other byte an error, or the default variant
   * `Unknown` when the derive reads `#[default]` as its catch-all.
   */
  function TryFromPrimitive(b: byte, reading: NumEnum.Reading): Wrappers.Option<RamSize>
  {
    match b
    case 0x00 => Wrappers.Some(Size0)
    case 0x01 => Wrappers.Some(Unused)
    case 0x02 => Wrappers.Some(Size8KiB)
    case 0x03 => Wrappers.Some(Size32KiB)
    case 0x04 => Wrappers.Some(Size128KiB)
    case 0x05 => Wrappers.Some(Size64KiB)
    case 0x06 => Wrappers.Some(Unknown)
    case _ => NumEnum.OnMiss(reading, Unknown)
  }

  /** Decoding a variant's own discriminant finds that variant, under either reading. */
  lemma TryFromPrimitiveInvertsDiscriminant(v: RamSize, reading: NumEnum.Reading)
    ensures TryFromPrimitive(Discriminant(v), reading) == Wrappers.Some(v)
  {
  }

  /**
   * `try_from` only answers with a variant whose discriminant is the byte it
   * was given, except that with a catch-all it may answer with `Unknown`.
   */
  lemma TryFromPrimitiveSound(b: byte, reading: NumEnum.Reading)
    ensures var r := TryFromPrimitive(b, reading);
      r.Some? ==> Discriminant(r.value) == b || (reading == NumEnum.DefaultOnMiss && r.value == Unknown)
  {
  }

  /**
   * Without a catch-all, `try_from` fails exactly on the bytes that are no
   * variant's discriminant; with one it never fails and answers those bytes
   * with `Unknown`.
   */
  lemma TryFromPrimitiveComplete(b: byte)
    ensures TryFromPrimitive(b, NumEnum.ErrorOnMiss).None? <==> forall w :: Discriminant(w) != b
    ensures TryFromPrimitive(b, NumEnum.DefaultOnMiss).Some?
    ensures (forall w :: Discriminant(w) != b) ==> TryFromPrimitive(b, NumEnum.DefaultOnMiss) == Wrappers.Some(Unknown)
  {
    TryFromPrimitiveSound(b, NumEnum.ErrorOnMiss);
    forall w | Discriminant(w) == b
      ensures TryFromPrimitive(b, NumEnum.ErrorOnMiss) == Wrappers.Some(w)
    {
      TryFromPrimitiveInvertsDiscriminant(w, NumEnum.ErrorOnMiss);
    }
  }

  /**
   * `from_byte`: the variant a header byte stands for. It never fails: a byte
   * that is no variant's discriminant decodes to the default variant `Unknown`.
   */
  function FromByte(b: byte): (v: RamSize)
    ensures Discriminant(v) == b || (v == Unknown && forall w :: Discriminant(w) != b)
  {
    TryFromPrimitiveComplete(b);
    NumEnum.OrDefault(TryFromPrimitive(b, NumEnum.ErrorOnMiss), Unknown)
  }

  /**
   * `from_byte` decodes every byte alike under either reading: whether a miss
   * comes back from `try_from` as an error or as `Unknown`, the result is `Unknown`.
   */
  lemma FromByteUnderEitherReading(b: byte, reading: NumEnum.Reading)
    ensures FromByte(b) == NumEnum.OrDefault(TryFromPrimitive(b, reading), Unknown)
  {
    TryFromPrimitiveComplete(b);
  }

  /** Decoding a variant's own discriminant gives that variant back: no two variants share a discriminant. */
  lemma FromByteInvertsDiscriminant(v: RamSize)
    ensures FromByte(Discriminant(v)) == v
  {
    TryFromPrimitiveInvertsDiscriminant(v, NumEnum.ErrorOnMiss);
  }

  /**
   * `number_of_ram_8_kib_banks`: how many 8 KiB banks of external RAM the
   * cartridge carries. `Unused`, listed elsewhere as 2 KiB, counts as none.
   */
  function NumberOfRam8KiBBanks(s: RamSize): (n: nat)
    ensures n in {0, 1, 4, 8, 16}
    ensures n == 0 <==> s in {Size0, Unused, Unknown}
  {
    match s
    case Size0 => 0
    case Unused => 0
    case Size8KiB => 1
    case Size32KiB => 4
    case Size128KiB => 16
    case Size64KiB => 8
    case Unknown => 0
  }

  /**
   * The capacity in KiB that a variant's name states, independent of the bank
   * table. `Unused` and `Unknown` name no capacity.
   */
  function NamedKiB(s: RamSize): Wrappers.Option<nat> {
    match s
    case Size0 => Wrappers.Some(0)
    case Size8KiB => Wrappers.Some(8)
    case Size32KiB => Wrappers.Some(32)
    case Size128KiB => Wrappers.Some(128)
    case Size64KiB => Wrappers.Some(64)
    case Unused => Wrappers.None
    case Unknown => Wrappers.None
  }

  /**
   * The banks of a size add up to the capacity its name states, 8 KiB each;
   * a size that names no capacity has no banks.
   */
  lemma RamBanksMatchNamedSize(s: RamSize)
    ensures NamedKiB(s).Some? ==> NumberOfRam8KiBBanks(s) * 8 == NamedKiB(s).value
    ensures NamedKiB(s).None? ==> NumberOfRam8KiBBanks(s) == 0
  {
  }

  /** The banks a RAM size byte stands for: 0, 0, 1, 4, 16, 8 for codes 0x00-0x05, and none for any other byte. */
  lemma RamBanksOfCode(b: byte)
    ensures b < 6 ==> NumberOfRam8KiBBanks(FromByte(b)) == [0, 0, 1, 4, 16, 8][b]
    ensures b >= 6 ==> NumberOfRam8KiBBanks(FromByte(b)) == 0
  {
  }

  /** The bank count does not grow with the code: 128 KiB (0x04) comes before 64 KiB (0x05). */
  lemma RamBanksNotMonotonic()
    ensures exists a: byte, b: byte :: a < b && NumberOfRam8KiBBanks(FromByte(a)) > NumberOfRam8KiBBanks(FromByte(b))
  {
    assert NumberOfRam8KiBBanks(FromByte(0x04)) == 16 > 8 == NumberOfRam8KiBBanks(FromByte(0x05));
  }
}
