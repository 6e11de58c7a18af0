/** The cartridge type, header byte 0x0147: the mapper and the extra hardware on the cartridge. */
module CartridgeType {
  import opened Bytes
  import Wrappers
  import NumEnum

  datatype CartridgeType =
    | RomOnly
    | Mbc1
    | Mbc1AndRam
    | Mbc1AndRamAndBattery
    | Mbc2
    | Mbc2AndBattery
    | RomAndRam
    | RomAndRamAndBattery
    | Mmm01
    | Mmm01AndRam
    | Mmm01AndRamAndBattery
    | Mbc3AndTimerAndBattery
    | Mbc3AndTimerAndRamAndBattery
    | Mbc3
    | Mbc3AndRam
    | Mbc3AndRamAndBattery
    | Mbc5
    | Mbc5AndRam
    | Mbc5AndRamAndBattery
    | Mbc5AndRumble
    | Mbc5AndRumbleAndRam
    | Mbc5AndRumbleAndRamAndBattery
    | Mbc6
    | Mbc7AndSensorAndRumbleAndRamAndBattery
    | PocketCamera
    | BandaiTama5
    | HuC3
    | HuC1AndRamAndBattery
    | Unknown

  /**
   * The `#[repr(u8)]` discriminant of each variant. Every variant has an
   * explicit discriminant; the default `Unknown` is set to the unused value 0xFB.
   */
  function Discriminant(v: CartridgeType): byte {
    match v
    case RomOnly => 0x00
    case Mbc1 => 0x01
    case Mbc1AndRam => 0x02
    case Mbc1AndRamAndBattery => 0x03
    case Mbc2 => 0x05
    case Mbc2AndBattery => 0x06
    case RomAndRam => 0x08
    case RomAndRamAndBattery => 0x09
    case Mmm01 => 0x0B
    case Mmm01AndRam => 0x0C
    case Mmm01AndRamAndBattery => 0x0D
    case Mbc3AndTimerAndBattery => 0x0F
    case Mbc3AndTimerAndRamAndBattery => 0x10
    case Mbc3 => 0x11
    case Mbc3AndRam => 0x12
    case Mbc3AndRamAndBattery => 0x13
    case Mbc5 => 0x19
    case Mbc5AndRam => 0x1A
    case Mbc5AndRamAndBattery => 0x1B
    case Mbc5AndRumble => 0x1C
    case Mbc5AndRumbleAndRam => 0x1D
    case Mbc5AndRumbleAndRamAndBattery => 0x1E
    case Mbc6 => 0x20
    case Mbc7AndSensorAndRumbleAndRamAndBattery => 0x22
    case PocketCamera => 0xFC
    case BandaiTama5 => 0xFD
    case HuC3 => 0xFE
    case HuC1AndRamAndBattery => 0xFF
    case Unknown => 0xFB
  }

  /**
   * The derived `TryFromPrimitive::try_from` under `reading`: the variant whose
   * discriminant is `b`; for any other byte an error, or the default variant
   * `Unknown` when the derive reads `#[default]` as its catch-all.
   */
  function TryFromPrimitive(b: byte, reading: NumEnum.Reading): Wrappers.Option<CartridgeType>
  {
    match b
    case 0x00 => Wrappers.Some(RomOnly)
    case 0x01 => Wrappers.Some(Mbc1)
    case 0x02 => Wrappers.Some(Mbc1AndRam)
    case 0x03 => Wrappers.Some(Mbc1AndRamAndBattery)
    case 0x05 => Wrappers.Some(Mbc2)
    case 0x06 => Wrappers.Some(Mbc2AndBattery)
    case 0x08 => Wrappers.Some(RomAndRam)
    case 0x09 => Wrappers.Some(RomAndRamAndBattery)
    case 0x0B => Wrappers.Some(Mmm01)
    case 0x0C => Wrappers.Some(Mmm01AndRam)
    case 0x0D => Wrappers.Some(Mmm01AndRamAndBattery)
    case 0x0F => Wrappers.Some(Mbc3AndTimerAndBattery)
    case 0x10 => Wrappers.Some(Mbc3AndTimerAndRamAndBattery)
    case 0x11 => Wrappers.Some(Mbc3)
    case 0x12 => Wrappers.Some(Mbc3AndRam)
    case 0x13 => Wrappers.Some(Mbc3AndRamAndBattery)
    case 0x19 => Wrappers.Some(Mbc5)
    case 0x1A => Wrappers.Some(Mbc5AndRam)
    case 0x1B => Wrappers.Some(Mbc5AndRamAndBattery)
    case 0x1C => Wrappers.Some(Mbc5AndRumble)
    case 0x1D => Wrappers.Some(Mbc5AndRumbleAndRam)
    case 0x1E => Wrappers.Some(Mbc5AndRumbleAndRamAndBattery)
    case 0x20 => Wrappers.Some(Mbc6)
    case 0x22 => Wrappers.Some(Mbc7AndSensorAndRumbleAndRamAndBattery)
    case 0xFC => Wrappers.Some(PocketCamera)
    case 0xFD => Wrappers.Some(BandaiTama5)
    case 0xFE => Wrappers.Some(HuC3)
    case 0xFF => Wrappers.Some(HuC1AndRamAndBattery)
    case 0xFB => Wrappers.Some(Unknown)
    case _ => NumEnum.OnMiss(reading, Unknown)
  }

  /** Decoding a variant's own discriminant finds that variant, under either reading. */
  lemma TryFromPrimitiveInvertsDiscriminant(v: CartridgeType, reading: NumEnum.Reading)
    ensures TryFromPrimitive(Discriminant(v), reading) == Wrappers.Some(v)
  {
    // One case per variant, each naming its discriminant, keeps the solver's search small.
    match v
    case RomOnly => assert Discriminant(RomOnly) == 0x00;
    case Mbc1 => assert Discriminant(Mbc1) == 0x01;
    case Mbc1AndRam => assert Discriminant(Mbc1AndRam) == 0x02;
    case Mbc1AndRamAndBattery => assert Discriminant(Mbc1AndRamAndBattery) == 0x03;
    case Mbc2 => assert Discriminant(Mbc2) == 0x05;
    case Mbc2AndBattery => assert Discriminant(Mbc2AndBattery) == 0x06;
    case RomAndRam => assert Discriminant(RomAndRam) == 0x08;
    case RomAndRamAndBattery => assert Discriminant(RomAndRamAndBattery) == 0x09;
    case Mmm01 => assert Discriminant(Mmm01) == 0x0B;
    case Mmm01AndRam => assert Discriminant(Mmm01AndRam) == 0x0C;
    case Mmm01AndRamAndBattery => assert Discriminant(Mmm01AndRamAndBattery) == 0x0D;
    case Mbc3AndTimerAndBattery => assert Discriminant(Mbc3AndTimerAndBattery) == 0x0F;
    case Mbc3AndTimerAndRamAndBattery => assert Discriminant(Mbc3AndTimerAndRamAndBattery) == 0x10;
    case Mbc3 => assert Discriminant(Mbc3) == 0x11;
    case Mbc3AndRam => assert Discriminant(Mbc3AndRam) == 0x12;
    case Mbc3AndRamAndBattery => assert Discriminant(Mbc3AndRamAndBattery) == 0x13;
    case Mbc5 => assert Discriminant(Mbc5) == 0x19;
    case Mbc5AndRam => assert Discriminant(Mbc5AndRam) == 0x1A;
    case Mbc5AndRamAndBattery => assert Discriminant(Mbc5AndRamAndBattery) == 0x1B;
    case Mbc5AndRumble => assert Discriminant(Mbc5AndRumble) == 0x1C;
    case Mbc5AndRumbleAndRam => assert Discriminant(Mbc5AndRumbleAndRam) == 0x1D;
    case Mbc5AndRumbleAndRamAndBattery => assert Discriminant(Mbc5AndRumbleAndRamAndBattery) == 0x1E;
    case Mbc6 => assert Discriminant(Mbc6) == 0x20;
    case Mbc7AndSensorAndRumbleAndRamAndBattery => assert Discriminant(Mbc7AndSensorAndRumbleAndRamAndBattery) == 0x22;
    case PocketCamera => assert Discriminant(PocketCamera) == 0xFC;
    case BandaiTama5 => assert Discriminant(BandaiTama5) == 0xFD;
    case HuC3 => assert Discriminant(HuC3) == 0xFE;
    case HuC1AndRamAndBattery => assert Discriminant(HuC1AndRamAndBattery) == 0xFF;
    case Unknown => assert Discriminant(Unknown) == 0xFB;
  }

  /**
   * `try_from` only answers with a variant whose discriminant is the byte it
   * was given, except that with a catch-all it may answer with `Unknown`.
   */
  lemma TryFromPrimitiveSound(b: byte, reading: NumEnum.Reading)
    ensures var r := TryFromPrimitive(b, reading);
      r.Some? ==> Discriminant(r.value) == b || (reading == NumEnum.DefaultOnMiss && r.value == Unknown)
  {
    // As above, one case per declared discriminant.
    match b
    case 0x00 => assert Discriminant(RomOnly) == 0x00;
    case 0x01 => assert Discriminant(Mbc1) == 0x01;
    case 0x02 => assert Discriminant(Mbc1AndRam) == 0x02;
    case 0x03 => assert Discriminant(Mbc1AndRamAndBattery) == 0x03;
    case 0x05 => assert Discriminant(Mbc2) == 0x05;
    case 0x06 => assert Discriminant(Mbc2AndBattery) == 0x06;
    case 0x08 => assert Discriminant(RomAndRam) == 0x08;
    case 0x09 => assert Discriminant(RomAndRamAndBattery) == 0x09;
    case 0x0B => assert Discriminant(Mmm01) == 0x0B;
    case 0x0C => assert Discriminant(Mmm01AndRam) == 0x0C;
    case 0x0D => assert Discriminant(Mmm01AndRamAndBattery) == 0x0D;
    case 0x0F => assert Discriminant(Mbc3AndTimerAndBattery) == 0x0F;
    case 0x10 => assert Discriminant(Mbc3AndTimerAndRamAndBattery) == 0x10;
    case 0x11 => assert Discriminant(Mbc3) == 0x11;
    case 0x12 => assert Discriminant(Mbc3AndRam) == 0x12;
    case 0x13 => assert Discriminant(Mbc3AndRamAndBattery) == 0x13;
    case 0x19 => assert Discriminant(Mbc5) == 0x19;
    case 0x1A => assert Discriminant(Mbc5AndRam) == 0x1A;
    case 0x1B => assert Discriminant(Mbc5AndRamAndBattery) == 0x1B;
    case 0x1C => assert Discriminant(Mbc5AndRumble) == 0x1C;
    case 0x1D => assert Discriminant(Mbc5AndRumbleAndRam) == 0x1D;
    case 0x1E => assert Discriminant(Mbc5AndRumbleAndRamAndBattery) == 0x1E;
    case 0x20 => assert Discriminant(Mbc6) == 0x20;
    case 0x22 => assert Discriminant(Mbc7AndSensorAndRumbleAndRamAndBattery) == 0x22;
    case 0xFC => assert Discriminant(PocketCamera) == 0xFC;
    case 0xFD => assert Discriminant(BandaiTama5) == 0xFD;
    case 0xFE => assert Discriminant(HuC3) == 0xFE;
    case 0xFF => assert Discriminant(HuC1AndRamAndBattery) == 0xFF;
    case 0xFB => assert Discriminant(Unknown) == 0xFB;
    case _ =>
  }

  /**
   * Without a catch-all, `try_from` fails exactly on the bytes that are no
   * variant's discriminant; with one it never fails and answers those bytes
   * with `Unknown`.
   */
  lemma TryFromPrimitiveComplete(b: byte)
    ensures TryFromPrimitive(b, NumEnum.ErrorOnMiss).None? <==> forall w :: Discriminant(w) != b
    ensures TryFromPrimitive(b, NumEnum.DefaultOnMiss).Some?
    ensures (forall w :: Discriminant(w) != b) ==> TryFromPrimitive(b, NumEnum.DefaultOnMiss) == Wrappers.Some(Unknown)
  {
    TryFromPrimitiveSound(b, NumEnum.ErrorOnMiss);
    forall w | Discriminant(w) == b
      ensures TryFromPrimitive(b, NumEnum.ErrorOnMiss) == Wrappers.Some(w)
    {
      TryFromPrimitiveInvertsDiscriminant(w, NumEnum.ErrorOnMiss);
    }
  }

  /**
   * `from_byte`: the variant a header byte stands for. It never fails: a byte
   * that is no variant's discriminant decodes to the default variant `Unknown`.
   */
  function FromByte(b: byte): (v: CartridgeType)
    ensures Discriminant(v) == b || (v == Unknown && forall w :: Discriminant(w) != b)
  {
    TryFromPrimitiveComplete(b);
    NumEnum.OrDefault(TryFromPrimitive(b, NumEnum.ErrorOnMiss), Unknown)
  }

  /**
   * `from_byte` decodes every byte alike under either reading: whether a miss
   * comes back from `try_from` as an error or as `Unknown`, the result is `Unknown`.
   */
  lemma FromByteUnderEitherReading(b: byte, reading: NumEnum.Reading)
    ensures FromByte(b) == NumEnum.OrDefault(TryFromPrimitive(b, reading), Unknown)
  {
    TryFromPrimitiveComplete(b);
  }

  /** Decoding a variant's own discriminant gives that variant back: no two variants share a discriminant. */
  lemma FromByteInvertsDiscriminant(v: CartridgeType)
    ensures FromByte(Discriminant(v)) == v
  {
    TryFromPrimitiveInvertsDiscriminant(v, NumEnum.ErrorOnMiss);
  }
}
