/** The SGB flag, header byte 0x0146: whether the game supports Super Game Boy functions. */
module SuperGameBoyFlag {
  import opened Bytes
  import Wrappers
  import NumEnum

  datatype SuperGameBoyFlag =
    | SupportsSuperGameBoyFunctions
    | Unsupported

  /**
   * The `#[repr(u8)]` discriminant of each variant. A variant declared
   * without one, like `Unsupported`, takes its predecessor's plus one.
   */
  function Discriminant(v: SuperGameBoyFlag): byte {
    match v
    case SupportsSuperGameBoyFunctions => 0x03
    case Unsupported => 0x03 + 1
  }

  /**
   * The derived `TryFromPrimitive::try_from` under `reading`: the variant whose
   * discriminant is `b`; for any other byte an error, or the default variant
   * `Unsupported` when the derive reads `#[default]` as its catch-all.
   */
  function TryFromPrimitive(b: byte, reading: NumEnum.Reading): Wrappers.Option<SuperGameBoyFlag>
  {
    match b
    case 0x03 => Wrappers.Some(SupportsSuperGameBoyFunctions)
    case 0x04 => Wrappers.Some(Unsupported)
    case _ => NumEnum.OnMiss(reading, Unsupported)
  }

  /** Decoding a variant's own discriminant finds that variant, under either reading. */
  lemma TryFromPrimitiveInvertsDiscriminant(v: SuperGameBoyFlag, reading: NumEnum.Reading)
    ensures TryFromPrimitive(Discriminant(v), reading) == Wrappers.Some(v)
  {
  }

  /**
   * `try_from` only answers with a variant whose discriminant is the byte it
   * was given, except that with a catch-all it may answer with `Unsupported`.
   */
  lemma TryFromPrimitiveSound(b: byte, reading: NumEnum.Reading)
    ensures var r := TryFromPrimitive(b, reading);
      r.Some? ==> Discriminant(r.value) == b || (reading == NumEnum.DefaultOnMiss && r.value == Unsupported)
  {
  }

  /**
   * Without a catch-all, `try_from` fails exactly on the bytes that are no
   * variant's discriminant; with one it never fails and answers those bytes
   * with `Unsupported`.
   */
  lemma TryFromPrimitiveComplete(b: byte)
    ensures TryFromPrimitive(b, NumEnum.ErrorOnMiss).None? <==> forall w :: Discriminant(w) != b
    ensures TryFromPrimitive(b, NumEnum.DefaultOnMiss).Some?
    ensures (forall w :: Discriminant(w) != b) ==> TryFromPrimitive(b, NumEnum.DefaultOnMiss) == Wrappers.Some(Unsupported)
  {
    TryFromPrimitiveSound(b, NumEnum.ErrorOnMiss);
    forall w | Discriminant(w) == b
      ensures TryFromPrimitive(b, NumEnum.ErrorOnMiss) == Wrappers.Some(w)
    {
      TryFromPrimitiveInvertsDiscriminant(w, NumEnum.ErrorOnMiss);
    }
  }

  /**
   * `from_byte`: the variant a header byte stands for. It never fails: a byte
   * that is no variant's discriminant decodes to the default variant `Unsupported`.
   */
  function FromByte(b: byte): (v: SuperGameBoyFlag)
    ensures Discriminant(v) == b || (v == Unsupported && forall w :: Discriminant(w) != b)
    ensures v == SupportsSuperGameBoyFunctions <==> b == 0x03
  {
    TryFromPrimitiveComplete(b);
    NumEnum.OrDefault(TryFromPrimitive(b, NumEnum.ErrorOnMiss), Unsupported)
  }

  /**
   * `from_byte` decodes every byte alike under either reading: whether a miss
   * comes back from `try_from` as an error or as `Unsupported`, the result is `Unsupported`.
   */
  lemma FromByteUnderEitherReading(b: byte, reading: NumEnum.Reading)
    ensures FromByte(b) == NumEnum.OrDefault(TryFromPrimitive(b, reading), Unsupported)
  {
    TryFromPrimitiveComplete(b);
  }

  /** Decoding a variant's own discriminant gives that variant back: no two variants share a discriminant. */
  lemma FromByteInvertsDiscriminant(v: SuperGameBoyFlag)
    ensures FromByte(Discriminant(v)) == v
  {
    TryFromPrimitiveInvertsDiscriminant(v, NumEnum.ErrorOnMiss);
  }
}
