/** The destination code, header byte 0x014A: whether the game is sold in Japan. */
module Destination {
  import opened Bytes
  import Wrappers
  import NumEnum

  datatype Destination =
    | JapanAndPossiblyOverseas
    | OverseasOnly
    | Unknown

  /**
   * The `#[repr(u8)]` discriminant of each variant. A variant declared
   * without one, like `Unknown`, takes its predecessor's plus one.
   */
  function Discriminant(v: Destination): byte {
    match v
    case JapanAndPossiblyOverseas => 0x00
    case OverseasOnly => 0x01
    case Unknown => 0x01 + 1
  }

  /**
   * The derived `TryFromPrimitive::try_from` under `reading`: the variant whose
   * discriminant is `b`; for any other byte an error, or the default variant
   * `Unknown` when the derive reads `#[default]` as its catch-all.
   */
  function TryFromPrimitive(b: byte, reading: NumEnum.Reading): Wrappers.Option<Destination>
  {
    match b
    case 0x00 => Wrappers.Some(JapanAndPossiblyOverseas)
    case 0x01 => Wrappers.Some(OverseasOnly)
    case 0x02 => Wrappers.Some(Unknown)
    case _ => NumEnum.OnMiss(reading, Unknown)
  }

  /** Decoding a variant's own discriminant finds that variant, under either reading. */
  lemma TryFromPrimitiveInvertsDiscriminant(v: Destination, reading: NumEnum.Reading)
    ensures TryFromPrimitive(Discriminant(v), reading) == Wrappers.Some(v)
  {
  }

  /**
   * `try_from` only answers with a variant whose discriminant is the byte it
   * was given, except that with a catch-all it may answer with `Unknown`.
   */
  lemma TryFromPrimitiveSound(b: byte, reading: NumEnum.Reading)
    ensures var r := TryFromPrimitive(b, reading);
      r.Some? ==> Discriminant(r.value) == b || (reading == NumEnum.DefaultOnMiss && r.value == Unknown)
  {
  }

  /**
   * Without a catch-all, `try_from` fails exactly on the bytes that are no
   * variant's discriminant; with one it never fails and answers those bytes
   * with `Unknown`.
   */
  lemma TryFromPrimitiveComplete(b: byte)
    ensures TryFromPrimitive(b, NumEnum.ErrorOnMiss).None? <==> forall w :: Discriminant(w) != b
    ensures TryFromPrimitive(b, NumEnum.DefaultOnMiss).Some?
    ensures (forall w :: Discriminant(w) != b) ==> TryFromPrimitive(b, NumEnum.DefaultOnMiss) == Wrappers.Some(Unknown)
  {
    TryFromPrimitiveSound(b, NumEnum.ErrorOnMiss);
    forall w | Discriminant(w) == b
      ensures TryFromPrimitive(b, NumEnum.ErrorOnMiss) == Wrappers.Some(w)
    {
      TryFromPrimitiveInvertsDiscriminant(w, NumEnum.ErrorOnMiss);
    }
  }

  /**
   * `from_byte`: the variant a header byte stands for. It never fails: a byte
   * that is no variant's discriminant decodes to the default variant `Unknown`.
   */
  function FromByte(b: byte): (v: Destination)
    ensures Discriminant(v) == b || (v == Unknown && forall w :: Discriminant(w) != b)
  {
    TryFromPrimitiveComplete(b);
    NumEnum.OrDefault(TryFromPrimitive(b, NumEnum.ErrorOnMiss), Unknown)
  }

  /**
   * `from_byte` decodes every byte alike under either reading: whether a miss
   * comes back from `try_from` as an error or as `Unknown`, the result is `Unknown`.
   */
  lemma FromByteUnderEitherReading(b: byte, reading: NumEnum.Reading)
    ensures FromByte(b) == NumEnum.OrDefault(TryFromPrimitive(b, reading), Unknown)
  {
    TryFromPrimitiveComplete(b);
  }

  /** Decoding a variant's own discriminant gives that variant back: no two variants share a discriminant. */
  lemma FromByteInvertsDiscriminant(v: Destination)
    ensures FromByte(Discriminant(v)) == v
  {
    TryFromPrimitiveInvertsDiscriminant(v, NumEnum.ErrorOnMiss);
  }
}
