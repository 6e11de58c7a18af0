/**
 * What the `TryFromPrimitive` derive does with a number that is no variant's
 * discriminant. Every enum of the header marks its fallback variant with the
 * standard `#[default]` attribute. Some releases of the derive read that
 * attribute as a catch-all, so `try_from` answers such a number with the
 * default variant. Others ignore it, so `try_from` reports an error. The
 * source does not fix the release, so each enum models both readings.
 */
module NumEnum {
  import opened Wrappers

  /** `ErrorOnMiss`: `try_from` fails on a miss. `DefaultOnMiss`: it gives the default variant. */
  datatype Reading = ErrorOnMiss | DefaultOnMiss

  /** The answer of `try_from` to a number that is no variant's discriminant, under `reading`. */
  function OnMiss<T>(reading: Reading, fallback: T): (r: Option<T>)
    ensures r.Some? <==> reading == DefaultOnMiss
    ensures r.Some? ==> r.value == fallback
  {
    if reading == DefaultOnMiss then Some(fallback) else None
  }

  /** What `from_byte` and `from_word` do with `try_from`'s answer: keep a variant, replace an error by the default. */
  function OrDefault<T>(r: Option<T>, fallback: T): T
  {
    match r
    case Some(v) => v
    case None => fallback
  }
}
