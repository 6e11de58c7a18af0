/** The error the header decoders report. */
module Errors {

  /** `FerrisBoyError::InvalidInput`: a slice of `actual` bytes where `expected` were needed. */
  datatype FerrisBoyError = InvalidInput(expected: nat, actual: nat)
}
