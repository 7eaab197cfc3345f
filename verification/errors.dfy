/** The ways a parse or a field lookup can fail. Every panic of the reader becomes one of these. */
module Errors {

  datatype Error =
      /** A read starting at `offset` needed more bytes than the input holds. */
    | Truncated(offset: nat)
      /** A size vint at `offset` starts with 0x00: the mask width `8 - count` underflows. */
    | VintOverflow(offset: nat)
      /** The first four bytes are missing or are not the EBML magic number. */
    | BadMagic
      /** A string payload is not well-formed UTF-8. */
    | InvalidUtf8
      /** A signed decode was asked of an empty payload (the decoder indexes its first byte). */
    | EmptyInteger
      /** A mandatory getter found no direct child with this ID. */
    | MissingField(id: nat)
}
