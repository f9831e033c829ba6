/** Small wrapper types shared by the whole model. */
module Wrappers {

  /** A value that may be absent (a JSON field that was not present). */
  datatype Option<+T> = None | Some(value: T)

  /** The outcome of decoding a JSON document into a typed record: the record,
      or the decoder's error text. Decoding itself is not modelled; the caller
      supplies what the decoder would have produced. */
  datatype Decoded<+T> = Parsed(value: T) | DecodeError(reason: string)

  /** What a processing function hands back to its caller: Go's `error`, nil or not. */
  datatype Status = Ok | Err(msg: string)
}
