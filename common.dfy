/** Small value types shared by every module of the model. */
module Common {

  /** Go's nil-able values (a nil `error`, a nil `*SOEResult`). */
  datatype Option<+T> = None | Some(value: T)

  /** One byte of a Go `[]byte` or of the UTF-8 encoding of a Go `string`. */
  newtype byte = x: int | 0 <= x < 256

  type Bytes = seq<byte>

  /** The sum of the lengths of a sequence of byte slices. */
  function TotalLength(chunks: seq<Bytes>): nat
  {
    if chunks == [] then 0 else TotalLength(chunks[..|chunks| - 1]) + |chunks[|chunks| - 1]|
  }
}
