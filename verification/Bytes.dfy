/** Bytes, as files and pipes hold them. */
module ByteStrings {
  newtype Byte = x: int | 0 <= x < 256

  type Bytes = seq<Byte>

  const NEWLINE: Byte := 10
}
