/** Go strings are immutable byte sequences; the model keeps them as such. */
module Bytes {

  type byte = b: int | 0 <= b < 256

  /** A Go `string` (equally a `[]byte`): conversions between the two copy the bytes unchanged. */
  type GoString = seq<byte>

  /** The bytes of a string literal written in ASCII. */
  function Ascii(s: string): (r: GoString)
    requires forall i | 0 <= i < |s| :: s[i] as int < 128
    ensures |r| == |s|
  {
    seq(|s|, i requires 0 <= i < |s| => s[i] as int)
  }
}
