/** Basic value types shared by every module of the model. */
module Base {

  /** An optional value. It stands for Go's nil pointers and for absent
      protobuf sub-messages. */
  datatype Option<+T> = None | Some(value: T) {

    /** The wrapped value, or `default` when there is none (a nil-safe getter). */
    function GetOr(default: T): T {
      match this
      case Some(v) => v
      case None => default
    }
  }

  /** Go's `byte`. */
  type Byte = b: int | 0 <= b < 256

  type Bytes = seq<Byte>

  /** Go's `int64`. */
  type Int64 = x: int | -0x8000_0000_0000_0000 <= x < 0x8000_0000_0000_0000

  function Min(a: int, b: int): int {
    if a <= b then a else b
  }

  /** Go's `string(b)`: a Go string is a sequence of bytes, so each byte
      becomes one character of the same code. */
  function BytesToString(b: Bytes): (s: string)
    ensures |s| == |b|
    ensures forall i :: 0 <= i < |b| ==> s[i] as int == b[i]
  {
    seq(|b|, i requires 0 <= i < |b| => b[i] as char)
  }
}
