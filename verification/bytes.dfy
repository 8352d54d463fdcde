// Byte strings.  Go strings are byte strings; everything that reaches the
// registry Secret is modelled at this level.
module Bytes {
  type byte = b: int | 0 <= b < 256
  type Bytes = seq<byte>

  // The bytes of an ASCII literal.
  function Ascii(s: string): (r: Bytes)
    ensures |r| == |s|
  {
    seq(|s|, i requires 0 <= i < |s| => s[i] as int % 128)
  }

  // strings.Contains: does `part` occur in `whole`?
  predicate Contains<T(==)>(whole: seq<T>, part: seq<T>) {
    exists i :: 0 <= i <= |whole| && OccursAt(whole, part, i)
  }

  predicate OccursAt<T(==)>(whole: seq<T>, part: seq<T>, i: nat) {
    i + |part| <= |whole| && whole[i..i + |part|] == part
  }

  datatype Option<+T> = None | Some(value: T)
}
