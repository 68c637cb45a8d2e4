/** Byte strings, shared by the modules that work below the character level. */
module Bytes {
  newtype byte = b: int | 0 <= b < 256
  type Text = seq<byte>

  const CR: byte := 13
  const LF: byte := 10

  /** The byte at index `i` of a C string: its terminator, 0, sits at index `|s|`. */
  function At(s: Text, i: nat): byte
    requires i <= |s|
  {
    if i < |s| then s[i] else 0
  }

  function Concat(parts: seq<Text>): Text {
    if parts == [] then [] else parts[0] + Concat(parts[1..])
  }

  function Min(x: nat, y: nat): nat {
    if x <= y then x else y
  }
}
