// Bytes of messages and of encoded text.
module Bytes {
  type Byte = b: int | 0 <= b < 256

  predicate IsAscii(text: string) {
    forall i :: 0 <= i < |text| ==> text[i] as int < 128
  }

  // The bytes of a text in ASCII
  function Ascii(text: string): (t: seq<Byte>)
    requires IsAscii(text)
    ensures |t| == |text| && forall i :: 0 <= i < |t| ==> t[i] == text[i] as int
  {
    if text == "" then []
    else
      var first: Byte := text[0] as int;
      [first] + Ascii(text[1..])
  }
}
