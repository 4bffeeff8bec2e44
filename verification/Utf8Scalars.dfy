// Valid UTF-8 as the encoding of scalar values, by section 3 of RFC 3629.
module Utf8Scalars {
  import opened Bytes
  import opened Utf8

  // A code point that is no surrogate
  predicate IsScalar(c: int) {
    0 <= c <= 0x10FFFF && !(0xD800 <= c <= 0xDFFF)
  }

  function Encode(c: int): seq<Byte>
    requires IsScalar(c)
  {
    if c < 0x80 then [c]
    else if c < 0x800 then [0xC0 + c / 0x40, 0x80 + c % 0x40]
    else if c < 0x1_0000 then [0xE0 + c / 0x1000, 0x80 + c / 0x40 % 0x40, 0x80 + c % 0x40]
    else [0xF0 + c / 0x4_0000, 0x80 + c / 0x1000 % 0x40, 0x80 + c / 0x40 % 0x40, 0x80 + c % 0x40]
  }

  predicate AreScalars(cs: seq<int>) {
    forall i :: 0 <= i < |cs| ==> IsScalar(cs[i])
  }

  function EncodeAll(cs: seq<int>): seq<Byte>
    requires AreScalars(cs)
  {
    if cs == [] then [] else Encode(cs[0]) + EncodeAll(cs[1..])
  }

  // What is encoded starts a text as one character.
  lemma EncodedIsCharacter(c: int, rest: seq<Byte>)
    requires IsScalar(c)
    ensures Width(Encode(c) + rest) == |Encode(c)| > 0
  {
  }

  // The scalar value of a character of two to four bytes
  function Two(a: int, b: int): int {
    (a - 0xC0) * 0x40 + (b - 0x80)
  }

  function Three(a: int, b: int, c: int): int {
    (a - 0xE0) * 0x1000 + (b - 0x80) * 0x40 + (c - 0x80)
  }

  function Four(a: int, b: int, c: int, d: int): int {
    (a - 0xF0) * 0x4_0000 + (b - 0x80) * 0x1000 + (c - 0x80) * 0x40 + (d - 0x80)
  }

  function Decode(s: seq<Byte>): int
    requires Width(s) > 0
  {
    if Width(s) == 1 then s[0]
    else if Width(s) == 2 then Two(s[0], s[1])
    else if Width(s) == 3 then Three(s[0], s[1], s[2])
    else Four(s[0], s[1], s[2], s[3])
  }

  lemma Sextet(q: int, r: int)
    requires 0 <= q && 0 <= r < 0x40
    ensures (q * 0x40 + r) / 0x40 == q && (q * 0x40 + r) % 0x40 == r
  {
  }

  lemma TwoBytes(a: int, b: int)
    requires 0xC2 <= a < 0xE0 && 0x80 <= b < 0xC0
    ensures var c := Two(a, b); 0x80 <= c < 0x800 && a == 0xC0 + c / 0x40 && b == 0x80 + c % 0x40
  {
    Sextet(a - 0xC0, b - 0x80);
  }

  lemma ThreeBytes(a: int, b: int, c: int)
    requires 0xE0 <= a < 0xF0 && 0x80 <= b < 0xC0 && 0x80 <= c < 0xC0
    ensures var v := Three(a, b, c);
      && v / 0x40 % 0x40 == b - 0x80 && v % 0x40 == c - 0x80 && v / 0x1000 == a - 0xE0
  {
    var high := (a - 0xE0) * 0x40 + (b - 0x80);
    Sextet(a - 0xE0, b - 0x80);
    Sextet(high, c - 0x80);
    assert Three(a, b, c) == high * 0x40 + (c - 0x80);
  }

  lemma FourBytes(a: int, b: int, c: int, d: int)
    requires 0xF0 <= a < 0xF5 && 0x80 <= b < 0xC0 && 0x80 <= c < 0xC0 && 0x80 <= d < 0xC0
    ensures var v := Four(a, b, c, d);
      && v / 0x1000 % 0x40 == b - 0x80 && v / 0x40 % 0x40 == c - 0x80 && v % 0x40 == d - 0x80
      && v / 0x4_0000 == a - 0xF0
  {
    var top := (a - 0xF0) * 0x40 + (b - 0x80);
    var high := top * 0x40 + (c - 0x80);
    Sextet(a - 0xF0, b - 0x80);
    Sextet(top, c - 0x80);
    Sextet(high, d - 0x80);
    assert Four(a, b, c, d) == high * 0x40 + (d - 0x80);
  }

  // A character is what a scalar value is encoded to.
  lemma CharacterIsEncoded(s: seq<Byte>)
    requires Width(s) > 0
    ensures IsScalar(Decode(s)) && Encode(Decode(s)) == s[..Width(s)]
  {
    if Width(s) == 2 {
      TwoBytes(s[0], s[1]);
    } else if Width(s) == 3 {
      ThreeIsEncoded(s);
    } else if Width(s) == 4 {
      FourIsEncoded(s);
    }
  }

  lemma ThreeIsEncoded(s: seq<Byte>)
    requires Width(s) == 3
    ensures IsScalar(Decode(s)) && Encode(Decode(s)) == s[..3]
  {
    ThreeBytes(s[0], s[1], s[2]);
  }

  lemma FourIsEncoded(s: seq<Byte>)
    requires Width(s) == 4
    ensures IsScalar(Decode(s)) && Encode(Decode(s)) == s[..4]
  {
    FourBytes(s[0], s[1], s[2], s[3]);
  }

  // Valid text is the encoding of scalar values, and nothing else is.
  lemma {:induction false} ValidIsEncoded(s: seq<Byte>) returns (cs: seq<int>)
    requires Valid(s)
    ensures AreScalars(cs) && EncodeAll(cs) == s
    decreases |s|
  {
    if s == [] {
      cs := [];
    } else {
      var w := Width(s);
      CharacterIsEncoded(s);
      var rest := ValidIsEncoded(s[w..]);
      cs := [Decode(s)] + rest;
      assert s == s[..w] + s[w..];
    }
  }

  lemma {:induction false} EncodedIsValid(cs: seq<int>)
    requires AreScalars(cs)
    ensures Valid(EncodeAll(cs))
    decreases |cs|
  {
    if cs != [] {
      EncodedIsCharacter(cs[0], EncodeAll(cs[1..]));
      EncodedIsValid(cs[1..]);
      assert EncodeAll(cs)[|Encode(cs[0])|..] == EncodeAll(cs[1..]);
    }
  }
}
