/** UTF-8 text as bytes: strict encoding and lossy decoding. */
module Utf8 {
  import opened Cursors

  type byte = x: int | 0 <= x < 256

  function EncodedChar(c: char): (b: seq<byte>)
    ensures |b| > 0
    ensures c as int < 0x80 ==> b == [c as int]
    ensures c as int >= 0x80 ==> forall i :: 0 <= i < |b| ==> b[i] >= 0x80
  {
    var n := c as int;
    if n < 0x80 then [n]
    else if n < 0x800 then [0xC0 + n / 64, 0x80 + n % 64]
    else if n < 0x10000 then [0xE0 + n / 4096, 0x80 + n / 64 % 64, 0x80 + n % 64]
    else [0xF0 + n / 262144, 0x80 + n / 4096 % 64, 0x80 + n / 64 % 64, 0x80 + n % 64]
  }

  function Encoded(s: string): seq<byte> {
    if s == "" then [] else EncodedChar(s[0]) + Encoded(s[1..])
  }

  /** Whether byte `i` is there and continues a character. */
  predicate Continues(b: seq<byte>, i: nat) {
    i < |b| && 0x80 <= b[i] < 0xC0
  }

  /** Whether the second byte can follow the first of a three-byte character. */
  predicate SecondOfThree(b: seq<byte>)
    requires b != []
  {
    Continues(b, 1) && (b[0] == 0xE0 ==> b[1] >= 0xA0) && (b[0] == 0xED ==> b[1] < 0xA0)
  }

  predicate SecondOfFour(b: seq<byte>)
    requires b != []
  {
    Continues(b, 1) && (b[0] == 0xF0 ==> b[1] >= 0x90) && (b[0] == 0xF4 ==> b[1] < 0x90)
  }

  /** The bits a byte contributes above its marker. */
  function Bits(b: byte, marker: int): int {
    b as int - marker
  }

  /** The first character of a byte string, or the length of the malformed piece at its front. */
  function FirstUnit(b: seq<byte>): (r: (nat, Option<char>))
    requires b != []
    ensures 0 < r.0 <= |b|
  {
    var lead := b[0];
    if lead < 0x80 then (1, Some(lead as char))
    else if 0xC2 <= lead < 0xE0 then
      if Continues(b, 1) then (2, Some((Bits(lead, 0xC0) * 64 + Bits(b[1], 0x80)) as char)) else (1, None)
    else if 0xE0 <= lead < 0xF0 then
      if !SecondOfThree(b) then (1, None)
      else if !Continues(b, 2) then (2, None)
      else (3, Some((Bits(lead, 0xE0) * 4096 + Bits(b[1], 0x80) * 64 + Bits(b[2], 0x80)) as char))
    else if 0xF0 <= lead < 0xF5 then
      if !SecondOfFour(b) then (1, None)
      else if !Continues(b, 2) then (2, None)
      else if !Continues(b, 3) then (3, None)
      else
        var high := Bits(lead, 0xF0) * 262144 + Bits(b[1], 0x80) * 4096;
        (4, Some((high + Bits(b[2], 0x80) * 64 + Bits(b[3], 0x80)) as char))
    else (1, None)
  }

  /** Each malformed piece becomes one replacement character. */
  function Decoded(b: seq<byte>): (s: string)
    ensures s == "" <==> b == []
  {
    if b == [] then ""
    else
      var (n, c) := FirstUnit(b);
      [if c.Some? then c.value else '\U{FFFD}'] + Decoded(b[n..])
  }

  lemma DecodesChar(c: char, rest: seq<byte>)
    ensures Decoded(EncodedChar(c) + rest) == [c] + Decoded(rest)
  {
    var b, n := EncodedChar(c) + rest, c as int;
    assert FirstUnit(b) == (|EncodedChar(c)|, Some(c)) by {
      FirstUnitOfChar(c, rest);
    }
    assert b[|EncodedChar(c)|..] == rest;
  }

  lemma FirstUnitOfChar(c: char, rest: seq<byte>)
    ensures FirstUnit(EncodedChar(c) + rest) == (|EncodedChar(c)|, Some(c))
  {
    var n := c as int;
    assert n == n / 64 * 64 + n % 64;
    assert n / 64 == n / 4096 * 64 + n / 64 % 64;
    assert n / 4096 == n / 262144 * 64 + n / 4096 % 64;
  }

  /** Decoding gives back what was encoded. */
  lemma {:induction false} DecodeEncoded(s: string)
    ensures Decoded(Encoded(s)) == s
  {
    if s != "" {
      DecodesChar(s[0], Encoded(s[1..]));
      DecodeEncoded(s[1..]);
      assert s == [s[0]] + s[1..];
    }
  }

  lemma Chain<T>(a: seq<T>, b: seq<T>, c: seq<T>)
    ensures (a + b) + c == a + (b + c)
  {
  }
}
