/** Text as UTF-8 bytes, and back with a replacement character for what is not text. */
module Utf8 {

  type Byte = b: int | 0 <= b < 256 witness 0

  const REPLACEMENT: char := '\U{FFFD}'

  function EncodeChar(c: char): (r: seq<Byte>)
    ensures 1 <= |r| <= 4
  {
    var n := c as int;
    if n < 0x80 then [n]
    else if n < 0x800 then [0xC0 + n / 64, 0x80 + n % 64]
    else if n < 0x10000 then [0xE0 + n / 4096, 0x80 + n / 64 % 64, 0x80 + n % 64]
    else [0xF0 + n / 262144, 0x80 + n / 4096 % 64, 0x80 + n / 64 % 64, 0x80 + n % 64]
  }

  function Encode(s: string): seq<Byte> {
    if s == "" then [] else EncodeChar(s[0]) + Encode(s[1..])
  }

  predicate Continues(b: Byte) {
    0x80 <= b < 0xC0
  }

  function Bits(b: Byte, lead: int): int {
    b as int - lead
  }

  predicate Scalar(n: int) {
    0 <= n < 0xD800 || 0xE000 <= n < 0x110000
  }

  /** The character at the head of the bytes and how many it takes; None if they start none. */
  function Head(b: seq<Byte>): (r: (int, nat))
    requires b != []
    ensures 1 <= r.1 <= |b|
  {
    if b[0] < 0x80 then (Bits(b[0], 0), 1)
    else if 0xC0 <= b[0] < 0xE0 && |b| >= 2 && Continues(b[1]) then (Bits(b[0], 0xC0) * 64 + Bits(b[1], 0x80), 2)
    else if 0xE0 <= b[0] < 0xF0 && |b| >= 3 && Continues(b[1]) && Continues(b[2])
    then (Bits(b[0], 0xE0) * 4096 + Bits(b[1], 0x80) * 64 + Bits(b[2], 0x80), 3)
    else if 0xF0 <= b[0] && |b| >= 4 && Continues(b[1]) && Continues(b[2]) && Continues(b[3])
    then (Bits(b[0], 0xF0) * 262144 + Bits(b[1], 0x80) * 4096 + Bits(b[2], 0x80) * 64 + Bits(b[3], 0x80), 4)
    else (-1, 1)
  }

  function Decode(b: seq<Byte>): string {
    if b == [] then ""
    else
      var (n, width) := Head(b);
      [if Scalar(n) then n as char else REPLACEMENT] + Decode(b[width..])
  }

  lemma HeadOfChar(c: char, rest: seq<Byte>)
    ensures Head(EncodeChar(c) + rest) == (c as int, |EncodeChar(c)|)
  {
    var n := c as int;
    var b := EncodeChar(c) + rest;
    assert forall i :: 0 <= i < |EncodeChar(c)| ==> b[i] == EncodeChar(c)[i];
    assert n == n / 64 * 64 + n % 64;
    assert n / 64 == n / 4096 * 64 + n / 64 % 64;
    assert n / 4096 == n / 262144 * 64 + n / 4096 % 64;
  }

  lemma {:induction false} DecodeEncode(s: string)
    ensures Decode(Encode(s)) == s
  {
    if s != "" {
      var head, rest := EncodeChar(s[0]), Encode(s[1..]);
      HeadOfChar(s[0], rest);
      assert (head + rest)[|head|..] == rest;
      DecodeEncode(s[1..]);
      assert [s[0]] + s[1..] == s;
    }
  }

  lemma {:induction false} EncodeOfBoth(s: string, t: string)
    ensures Encode(s + t) == Encode(s) + Encode(t)
  {
    if s == "" {
      assert s + t == t;
    } else {
      assert (s + t)[0] == s[0] && (s + t)[1..] == s[1..] + t;
      EncodeOfBoth(s[1..], t);
      assert EncodeChar(s[0]) + (Encode(s[1..]) + Encode(t)) == (EncodeChar(s[0]) + Encode(s[1..])) + Encode(t);
    }
  }
}
