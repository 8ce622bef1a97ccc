/**
 * UTF-8 as System.Text.Encoding.UTF8 applies it at the two ends of a header
 * value's trip through the broker: strings are encoded to bytes when a
 * message is published and byte arrays are decoded back to strings by the
 * consumer's header getter and for the message body.
 *
 * Decoding never fails: a byte sequence that is not well formed yields one
 * U+FFFD REPLACEMENT CHARACTER per maximal subpart (the Unicode Standard,
 * section 3.9, "U+FFFD Substitution of Maximal Subparts"), which is what the
 * replacement fallback of Encoding.UTF8 produces.
 */
module Utf8 {

  type byte = b: int | 0 <= b < 0x100

  const ReplacementChar: char := '\U{FFFD}'

  predicate IsContinuation(b: byte) {
    0x80 <= b <= 0xBF
  }

  /** Length of the well-formed sequence that `lead` starts; 0 when it cannot start one. */
  function SequenceLength(lead: byte): nat {
    if lead < 0x80 then 1
    else if 0xC2 <= lead <= 0xDF then 2
    else if 0xE0 <= lead <= 0xEF then 3
    else if 0xF0 <= lead <= 0xF4 then 4
    else 0
  }

  /** Bounds of the byte after a lead byte (Table 3-7 of the Unicode Standard). */
  function SecondLow(lead: byte): byte {
    if lead == 0xE0 then 0xA0 else if lead == 0xF0 then 0x90 else 0x80
  }

  function SecondHigh(lead: byte): byte {
    if lead == 0xED then 0x9F else if lead == 0xF4 then 0x8F else 0xBF
  }

  /** How many of the bytes after `b[0]` continue the sequence it starts, at most `need - 1`. */
  function ContinuationCount(b: seq<byte>, need: nat): (m: nat)
    requires |b| > 0 && 2 <= need <= 4
    ensures m < need && m < |b|
  {
    if |b| < 2 || !(SecondLow(b[0]) <= b[1] <= SecondHigh(b[0])) then 0
    else if need == 2 || |b| < 3 || !IsContinuation(b[2]) then 1
    else if need == 3 || |b| < 4 || !IsContinuation(b[3]) then 2
    else 3
  }

  /** The scalar value of a complete well-formed sequence of length `n` at the start of `b`. */
  function ScalarOf(b: seq<byte>, n: nat): (c: char)
    requires |b| > 0 && 2 <= n <= 4 && SequenceLength(b[0]) == n && ContinuationCount(b, n) == n - 1
  {
    if n == 2 then
      ((b[0] as int - 0xC0) * 64 + (b[1] as int - 0x80)) as char
    else if n == 3 then
      ((b[0] as int - 0xE0) * 4096 + (b[1] as int - 0x80) * 64 + (b[2] as int - 0x80)) as char
    else
      ((b[0] as int - 0xF0) * 262144 + (b[1] as int - 0x80) * 4096
        + (b[2] as int - 0x80) * 64 + (b[3] as int - 0x80)) as char
  }

  /** Decodes the character at the start of `b` and says how many bytes it used. */
  function DecodeOne(b: seq<byte>): (r: (char, nat))
    requires |b| > 0
    ensures 1 <= r.1 <= |b|
  {
    var n := SequenceLength(b[0]);
    if n == 1 then (b[0] as char, 1)
    else if n == 0 then (ReplacementChar, 1)
    else
      var m := ContinuationCount(b, n);
      if m < n - 1 then (ReplacementChar, 1 + m)
      else (ScalarOf(b, n), n)
  }

  /** Encoding.UTF8.GetString: total, never longer than its input. */
  function Decode(b: seq<byte>): (s: string)
    ensures |s| <= |b|
    ensures b != [] ==> s != []
    decreases |b|
  {
    if b == [] then []
    else
      var (c, n) := DecodeOne(b);
      [c] + Decode(b[n..])
  }

  /** The one to four bytes of a scalar value. */
  function EncodeChar(c: char): (r: seq<byte>)
    ensures 1 <= |r| <= 4
  {
    var cp := c as int;
    if cp < 0x80 then [cp]
    else if cp < 0x800 then [0xC0 + cp / 64, 0x80 + cp % 64]
    else if cp < 0x10000 then [0xE0 + cp / 4096, 0x80 + cp / 64 % 64, 0x80 + cp % 64]
    else [0xF0 + cp / 262144, 0x80 + cp / 4096 % 64, 0x80 + cp / 64 % 64, 0x80 + cp % 64]
  }

  /** Encoding.UTF8.GetBytes. */
  function Encode(s: string): (b: seq<byte>)
    ensures |s| <= |b| <= 4 * |s|
  {
    if s == [] then [] else EncodeChar(s[0]) + Encode(s[1..])
  }

  /** Decoding the bytes of one character, whatever follows them, gives that character back. */
  lemma DecodeOneEncodeChar(c: char, rest: seq<byte>)
    ensures DecodeOne(EncodeChar(c) + rest) == (c, |EncodeChar(c)|)
  {
    var cp := c as int;
    if cp < 0x80 {
    } else if cp < 0x800 {
      DecodeTwo(c, rest);
    } else if cp < 0x10000 {
      DecodeThree(c, rest);
    } else {
      DecodeFour(c, rest);
    }
  }

  lemma DecodeTwo(c: char, rest: seq<byte>)
    requires 0x80 <= c as int < 0x800
    ensures DecodeOne(EncodeChar(c) + rest) == (c, 2)
  {
    var cp := c as int;
    var b := EncodeChar(c) + rest;
    var q, r := cp / 64, cp % 64;
    assert cp == 64 * q + r;
    assert b[0] == 0xC0 + q && b[1] == 0x80 + r;
    assert ContinuationCount(b, 2) == 1;
    assert (b[0] as int - 0xC0) * 64 + (b[1] as int - 0x80) == cp;
  }

  lemma DecodeThree(c: char, rest: seq<byte>)
    requires 0x800 <= c as int < 0x10000
    ensures DecodeOne(EncodeChar(c) + rest) == (c, 3)
  {
    var cp := c as int;
    var b := EncodeChar(c) + rest;
    var q1, r0 := cp / 64, cp % 64;
    var q2, r1 := q1 / 64, q1 % 64;
    Split(cp, 64);
    Split(q1, 64);
    DivDiv64(cp);
    assert b[0] == 0xE0 + q2 && b[1] == 0x80 + r1 && b[2] == 0x80 + r0;
    assert ContinuationCount(b, 3) == 2;
    assert (b[0] as int - 0xE0) * 4096 + (b[1] as int - 0x80) * 64 + (b[2] as int - 0x80) == cp;
  }

  lemma DecodeFour(c: char, rest: seq<byte>)
    requires 0x10000 <= c as int
    ensures DecodeOne(EncodeChar(c) + rest) == (c, 4)
  {
    var cp := c as int;
    var b := EncodeChar(c) + rest;
    var q1, r0 := cp / 64, cp % 64;
    var q2, r1 := q1 / 64, q1 % 64;
    var q3, r2 := q2 / 64, q2 % 64;
    Split(cp, 64);
    Split(q1, 64);
    Split(q2, 64);
    DivDiv64(cp);
    assert b[0] == 0xF0 + q3 && b[1] == 0x80 + r2 && b[2] == 0x80 + r1 && b[3] == 0x80 + r0;
    assert ContinuationCount(b, 4) == 3;
    assert (b[0] as int - 0xF0) * 262144 + (b[1] as int - 0x80) * 4096
      + (b[2] as int - 0x80) * 64 + (b[3] as int - 0x80) == cp;
  }

  lemma Split(x: nat, d: nat)
    requires d > 0
    ensures x == d * (x / d) + x % d && 0 <= x % d < d
  {
  }

  lemma DivDiv64(x: nat)
    ensures x / 64 / 64 == x / 4096 && x / 4096 / 64 == x / 262144
  {
  }

  /** Every string survives encoding and decoding unchanged. */
  lemma {:induction false} DecodeEncode(s: string)
    ensures Decode(Encode(s)) == s
  {
    if s != [] {
      var e := EncodeChar(s[0]);
      var rest := Encode(s[1..]);
      DecodeOneEncodeChar(s[0], rest);
      assert (e + rest)[|e|..] == rest;
      DecodeEncode(s[1..]);
    }
  }
}
