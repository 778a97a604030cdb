/**
 * UTF-8 (RFC 3629), the encoding Node's `Buffer.from(s, 'utf8')` and `toString('utf-8')` apply,
 * and the byte type shared by the codecs.
 */
module Utf8 {
  import opened Wrappers

  type Byte = x: int | 0 <= x < 256

  predicate IsContinuation(b: int) {
    0x80 <= b < 0xC0
  }

  /** The UTF-8 bytes of one Unicode scalar value. */
  function EncodeChar(c: char): (r: seq<Byte>)
    ensures 1 <= |r| <= 4
    ensures (c as int < 0x80) <==> |r| == 1
  {
    var v := c as int;
    if v < 0x80 then [v]
    else if v < 0x800 then [0xC0 + v / 64, 0x80 + v % 64]
    else if v < 0x10000 then [0xE0 + v / 64 / 64, 0x80 + v / 64 % 64, 0x80 + v % 64]
    else [0xF0 + v / 64 / 64 / 64, 0x80 + v / 64 / 64 % 64, 0x80 + v / 64 % 64, 0x80 + v % 64]
  }

  function Encode(s: string): seq<Byte> {
    if |s| == 0 then [] else EncodeChar(s[0]) + Encode(s[1..])
  }

  /**
   * The bytes a lead byte `b0` of a multi-byte sequence announces after itself (0 for a byte
   * that cannot lead one), and the range its second byte must fall in: the ranges of the
   * WHATWG UTF-8 decoder, which rule out overlong forms, surrogates and values past U+10FFFF.
   */
  function Needed(b0: int): (r: (nat, int, int))
    ensures r.0 <= 3 && (r.0 > 0 ==> 0x80 <= r.1 <= r.2 < 0xC0)
  {
    if 0xC2 <= b0 <= 0xDF then (1, 0x80, 0xBF)
    else if b0 == 0xE0 then (2, 0xA0, 0xBF)
    else if b0 == 0xED then (2, 0x80, 0x9F)
    else if 0xE1 <= b0 <= 0xEF then (2, 0x80, 0xBF)
    else if b0 == 0xF0 then (3, 0x90, 0xBF)
    else if b0 == 0xF4 then (3, 0x80, 0x8F)
    else if 0xF1 <= b0 <= 0xF3 then (3, 0x80, 0xBF)
    else (0, 0, 0)
  }

  /**
   * Decodes the sequence at the head of `b`: the character and the number of bytes used.
   * A sequence that breaks off (a byte out of range, or the end of the input) becomes a single
   * U+FFFD covering the bytes read so far, its maximal subpart, as Node's `toString('utf-8')`
   * does; a byte that cannot start a sequence is one U+FFFD on its own.
   */
  function DecodeOne(b: seq<Byte>): (r: (char, nat))
    requires |b| > 0
    ensures 1 <= r.1 <= |b| && r.1 <= 4
    ensures b[0] < 0x80 ==> r == (b[0] as char, 1)
    ensures Needed(b[0]).0 == 0 ==> r.1 == 1
    ensures b[0] >= 0x80 && Needed(b[0]).0 == 0 ==> r == ('\U{FFFD}', 1)
    ensures forall k :: 1 <= k < r.1 ==> IsContinuation(b[k])
    ensures r.1 > 1 ==> Needed(b[0]).1 <= b[1] <= Needed(b[0]).2
    ensures r.1 < 1 + Needed(b[0]).0 ==>
              && r.0 == '\U{FFFD}'
              && (|| r.1 == |b|
                  || (r.1 == 1 && !(Needed(b[0]).1 <= b[1] <= Needed(b[0]).2))
                  || (r.1 > 1 && !IsContinuation(b[r.1])))
  {
    var b0: int := b[0];
    var b1: int := if |b| > 1 then b[1] else 0;
    var b2: int := if |b| > 2 then b[2] else 0;
    var b3: int := if |b| > 3 then b[3] else 0;
    var (need, lo, hi) := Needed(b0);
    if b0 < 0x80 then (b0 as char, 1)
    else if need == 0 || |b| < 2 || !(lo <= b1 <= hi) then ('\U{FFFD}', 1)
    else if need == 1 then (((b0 - 0xC0) * 64 + (b1 - 0x80)) as char, 2)
    else if |b| < 3 || !IsContinuation(b2) then ('\U{FFFD}', 2)
    else if need == 2 then
      var v := (b0 - 0xE0) * 4096 + (b1 - 0x80) * 64 + (b2 - 0x80);
      assert 0x800 <= v < 0xD800 || 0xE000 <= v < 0x10000;
      (v as char, 3)
    else if |b| < 4 || !IsContinuation(b3) then ('\U{FFFD}', 3)
    else
      var v := (b0 - 0xF0) * 262144 + (b1 - 0x80) * 4096 + (b2 - 0x80) * 64 + (b3 - 0x80);
      assert 0x10000 <= v <= 0x10FFFF;
      (v as char, 4)
  }

  /** A three-byte sequence broken off by an ASCII byte is one U+FFFD, then the ASCII character. */
  lemma TruncatedSequenceIsOneReplacement()
    ensures DecodeOne([0xE2, 0x82, 0x41]) == ('\U{FFFD}', 2)
    ensures Decode([0xE2, 0x82, 0x41]) == "\U{FFFD}A"
  {
    var b: seq<Byte> := [0xE2, 0x82, 0x41];
    assert b[2..] == [0x41];
    assert Decode(b[2..]) == ['A'] + Decode([]);
  }

  function Decode(b: seq<Byte>): string
    decreases |b|
  {
    if |b| == 0 then "" else
      var (c, n) := DecodeOne(b);
      [c] + Decode(b[n..])
  }

  lemma DecodeTwo(c: char, rest: seq<Byte>)
    requires 0x80 <= c as int < 0x800
    ensures DecodeOne(EncodeChar(c) + rest) == (c, 2)
  {
    var v := c as int;
    var hi, lo := v / 64, v % 64;
    assert v == hi * 64 + lo && 2 <= hi < 32 && 0 <= lo < 64;
    var b := EncodeChar(c) + rest;
    assert b[0] == 0xC0 + hi && b[1] == 0x80 + lo;
  }

  lemma DecodeThree(c: char, rest: seq<Byte>)
    requires 0x800 <= c as int < 0x10000
    ensures DecodeOne(EncodeChar(c) + rest) == (c, 3)
  {
    var v := c as int;
    var q1, lo := v / 64, v % 64;
    var hi, mid := q1 / 64, q1 % 64;
    assert v == q1 * 64 + lo && q1 == hi * 64 + mid;
    assert v == hi * 4096 + mid * 64 + lo && hi < 16;
    var b := EncodeChar(c) + rest;
    assert b[0] == 0xE0 + hi && b[1] == 0x80 + mid && b[2] == 0x80 + lo;
  }

  lemma DecodeFour(c: char, rest: seq<Byte>)
    requires 0x10000 <= c as int
    ensures DecodeOne(EncodeChar(c) + rest) == (c, 4)
  {
    var v := c as int;
    var q1, lo := v / 64, v % 64;
    var q2, mid := q1 / 64, q1 % 64;
    var top, hi := q2 / 64, q2 % 64;
    assert v == q1 * 64 + lo && q1 == q2 * 64 + mid && q2 == top * 64 + hi;
    assert v == top * 262144 + hi * 4096 + mid * 64 + lo && top <= 4;
    var b := EncodeChar(c) + rest;
    assert b[0] == 0xF0 + top && b[1] == 0x80 + hi && b[2] == 0x80 + mid && b[3] == 0x80 + lo;
  }

  lemma DecodeOneOfEncodeChar(c: char, rest: seq<Byte>)
    ensures DecodeOne(EncodeChar(c) + rest) == (c, |EncodeChar(c)|)
  {
    var v := c as int;
    if v < 0x80 {
    } else if v < 0x800 {
      DecodeTwo(c, rest);
    } else if v < 0x10000 {
      DecodeThree(c, rest);
    } else {
      DecodeFour(c, rest);
    }
  }

  /** Decoding what was encoded gives the string back. */
  lemma {:induction false} DecodeEncode(s: string)
    ensures Decode(Encode(s)) == s
  {
    if |s| > 0 {
      var e := EncodeChar(s[0]);
      DecodeOneOfEncodeChar(s[0], Encode(s[1..]));
      assert (e + Encode(s[1..]))[|e|..] == Encode(s[1..]);
      DecodeEncode(s[1..]);
    }
  }

  predicate IsAscii(s: string) {
    forall i :: 0 <= i < |s| ==> s[i] as int < 0x80
  }

  /** On ASCII text UTF-8 is the identity: one byte per character, equal to its code. */
  lemma {:induction false} EncodeAscii(s: string)
    requires IsAscii(s)
    ensures |Encode(s)| == |s|
    ensures forall i :: 0 <= i < |s| ==> Encode(s)[i] == s[i] as int
  {
    if |s| > 0 {
      EncodeAscii(s[1..]);
    }
  }

  /**
   * Strict decoding, as `decodeURIComponent` performs it inside jsrsasign's `b64utoutf8`:
   * malformed input is an error rather than U+FFFD. Input is well formed exactly when the
   * lenient decoding encodes back to it.
   */
  function DecodeStrict(b: seq<Byte>): (r: Option<string>)
    ensures r.Some? ==> Encode(r.value) == b && r.value == Decode(b)
  {
    var s := Decode(b);
    if Encode(s) == b then Some(s) else None
  }

  lemma DecodeStrictEncode(s: string)
    ensures DecodeStrict(Encode(s)) == Some(s)
  {
    DecodeEncode(s);
  }
}
