/**
 * The cryptographic primitives the system relies on, as uninterpreted values: SHA-256
 * (FIPS 180-4) and RSASSA-PKCS1-v1_5 with SHA-256, the RS256 of section 3.3 of RFC 7518.
 * A `Suite` bundles them; `Sound` is the one fact assumed about them, and every lemma that
 * needs it takes it as a precondition.
 */
module Crypto {
  import opened Utf8
  import opened Text

  datatype Suite = Suite(
    /** SHA-256 of a byte string: 32 bytes. */
    sha256: seq<Byte> -> seq<Byte>,
    /** RS256 signature of a message under a private key given as PEM text. */
    rsaSign: (string, seq<Byte>) -> seq<Byte>,
    /** RS256 check of a signature against a public key given as PEM text. */
    rsaVerify: (string, seq<Byte>, seq<Byte>) -> bool,
    /** The PEM public key belonging to a PEM private key. */
    publicKeyOf: string -> string)

  /**
   * A signature made with a private key verifies under the matching public key, and public keys
   * are PEM text (they contain "-----BEGIN ").
   */
  ghost predicate Sound(s: Suite) {
    (forall key, msg :: s.rsaVerify(s.publicKeyOf(key), msg, s.rsaSign(key, msg)))
    && (forall key :: Contains(s.publicKeyOf(key), PemMarker))
  }

  const PemMarker: string := "-----BEGIN "

  predicate IsHexDigit(c: char) {
    '0' <= c <= '9' || 'a' <= c <= 'f'
  }

  function HexDigit(v: int): (c: char)
    requires 0 <= v < 16
    ensures IsHexDigit(c)
  {
    if v < 10 then ('0' as int + v) as char else ('a' as int + (v - 10)) as char
  }

  /** Lower-case hexadecimal, two digits per byte, as `digest('hex')` and jsrsasign write it. */
  function Hex(b: seq<Byte>): (h: string)
    ensures |h| == 2 * |b|
    ensures forall i :: 0 <= i < |h| ==> IsHexDigit(h[i])
  {
    if |b| == 0 then "" else [HexDigit(b[0] / 16), HexDigit(b[0] % 16)] + Hex(b[1..])
  }

  /** The hex SHA-256 of a string's UTF-8 bytes. */
  function Sha256Hex(s: Suite, text: string): (h: string)
    ensures forall i :: 0 <= i < |h| ==> IsHexDigit(h[i])
  {
    Hex(s.sha256(Utf8.Encode(text)))
  }

  lemma HexDigestIsAscii(s: Suite, text: string)
    ensures IsAscii(Sha256Hex(s, text))
  {
  }
}
