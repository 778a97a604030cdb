/**
 * Base64 (section 4 of RFC 4648, padded, as Node's `toString('base64')` writes it) and
 * base64url (section 5, unpadded, as jsrsasign writes JWS segments).
 * Decoding follows Node's forgiving `Buffer.from(s, 'base64')`: both alphabets are accepted,
 * characters outside them are skipped, and the first '=' ends the input.
 */
module Base64 {
  import opened Wrappers
  import opened Utf8
  import opened Text

  type Sextet = x: int | 0 <= x < 64

  /**
   * The character for a sextet: A-Z, a-z, 0-9, then '+' '/' in the standard alphabet
   * and '-' '_' in the URL-safe one.
   */
  function Letter(v: Sextet, url: bool): (c: char)
    ensures IsWordChar(c) || c in "+/-"
  {
    if v < 26 then ('A' as int + v) as char
    else if v < 52 then ('a' as int + (v - 26)) as char
    else if v < 62 then ('0' as int + (v - 52)) as char
    else if v == 62 then (if url then '-' else '+')
    else (if url then '_' else '/')
  }

  /** The value of one base64 character, in either alphabet. */
  function CharValue(c: char): (r: Option<Sextet>)
    ensures r.Some? ==> Letter(r.value, false) == c || Letter(r.value, true) == c
  {
    if 'A' <= c <= 'Z' then Some(c as int - 'A' as int)
    else if 'a' <= c <= 'z' then Some(c as int - 'a' as int + 26)
    else if '0' <= c <= '9' then Some(c as int - '0' as int + 52)
    else if c == '+' || c == '-' then Some(62)
    else if c == '/' || c == '_' then Some(63)
    else None
  }

  lemma LetterValue(v: Sextet, url: bool)
    ensures CharValue(Letter(v, url)) == Some(v)
  {
  }

  /** Splits bytes into 6-bit groups: four per three bytes, two or three for a last partial group. */
  function ToSextets(b: seq<Byte>): seq<Sextet>
  {
    if |b| == 0 then []
    else if |b| == 1 then [b[0] / 4, (b[0] % 4) * 16]
    else if |b| == 2 then [b[0] / 4, (b[0] % 4) * 16 + b[1] / 16, (b[1] % 16) * 4]
    else [b[0] / 4, (b[0] % 4) * 16 + b[1] / 16, (b[1] % 16) * 4 + b[2] / 64, b[2] % 64]
         + ToSextets(b[3..])
  }

  /** Joins 6-bit groups back into bytes; a last group of one sextet carries no whole byte. */
  function FromSextets(v: seq<Sextet>): seq<Byte>
  {
    if |v| < 2 then []
    else if |v| == 2 then [v[0] as int * 4 + v[1] / 16]
    else if |v| == 3 then [v[0] as int * 4 + v[1] / 16, (v[1] as int % 16) * 16 + v[2] / 4]
    else [v[0] as int * 4 + v[1] / 16, (v[1] as int % 16) * 16 + v[2] / 4, (v[2] as int % 4) * 64 + v[3]]
         + FromSextets(v[4..])
  }

  lemma {:induction false} FromToSextets(b: seq<Byte>)
    ensures FromSextets(ToSextets(b)) == b
  {
    if |b| >= 3 {
      var rest := ToSextets(b[3..]);
      assert ToSextets(b)[4..] == rest;
      FromToSextets(b[3..]);
      assert b == b[..3] + b[3..];
    }
  }

  function Chars(v: seq<Sextet>, url: bool): (s: string)
    ensures |s| == |v|
    ensures forall i :: 0 <= i < |s| ==> s[i] == Letter(v[i], url)
  {
    if |v| == 0 then "" else [Letter(v[0], url)] + Chars(v[1..], url)
  }

  function Padding(n: nat): string {
    if n % 3 == 1 then "==" else if n % 3 == 2 then "=" else ""
  }

  /** `Buffer.from(b).toString('base64')`. */
  function Encode(b: seq<Byte>): string {
    Chars(ToSextets(b), false) + Padding(|b|)
  }

  /** Base64url without padding, as jsrsasign's `hextob64u`/`utf8tob64u` produce. */
  function EncodeUrl(b: seq<Byte>): (s: string)
    ensures forall i :: 0 <= i < |s| ==> IsWordChar(s[i]) || s[i] == '-'
  {
    Chars(ToSextets(b), true)
  }

  /** The sextets a forgiving decoder reads: alphabet characters up to the first '='. */
  function Sextets(s: string): seq<Sextet>
  {
    if |s| == 0 || s[0] == '=' then []
    else match CharValue(s[0])
      case Some(v) => [v] + Sextets(s[1..])
      case None => Sextets(s[1..])
  }

  function Decode(s: string): seq<Byte> {
    FromSextets(Sextets(s))
  }

  lemma {:induction false} SextetsOfChars(v: seq<Sextet>, url: bool, pad: string)
    requires pad == "" || pad[0] == '='
    ensures Sextets(Chars(v, url) + pad) == v
  {
    if |v| == 0 {
      assert Chars(v, url) + pad == pad;
    } else {
      var s := Chars(v, url) + pad;
      LetterValue(v[0], url);
      assert s[1..] == Chars(v[1..], url) + pad;
      SextetsOfChars(v[1..], url, pad);
    }
  }

  /** Round trip of the padded encoding. */
  lemma DecodeEncode(b: seq<Byte>)
    ensures Decode(Encode(b)) == b
  {
    SextetsOfChars(ToSextets(b), false, Padding(|b|));
    FromToSextets(b);
  }

  /** Round trip of the base64url encoding. */
  lemma DecodeEncodeUrl(b: seq<Byte>)
    ensures Decode(EncodeUrl(b)) == b
  {
    SextetsOfChars(ToSextets(b), true, "");
    assert EncodeUrl(b) + "" == EncodeUrl(b);
    FromToSextets(b);
  }

  lemma NoDotInEncodeUrl(b: seq<Byte>)
    ensures '.' !in EncodeUrl(b)
  {
  }
}
