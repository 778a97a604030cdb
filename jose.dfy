/**
 * JSON Web Signatures in the compact serialization of section 7.1 of RFC 7515, as jsrsasign's
 * `KJUR.jws.JWS.sign`, `verify` and `parse` produce and read them:
 * BASE64URL(UTF8(header)) '.' BASE64URL(UTF8(payload)) '.' BASE64URL(signature).
 * Only the header form `{"alg":"<name>"}` and the RS256 algorithm are modelled.
 */
module Jose {
  import opened Wrappers
  import opened Text
  import opened Utf8
  import Base64
  import opened Crypto

  /** `utf8tob64u`: one segment of the compact form. */
  function Segment(text: string): (seg: string)
    ensures '.' !in seg
  {
    Base64.NoDotInEncodeUrl(Utf8.Encode(text));
    Base64.EncodeUrl(Utf8.Encode(text))
  }

  /** `b64utoutf8`, which throws on bytes that are not UTF-8. */
  function SegmentText(seg: string): Option<string> {
    Utf8.DecodeStrict(Base64.Decode(seg))
  }

  lemma SegmentTextOfSegment(text: string)
    ensures SegmentText(Segment(text)) == Some(text)
  {
    Base64.DecodeEncodeUrl(Utf8.Encode(text));
    Utf8.DecodeStrictEncode(text);
  }

  /** The header `JSON.stringify({alg})` gives for an algorithm name. */
  function AlgHeader(alg: string): string {
    "{\"alg\":\"" + alg + "\"}"
  }

  predicate PlainName(alg: string) {
    '"' !in alg && '\\' !in alg
  }

  /** The `alg` member of a header, for the one header form modelled. */
  function HeaderAlg(header: string): (r: Result<string>)
    ensures r.Ok? ==> PlainName(r.value) && header == AlgHeader(r.value)
  {
    var pre := "{\"alg\":\"";
    if |header| >= |pre| + 2 && StartsWith(header, pre) && EndsWith(header, "\"}")
       && PlainName(header[|pre|..|header| - 2])
    then
      var alg := header[|pre|..|header| - 2];
      assert header == pre + alg + "\"}";
      Ok(alg)
    else Err("JWS header not of the form {\"alg\":\"...\"}")
  }

  lemma HeaderAlgOfAlgHeader(alg: string)
    requires PlainName(alg)
    ensures HeaderAlg(AlgHeader(alg)) == Ok(alg)
  {
    var h := AlgHeader(alg);
    assert h[..8] == "{\"alg\":\"";
    assert h[8..|h| - 2] == alg;
  }

  function SigningInput(header: string, payload: string): string {
    Segment(header) + "." + Segment(payload)
  }

  /**
   * `JWS.sign(alg, header, payload, key)`: the header's `alg` must name the requested algorithm.
   */
  function Sign(s: Suite, alg: string, header: string, payload: string, key: string): (r: Result<string>)
    ensures r.Ok? ==> HeaderAlg(header) == Ok(alg) && alg == "RS256"
  {
    match HeaderAlg(header)
    case Err(e) => Err(e)
    case Ok(a) =>
      if a != alg then Err("alg and sHeader.alg doesn't match: " + alg + "!=" + a)
      else if alg != "RS256" then Err("algorithm " + alg + " is not modelled")
      else
        var input := SigningInput(header, payload);
        Ok(input + "." + Base64.EncodeUrl(s.rsaSign(key, Utf8.Encode(input))))
  }

  /** Whether `acceptAlgs` lets `alg` through: jsrsasign looks for ":alg:" in ":a1:a2:...:". */
  predicate Accepted(alg: string, acceptAlgs: seq<string>) {
    Contains(":" + Join(acceptAlgs, ":") + ":", ":" + alg + ":")
  }

  /**
   * `JWS.verify(jws, key, acceptAlgs)`: false unless there are exactly three segments; a broken
   * header, an algorithm outside `acceptAlgs` or a key that is not PEM text throws; otherwise
   * the signature over "header.payload" is checked with the public key.
   */
  function Verify(s: Suite, jws: string, key: string, acceptAlgs: seq<string>): (r: Result<bool>)
    ensures |Split(jws, '.')| != 3 ==> r == Ok(false)
  {
    var parts := Split(jws, '.');
    if |parts| != 3 then Ok(false)
    else match SegmentText(parts[0])
      case None => Err("malformed UTF-8 in JWS header")
      case Some(header) =>
        match HeaderAlg(header)
        case Err(e) => Err(e)
        case Ok(alg) =>
          if |acceptAlgs| > 0 && !Accepted(alg, acceptAlgs) then
            Err("algorithm '" + alg + "' not accepted in the list")
          else if alg != "RS256" then Err("algorithm " + alg + " is not modelled")
          else if !Contains(key, PemMarker) then Err("key shall be a RSAKey obj for RS and PS sigs")
          else Ok(s.rsaVerify(key, Utf8.Encode(parts[0] + "." + parts[1]), Base64.Decode(parts[2])))
  }

  /**
   * What `JWS.parse(jws).payloadPP` is: the payload text, unless that text is a JSON object,
   * which jsrsasign pretty-prints instead (`Pretty`, whose text is not modelled).
   */
  datatype PayloadView = Raw(text: string) | Pretty

  /** Text whose first character past JSON white space is '{': the only kind that can be an object. */
  predicate ObjectLike(text: string) {
    var t := SkipJsonSpace(text);
    |t| > 0 && t[0] == '{'
  }

  function SkipJsonSpace(text: string): (t: string)
    ensures |t| <= |text| && t == text[|text| - |t|..]
  {
    if |text| > 0 && text[0] in " \t\n\r" then SkipJsonSpace(text[1..]) else text
  }

  /** `JWS.parse(jws).payloadPP`: throws unless there are two or three segments. */
  function PayloadPP(jws: string): (r: Result<PayloadView>)
    ensures r.Ok? ==> 2 <= |Split(jws, '.')| <= 3
  {
    var parts := Split(jws, '.');
    if |parts| != 2 && |parts| != 3 then Err("malformed sJWS: wrong number of '.' splitted elements")
    else if SegmentText(parts[0]).None? then Err("malformed UTF-8 in JWS header")
    else match SegmentText(parts[1])
      case None => Err("malformed UTF-8 in JWS payload")
      case Some(text) => Ok(if ObjectLike(text) then Pretty else Raw(text))
  }

  /** The three segments of a compact JWS are the header, payload and signature segments. */
  lemma SplitCompact(header: string, payload: string, sig: seq<Byte>)
    ensures Split(SigningInput(header, payload) + "." + Base64.EncodeUrl(sig), '.')
         == [Segment(header), Segment(payload), Base64.EncodeUrl(sig)]
  {
    var parts := [Segment(header), Segment(payload), Base64.EncodeUrl(sig)];
    Base64.NoDotInEncodeUrl(sig);
    assert parts[1..][1..] == [Base64.EncodeUrl(sig)];
    assert Join(parts[1..], ".") == Segment(payload) + "." + Base64.EncodeUrl(sig);
    assert Join(parts, ".") == SigningInput(header, payload) + "." + Base64.EncodeUrl(sig);
    SplitUnique(parts, '.');
  }

  /** RS256 round trip: what `Sign` issues with a private key, `Verify` accepts with its public key. */
  lemma VerifySigned(s: Suite, header: string, payload: string, key: string, acceptAlgs: seq<string>)
    requires Sound(s)
    requires Sign(s, "RS256", header, payload, key).Ok?
    requires |acceptAlgs| == 0 || Accepted("RS256", acceptAlgs)
    ensures Verify(s, Sign(s, "RS256", header, payload, key).value, s.publicKeyOf(key), acceptAlgs) == Ok(true)
  {
    var input := SigningInput(header, payload);
    var sig := s.rsaSign(key, Utf8.Encode(input));
    SplitCompact(header, payload, sig);
    SegmentTextOfSegment(header);
    Base64.DecodeEncodeUrl(sig);
    assert Contains(s.publicKeyOf(key), PemMarker);
  }

  /** `payloadPP` of an issued token is its payload text, when that text is not object-like. */
  lemma PayloadOfSigned(s: Suite, alg: string, header: string, payload: string, key: string)
    requires Sign(s, alg, header, payload, key).Ok?
    requires !ObjectLike(payload)
    ensures PayloadPP(Sign(s, alg, header, payload, key).value) == Ok(Raw(payload))
  {
    var input := SigningInput(header, payload);
    SplitCompact(header, payload, s.rsaSign(key, Utf8.Encode(input)));
    SegmentTextOfSegment(header);
    SegmentTextOfSegment(payload);
  }

  /** With a one-name list, jsrsasign's substring test accepts exactly that name. */
  lemma {:induction false} AcceptedSingle(alg: string, name: string)
    requires ':' !in name
    ensures Accepted(alg, [name]) <==> alg == name
  {
    var list := ":" + name + ":";
    var t := ":" + alg + ":";
    assert Join([name], ":") == name;
    if Accepted(alg, [name]) {
      var i :| OccursAt(list, t, i);
      assert list[i] == ':' && list[i + |t| - 1] == ':';
      assert i == 0;
      assert alg == list[1..|list| - 1];
    }
    if alg == name {
      assert list == t;
      assert OccursAt(list, t, 0);
    }
  }
}
