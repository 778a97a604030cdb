/**
 * The client-side integrity checker of `src/react-native/jws.ts`: a chunk's code is trusted when
 * its JWS token verifies under the configured public key and the token's payload is the hex
 * SHA-256 of the code.
 */
module Integrity {
  import opened Wrappers
  import opened Text
  import opened Crypto
  import Jose

  /**
   * `createIntegrityChecker(hashAlgorithm, jwsAlgorithm, publicKey)`; the closures it returns
   * are the member functions, and `suite` carries the primitives jsrsasign provides.
   */
  datatype Checker = Checker(suite: Suite, hashAlgorithm: string, jwsAlgorithm: string, publicKey: string)
  {
    /** `generateHash`: a `MessageDigest` for the configured algorithm over the UTF-8 of `data`. */
    function GenerateHash(data: string): (r: Result<string>)
      ensures r.Ok? <==> hashAlgorithm == "sha256"
      ensures r.Ok? ==> r.value == Sha256Hex(suite, data)
    {
      if hashAlgorithm == "sha256" then Ok(Sha256Hex(suite, data))
      else Err("message digest algorithm " + hashAlgorithm + " is not modelled")
    }

    /** `createJWSVerifier(...).verify`: the configured algorithm is the only accepted one. */
    function VerifyJws(jws: string): Result<bool> {
      Jose.Verify(suite, jws, publicKey, [jwsAlgorithm])
    }

    /** `createJWSVerifier(...).decode(jws).payloadPP`. */
    function DecodePayload(jws: string): Result<Jose.PayloadView> {
      Jose.PayloadPP(jws)
    }

    /**
     * `verify(data, jws)`. A token whose payload jsrsasign pretty-prints as a JSON object never
     * matches, since the printed text starts with '{' and a hex digest does not.
     */
    function Verify(data: string, jws: string): (r: Result<bool>)
      ensures VerifyJws(jws) == Ok(false) ==> r == Ok(false)
      ensures VerifyJws(jws).Err? ==> r == Err(VerifyJws(jws).error)
      ensures r == Ok(true) ==>
        VerifyJws(jws) == Ok(true) && DecodePayload(jws) == Ok(Jose.Raw(Sha256Hex(suite, data)))
      ensures (hashAlgorithm == "sha256" && VerifyJws(jws) == Ok(true)
               && DecodePayload(jws) == Ok(Jose.Raw(Sha256Hex(suite, data)))) ==> r == Ok(true)
      ensures (hashAlgorithm == "sha256" && VerifyJws(jws) == Ok(true) && DecodePayload(jws).Ok?
               && DecodePayload(jws) != Ok(Jose.Raw(Sha256Hex(suite, data)))) ==> r == Ok(false)
    {
      match VerifyJws(jws)
      case Err(e) => Err(e)
      case Ok(valid) =>
        if !valid then Ok(false)
        else match DecodePayload(jws)
          case Err(e) => Err(e)
          case Ok(expected) =>
            match GenerateHash(data)
            case Err(e) => Err(e)
            case Ok(actual) => Ok(expected == Jose.Raw(actual))
    }
  }

  /** The expected digest is fixed by the token: a token that vouches for `data` vouches for nothing whose digest differs. */
  lemma TamperedDataRejected(c: Checker, data: string, tampered: string, jws: string)
    requires c.Verify(data, jws) == Ok(true)
    requires Sha256Hex(c.suite, tampered) != Sha256Hex(c.suite, data)
    ensures c.Verify(tampered, jws) == Ok(false)
  {
  }

  /** A token that verifies names the configured algorithm in its header. */
  lemma {:induction false} OnlyConfiguredAlgorithm(c: Checker, data: string, jws: string)
    requires ':' !in c.jwsAlgorithm
    requires c.Verify(data, jws) == Ok(true)
    ensures Jose.SegmentText(Split(jws, '.')[0]).Some?
    ensures Jose.HeaderAlg(Jose.SegmentText(Split(jws, '.')[0]).value) == Ok(c.jwsAlgorithm)
  {
    var header := Jose.SegmentText(Split(jws, '.')[0]).value;
    Jose.AcceptedSingle(Jose.HeaderAlg(header).value, c.jwsAlgorithm);
  }

  /** A token signed under `key` passes the signature check of a checker holding its public key. */
  lemma SignedTokenVerifies(s: Suite, key: string, digest: string)
    requires Sound(s)
    ensures Jose.Sign(s, "RS256", Jose.AlgHeader("RS256"), digest, key).Ok?
    ensures Checker(s, "sha256", "RS256", s.publicKeyOf(key))
              .VerifyJws(Jose.Sign(s, "RS256", Jose.AlgHeader("RS256"), digest, key).value) == Ok(true)
  {
    Jose.HeaderAlgOfAlgHeader("RS256");
    Jose.AcceptedSingle("RS256", "RS256");
    Jose.VerifySigned(s, Jose.AlgHeader("RS256"), digest, key, ["RS256"]);
  }

  /** A hex digest starts with a hex digit, never with JSON white space or '{'. */
  lemma HexDigestNotObjectLike(s: Suite, data: string)
    ensures !Jose.ObjectLike(Sha256Hex(s, data))
  {
    var digest := Sha256Hex(s, data);
    if |digest| > 0 {
      assert IsHexDigit(digest[0]);
      assert Jose.SkipJsonSpace(digest) == digest;
    }
  }

  /** The payload of a token signed over a hex digest decodes to that digest. */
  lemma SignedTokenPayload(s: Suite, key: string, data: string)
    requires Jose.Sign(s, "RS256", Jose.AlgHeader("RS256"), Sha256Hex(s, data), key).Ok?
    ensures Jose.PayloadPP(Jose.Sign(s, "RS256", Jose.AlgHeader("RS256"), Sha256Hex(s, data), key).value)
         == Ok(Jose.Raw(Sha256Hex(s, data)))
  {
    HexDigestNotObjectLike(s, data);
    Jose.PayloadOfSigned(s, "RS256", Jose.AlgHeader("RS256"), Sha256Hex(s, data), key);
  }

  /**
   * Acceptance: a token signed with RS256 over the hex SHA-256 of `data`, under the private key
   * whose public key the checker holds, makes `verify` true.
   */
  lemma SignedDigestAccepted(s: Suite, key: string, data: string)
    requires Sound(s)
    ensures Jose.Sign(s, "RS256", Jose.AlgHeader("RS256"), Sha256Hex(s, data), key).Ok?
    ensures Checker(s, "sha256", "RS256", s.publicKeyOf(key))
              .Verify(data, Jose.Sign(s, "RS256", Jose.AlgHeader("RS256"), Sha256Hex(s, data), key).value)
            == Ok(true)
  {
    SignedTokenVerifies(s, key, Sha256Hex(s, data));
    SignedTokenPayload(s, key, data);
  }
}
