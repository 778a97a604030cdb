/**
 * The cookie session of `apps/www/app/session.server.ts`: it stores the logged-in project id
 * under one key, guards pages that need it, and creates or destroys the session cookie.
 */
module Session {
  import opened Wrappers
  import opened Utf8
  import opened Json

  const ProjectSessionKey: string := "projectId"
  const DefaultMaxAge: nat := 60 * 60 * 24 * 7
  const SessionFailed: string := "Could not create a project session."
  const LoginPath: string := "/auth/login?"

  /** What a route hands back to the framework. */
  datatype Response =
    | Redirect(location: string, setCookie: Option<string>)
    | JsonReply(body: Json)

  /** A guard either lets the request through with the project id or throws a response. */
  datatype Guarded = Allowed(projectId: string) | Thrown(response: Response)

  /** `getProjectId`: the value stored under the session key, if any. */
  function ProjectIdOf(data: map<string, string>): (r: Option<string>)
    ensures r.Some? <==> ProjectSessionKey in data
    ensures r.Some? ==> r.value == data[ProjectSessionKey]
  {
    if ProjectSessionKey in data then Some(data[ProjectSessionKey]) else None
  }

  // The application/x-www-form-urlencoded serializer of the WHATWG URL Standard, which
  // `URLSearchParams.toString` applies to each name and value.

  /** A byte the serializer copies unchanged: `*`, `-`, `.`, `_`, digits and ASCII letters. */
  predicate Unreserved(b: Byte) {
    b == 0x2A || b == 0x2D || b == 0x2E || b == 0x5F || 0x30 <= b <= 0x39
    || 0x41 <= b <= 0x5A || 0x61 <= b <= 0x7A
  }

  function UpperHex(v: int): (c: char)
    requires 0 <= v < 16
    ensures '0' <= c <= '9' || 'A' <= c <= 'F'
  {
    if v < 10 then ('0' as int + v) as char else ('A' as int + v - 10) as char
  }

  function HexValue(c: char): (r: Option<int>)
    ensures r.Some? ==> 0 <= r.value < 16
  {
    if '0' <= c <= '9' then Some(c as int - '0' as int)
    else if 'A' <= c <= 'F' then Some(c as int - 'A' as int + 10)
    else if 'a' <= c <= 'f' then Some(c as int - 'a' as int + 10)
    else None
  }

  function EncodeByte(b: Byte): (r: string)
    ensures |r| == 1 || |r| == 3
  {
    if Unreserved(b) then [b as char]
    else if b == 0x20 then "+"
    else ['%', UpperHex(b / 16), UpperHex(b % 16)]
  }

  function EncodeBytes(bs: seq<Byte>): (r: string)
    ensures forall k :: 0 <= k < |r| ==> r[k] as int < 0x80 && r[k] != '&' && r[k] != '=' && r[k] != '#'
  {
    if |bs| == 0 then "" else EncodeByte(bs[0]) + EncodeBytes(bs[1..])
  }

  /** The serialization of `s`: the UTF-8 bytes of `s`, each written as above. */
  function FormEncode(s: string): string {
    EncodeBytes(Encode(s))
  }

  /**
   * The byte-level half of the form-urlencoded parser: `+` is a space, `%XX` a byte, and any
   * other character its UTF-8 bytes (the parser percent-decodes the UTF-8 of its input).
   */
  function DecodeBytes(t: string): seq<Byte>
    decreases |t|
  {
    if |t| == 0 then []
    else if t[0] == '+' then [0x20] + DecodeBytes(t[1..])
    else if t[0] == '%' && |t| >= 3 && HexValue(t[1]).Some? && HexValue(t[2]).Some? then
      [HexValue(t[1]).value * 16 + HexValue(t[2]).value] + DecodeBytes(t[3..])
    else EncodeChar(t[0]) + DecodeBytes(t[1..])
  }

  /** The form-urlencoded parser on one value. */
  function FormDecode(t: string): string {
    Decode(DecodeBytes(t))
  }
  /** Without `+` or `%`, the byte-level parser gives the UTF-8 of the text. */
  lemma {:induction false} DecodeBytesPlain(t: string)
    requires forall k :: 0 <= k < |t| ==> t[k] != '+' && t[k] != '%'
    ensures DecodeBytes(t) == Encode(t)
  {
    if |t| > 0 {
      DecodeBytesPlain(t[1..]);
    }
  }

  /** Text with no `+` and no `%`, non-ASCII characters included, parses back as itself. */
  lemma PlainTextDecodesToItself(t: string)
    requires forall k :: 0 <= k < |t| ==> t[k] != '+' && t[k] != '%'
    ensures FormDecode(t) == t
  {
    DecodeBytesPlain(t);
    DecodeEncode(t);
  }


  /** Parsing one serialized byte followed by anything yields the byte, then the parse of the rest. */
  lemma DecodeOneEncoded(b: Byte, rest: string)
    ensures DecodeBytes(EncodeByte(b) + rest) == [b] + DecodeBytes(rest)
  {
    var t := EncodeByte(b) + rest;
    if Unreserved(b) || b == 0x20 {
      assert t[1..] == rest;
    } else {
      assert t[0] == '%' && t[1] == UpperHex(b / 16) && t[2] == UpperHex(b % 16);
      assert HexValue(t[1]) == Some(b / 16);
      assert HexValue(t[2]) == Some(b % 16);
      assert t[3..] == rest;
    }
  }

  lemma {:induction false} DecodeEncodeBytes(bs: seq<Byte>)
    ensures DecodeBytes(EncodeBytes(bs)) == bs
  {
    if |bs| > 0 {
      assert EncodeBytes(bs) == EncodeByte(bs[0]) + EncodeBytes(bs[1..]);
      DecodeOneEncoded(bs[0], EncodeBytes(bs[1..]));
      DecodeEncodeBytes(bs[1..]);
      assert bs == [bs[0]] + bs[1..];
    }
  }

  /** Serializing a value and parsing it back gives the value. */
  lemma FormRoundTrip(s: string)
    ensures FormDecode(FormEncode(s)) == s
  {
    DecodeEncodeBytes(Encode(s));
    DecodeEncode(s);
  }

  /** The login URL `requireProjectId` redirects to, remembering where to come back to. */
  function LoginRedirect(redirectTo: string): string {
    LoginPath + "redirectTo=" + FormEncode(redirectTo)
  }

  /**
   * `requireProjectId`: the stored id when it is a non-empty string; otherwise the thrown
   * redirect to the login page, whose `redirectTo` defaults to the request's pathname.
   */
  function RequireProjectId(data: map<string, string>, pathname: string,
                            redirectTo: Option<string>): (r: Guarded)
    ensures r.Allowed? <==> ProjectIdOf(data).Some? && ProjectIdOf(data).value != ""
    ensures r.Allowed? ==> r.projectId == data[ProjectSessionKey]
    ensures r.Thrown? ==> r.response == Redirect(LoginRedirect(redirectTo.GetOr(pathname)), None)
  {
    var id := ProjectIdOf(data);
    if id.Some? && id.value != "" then Allowed(id.value)
    else Thrown(Redirect(LoginRedirect(redirectTo.GetOr(pathname)), None))
  }

  /** The redirect target a login hands back: its `redirectTo` parsed out of the login URL. */
  lemma LoginRedirectRemembersTarget(target: string)
    ensures var location := LoginRedirect(target);
            FormDecode(location[|LoginPath| + 11..]) == target
  {
    var location := LoginRedirect(target);
    assert location[|LoginPath| + 11..] == FormEncode(target);
    FormRoundTrip(target);
  }

  /** `maxAge` of the cookie: seven days when the user asked to be remembered, else a session cookie. */
  function MaxAge(remember: bool): (r: Option<nat>)
    ensures r.Some? <==> remember
    ensures r.Some? ==> r.value == 604800
  {
    if remember then Some(DefaultMaxAge) else None
  }

  /** The session object `getSession` hands back: its data, changed in place by `set`. */
  class CookieSession {
    var data: map<string, string>

    constructor (data: map<string, string>)
      ensures this.data == data
    {
      this.data := data;
    }

    method Set(key: string, value: string)
      modifies this
      ensures data == old(data)[key := value]
    {
      data := data[key := value];
    }
  }

  /**
   * `createProjectIdSession`: stores the project id in the session, then answers with a redirect
   * carrying the committed cookie; a failed commit is rethrown with one fixed message.
   * `commit` stands for `sessionStorage.commitSession`, which signs and serialises the data.
   */
  method CreateProjectIdSession(session: CookieSession, projectId: string, remember: bool,
                                redirectTo: string,
                                commit: (map<string, string>, Option<nat>) -> Result<string>)
    returns (r: Result<Response>)
    modifies session
    ensures session.data == old(session.data)[ProjectSessionKey := projectId]
    ensures ProjectIdOf(session.data) == Some(projectId)
    ensures r == match commit(session.data, MaxAge(remember))
      case Err(_) => Err(SessionFailed)
      case Ok(cookie) => Ok(Redirect(redirectTo, Some(cookie)))
  {
    session.Set(ProjectSessionKey, projectId);
    var maxAge := MaxAge(remember);
    var cookie := commit(session.data, maxAge);
    if cookie.Err? {
      return Err(SessionFailed);
    }
    r := Ok(Redirect(redirectTo, Some(cookie.value)));
  }

  /**
   * `logout`: a redirect home carrying the cookie `destroySession` produces, whatever the
   * session held.
   */
  function Logout(data: map<string, string>, destroy: map<string, string> -> string): (r: Response)
    ensures r.Redirect? && r.location == "/" && r.setCookie == Some(destroy(data))
  {
    Redirect("/", Some(destroy(data)))
  }
}
