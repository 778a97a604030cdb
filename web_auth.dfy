/**
 * `requireAuth` of `apps/www/app/utils/auth.ts`: HTTP Basic authentication of the web app
 * against one fixed user.
 */
module WebAuth {
  import opened Wrappers
  import opened Text
  import Utf8
  import Base64
  import InitCli

  datatype AuthResult = Unauthorized | Authorized(username: string)

  /** `buffer.toString('ascii')`: each byte with its high bit cleared, read as a character. */
  function AsciiDecode(b: seq<Utf8.Byte>): (s: string)
    ensures |s| == |b|
    ensures forall i :: 0 <= i < |b| ==> s[i] as int == b[i] % 128
  {
    if |b| == 0 then "" else [(b[0] % 128) as char] + AsciiDecode(b[1..])
  }

  /**
   * The credential string: the second space-separated token of the header, base64-decoded
   * (section 4 of RFC 4648, leniently as Node does) and read as ASCII.
   */
  function Credentials(header: string): (c: string)
    requires StartsWith(header, "Basic ")
  {
    var parts := Split(header, ' ');
    assert header[5] == ' ';
    SplitHasSecondPart(header, ' ');
    AsciiDecode(Base64.Decode(parts[1]))
  }

  /** `[username, password] = credentials.split(':')`: a missing password is `undefined`. */
  function UserAndPassword(credentials: string): (r: (string, Option<string>))
    ensures ':' !in r.0
    ensures r.1.Some? ==> ':' !in r.1.value
    ensures r.1.None? <==> ':' !in credentials
  {
    var parts := Split(credentials, ':');
    SplitHasSecondPart(credentials, ':');
    (parts[0], if |parts| >= 2 then Some(parts[1]) else None)
  }

  /** `requireAuth`: anything but "admin" with "password" is refused with 401. */
  function RequireAuth(header: Option<string>): (r: AuthResult)
    ensures header.None? || !StartsWith(header.value, "Basic ") ==> r == Unauthorized
    ensures r.Authorized? <==> header.Some? && StartsWith(header.value, "Basic ")
                               && UserAndPassword(Credentials(header.value)) == ("admin", Some("password"))
    ensures r.Authorized? ==> r.username == "admin"
  {
    if header.None? || !StartsWith(header.value, "Basic ") then Unauthorized
    else
      var (username, password) := UserAndPassword(Credentials(header.value));
      if username != "admin" || password != Some("password") then Unauthorized
      else Authorized(username)
  }

  /** The user is the text before the first ':', the password the text up to the next one. */
  lemma {:induction false} UserAndPasswordFields(credentials: string, i: nat)
    requires i < |credentials| && credentials[i] == ':' && ':' !in credentials[..i]
    ensures UserAndPassword(credentials).0 == credentials[..i]
    ensures UserAndPassword(credentials).1.Some?
    ensures var rest := credentials[i + 1..];
            UserAndPassword(credentials).1.value == Split(rest, ':')[0]
  {
    var parts := Split(credentials, ':');
    JoinTailOfSplit(credentials, ':', i);
    var rest := credentials[i + 1..];
    SplitHasSecondPart(credentials, ':');
    SplitUnique(parts[1..], ':');
  }

  /** No space appears in standard base64 text. */
  lemma NoSpaceInBase64(b: seq<Utf8.Byte>)
    ensures ' ' !in Base64.Encode(b)
  {
    var chars := Base64.Chars(Base64.ToSextets(b), false);
    forall i | 0 <= i < |chars| ensures chars[i] != ' ' {
      assert chars[i] == Base64.Letter(Base64.ToSextets(b)[i], false);
    }
    assert ' ' !in Base64.Padding(|b|);
  }

  /** Reading ASCII back from the UTF-8 bytes of ASCII text gives the text. */
  lemma AsciiOfUtf8(s: string)
    requires Utf8.IsAscii(s)
    ensures AsciiDecode(Utf8.Encode(s)) == s
  {
    Utf8.EncodeAscii(s);
  }

  /**
   * The header the CLI's `init` builds (section 2 of RFC 7617) from an ASCII user and password
   * without ':' decodes back to that user and password.
   */
  lemma {:induction false} BasicHeaderRoundTrip(user: string, password: string)
    requires Utf8.IsAscii(user) && Utf8.IsAscii(password)
    requires ':' !in user && ':' !in password
    ensures var h := InitCli.BasicHeader(user, password);
            StartsWith(h, "Basic ") && UserAndPassword(Credentials(h)) == (user, Some(password))
  {
    var text := user + ":" + password;
    var b64 := Base64.Encode(Utf8.Encode(text));
    var h := InitCli.BasicHeader(user, password);
    assert h == Join(["Basic", b64], [' ']);
    NoSpaceInBase64(Utf8.Encode(text));
    SplitUnique(["Basic", b64], ' ');
    assert h[..6] == "Basic ";
    Base64.DecodeEncode(Utf8.Encode(text));
    assert Utf8.IsAscii(text) by {
      forall i | 0 <= i < |text| ensures text[i] as int < 0x80 {
        if i < |user| { assert text[i] == user[i]; }
        else if i > |user| { assert text[i] == password[i - |user| - 1]; }
      }
    }
    AsciiOfUtf8(text);
    assert text == Join([user, password], [':']);
    SplitUnique([user, password], ':');
  }

  /** The one account `requireAuth` lets in, with the header `init` would send for it. */
  lemma AdminHeaderAuthorized()
    ensures RequireAuth(Some(InitCli.BasicHeader("admin", "password"))) == Authorized("admin")
  {
    BasicHeaderRoundTrip("admin", "password");
  }
}
