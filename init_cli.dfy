/**
 * The `init` command of `packages/cli/src/cmds/init.ts`: it checks the host URL, refuses to
 * overwrite an existing `rechunk.json`, and creates a project with Basic credentials.
 */
module InitCli {
  import opened Wrappers
  import opened Text
  import opened Json
  import Utf8
  import Base64

  const BadHost: string :=
    "The provided host URL does not match the expected format (e.g., https://rechunk.onrender.com, https://localhost:3000)."
  const ProjectExists: string :=
    "Project already exists. Please remove rechunk.json before initializing a new project."
  const CreateFailed: string := "Failed to initialize project: "

  // The pattern /^http(|s):\/\/\w+(\.\w+)*(:[0-9]+)?\/?(\/[.\w]*)*$/, part by part.

  predicate IsHostChar(c: char) {
    IsWordChar(c) || c == '.'
  }

  predicate IsPathChar(c: char) {
    IsWordChar(c) || c == '.' || c == '/'
  }

  /** `\w+(\.\w+)*`: words joined by single dots. */
  predicate DottedWords(s: string) {
    |s| > 0 && s[0] != '.' && s[|s| - 1] != '.'
    && (forall i :: 0 <= i < |s| ==> IsHostChar(s[i]))
    && (forall i :: 0 <= i < |s| - 1 ==> !(s[i] == '.' && s[i + 1] == '.'))
  }

  /** `(:[0-9]+)?`. */
  predicate PortPart(p: string) {
    p == "" || (|p| >= 2 && p[0] == ':' && forall i :: 1 <= i < |p| ==> IsDigit(p[i]))
  }

  /**
   * `\/?(\/[.\w]*)*`: empty, or a '/' followed by slashes, dots and word characters (every such
   * text splits into the optional slash and segments that each start with '/').
   */
  predicate PathPart(t: string) {
    t == "" || (t[0] == '/' && forall i :: 0 <= i < |t| ==> IsPathChar(t[i]))
  }

  predicate IsScheme(h: string, s: nat) {
    (s == 7 && StartsWith(h, "http://")) || (s == 8 && StartsWith(h, "https://"))
  }

  /** The pattern splits `h` into scheme, host, port and path at `s`, `j` and `k`. */
  predicate PatternAt(h: string, s: nat, j: nat, k: nat) {
    s <= j <= k <= |h| && IsScheme(h, s)
    && DottedWords(h[s..j]) && PortPart(h[j..k]) && PathPart(h[k..])
  }

  /** What the regular expression accepts: some way to split the text into the four parts. */
  ghost predicate MatchesUrlPattern(h: string) {
    exists s, j, k :: PatternAt(h, s, j, k)
  }

  function SchemeLength(h: string): (r: Option<nat>)
    ensures r.Some? ==> IsScheme(h, r.value)
    ensures r.None? ==> forall s :: !IsScheme(h, s)
  {
    if StartsWith(h, "https://") then Some(8)
    else if StartsWith(h, "http://") then Some(7)
    else None
  }

  /** The end of the run of host characters from `k`. */
  function HostEnd(h: string, k: nat): (e: nat)
    requires k <= |h|
    ensures k <= e <= |h| && (forall i :: k <= i < e ==> IsHostChar(h[i]))
    ensures e < |h| ==> !IsHostChar(h[e])
    decreases |h| - k
  {
    if k < |h| && IsHostChar(h[k]) then HostEnd(h, k + 1) else k
  }

  /** The end of the run of digits from `k`. */
  function DigitEnd(h: string, k: nat): (e: nat)
    requires k <= |h|
    ensures k <= e <= |h| && (forall i :: k <= i < e ==> IsDigit(h[i]))
    ensures e < |h| ==> !IsDigit(h[e])
    decreases |h| - k
  {
    if k < |h| && IsDigit(h[k]) then DigitEnd(h, k + 1) else k
  }

  /** Where the port ends: after the digits when a ':' follows the host, else the host end. */
  function PortEnd(h: string, j: nat): (k: nat)
    requires j <= |h|
    ensures j <= k <= |h|
  {
    if j < |h| && h[j] == ':' then DigitEnd(h, j + 1) else j
  }

  /** No two dots in a row between `i` and `j`, checked position by position. */
  predicate NoDoubleDot(h: string, i: nat, j: nat)
    requires j <= |h|
    decreases j - i
  {
    i + 1 >= j || (!(h[i] == '.' && h[i + 1] == '.') && NoDoubleDot(h, i + 1, j))
  }

  /** Only path characters from `k` on, checked position by position. */
  predicate AllPathChars(h: string, k: nat)
    requires k <= |h|
    decreases |h| - k
  {
    k == |h| || (IsPathChar(h[k]) && AllPathChars(h, k + 1))
  }

  /** The checks the scan makes at the split it found. */
  predicate ScanOk(h: string, s: nat, j: nat, k: nat)
    requires s <= j <= k <= |h|
  {
    s < j && h[s] != '.' && h[j - 1] != '.' && NoDoubleDot(h, s, j)
    && (k == j || (k >= j + 2 && h[j] == ':'))
    && (k == |h| || (h[k] == '/' && AllPathChars(h, k)))
  }

  /** `validateHost`, as a scan: the scheme, then the longest host, port and the rest as the path. */
  function AcceptsHost(h: string): bool {
    match SchemeLength(h)
    case None => false
    case Some(s) =>
      var j := HostEnd(h, s);
      ScanOk(h, s, j, PortEnd(h, j))
  }

  lemma {:induction false} NoDoubleDotIff(h: string, i: nat, j: nat)
    requires j <= |h|
    ensures NoDoubleDot(h, i, j) <==> forall m :: i <= m < j - 1 ==> !(h[m] == '.' && h[m + 1] == '.')
    decreases j - i
  {
    if i + 1 < j {
      NoDoubleDotIff(h, i + 1, j);
    }
  }

  lemma {:induction false} AllPathCharsIff(h: string, k: nat)
    requires k <= |h|
    ensures AllPathChars(h, k) <==> forall m :: k <= m < |h| ==> IsPathChar(h[m])
    decreases |h| - k
  {
    if k < |h| {
      AllPathCharsIff(h, k + 1);
    }
  }

  /** At the split the scan finds, its position checks are the pattern's parts. */
  lemma ScanOkIff(h: string, s: nat, j: nat, k: nat)
    requires s <= j <= k <= |h|
    requires forall i :: s <= i < j ==> IsHostChar(h[i])
    requires j < k ==> forall i :: j + 1 <= i < k ==> IsDigit(h[i])
    ensures ScanOk(h, s, j, k) <==> DottedWords(h[s..j]) && PortPart(h[j..k]) && PathPart(h[k..])
  {
    NoDoubleDotIff(h, s, j);
    AllPathCharsIff(h, k);
    var host, port, path := h[s..j], h[j..k], h[k..];
    assert forall m :: 0 <= m < |host| ==> host[m] == h[s + m];
    assert forall m :: 0 <= m < |port| ==> port[m] == h[j + m];
    assert forall m :: 0 <= m < |path| ==> path[m] == h[k + m];
    if DottedWords(host) {
      forall m | s <= m < j - 1 ensures !(h[m] == '.' && h[m + 1] == '.') {
        assert host[m - s] == h[m] && host[m - s + 1] == h[m + 1];
      }
    }
    if PathPart(path) && path != "" {
      forall m | k <= m < |h| ensures IsPathChar(h[m]) {
        assert path[m - k] == h[m];
      }
    }
  }

  /** A run of characters of one kind that stops at one of another kind ends where the scan says. */
  lemma {:induction false} HostEndAt(h: string, k: nat, e: nat)
    requires k <= e <= |h| && (forall i :: k <= i < e ==> IsHostChar(h[i]))
    requires e < |h| ==> !IsHostChar(h[e])
    ensures HostEnd(h, k) == e
    decreases e - k
  {
    if k < e {
      HostEndAt(h, k + 1, e);
    }
  }

  lemma {:induction false} DigitEndAt(h: string, k: nat, e: nat)
    requires k <= e <= |h| && (forall i :: k <= i < e ==> IsDigit(h[i]))
    requires e < |h| ==> !IsDigit(h[e])
    ensures DigitEnd(h, k) == e
    decreases e - k
  {
    if k < e {
      DigitEndAt(h, k + 1, e);
    }
  }

  /** Any split the pattern allows is the one the scan finds. */
  lemma PatternAtIsScan(h: string, s: nat, j: nat, k: nat)
    requires PatternAt(h, s, j, k)
    ensures SchemeLength(h) == Some(s) && HostEnd(h, s) == j && PortEnd(h, j) == k
  {
    assert h[s..j][0] == h[s];
    forall i | s <= i < j ensures IsHostChar(h[i]) {
      assert h[i] == h[s..j][i - s];
    }
    if j < |h| {
      if j < k {
        assert h[j] == h[j..k][0];
      } else {
        assert h[j] == h[k..][0];
      }
    }
    HostEndAt(h, s, j);
    if j < k {
      assert h[j] == ':';
      forall i | j + 1 <= i < k ensures IsDigit(h[i]) {
        assert h[i] == h[j..k][i - j];
      }
      if k < |h| {
        assert h[k] == h[k..][0];
      }
      DigitEndAt(h, j + 1, k);
    } else if j < |h| {
      assert h[j] == h[k..][0];
    }
  }

  /** The scan accepts exactly the texts the regular expression matches. */
  lemma AcceptsHostIffPattern(h: string)
    ensures AcceptsHost(h) <==> MatchesUrlPattern(h)
  {
    if AcceptsHost(h) {
      var s := SchemeLength(h).value;
      var j := HostEnd(h, s);
      ScanOkIff(h, s, j, PortEnd(h, j));
      assert PatternAt(h, s, j, PortEnd(h, j));
    }
    if MatchesUrlPattern(h) {
      var s, j, k :| PatternAt(h, s, j, k);
      PatternAtIsScan(h, s, j, k);
      ScanOkIff(h, s, j, k);
    }
  }

  /** Only "http://" and "https://" pass, and the host is dotted words. */
  lemma AcceptedHostShape(h: string)
    requires AcceptsHost(h)
    ensures StartsWith(h, "http://") || StartsWith(h, "https://")
    ensures exists s: nat, j: nat :: IsScheme(h, s) && s <= j <= |h| && DottedWords(h[s..j])
  {
    AcceptsHostIffPattern(h);
  }

  // The scans over the example texts, one fact per lemma so that each stays small.

  lemma RenderHostScheme() ensures SchemeLength("https://rechunk.onrender.com") == Some(8) {}
  lemma RenderHostEnd() ensures HostEnd("https://rechunk.onrender.com", 8) == 28 {}
  lemma RenderHostDots() ensures NoDoubleDot("https://rechunk.onrender.com", 8, 28) {
    assert NoDoubleDot("https://rechunk.onrender.com", 18, 28);
  }

  lemma RenderHostEdges()
    ensures "https://rechunk.onrender.com"[8] != '.' && "https://rechunk.onrender.com"[27] != '.'
  {}

  /** The first example in the error message is accepted. */
  lemma RenderHostAccepted()
    ensures AcceptsHost("https://rechunk.onrender.com")
  {
    RenderHostScheme();
    RenderHostEnd();
    RenderHostDots();
    RenderHostEdges();
    assert PortEnd("https://rechunk.onrender.com", 28) == 28;
    assert ScanOk("https://rechunk.onrender.com", 8, 28, 28);
  }

  lemma LocalHostScheme() ensures SchemeLength("https://localhost:3000") == Some(8) {}
  lemma LocalHostEnd() ensures HostEnd("https://localhost:3000", 8) == 17 {}
  lemma LocalHostPort() ensures DigitEnd("https://localhost:3000", 18) == 22 {}
  lemma LocalHostDots() ensures NoDoubleDot("https://localhost:3000", 8, 17) {}

  /** The second example, with a port, is accepted. */
  lemma LocalHostAccepted()
    ensures AcceptsHost("https://localhost:3000")
  {
    LocalHostScheme();
    LocalHostEnd();
    LocalHostPort();
    LocalHostDots();
    assert PortEnd("https://localhost:3000", 17) == 22;
    assert ScanOk("https://localhost:3000", 8, 17, 22);
  }

  lemma DoubleDotScheme() ensures SchemeLength("https://rechunk..com") == Some(8) {}
  lemma DoubleDotEnd() ensures HostEnd("https://rechunk..com", 8) == 20 {}
  lemma DoubleDotDots() ensures !NoDoubleDot("https://rechunk..com", 8, 20) {}

  /** A doubled dot in the host is refused. */
  lemma DoubleDotRefused()
    ensures !AcceptsHost("https://rechunk..com")
  {
    DoubleDotScheme();
    DoubleDotEnd();
    DoubleDotDots();
  }

  lemma QueryScheme() ensures SchemeLength("https://localhost:3000/a?b") == Some(8) {}
  lemma QueryHostEnd() ensures HostEnd("https://localhost:3000/a?b", 8) == 17 {}
  lemma QueryPort() ensures DigitEnd("https://localhost:3000/a?b", 18) == 22 {}
  lemma QueryPath() ensures !AllPathChars("https://localhost:3000/a?b", 22) {}

  /** A query string after the path is refused. */
  lemma QueryRefused()
    ensures !AcceptsHost("https://localhost:3000/a?b")
  {
    QueryScheme();
    QueryHostEnd();
    QueryPort();
    QueryPath();
    assert PortEnd("https://localhost:3000/a?b", 17) == 22;
  }

  /** A scheme other than the two is refused. */
  lemma FtpRefused()
    ensures !AcceptsHost("ftp://rechunk.com")
  {
    assert "ftp://rechunk.com"[..8][0] != "https://"[0];
    assert "ftp://rechunk.com"[..7][0] != "http://"[0];
  }

  /** `Authorization` of the API client: "Basic " and the base64 of the UTF-8 of "user:password". */
  function BasicHeader(user: string, password: string): string {
    "Basic " + Base64.Encode(Utf8.Encode(user + ":" + password))
  }

  datatype InitOutcome = Failed(message: string) | Saved(project: Json)

  /**
   * The `init` action: `rcExists` is whether `rechunk.json` is already there, and `create` is the
   * API call, given the Authorization header. Every failure ends in the logged message.
   */
  function Init(host: string, user: string, password: string, rcExists: bool,
                create: string -> Result<Json>): (r: InitOutcome)
    ensures !AcceptsHost(host) ==> r == Failed(BadHost)
    ensures AcceptsHost(host) && rcExists ==> r == Failed(ProjectExists)
    ensures r.Saved? <==> AcceptsHost(host) && !rcExists && create(BasicHeader(user, password)).Ok?
    ensures r.Saved? ==> r.project == create(BasicHeader(user, password)).value
  {
    if !AcceptsHost(host) then Failed(BadHost)
    else if rcExists then Failed(ProjectExists)
    else match create(BasicHeader(user, password))
      case Err(e) => Failed(CreateFailed + e)
      case Ok(project) => Saved(project)
  }

  /** Checks first: with a bad host or an existing `rechunk.json`, no answer of the API matters. */
  lemma ChecksPrecedeCreation(host: string, user: string, password: string, rcExists: bool,
                              create: string -> Result<Json>, create': string -> Result<Json>)
    requires !AcceptsHost(host) || rcExists
    ensures Init(host, user, password, rcExists, create) == Init(host, user, password, rcExists, create')
  {
  }
}
