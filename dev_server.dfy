/**
 * The development server of `packages/cli/src/cmds/dev-server.ts`: for a request to
 * `/projects/<project>/chunks/<chunkId>` it bundles the chunk named in `rechunk.json`, and
 * answers with the code and a JWS token over the code's SHA-256; any other path gets 400.
 */
module DevServer {
  import opened Wrappers
  import opened Text
  import opened Crypto
  import opened Json
  import Jose
  import Integrity

  const ProjectsLit: string := "/projects/"
  const ChunksLit: string := "/chunks/"

  // The regular expression /\/projects\/(.*)\/chunks\/(\w+)/, without anchors or flags.

  /** "/chunks/" followed by a word character starts at `j`. */
  predicate ChunksAt(s: string, j: nat) {
    j + 9 <= |s| && s[j..j + 8] == ChunksLit && IsWordChar(s[j + 8])
  }

  /** `.` does not match a line terminator. */
  predicate NoLineTerminator(s: string, from: nat, to: nat)
    requires from <= to <= |s|
  {
    forall m :: from <= m < to ==> !IsLineTerminator(s[m])
  }

  /** The regular expression matches `s` with "/projects/" at `i` and "/chunks/" at `j`. */
  predicate MatchesAt(s: string, i: nat, j: nat) {
    i + 10 <= j && ChunksAt(s, j) && s[i..i + 10] == ProjectsLit && NoLineTerminator(s, i + 10, j)
  }

  /** The first line terminator at or after `k`, or the end of the text. */
  function LineEnd(s: string, k: nat): (e: nat)
    requires k <= |s|
    ensures k <= e <= |s| && NoLineTerminator(s, k, e)
    ensures e < |s| ==> IsLineTerminator(s[e])
    decreases |s| - k
  {
    if k == |s| || IsLineTerminator(s[k]) then k else LineEnd(s, k + 1)
  }

  /** The last position in `lo .. hi` where "/chunks/" and a word character start. */
  function LastChunksAt(s: string, lo: nat, hi: nat): (r: Option<nat>)
    ensures r.Some? ==> lo <= r.value <= hi && ChunksAt(s, r.value)
    ensures r.Some? ==> forall m :: r.value < m <= hi ==> !ChunksAt(s, m)
    ensures r.None? ==> forall m :: lo <= m <= hi ==> !ChunksAt(s, m)
    decreases hi
  {
    if hi < lo then None
    else if ChunksAt(s, hi) then Some(hi)
    else if hi == lo then None
    else LastChunksAt(s, lo, hi - 1)
  }

  /** Greedy `.*`: the "/chunks/" a match starting at `i` uses, if any. */
  function ChunksFor(s: string, i: nat): (r: Option<nat>)
    requires i + 10 <= |s|
    ensures r.Some? ==> i + 10 <= r.value && ChunksAt(s, r.value) && NoLineTerminator(s, i + 10, r.value)
  {
    LastChunksAt(s, i + 10, LineEnd(s, i + 10))
  }

  predicate StartAt(s: string, i: nat) {
    i + 10 <= |s| && s[i..i + 10] == ProjectsLit && ChunksFor(s, i).Some?
  }

  /** The leftmost position from which the expression matches. */
  function FirstStart(s: string, from: nat): (r: Option<nat>)
    ensures r.Some? ==> from <= r.value && StartAt(s, r.value)
    ensures r.Some? ==> forall m :: from <= m < r.value ==> !StartAt(s, m)
    ensures r.None? ==> forall m :: from <= m ==> !StartAt(s, m)
    decreases |s| - from
  {
    if from + 10 > |s| then None
    else if StartAt(s, from) then Some(from)
    else FirstStart(s, from + 1)
  }

  /** The end of the run of word characters starting at `k`. */
  function WordRunEnd(s: string, k: nat): (e: nat)
    requires k <= |s|
    ensures k <= e <= |s| && (e < |s| ==> !IsWordChar(s[e]))
    ensures forall m :: k <= m < e ==> IsWordChar(s[m])
    decreases |s| - k
  {
    if k < |s| && IsWordChar(s[k]) then WordRunEnd(s, k + 1) else k
  }

  /** `s.match(...)`: the two capture groups of the first match, none when there is no match. */
  function Match(s: string): (r: Option<(string, string)>)
  {
    match FirstStart(s, 0)
    case None => None
    case Some(i) =>
      var j := ChunksFor(s, i).value;
      Some((s[i + 10..j], s[j + 8..WordRunEnd(s, j + 8)]))
  }

  /** A match from `i` ends at a "/chunks/" no later than the first line terminator. */
  lemma MatchEndBeforeLineEnd(s: string, i: nat, j: nat)
    requires MatchesAt(s, i, j)
    ensures j <= LineEnd(s, i + 10)
  {
  }

  /** The greedy search from a start finds a match exactly when one exists from there. */
  lemma StartAtIffMatches(s: string, i: nat)
    ensures StartAt(s, i) <==> exists j :: MatchesAt(s, i, j)
  {
    if StartAt(s, i) {
      assert MatchesAt(s, i, ChunksFor(s, i).value);
    }
    if j :| MatchesAt(s, i, j) {
      MatchEndBeforeLineEnd(s, i, j);
    }
  }

  /** `Match` succeeds exactly when the expression matches somewhere. */
  lemma MatchIffMatches(s: string)
    ensures Match(s).Some? <==> exists i, j :: MatchesAt(s, i, j)
  {
    if i, j :| MatchesAt(s, i, j) {
      StartAtIffMatches(s, i);
      assert FirstStart(s, 0).Some?;
    }
    if Match(s).Some? {
      var i := FirstStart(s, 0).value;
      assert MatchesAt(s, i, ChunksFor(s, i).value);
    }
  }

  /**
   * The groups `Match` yields: the text between the leftmost "/projects/" and the "/chunks/" the
   * match stops at, and the whole word after that "/chunks/".
   */
  lemma MatchGroups(s: string)
    requires Match(s).Some?
    ensures var i := FirstStart(s, 0).value;
            var j := ChunksFor(s, i).value;
            MatchesAt(s, i, j) && Match(s).value == (s[i + 10..j], s[j + 8..WordRunEnd(s, j + 8)])
            && j + 8 < WordRunEnd(s, j + 8)
  {
  }

  /** Leftmost: no match starts before the one `Match` uses. */
  lemma MatchIsLeftmost(s: string, i': nat, j': nat)
    requires MatchesAt(s, i', j')
    ensures Match(s).Some? && FirstStart(s, 0).value <= i'
  {
    StartAtIffMatches(s, i');
  }

  /** Greedy: from its start, no match reaches a later "/chunks/" than the one `Match` uses. */
  lemma {:induction false} MatchIsGreedy(s: string, j': nat)
    requires Match(s).Some? && MatchesAt(s, FirstStart(s, 0).value, j')
    ensures j' <= ChunksFor(s, FirstStart(s, 0).value).value
  {
    MatchEndBeforeLineEnd(s, FirstStart(s, 0).value, j');
  }

  /** A match in a text is still a match once more text follows. */
  lemma MatchesAtExtends(s: string, t: string, i: nat, j: nat)
    requires MatchesAt(s, i, j)
    ensures MatchesAt(s + t, i, j)
  {
    assert (s + t)[i..i + 10] == s[i..i + 10];
    assert (s + t)[j..j + 8] == s[j..j + 8];
  }

  /**
   * `url.parse(...).path` is the pathname followed by the query: when the test passes on the
   * pathname, the path matches too, so the "cannot parse url" error is unreachable.
   */
  lemma MatchOnPathSucceeds(pathname: string, search: string)
    requires Match(pathname).Some?
    ensures Match(pathname + search).Some?
  {
    MatchIffMatches(pathname);
    var i, j :| MatchesAt(pathname, i, j);
    MatchesAtExtends(pathname, search, i, j);
    MatchIffMatches(pathname + search);
  }

  /** The part of `rechunk.json` the server reads. */
  datatype DevConfig = DevConfig(entry: map<string, string>, privateKey: string)

  /** The reply the handler writes: status, content type and body. */
  datatype Reply = Reply(status: int, contentType: string, body: Body)

  datatype Body = JsonBody(value: Json) | Text(text: string)

  /** What `KEYUTIL.getKey` throws for text it cannot read as a key. */
  const KeyUnreadable: string := "not supported argument"

  /**
   * The token the server issues for bundled `code`: RS256 JWS of its hex SHA-256. The private
   * key is read first (`KEYUTIL.getKey`), which throws unless it is PEM text.
   */
  function IssueToken(suite: Suite, privateKey: string, code: string): (r: Result<string>)
    ensures r.Ok? <==> Contains(privateKey, PemMarker)
    ensures r.Err? ==> r.error == KeyUnreadable
  {
    Jose.HeaderAlgOfAlgHeader("RS256");
    if !Contains(privateKey, PemMarker) then Err(KeyUnreadable)
    else Jose.Sign(suite, "RS256", Jose.AlgHeader("RS256"), Sha256Hex(suite, code), privateKey)
  }

  /** What the handler does once a chunk id is known; `bundle` stands for rollup. */
  function ServeChunk(suite: Suite, rc: DevConfig, bundle: string -> Result<string>, chunkId: string): (r: Result<Reply>)
    ensures chunkId !in rc.entry ==> r.Err?
    ensures r.Ok? ==> chunkId in rc.entry && bundle(rc.entry[chunkId]).Ok?
    ensures chunkId in rc.entry && bundle(rc.entry[chunkId]).Ok? ==>
              (r.Ok? <==> Contains(rc.privateKey, PemMarker))
    ensures r.Ok? ==> r.value == Reply(200, "application/json", JsonBody(JObject([
      ("token", JString(IssueToken(suite, rc.privateKey, bundle(rc.entry[chunkId]).value).value)),
      ("data", JString(bundle(rc.entry[chunkId]).value))])))
  {
    if chunkId !in rc.entry then Err("TypeError: The \"paths[1]\" argument must be of type string. Received undefined")
    else match bundle(rc.entry[chunkId])
      case Err(e) => Err(e)
      case Ok(code) =>
        match IssueToken(suite, rc.privateKey, code)
        case Err(e) => Err(e)
        case Ok(token) =>
          Ok(Reply(200, "application/json", JsonBody(JObject([("token", JString(token)), ("data", JString(code))]))))
  }

  const BadRequest: Reply := Reply(400, "text/plain", Text("Bad Request"))

  /**
   * The request handler as written: the test runs on the pathname, the capture on the path,
   * which also holds the query string.
   */
  function RouteAsWritten(suite: Suite, rc: DevConfig, bundle: string -> Result<string>,
                          pathname: string, search: string): (r: Result<Reply>)
    ensures Match(pathname).None? ==> r == Ok(BadRequest)
  {
    if Match(pathname).None? then Ok(BadRequest)
    else match Match(pathname + search)
      case None => Err("[ReChunk]: cannot parse url")
      case Some((_, chunkId)) => ServeChunk(suite, rc, bundle, chunkId)
  }

  predicate IsWord(w: string) {
    forall k :: 0 <= k < |w| ==> IsWordChar(w[k])
  }

  /** No "/chunks/" starts after the last one of "/projects/<p>/chunks/<w>". */
  lemma NoChunksAfter(p: string, w: string, m: nat)
    requires IsWord(w) && 10 + |p| < m
    ensures !ChunksAt(ProjectsLit + p + ChunksLit + w, m)
  {
    var s := ProjectsLit + p + ChunksLit + w;
    if m + 9 <= |s| {
      assert s[m + 7] == w[m + 7 - 18 - |p|];
      assert s[m..m + 8][7] == s[m + 7];
      assert ChunksLit[7] == '/';
    }
  }

  lemma {:induction false} WordRunToEnd(s: string, k: nat)
    requires k <= |s| && forall m :: k <= m < |s| ==> IsWordChar(s[m])
    ensures WordRunEnd(s, k) == |s|
    decreases |s| - k
  {
    if k < |s| {
      WordRunToEnd(s, k + 1);
    }
  }

  /** In "/projects/<p>/chunks/<w>" the match starts at 0 and stops at the "/chunks/" before `w`. */
  lemma CanonicalPathBounds(s: string, p: string, w: string)
    requires s == ProjectsLit + p + ChunksLit + w
    requires |w| > 0 && IsWord(w) && NoLineTerminator(p, 0, |p|)
    ensures Match(s).Some? && FirstStart(s, 0) == Some(0) && ChunksFor(s, 0) == Some(10 + |p|)
  {
    var j := 10 + |p|;
    assert s[0..10] == ProjectsLit && s[j..j + 8] == ChunksLit && s[10..j] == p;
    assert s[j + 8] == w[0];
    assert MatchesAt(s, 0, j);
    MatchIsLeftmost(s, 0, j);
    MatchIsGreedy(s, j);
    MatchGroups(s);
    var j' := ChunksFor(s, 0).value;
    if j' > j {
      NoChunksAfter(p, w, j');
    }
  }

  /**
   * A path "/projects/<p>/chunks/<w>" with a word `w` captures `p` and `w`, even when `p`
   * itself holds "/chunks/".
   */
  lemma {:induction false} CanonicalPathGroups(p: string, w: string)
    requires |w| > 0 && IsWord(w) && NoLineTerminator(p, 0, |p|)
    ensures Match(ProjectsLit + p + ChunksLit + w) == Some((p, w))
  {
    var s := ProjectsLit + p + ChunksLit + w;
    var j := 10 + |p|;
    CanonicalPathBounds(s, p, w);
    TailWordRun(s, p, w);
    assert Match(s) == Some((s[10..j], s[j + 8..|s|]));
  }

  /** In "/projects/<p>/chunks/<w>" the word run after the last "/chunks/" is `w`, to the end. */
  lemma TailWordRun(s: string, p: string, w: string)
    requires s == ProjectsLit + p + ChunksLit + w && IsWord(w)
    ensures WordRunEnd(s, 18 + |p|) == |s|
    ensures s[10..10 + |p|] == p && s[18 + |p|..|s|] == w
  {
    PathSlices(s, p, w);
    forall m | 18 + |p| <= m < |s| ensures IsWordChar(s[m]) {
      assert s[m] == w[m - 18 - |p|];
    }
    WordRunToEnd(s, 18 + |p|);
  }

  /** The two captured pieces of "/projects/<p>/chunks/<w>" sit at their places. */
  lemma PathSlices(s: string, p: string, w: string)
    requires s == ProjectsLit + p + ChunksLit + w
    ensures |s| == 18 + |p| + |w|
    ensures s[10..10 + |p|] == p && s[18 + |p|..|s|] == w
    ensures forall m :: 18 + |p| <= m < |s| ==> s[m] == w[m - 18 - |p|]
  {
    var head := ProjectsLit + p;
    var t := head + ChunksLit;
    assert s == t + w;
    assert s[..|head|] == head;
    assert head[10..] == p;
  }

  /** The pathname of a request for chunk "b" of project "a" captures ("a", "b"). */
  lemma PathnameGroups()
    ensures Match("/projects/a/chunks/b") == Some(("a", "b"))
  {
    assert "/projects/a/chunks/b" == ProjectsLit + "a" + ChunksLit + "b";
    CanonicalPathGroups("a", "b");
  }

  /**
   * As written, a "/chunks/" in the query string takes over the capture: with the query
   * "?x=/chunks/c" the same request is served chunk "c".
   */
  lemma QueryStringPicksChunk()
    ensures Match("/projects/a/chunks/b" + "?x=/chunks/c") == Some(("a/chunks/b?x=", "c"))
  {
    assert "/projects/a/chunks/b" + "?x=/chunks/c" == ProjectsLit + "a/chunks/b?x=" + ChunksLit + "c";
    CanonicalPathGroups("a/chunks/b?x=", "c");
  }

  /** The handler with the capture taken from the pathname, the text the test ran on. */
  function Route(suite: Suite, rc: DevConfig, bundle: string -> Result<string>,
                 pathname: string, search: string): (r: Result<Reply>)
    ensures Match(pathname).None? ==> r == Ok(BadRequest)
    ensures Match(pathname).Some? ==> r == ServeChunk(suite, rc, bundle, Match(pathname).value.1)
  {
    match Match(pathname)
    case None => Ok(BadRequest)
    case Some((_, chunkId)) => ServeChunk(suite, rc, bundle, chunkId)
  }

  /** A reply body `{token, data}` whose token the client's integrity check accepts for its data. */
  predicate Vouches(suite: Suite, publicKey: string, body: Body) {
    body.JsonBody? && body.value.JObject? && |body.value.members| == 2
    && body.value.members[0].0 == "token" && body.value.members[0].1.JString?
    && body.value.members[1].0 == "data" && body.value.members[1].1.JString?
    && Integrity.Checker(suite, "sha256", "RS256", publicKey)
         .Verify(body.value.members[1].1.s, body.value.members[0].1.s) == Ok(true)
  }

  lemma ServeChunkVouches(suite: Suite, rc: DevConfig, bundle: string -> Result<string>, chunkId: string)
    requires Sound(suite)
    requires ServeChunk(suite, rc, bundle, chunkId).Ok?
    ensures Vouches(suite, suite.publicKeyOf(rc.privateKey), ServeChunk(suite, rc, bundle, chunkId).value.body)
  {
    Integrity.SignedDigestAccepted(suite, rc.privateKey, bundle(rc.entry[chunkId]).value);
  }

  /** As written, the request for chunk "b" with the query "?x=/chunks/c" is answered with chunk "c". */
  lemma AsWrittenServesQueryChunk(suite: Suite, rc: DevConfig, bundle: string -> Result<string>)
    ensures RouteAsWritten(suite, rc, bundle, "/projects/a/chunks/b", "?x=/chunks/c") == ServeChunk(suite, rc, bundle, "c")
  {
    PathnameGroups();
    QueryStringPicksChunk();
  }

  /** With the capture on the pathname, the same request is answered with chunk "b", whatever the query. */
  lemma RouteServesPathnameChunk(suite: Suite, rc: DevConfig, bundle: string -> Result<string>, search: string)
    ensures Route(suite, rc, bundle, "/projects/a/chunks/b", search) == ServeChunk(suite, rc, bundle, "b")
  {
    PathnameGroups();
  }

  /** What the server signs, the client's integrity check accepts with the matching public key. */
  lemma ServedChunkVerifies(suite: Suite, rc: DevConfig, bundle: string -> Result<string>,
                            pathname: string, search: string)
    requires Sound(suite)
    requires Route(suite, rc, bundle, pathname, search).Ok?
    requires Route(suite, rc, bundle, pathname, search).value.status == 200
    ensures Vouches(suite, suite.publicKeyOf(rc.privateKey), Route(suite, rc, bundle, pathname, search).value.body)
  {
    ServeChunkVouches(suite, rc, bundle, Match(pathname).value.1);
  }

  /** The port the server listens on: 49152 plus the character-code sum of "rechunk" modulo 16383. */
  const Port: string := "49904"

  function CodeSum(s: string): nat {
    if |s| == 0 then 0 else s[0] as nat + CodeSum(s[1..])
  }

  function DerivedPort(): (p: int)
    ensures 49152 <= p < 65535
  {
    49152 + CodeSum("rechunk") % 16383
  }

  lemma {:induction false} PortIsDerived()
    ensures DerivedPort() == 49904
  {
    assert CodeSum("rechunk") == 752 by {
      assert CodeSum("k") == 107;
      assert CodeSum("nk") == 217;
      assert CodeSum("unk") == 334;
      assert CodeSum("hunk") == 438;
      assert CodeSum("chunk") == 537;
      assert CodeSum("echunk") == 638;
    }
  }

  /** The `http.ServerResponse` a handler writes to. */
  class ServerResponse {
    var status: Option<int>
    var contentType: Option<string>
    var body: Option<Body>

    constructor ()
      ensures status == None && contentType == None && body == None
    {
      status, contentType, body := None, None, None;
    }

    method WriteHead(code: int, contentType: string)
      modifies this
      ensures status == Some(code) && this.contentType == Some(contentType) && body == old(body)
    {
      status := Some(code);
      this.contentType := Some(contentType);
    }

    method End(b: Body)
      modifies this
      ensures body == Some(b) && status == old(status) && contentType == old(contentType)
    {
      body := Some(b);
    }
  }

  /**
   * The handler, writing head then body; a thrown error leaves the response unwritten. It takes
   * the chunk id from the pathname (`Route`), the corrected form of the capture; the capture as
   * written is `RouteAsWritten`.
   */
  method Handle(res: ServerResponse, suite: Suite, rc: DevConfig, bundle: string -> Result<string>,
                pathname: string, search: string)
    returns (thrown: Option<string>)
    modifies res
    ensures match Route(suite, rc, bundle, pathname, search)
      case Ok(reply) =>
        thrown == None && res.status == Some(reply.status) && res.contentType == Some(reply.contentType)
        && res.body == Some(reply.body)
      case Err(e) =>
        thrown == Some(e) && res.status == old(res.status) && res.contentType == old(res.contentType)
        && res.body == old(res.body)
  {
    var m := Match(pathname);
    if m.None? {
      res.WriteHead(400, "text/plain");
      res.End(Text("Bad Request"));
      return None;
    }
    var chunkId := m.value.1;
    if chunkId !in rc.entry {
      return Some("TypeError: The \"paths[1]\" argument must be of type string. Received undefined");
    }
    var code := bundle(rc.entry[chunkId]);
    if code.Err? {
      return Some(code.error);
    }
    var token := IssueToken(suite, rc.privateKey, code.value);
    if token.Err? {
      return Some(token.error);
    }
    res.WriteHead(200, "application/json");
    res.End(JsonBody(JObject([("token", JString(token.value)), ("data", JString(code.value))])));
    thrown := None;
  }
}
