/**
 * The client and the two servers together: what `ChunkManager.importChunk` makes of the replies
 * of the development server (`{token, data}`) and of the chunk controller (`{data, hash, sig}`).
 */
module EndToEnd {
  import opened Wrappers
  import Text
  import opened Crypto
  import opened Json
  import Integrity
  import Jose
  import ChunkCore
  import ChunkRoutes
  import DevServer

  /** A network that answers every request with the same `data` and `token` fields. */
  function Answering(data: Option<string>, token: Option<string>): ChunkCore.Api {
    (req: ChunkCore.ApiRequest) => Ok(ChunkCore.ApiChunk(data, token))
  }

  /** The fields `getChunkById` reads from a JSON reply body: `data` and `token`, when strings. */
  function FieldOf(body: Json, name: string): (r: Option<string>)
    ensures r.Some? ==> body.JObject?
  {
    if body.JObject? then
      match body.Get(name)
      case Some(JString(s)) => Some(s)
      case _ => None
    else None
  }

  /** The body the development server answers reads back as its `data` and `token`. */
  lemma ServedBodyFields(token: string, code: string)
    ensures var body := JObject([("token", JString(token)), ("data", JString(code))]);
            FieldOf(body, "data") == Some(code) && FieldOf(body, "token") == Some(token)
  {
    var members := [("token", JString(token)), ("data", JString(code))];
    assert "data"[0] != "token"[0];
    assert members[..1] == [("token", JString(token))];
    assert Lookup(members, "data") == Some(JString(code));
    assert Lookup(members, "token") == Lookup([("token", JString(token))], "token") == Some(JString(token));
  }

  /**
   * The chunk controller's GET reply carries no `token`, so the default resolver rejects it,
   * whatever the `data`, `hash` and `sig` are.
   */
  lemma ControllerReplyRejected(reply: ChunkRoutes.GetReply, env: ChunkCore.BuildEnv, chunkId: string)
    ensures ChunkCore.DefaultResolve(Answering(Some(reply.data), None), env, chunkId).Err?
  {
  }

  /** A network answering a non-empty `data` and `token` resolves to exactly that chunk. */
  lemma AnsweredChunkResolves(data: string, token: string, env: ChunkCore.BuildEnv, chunkId: string)
    requires chunkId != "" && ChunkCore.Btoa(env.project + ":" + env.readKey).Ok?
    requires data != "" && token != ""
    ensures ChunkCore.DefaultResolve(Answering(Some(data), Some(token)), env, chunkId)
         == Ok(ChunkCore.Chunk(data, token))
  {
  }

  /** No data is vouched for by an empty token. */
  lemma EmptyTokenNotVouched(suite: Suite, publicKey: string, data: string)
    ensures Integrity.Checker(suite, "sha256", "RS256", publicKey).Verify(data, "") != Ok(true)
  {
  }

  /** A resolved chunk whose token vouches for it imports as a component of its data. */
  lemma VerifiedChunkImports(st: ChunkCore.State, truthy: ChunkCore.ExportsTruthy, api: ChunkCore.Api, env: ChunkCore.BuildEnv, suite: Suite,
                             chunkId: string, chunk: ChunkCore.Chunk)
    requires !ChunkCore.CacheHit(st, truthy, chunkId) && st.verify && st.global.Some?
    requires ChunkCore.Resolve(st.resolver, api, env, chunkId) == Ok(chunk)
    requires Integrity.Checker(suite, "sha256", "RS256", st.publicKey).Verify(chunk.data, chunk.token) == Ok(true)
    ensures ChunkCore.ImportSpec(st, truthy, api, env, suite, chunkId)
         == ChunkCore.Outcome(Ok(ChunkCore.Component(st.global.value, chunk.data)),
                              st.cache[chunkId := ChunkCore.Component(st.global.value, chunk.data)],
                              true, Some(chunkId))
  {
  }

  /**
   * A manager with the default resolver, verification on, a global object and nothing cached,
   * answered a non-empty `data` with a `token` vouching for it, imports that data as a component.
   */
  lemma ImportsAnsweredChunk(st: ChunkCore.State, truthy: ChunkCore.ExportsTruthy, env: ChunkCore.BuildEnv, suite: Suite,
                             chunkId: string, data: string, token: string)
    requires chunkId != "" && !ChunkCore.CacheHit(st, truthy, chunkId)
    requires ChunkCore.Btoa(env.project + ":" + env.readKey).Ok?
    requires st.resolver == ChunkCore.DefaultResolver && st.verify && st.global.Some?
    requires data != ""
    requires Integrity.Checker(suite, "sha256", "RS256", st.publicKey).Verify(data, token) == Ok(true)
    ensures ChunkCore.ImportSpec(st, truthy, Answering(Some(data), Some(token)), env, suite, chunkId)
         == ChunkCore.Outcome(Ok(ChunkCore.Component(st.global.value, data)),
                              st.cache[chunkId := ChunkCore.Component(st.global.value, data)],
                              true, Some(chunkId))
  {
    EmptyTokenNotVouched(suite, st.publicKey, data);
    AnsweredChunkResolves(data, token, env, chunkId);
    VerifiedChunkImports(st, truthy, Answering(Some(data), Some(token)), env, suite, chunkId, ChunkCore.Chunk(data, token));
  }

  /**
   * A chunk served by the development server, read back by a manager with the default resolver,
   * verification on, the matching public key, a global object and nothing cached, imports as a
   * component running exactly the bundled code, and is cached and announced.
   */
  lemma ServedChunkImports(suite: Suite, rc: DevServer.DevConfig, bundle: string -> Result<string>,
                           st: ChunkCore.State, truthy: ChunkCore.ExportsTruthy, env: ChunkCore.BuildEnv, chunkId: string, code: string)
    requires Sound(suite)
    requires chunkId in rc.entry && bundle(rc.entry[chunkId]) == Ok(code) && code != ""
    requires chunkId != "" && !ChunkCore.CacheHit(st, truthy, chunkId)
    requires ChunkCore.Btoa(env.project + ":" + env.readKey).Ok?
    requires st.resolver == ChunkCore.DefaultResolver && st.verify && st.global.Some?
    requires st.publicKey == suite.publicKeyOf(rc.privateKey) && Text.Contains(rc.privateKey, PemMarker)
    ensures DevServer.ServeChunk(suite, rc, bundle, chunkId).Ok?
    ensures var body := DevServer.ServeChunk(suite, rc, bundle, chunkId).value.body.value;
            var outcome := ChunkCore.ImportSpec(st, truthy, Answering(FieldOf(body, "data"), FieldOf(body, "token")),
                                                env, suite, chunkId);
            && outcome.result == Ok(ChunkCore.Component(st.global.value, code))
            && outcome.cache == st.cache[chunkId := outcome.result.value]
            && outcome.emitted == Some(chunkId)
  {
    var body := DevServer.ServeChunk(suite, rc, bundle, chunkId).value.body.value;
    var token := DevServer.IssueToken(suite, rc.privateKey, code).value;
    Integrity.SignedDigestAccepted(suite, rc.privateKey, code);
    assert token == Jose.Sign(suite, "RS256", Jose.AlgHeader("RS256"), Sha256Hex(suite, code), rc.privateKey).value;
    assert Integrity.Checker(suite, "sha256", "RS256", st.publicKey).Verify(code, token) == Ok(true);
    ServedBodyFields(token, code);
    ImportsAnsweredChunk(st, truthy, env, suite, chunkId, code, token);
  }
}
