/**
 * The runtime `ChunkManager` of `packages/core/src/ChunkManager.ts`: it resolves a chunk by id,
 * checks its integrity token, turns the code into a component, caches the component under the
 * id and emits an event named after the id.
 *
 * Evaluating chunk code (`new Function`) is opaque: a `Component` records the globals object
 * and the code it was made from, and an `ExportsTruthy` parameter says whether the
 * `module.exports` that code leaves behind is truthy. Resolvers are synchronous and
 * deterministic here.
 */
module ChunkCore {
  import opened Wrappers
  import opened Utf8
  import Base64
  import opened Crypto
  import Integrity

  /** A `CustomRequire` object supplied as `global`; only its identity matters here. */
  datatype CustomRequire = CustomRequire(name: string)

  /** The component `chunkToComponent` builds by evaluating `code` with `global` in scope. */
  datatype Component = Component(global: CustomRequire, code: string)

  /**
   * Whether the `module.exports` a component's code returns is truthy: `importChunk` tests the
   * cached value with `if (this.cache[chunkId])`, so a falsy one (null, undefined, 0, '', false)
   * is stored but never a hit.
   */
  type ExportsTruthy = Component -> bool

  /** A resolved chunk: `DeepRequired<Chunk>`. */
  datatype Chunk = Chunk(data: string, token: string)

  /** What the generated `ChunksApi.getChunkById` answers: any field may be absent. */
  datatype ApiChunk = ApiChunk(data: Option<string>, token: Option<string>)

  /** One `getChunkById` request: base path, project id, chunk id and Authorization header. */
  datatype ApiRequest = ApiRequest(host: string, projectId: string, chunkId: string, authorization: string)

  /** The network, as a function from request to reply or error message. */
  type Api = ApiRequest -> Result<ApiChunk>

  /** The values the build inlines as `process.env.__RECHUNK_*__`. */
  datatype BuildEnv = BuildEnv(host: string, project: string, readKey: string,
                               global: Option<CustomRequire>, publicKey: string)

  datatype Resolver = DefaultResolver | CustomResolver(f: string -> Result<Chunk>)

  /** `Configuration`: every field optional. */
  datatype Configuration = Configuration(resolver: Option<Resolver>, verify: Option<bool>,
                                         global: Option<CustomRequire>, publicKey: Option<string>)

  const FetchFailed: string := "[ReChunk]: Failed to fetch chunk: "
  const InvalidChunkId: string := "[ReChunk]: Invalid chunkId provided"
  const CannotVerify: string := "cannot verify hash"

  /** `btoa`: base64 of the Latin-1 bytes of a string; a character above U+00FF throws. */
  function Btoa(s: string): (r: Result<string>)
    ensures r.Ok? <==> forall i :: 0 <= i < |s| ==> s[i] as int < 256
  {
    if forall i :: 0 <= i < |s| ==> s[i] as int < 256 then
      Ok(Base64.Encode(seq(|s|, i requires 0 <= i < |s| => s[i] as int as Byte)))
    else Err("InvalidCharacterError")
  }

  /**
   * The default resolver: an empty id is rejected before any request; a reply without `data`
   * or `token` is rejected; every error is rethrown wrapped in "Failed to fetch chunk: ".
   */
  function DefaultResolve(api: Api, env: BuildEnv, chunkId: string): (r: Result<Chunk>)
    ensures chunkId == "" ==> r == Err(FetchFailed + InvalidChunkId)
    ensures r.Err? ==> |r.error| >= |FetchFailed| && r.error[..|FetchFailed|] == FetchFailed
    ensures r.Ok? ==> r.value.data != "" && r.value.token != ""
  {
    if chunkId == "" then Err(FetchFailed + InvalidChunkId)
    else match Btoa(env.project + ":" + env.readKey)
      case Err(e) => Err(FetchFailed + e)
      case Ok(credentials) =>
        match api(ApiRequest(env.host, env.project, chunkId, "Basic " + credentials))
        case Err(e) => Err(FetchFailed + e)
        case Ok(reply) =>
          if reply.data.None? || reply.data.value == "" || reply.token.None? || reply.token.value == "" then
            Err(FetchFailed + "[ReChunk]: Failed to fetch chunk with ID " + chunkId)
          else Ok(Chunk(reply.data.value, reply.token.value))
  }

  function Resolve(resolver: Resolver, api: Api, env: BuildEnv, chunkId: string): Result<Chunk> {
    match resolver
    case DefaultResolver => DefaultResolve(api, env, chunkId)
    case CustomResolver(f) => f(chunkId)
  }

  /** The fields of a manager that `importChunk` reads. */
  datatype State = State(cache: map<string, Component>, resolver: Resolver,
                         global: Option<CustomRequire>, verify: bool, publicKey: string)

  /**
   * What one `importChunk(chunkId)` does: its result, the cache afterwards, whether the resolver
   * was called, and the event emitted, if any.
   */
  datatype Outcome = Outcome(result: Result<Component>, cache: map<string, Component>,
                             resolved: bool, emitted: Option<string>)

  /** `chunkToComponent`: `Object.keys(this.global)` throws when no global object is set. */
  function Instantiate(st: State, chunkId: string, code: string, resolved: bool): Outcome {
    match st.global
    case None => Outcome(Err("TypeError: Cannot convert undefined or null to object"), st.cache, resolved, None)
    case Some(g) =>
      var c := Component(g, code);
      Outcome(Ok(c), st.cache[chunkId := c], resolved, Some(chunkId))
  }

  /** `this.cache[chunkId]` is truthy. */
  predicate CacheHit(st: State, truthy: ExportsTruthy, chunkId: string) {
    chunkId in st.cache && truthy(st.cache[chunkId])
  }

  /** The specification of `importChunk`. */
  function ImportSpec(st: State, truthy: ExportsTruthy, api: Api, env: BuildEnv, suite: Suite,
                      chunkId: string): Outcome {
    if CacheHit(st, truthy, chunkId) then Outcome(Ok(st.cache[chunkId]), st.cache, false, None)
    else match Resolve(st.resolver, api, env, chunkId)
      case Err(e) => Outcome(Err(e), st.cache, true, None)
      case Ok(chunk) =>
        if !st.verify then Instantiate(st, chunkId, chunk.data, true)
        else match Integrity.Checker(suite, "sha256", "RS256", st.publicKey).Verify(chunk.data, chunk.token)
          case Err(e) => Outcome(Err(e), st.cache, true, None)
          case Ok(verified) =>
            if !verified then Outcome(Err(CannotVerify), st.cache, true, None)
            else Instantiate(st, chunkId, chunk.data, true)
  }

  /** A cached component is returned as it is; nothing is resolved, emitted or changed. */
  lemma CacheHitDoesNotResolve(st: State, truthy: ExportsTruthy, api: Api, env: BuildEnv, suite: Suite, chunkId: string)
    requires chunkId in st.cache && truthy(st.cache[chunkId])
    ensures ImportSpec(st, truthy, api, env, suite, chunkId)
         == Outcome(Ok(st.cache[chunkId]), st.cache, false, None)
  {
  }

  /** With verification on, a chunk whose token does not vouch for it throws and is not cached. */
  lemma FailedIntegrityThrows(st: State, truthy: ExportsTruthy, api: Api, env: BuildEnv, suite: Suite, chunkId: string)
    requires !CacheHit(st, truthy, chunkId) && st.verify
    requires Resolve(st.resolver, api, env, chunkId).Ok?
    requires var ch := Resolve(st.resolver, api, env, chunkId).value;
             Integrity.Checker(suite, "sha256", "RS256", st.publicKey).Verify(ch.data, ch.token) == Ok(false)
    ensures ImportSpec(st, truthy, api, env, suite, chunkId) == Outcome(Err(CannotVerify), st.cache, true, None)
  {
  }

  /**
   * Whatever the path, a successful import leaves the component under `chunkId` and no other key
   * changed; a fresh instantiation emits exactly `chunkId`, and a failure changes nothing.
   */
  lemma ImportEffects(st: State, truthy: ExportsTruthy, api: Api, env: BuildEnv, suite: Suite, chunkId: string)
    ensures var out := ImportSpec(st, truthy, api, env, suite, chunkId);
      (out.result.Ok? ==> out.cache == st.cache[chunkId := out.result.value])
      && (out.result.Ok? && !CacheHit(st, truthy, chunkId) ==> out.emitted == Some(chunkId))
      && (out.result.Err? ==> out.cache == st.cache && out.emitted == None)
      && (out.emitted.Some? ==> out.emitted == Some(chunkId) && out.resolved)
  {
    if CacheHit(st, truthy, chunkId) {
      assert st.cache[chunkId := st.cache[chunkId]] == st.cache;
    }
  }

  /** With verification off, the resolved code is instantiated without looking at its token. */
  lemma VerifyOffSkipsCheck(st: State, truthy: ExportsTruthy, api: Api, env: BuildEnv, suite: Suite, chunkId: string)
    requires !CacheHit(st, truthy, chunkId) && !st.verify && st.global.Some?
    requires Resolve(st.resolver, api, env, chunkId).Ok?
    ensures ImportSpec(st, truthy, api, env, suite, chunkId).result
         == Ok(Component(st.global.value, Resolve(st.resolver, api, env, chunkId).value.data))
  {
  }

  /**
   * A second import of an id whose first import succeeded is served from the cache exactly when
   * the component's exports are truthy; otherwise the resolver is called again.
   */
  lemma SecondImportDoesNotResolve(st: State, truthy: ExportsTruthy, api: Api, env: BuildEnv, suite: Suite, chunkId: string)
    requires ImportSpec(st, truthy, api, env, suite, chunkId).result.Ok?
    ensures var first := ImportSpec(st, truthy, api, env, suite, chunkId);
            var second := ImportSpec(st.(cache := first.cache), truthy, api, env, suite, chunkId);
            && (second.resolved <==> !truthy(first.result.value))
            && (truthy(first.result.value) ==> second.result == first.result && second.cache == first.cache)
  {
    ImportEffects(st, truthy, api, env, suite, chunkId);
  }

  /**
   * A cached component whose exports are falsy is no hit: the import resolves again and ends as
   * it would with nothing cached under the id.
   */
  lemma FalsyExportsResolveAgain(st: State, truthy: ExportsTruthy, api: Api, env: BuildEnv, suite: Suite, chunkId: string)
    requires chunkId in st.cache && !truthy(st.cache[chunkId])
    ensures var again := ImportSpec(st, truthy, api, env, suite, chunkId);
            var uncached := ImportSpec(st.(cache := st.cache - {chunkId}), truthy, api, env, suite, chunkId);
            again.resolved && again.result == uncached.result && again.emitted == uncached.emitted
  {
  }

  /** The manager; `emitted` records the events `emit(chunkId)` raises, in order. */
  class ChunkManager {
    var cache: map<string, Component>
    var resolver: Resolver
    var global: Option<CustomRequire>
    var verify: bool
    var publicKey: string
    var emitted: seq<string>
    /** The ids the resolver has been called with, in order. */
    ghost var resolved: seq<string>
    const api: Api
    const env: BuildEnv
    const suite: Suite
    const truthy: ExportsTruthy

    /** The field initialisers: an empty cache, the default resolver, verification on. */
    constructor (api: Api, env: BuildEnv, suite: Suite, truthy: ExportsTruthy)
      ensures this.api == api && this.env == env && this.suite == suite && this.truthy == truthy
      ensures cache == map[] && resolver == DefaultResolver && verify
      ensures global == env.global && publicKey == env.publicKey
      ensures emitted == [] && resolved == []
    {
      this.api := api;
      this.env := env;
      this.suite := suite;
      this.truthy := truthy;
      cache := map[];
      resolver := DefaultResolver;
      global := env.global;
      verify := true;
      publicKey := env.publicKey;
      emitted := [];
      resolved := [];
    }

    function Snapshot(): State
      reads this
    {
      State(cache, resolver, global, verify, publicKey)
    }

    /**
     * `addConfiguration`: `verify` is taken whenever it is given, `false` included; a resolver or
     * global object whenever given; a public key only when it is non-empty.
     */
    method AddConfiguration(config: Configuration)
      modifies this
      ensures resolver == (if config.resolver.Some? then config.resolver.value else old(resolver))
      ensures verify == (if config.verify.Some? then config.verify.value else old(verify))
      ensures global == (if config.global.Some? then config.global else old(global))
      ensures publicKey == (if config.publicKey.Some? && config.publicKey.value != ""
                            then config.publicKey.value else old(publicKey))
      ensures cache == old(cache) && emitted == old(emitted) && resolved == old(resolved)
    {
      if config.resolver.Some? {
        resolver := config.resolver.value;
      }
      if config.verify.Some? {
        verify := config.verify.value;
      }
      if config.global.Some? {
        global := config.global;
      }
      if config.publicKey.Some? && config.publicKey.value != "" {
        publicKey := config.publicKey.value;
      }
    }

    /** `chunkToComponent`: instantiate, cache under `chunkId`, emit `chunkId`. */
    method ChunkToComponent(chunkId: string, code: string) returns (r: Result<Component>)
      modifies this
      ensures var out := Instantiate(old(Snapshot()), chunkId, code, false);
              r == out.result && cache == out.cache
              && emitted == old(emitted) + (if out.emitted.Some? then [chunkId] else [])
      ensures resolver == old(resolver) && global == old(global) && verify == old(verify)
      ensures publicKey == old(publicKey) && resolved == old(resolved)
    {
      if global.None? {
        return Err("TypeError: Cannot convert undefined or null to object");
      }
      var component := Component(global.value, code);
      cache := cache[chunkId := component];
      emitted := emitted + [chunkId];
      r := Ok(component);
    }

    /** `importChunk`, step by step as the source does it. */
    method ImportChunk(chunkId: string) returns (r: Result<Component>)
      modifies this
      ensures var out := ImportSpec(old(Snapshot()), truthy, api, env, suite, chunkId);
              r == out.result && cache == out.cache
              && emitted == old(emitted) + (if out.emitted.Some? then [out.emitted.value] else [])
              && resolved == old(resolved) + (if out.resolved then [chunkId] else [])
      ensures resolver == old(resolver) && global == old(global) && verify == old(verify)
      ensures publicKey == old(publicKey)
    {
      if chunkId in cache && truthy(cache[chunkId]) {
        return Ok(cache[chunkId]);
      }
      resolved := resolved + [chunkId];
      var chunk := Resolve(resolver, api, env, chunkId);
      if chunk.Err? {
        return Err(chunk.error);
      }
      var checker := Integrity.Checker(suite, "sha256", "RS256", publicKey);
      if verify {
        var verified := checker.Verify(chunk.value.data, chunk.value.token);
        if verified.Err? {
          return Err(verified.error);
        }
        if !verified.value {
          return Err(CannotVerify);
        }
      }
      r := ChunkToComponent(chunkId, chunk.value.data);
    }
  }

  /** The static `instance` slot behind `ChunkManager.shared`. */
  class Registry {
    var instance: Option<ChunkManager>
    const api: Api
    const env: BuildEnv
    const suite: Suite
    const truthy: ExportsTruthy

    constructor (api: Api, env: BuildEnv, suite: Suite, truthy: ExportsTruthy)
      ensures instance == None && this.api == api && this.env == env && this.suite == suite
      ensures this.truthy == truthy
    {
      instance := None;
      this.api := api;
      this.env := env;
      this.suite := suite;
      this.truthy := truthy;
    }

    /** `shared`: the first call creates the manager, every later call returns that one. */
    method Shared() returns (m: ChunkManager)
      modifies this
      ensures old(instance).Some? ==> m == old(instance).value
      ensures old(instance).None? ==> fresh(m) && m.cache == map[] && m.verify && m.emitted == []
      ensures instance == Some(m)
    {
      if instance.None? {
        var created := new ChunkManager(api, env, suite, truthy);
        instance := Some(created);
      }
      m := instance.value;
    }
  }
}
