/**
 * The decision rules of the Babel plugin of `packages/babel-plugin/src/index.ts`: the file cache
 * behind `getCachedJson`, the `importChunk` rewrite of the offline mode, and the replacement of
 * `process.env.__RECHUNK_*__` reads. The syntax tree appears only as much as the rules look at it.
 */
module BabelPlugin {
  import opened Wrappers
  import opened Json
  import Paths
  import Utils
  import Workspace

  const RechunkConfigKey: string := "@crherman7+rechunk+config+json"
  const RechunkPackageKey: string := "@crherman7+rechunk+package+json"
  const ExtraDependencies: seq<string> := ["tslib"]
  const DevServerHost: string := "http://localhost:49904"

  // ---------------------------------------------------------------------------------------
  // getCachedJson

  /**
   * `getCachedJson` on the cache contents: a truthy cached value is returned as it is; a missing
   * or falsy one is searched for (`found`, the result of `findClosestJSON`) and stored.
   */
  function CacheLookup(entries: map<string, Json>, key: string, found: Json): (r: (Json, map<string, Json>))
    ensures key in entries && entries[key].Truthy() ==> r == (entries[key], entries)
    ensures !(key in entries && entries[key].Truthy()) ==> r == (found, entries[key := found])
  {
    if key in entries && entries[key].Truthy() then (entries[key], entries)
    else (found, entries[key := found])
  }

  /** Once a key holds a truthy value, later lookups return it without searching again. */
  lemma SearchedAtMostOnce(entries: map<string, Json>, key: string, found: Json, found': Json)
    requires CacheLookup(entries, key, found).0.Truthy()
    ensures var (first, after) := CacheLookup(entries, key, found);
            CacheLookup(after, key, found') == (first, after)
  {
  }

  /** A lookup changes no other key of the cache. */
  lemma LookupKeepsOtherKeys(entries: map<string, Json>, key: string, found: Json, other: string)
    requires other != key
    ensures var after := CacheLookup(entries, key, found).1;
            (other in after <==> other in entries) && (other in entries ==> after[other] == entries[other])
  {
  }

  /** The `fileCache` map of the plugin instance. */
  class FileCache {
    var entries: map<string, Json>

    constructor ()
      ensures entries == map[]
    {
      entries := map[];
    }

    /**
     * `getCachedJson(key, jsonFilename)`; `load` and `cwd` are the file system and
     * `process.cwd()` of the search `findClosestJSON` makes from level 0.
     */
    method GetCachedJson(key: string, jsonFilename: string,
                         load: (string, string) -> Option<Json>, cwd: string)
      returns (json: Json)
      modifies this
      ensures (json, entries) == CacheLookup(old(entries), key, Utils.FindClosestJson(load, jsonFilename, cwd, 0))
    {
      var jsonData: Option<Json> := if key in entries then Some(entries[key]) else None;
      if jsonData.None? || !jsonData.value.Truthy() {
        json := Utils.FindClosestJson(load, jsonFilename, cwd, 0);
        entries := entries[key := json];
      } else {
        json := jsonData.value;
      }
    }
  }

  // ---------------------------------------------------------------------------------------
  // The CallExpression visitor

  /** The parts of an expression the visitors look at. */
  datatype Expr = Identifier(name: string) | StringLiteral(value: string) | Import | OtherExpr

  datatype Call = Call(callee: Expr, arguments: seq<Expr>)

  /** Why a visitor throws and so fails the build. */
  datatype Failure =
    | ChunkEntryMissing(chunkKey: string)
    | ChunkFileMissing(chunkKey: string, targetFilePath: string)
    | EntryUnreadable
    | TargetNotString
    | DevServerMissing
    | DevServerCheckFailed(message: string)

  datatype Visited<T> = Done(node: T) | Threw(failure: Failure)

  /** `rechunkJson.entry[chunkKey]`: reading a key of `undefined` or `null` throws. */
  function EntryTarget(rechunkJson: Json, chunkKey: string): (r: Visited<Option<Json>>)
    ensures r.Threw? <==> rechunkJson.Get("entry").None? || rechunkJson.Get("entry") == Some(JNull)
    ensures r.Done? ==> r.node == rechunkJson.Get("entry").value.Get(chunkKey)
  {
    match rechunkJson.Get("entry")
    case None => Threw(EntryUnreadable)
    case Some(entry) => if entry == JNull then Threw(EntryUnreadable) else Done(entry.Get(chunkKey))
  }

  /**
   * The CallExpression visitor. `environment` is `RECHUNK_ENVIRONMENT`, `rechunkJson` what
   * `getCachedJson` gives for `rechunk.json`, `fileExists` is `existsSync` and `relative` is
   * `path.relative`.
   */
  function RewriteImportChunk(environment: Option<string>, call: Call, rechunkJson: Json,
                              cwd: string, currentFilePath: string,
                              fileExists: string -> bool, relative: (string, string) -> string)
    : (r: Visited<Call>)
  {
    if environment != Some("offline") then Done(call)
    else if !(call.callee == Identifier("importChunk") && |call.arguments| > 0 && call.arguments[0].StringLiteral?) then
      Done(call)
    else
      var chunkKey := call.arguments[0].value;
      match EntryTarget(rechunkJson, chunkKey)
      case Threw(f) => Threw(f)
      case Done(target) =>
        if target.None? || !target.value.Truthy() then Threw(ChunkEntryMissing(chunkKey))
        else if !target.value.JString? then Threw(TargetNotString)
        else
          var targetFilePath := Paths.JoinPath(cwd, target.value.s);
          if !fileExists(targetFilePath) then Threw(ChunkFileMissing(chunkKey, targetFilePath))
          else Done(Call(Import, [StringLiteral(relative(Paths.Dirname(currentFilePath), targetFilePath))]))
  }

  /** Only an offline build with `importChunk('literal')` changes a call; every other call is kept. */
  lemma ImportChunkOnlyOffline(environment: Option<string>, call: Call, rechunkJson: Json,
                               cwd: string, currentFilePath: string,
                               fileExists: string -> bool, relative: (string, string) -> string)
    requires RewriteImportChunk(environment, call, rechunkJson, cwd, currentFilePath, fileExists, relative) != Done(call)
    ensures environment == Some("offline")
    ensures call.callee == Identifier("importChunk") && |call.arguments| > 0 && call.arguments[0].StringLiteral?
  {
  }

  /**
   * A rewritten call is `import(p)` where `p` leads from the current file's directory to the
   * configured entry of the chunk, and that file exists.
   */
  lemma ImportChunkTarget(environment: Option<string>, call: Call, rechunkJson: Json,
                          cwd: string, currentFilePath: string,
                          fileExists: string -> bool, relative: (string, string) -> string)
    requires var r := RewriteImportChunk(environment, call, rechunkJson, cwd, currentFilePath, fileExists, relative);
             r.Done? && r.node != call
    ensures var chunkKey := call.arguments[0].value;
            var entry := rechunkJson.Get("entry").value.Get(chunkKey);
            && entry.Some? && entry.value.JString? && entry.value.s != ""
            && var target := Paths.JoinPath(cwd, entry.value.s);
            && fileExists(target)
            && RewriteImportChunk(environment, call, rechunkJson, cwd, currentFilePath, fileExists, relative)
               == Done(Call(Import, [StringLiteral(relative(Paths.Dirname(currentFilePath), target))]))
  {
  }

  /** In an offline build, a chunk key without an entry fails the build. */
  lemma MissingEntryThrows(call: Call, rechunkJson: Json, cwd: string, currentFilePath: string,
                           fileExists: string -> bool, relative: (string, string) -> string)
    requires call.callee == Identifier("importChunk") && |call.arguments| > 0 && call.arguments[0].StringLiteral?
    requires rechunkJson.Get("entry").Some? && rechunkJson.Get("entry").value.JObject?
    requires rechunkJson.Get("entry").value.Get(call.arguments[0].value).None?
    ensures RewriteImportChunk(Some("offline"), call, rechunkJson, cwd, currentFilePath, fileExists, relative)
         == Threw(ChunkEntryMissing(call.arguments[0].value))
  {
  }

  /** In an offline build, an entry naming a file that does not exist fails the build. */
  lemma MissingFileThrows(call: Call, rechunkJson: Json, cwd: string, currentFilePath: string,
                          fileExists: string -> bool, relative: (string, string) -> string, target: string)
    requires call.callee == Identifier("importChunk") && |call.arguments| > 0 && call.arguments[0].StringLiteral?
    requires rechunkJson.Get("entry").Some?
    requires rechunkJson.Get("entry").value.Get(call.arguments[0].value) == Some(JString(target))
    requires target != "" && !fileExists(Paths.JoinPath(cwd, target))
    ensures RewriteImportChunk(Some("offline"), call, rechunkJson, cwd, currentFilePath, fileExists, relative)
         == Threw(ChunkFileMissing(call.arguments[0].value, Paths.JoinPath(cwd, target)))
  {
  }

  /** The CallExpression visitor with its cache lookup, which happens only for a rewritten call. */
  method VisitCall(cache: FileCache, environment: Option<string>, call: Call,
                   load: (string, string) -> Option<Json>, cwd: string, currentFilePath: string,
                   fileExists: string -> bool, relative: (string, string) -> string)
    returns (r: Visited<Call>)
    modifies cache
    ensures var offlineImport := environment == Some("offline") && call.callee == Identifier("importChunk")
                                 && |call.arguments| > 0 && call.arguments[0].StringLiteral?;
            && (!offlineImport ==> r == Done(call) && cache.entries == old(cache.entries))
            && (offlineImport ==>
                  var (rechunkJson, after) := CacheLookup(old(cache.entries), RechunkConfigKey,
                                                         Utils.FindClosestJson(load, "rechunk.json", cwd, 0));
                  cache.entries == after
                  && r == RewriteImportChunk(environment, call, rechunkJson, cwd, currentFilePath, fileExists, relative))
  {
    if environment != Some("offline") {
      return Done(call);
    }
    if !(call.callee == Identifier("importChunk") && |call.arguments| > 0 && call.arguments[0].StringLiteral?) {
      return Done(call);
    }
    var rechunkJson := cache.GetCachedJson(RechunkConfigKey, "rechunk.json", load, cwd);
    r := RewriteImportChunk(environment, call, rechunkJson, cwd, currentFilePath, fileExists, relative);
  }

  // ---------------------------------------------------------------------------------------
  // The MemberExpression visitor

  /**
   * The function `{require: function (moduleId) {...}}` holds: one `if (moduleId === d) return
   * require(d)` per allowed id, then `return null`.
   */
  function RunRequire(allowed: seq<string>, moduleId: string): Option<string> {
    if |allowed| == 0 then None
    else if moduleId == allowed[0] then Some(allowed[0])
    else RunRequire(allowed[1..], moduleId)
  }

  /** The generated `require` loads exactly the allowed ids, each as itself, and gives null otherwise. */
  lemma {:induction false} RunRequireMeaning(allowed: seq<string>, moduleId: string)
    ensures RunRequire(allowed, moduleId) == (if moduleId in allowed then Some(moduleId) else None)
    decreases |allowed|
  {
    if |allowed| > 0 && moduleId != allowed[0] {
      RunRequireMeaning(allowed[1..], moduleId);
      assert moduleId in allowed <==> moduleId in allowed[1..];
    }
  }

  /** `Object.keys(packageJson.dependencies || {})`, one name per member. */
  function DependencyNames(packageJson: Json): (names: seq<string>)
    ensures var deps := packageJson.Get("dependencies");
            deps.Some? && deps.value.JObject? ==>
              forall i :: 0 <= i < |deps.value.members| ==> deps.value.members[i].0 in names
  {
    var deps := packageJson.Get("dependencies");
    if deps.Some? && deps.value.JObject? then Keys(deps.value.members) else []
  }

  function Keys(members: seq<(string, Json)>): (keys: seq<string>)
    ensures |keys| == |members| && forall i :: 0 <= i < |members| ==> keys[i] == members[i].0
  {
    seq(|members|, i requires 0 <= i < |members| => members[i].0)
  }

  /** `rechunkJson.external || []` for an array of module names. */
  function ExternalNames(rechunkJson: Json): (names: seq<string>)
    ensures var ext := rechunkJson.Get("external");
            ext.Some? && ext.value.JArray? ==>
              forall i :: 0 <= i < |ext.value.items| && ext.value.items[i].JString? ==> ext.value.items[i].s in names
  {
    var ext := rechunkJson.Get("external");
    if ext.Some? && ext.value.JArray? then Strings(ext.value.items) else []
  }

  function Strings(items: seq<Json>): (names: seq<string>)
    ensures forall i :: 0 <= i < |items| && items[i].JString? ==> items[i].s in names
    ensures forall n :: n in names ==> JString(n) in items
  {
    if |items| == 0 then []
    else if items[0].JString? then [items[0].s] + Strings(items[1..])
    else Strings(items[1..])
  }

  /** The ids the generated `require` accepts: dependencies, externals, then `tslib`. */
  function AllowList(rechunkJson: Json, packageJson: Json): seq<string> {
    DependencyNames(packageJson) + ExternalNames(rechunkJson) + ExtraDependencies
  }

  /** `tslib` is always loadable, whatever the configuration. */
  lemma TslibAlwaysAllowed(rechunkJson: Json, packageJson: Json)
    ensures RunRequire(AllowList(rechunkJson, packageJson), "tslib") == Some("tslib")
  {
    RunRequireMeaning(AllowList(rechunkJson, packageJson), "tslib");
    assert AllowList(rechunkJson, packageJson)[|AllowList(rechunkJson, packageJson)| - 1] == "tslib";
  }

  /**
   * Where a `process.env.NAME` read sits: the name (None when not an identifier) and whether the
   * node enclosing the `process.env.NAME` member expression is an AssignmentExpression, with the
   * read on either side of it.
   */
  datatype EnvRead = EnvRead(name: Option<string>, inAssignment: bool)

  /** What the read is replaced by: a string literal of a configuration field, or the `require` object. */
  datatype Replacement =
    | Keep
    | ConfigLiteral(field: Option<Json>)
    | HostLiteral(host: string)
    | RequireObject(allowed: seq<string>)

  /**
   * The MemberExpression visitor on a `process.env.NAME` read. `devServerRunning` is what
   * `isRechunkDevServerRunning` gives, an error when it throws.
   */
  function RewriteEnvRead(read: EnvRead, environment: Option<string>, rechunkJson: Json, packageJson: Json,
                          devServerRunning: Result<bool>): (r: Visited<Replacement>)
    ensures r.Done? && r.node.ConfigLiteral? ==>
              (read.name == Some("__RECHUNK_PROJECT__") && !read.inAssignment && r.node.field == rechunkJson.Get("project"))
              || (read.name == Some("__RECHUNK_READ_KEY__") && !read.inAssignment && r.node.field == rechunkJson.Get("readKey"))
              || (read.name == Some("__RECHUNK_HOST__") && !read.inAssignment && r.node.field == rechunkJson.Get("host"))
              || (read.name == Some("__RECHUNK_PUBLIC_KEY__") && read.inAssignment && r.node.field == rechunkJson.Get("publicKey"))
    ensures r.Done? && r.node.RequireObject? ==>
              read.name == Some("__RECHUNK_GLOBAL__") && read.inAssignment
              && r.node.allowed == AllowList(rechunkJson, packageJson)
  {
    var dev := environment == Some("dev");
    var prod := environment == Some("prod") || environment.None? || environment == Some("");
    match read.name
    case None => Done(Keep)
    case Some(name) =>
      if name == "__RECHUNK_PROJECT__" && !read.inAssignment then Done(ConfigLiteral(rechunkJson.Get("project")))
      else if name == "__RECHUNK_READ_KEY__" && !read.inAssignment then Done(ConfigLiteral(rechunkJson.Get("readKey")))
      else if name == "__RECHUNK_HOST__" && !read.inAssignment then
        if prod then Done(ConfigLiteral(rechunkJson.Get("host")))
        else if !dev then Done(Keep)
        else match devServerRunning
          case Err(e) => Threw(DevServerCheckFailed(e))
          case Ok(running) => if !running then Threw(DevServerMissing) else Done(HostLiteral(DevServerHost))
      else if name == "__RECHUNK_GLOBAL__" && read.inAssignment then Done(RequireObject(AllowList(rechunkJson, packageJson)))
      else if name == "__RECHUNK_PUBLIC_KEY__" && read.inAssignment then Done(ConfigLiteral(rechunkJson.Get("publicKey")))
      else Done(Keep)
  }

  /** The project and read key are replaced only where they are read, not where they are assigned. */
  lemma ProjectAndReadKeyOutsideAssignments(name: string, environment: Option<string>, rechunkJson: Json,
                                            packageJson: Json, devServerRunning: Result<bool>)
    requires name == "__RECHUNK_PROJECT__" || name == "__RECHUNK_READ_KEY__"
    ensures RewriteEnvRead(EnvRead(Some(name), true), environment, rechunkJson, packageJson, devServerRunning) == Done(Keep)
    ensures RewriteEnvRead(EnvRead(Some(name), false), environment, rechunkJson, packageJson, devServerRunning)
         == Done(ConfigLiteral(rechunkJson.Get(if name == "__RECHUNK_PROJECT__" then "project" else "readKey")))
  {
  }

  /** The global and public key are replaced only where they are assigned. */
  lemma GlobalAndPublicKeyInsideAssignments(name: string, environment: Option<string>, rechunkJson: Json,
                                            packageJson: Json, devServerRunning: Result<bool>)
    requires name == "__RECHUNK_GLOBAL__" || name == "__RECHUNK_PUBLIC_KEY__"
    ensures RewriteEnvRead(EnvRead(Some(name), false), environment, rechunkJson, packageJson, devServerRunning) == Done(Keep)
    ensures RewriteEnvRead(EnvRead(Some(name), true), environment, rechunkJson, packageJson, devServerRunning)
         == Done(if name == "__RECHUNK_GLOBAL__" then RequireObject(AllowList(rechunkJson, packageJson))
                 else ConfigLiteral(rechunkJson.Get("publicKey")))
  {
  }

  /** The host read: the configured host in `prod` or with no environment; the dev server in `dev`, if it runs. */
  lemma HostByEnvironment(environment: Option<string>, rechunkJson: Json, packageJson: Json, devServerRunning: Result<bool>)
    ensures var r := RewriteEnvRead(EnvRead(Some("__RECHUNK_HOST__"), false), environment, rechunkJson, packageJson,
                                   devServerRunning);
            && (environment == Some("prod") || environment.None? || environment == Some("")
                ==> r == Done(ConfigLiteral(rechunkJson.Get("host"))))
            && (environment == Some("dev") && devServerRunning == Ok(true) ==> r == Done(HostLiteral(DevServerHost)))
            && (environment == Some("dev") && devServerRunning == Ok(false) ==> r == Threw(DevServerMissing))
            && (environment.Some? && environment.value !in {"", "prod", "dev"} ==> r == Done(Keep))
  {
  }

  /** The generated `require(m)` returns a module exactly for the allowed ids and null for any other. */
  lemma GeneratedRequireAllowList(read: EnvRead, environment: Option<string>, rechunkJson: Json, packageJson: Json,
                                  devServerRunning: Result<bool>, moduleId: string)
    requires var r := RewriteEnvRead(read, environment, rechunkJson, packageJson, devServerRunning);
             r.Done? && r.node.RequireObject?
    ensures var allowed := RewriteEnvRead(read, environment, rechunkJson, packageJson, devServerRunning).node.allowed;
            && (RunRequire(allowed, moduleId).Some?
                <==> (moduleId in DependencyNames(packageJson) || moduleId in ExternalNames(rechunkJson) || moduleId == "tslib"))
            && (RunRequire(allowed, moduleId).Some? ==> RunRequire(allowed, moduleId) == Some(moduleId))
  {
    RunRequireMeaning(AllowList(rechunkJson, packageJson), moduleId);
  }

  /**
   * The dev-server test the plugin's `lib` makes, on the process list (`Utils.ListProcesses`,
   * the same parsing as `ps.ts`) and the workspace of `workspace.ts`; a throw of either propagates.
   */
  function DevServerRunning(processes: Result<seq<Utils.ProcessInfo>>, workspaceDir: Result<Option<string>>)
    : (r: Result<bool>)
    ensures processes.Err? ==> r == Err(processes.error)
    ensures processes.Ok? && workspaceDir.Err? ==> r == Err(workspaceDir.error)
    ensures r == Ok(true) <==> processes.Ok? && workspaceDir.Ok?
                               && exists i :: 0 <= i < |processes.value|
                                              && Utils.IsDevServer(processes.value[i], workspaceDir.value)
  {
    match processes
    case Err(e) => Err(e)
    case Ok(list) =>
      match workspaceDir
      case Err(e) => Err(e)
      case Ok(dir) => Ok(Utils.AnyDevServer(list, dir))
  }

  /**
   * The MemberExpression visitor with its two cache lookups, made for every `process.env.NAME`
   * read whose parent is a member expression, before the name is looked at.
   */
  method VisitEnvRead(cache: FileCache, read: EnvRead, environment: Option<string>,
                      load: (string, string) -> Option<Json>, cwd: string, devServerRunning: Result<bool>)
    returns (r: Visited<Replacement>)
    modifies cache
    ensures var (rechunkJson, middle) := CacheLookup(old(cache.entries), RechunkConfigKey,
                                                    Utils.FindClosestJson(load, "rechunk.json", cwd, 0));
            var (packageJson, after) := CacheLookup(middle, RechunkPackageKey,
                                                   Utils.FindClosestJson(load, "package.json", cwd, 0));
            cache.entries == after
            && r == RewriteEnvRead(read, environment, rechunkJson, packageJson, devServerRunning)
  {
    var rechunkJson := cache.GetCachedJson(RechunkConfigKey, "rechunk.json", load, cwd);
    var packageJson := cache.GetCachedJson(RechunkPackageKey, "package.json", load, cwd);
    r := RewriteEnvRead(read, environment, rechunkJson, packageJson, devServerRunning);
  }
}
