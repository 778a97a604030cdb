/**
 * `findWorkspaceDir` of `packages/babel-plugin/src/lib/workspace.ts`: the pnpm workspace root,
 * from the environment or from the nearest `pnpm-workspace.yaml`. The environment is a map,
 * `find-up` and `realpath` are parameters; `getRealPath` is the one of the utilities package.
 */
module Workspace {
  import opened Wrappers
  import opened Text
  import Paths
  import Utils

  const WorkspaceDirEnvVar: string := "NPM_CONFIG_WORKSPACE_DIR"
  /** `WORKSPACE_DIR_ENV_VAR.toLowerCase()`. */
  const WorkspaceDirEnvVarLower: string := "npm_config_workspace_dir"
  const ManifestName: string := "pnpm-workspace.yaml"
  const MisnamedManifest: string := "pnpm-workspace.yml"

  const BadManifestMessage: string :=
    "BAD_WORKSPACE_MANIFEST_NAME The workspace manifest file should be named \"pnpm-workspace.yaml\". File found: "

  function BadManifestName(location: string): string {
    BadManifestMessage + location
  }

  /** `process.env[NAME] ?? process.env[name]`: `??` passes over an unset variable only. */
  function WorkspaceEnv(env: map<string, string>): (v: Option<string>)
    ensures WorkspaceDirEnvVar in env ==> v == Some(env[WorkspaceDirEnvVar])
    ensures WorkspaceDirEnvVar !in env && WorkspaceDirEnvVarLower in env ==> v == Some(env[WorkspaceDirEnvVarLower])
    ensures v.None? <==> WorkspaceDirEnvVar !in env && WorkspaceDirEnvVarLower !in env
  {
    if WorkspaceDirEnvVar in env then Some(env[WorkspaceDirEnvVar])
    else if WorkspaceDirEnvVarLower in env then Some(env[WorkspaceDirEnvVarLower])
    else None
  }

  /**
   * The manifest location: the manifest inside a non-empty directory from the environment,
   * or what `findUp.sync` finds for either manifest name from the real `cwd` upwards.
   */
  function ManifestLocation(env: map<string, string>, cwd: string,
                            realpath: string -> Option<string>,
                            findUp: (seq<string>, string) -> Option<string>): Option<string> {
    var dir := WorkspaceEnv(env);
    if dir.Some? && dir.value != "" then Some(Paths.JoinPath(dir.value, ManifestName))
    else findUp([ManifestName, MisnamedManifest], Utils.GetRealPath(cwd, realpath))
  }

  /**
   * `findWorkspaceDir(cwd)`: a `.yml` manifest throws; otherwise the manifest's directory, or
   * no directory without a manifest (an empty location is returned as it is, as `&&` does).
   */
  function FindWorkspaceDir(env: map<string, string>, cwd: string,
                            realpath: string -> Option<string>,
                            findUp: (seq<string>, string) -> Option<string>): (r: Result<Option<string>>)
    ensures var loc := ManifestLocation(env, cwd, realpath, findUp);
            && (loc.Some? && EndsWith(loc.value, ".yml") <==> r.Err?)
            && (r.Err? ==> loc.Some? && r.error == BadManifestName(loc.value))
            && (loc.None? ==> r == Ok(None))
            && (loc.Some? && loc.value != "" && !EndsWith(loc.value, ".yml") ==> r == Ok(Some(Paths.Dirname(loc.value))))
  {
    match ManifestLocation(env, cwd, realpath, findUp)
    case None => Ok(None)
    case Some(location) =>
      if EndsWith(location, ".yml") then Err(BadManifestName(location))
      else if location == "" then Ok(Some(""))
      else Ok(Some(Paths.Dirname(location)))
  }

  /** The upper-case variable wins over the lower-case one, and either over the file system. */
  lemma UpperCaseVariableWins(env: map<string, string>, cwd: string, lower: string,
                              realpath: string -> Option<string>, realpath': string -> Option<string>,
                              findUp: (seq<string>, string) -> Option<string>,
                              findUp': (seq<string>, string) -> Option<string>)
    requires WorkspaceDirEnvVar in env && env[WorkspaceDirEnvVar] != ""
    ensures FindWorkspaceDir(env, cwd, realpath, findUp)
         == FindWorkspaceDir(env[WorkspaceDirEnvVarLower := lower], cwd, realpath', findUp')
  {
    var env' := env[WorkspaceDirEnvVarLower := lower];
    assert WorkspaceDirEnvVar in env' && env'[WorkspaceDirEnvVar] == env[WorkspaceDirEnvVar];
  }

  /** A directory from the environment (not the root) is the answer, whatever is on disk. */
  lemma EnvironmentDirectoryIsWorkspace(env: map<string, string>, cwd: string,
                                        realpath: string -> Option<string>,
                                        findUp: (seq<string>, string) -> Option<string>)
    requires WorkspaceEnv(env).Some? && WorkspaceEnv(env).value != "" && WorkspaceEnv(env).value != "/"
    ensures FindWorkspaceDir(env, cwd, realpath, findUp) == Ok(Some(WorkspaceEnv(env).value))
  {
    var dir := WorkspaceEnv(env).value;
    var loc := Paths.JoinPath(dir, ManifestName);
    assert loc[|loc| - 4..] == "yaml";
    Paths.DirnameOfJoin(dir, ManifestName);
  }

  /** A manifest found with the `.yml` extension makes the search throw, naming the file. */
  lemma MisnamedManifestThrows(env: map<string, string>, cwd: string,
                               realpath: string -> Option<string>,
                               findUp: (seq<string>, string) -> Option<string>, dir: string)
    requires WorkspaceEnv(env).None? || WorkspaceEnv(env) == Some("")
    requires findUp([ManifestName, MisnamedManifest], Utils.GetRealPath(cwd, realpath))
             == Some(Paths.JoinPath(dir, MisnamedManifest))
    ensures FindWorkspaceDir(env, cwd, realpath, findUp)
         == Err(BadManifestName(Paths.JoinPath(dir, MisnamedManifest)))
  {
    var loc := Paths.JoinPath(dir, MisnamedManifest);
    assert loc[|loc| - 4..] == ".yml";
  }

  /** A `pnpm-workspace.yaml` found on disk gives its directory. */
  lemma FoundManifestDirectory(env: map<string, string>, cwd: string,
                               realpath: string -> Option<string>,
                               findUp: (seq<string>, string) -> Option<string>, dir: string)
    requires WorkspaceEnv(env).None? || WorkspaceEnv(env) == Some("")
    requires dir != "" && dir != "/"
    requires findUp([ManifestName, MisnamedManifest], Utils.GetRealPath(cwd, realpath))
             == Some(Paths.JoinPath(dir, ManifestName))
    ensures FindWorkspaceDir(env, cwd, realpath, findUp) == Ok(Some(dir))
  {
    var loc := Paths.JoinPath(dir, ManifestName);
    assert loc[|loc| - 4..] == "yaml";
    Paths.DirnameOfJoin(dir, ManifestName);
  }
}
