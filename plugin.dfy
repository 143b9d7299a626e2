/** The records of `src/lib.rs` and the environment the plugin observes.

    Everything the plugin learns from the outside world is a field of `Env`:
    which paths exist, the text of the files it can read, which tools `which`
    finds, whether rustup reports the wasm32 target, what each subprocess
    invocation does, and what `toml::from_str` makes of a manifest. Every
    operation of the plugin is then a deterministic function of an `Env`. */
module Plugin {
  import opened RustStd

  /** `WasmRustError`. The I/O and TOML diagnostics are not modelled. */
  datatype Error =
    | Io
    | CompilationFailed(message: string)
    | InvalidProject(message: string)
    | ToolNotFound(message: string)
    | TomlParse

  datatype Result<T> = Ok(value: T) | Err(error: Error)

  datatype OptimizationLevel = Debug | Release | Size

  datatype TargetType = Wasm | WebApp

  datatype CompileConfig = CompileConfig(
    projectPath: string,
    outputDir: string,
    optimization: OptimizationLevel,
    targetType: TargetType,
    verbose: bool)

  datatype CompileResult = CompileResult(
    wasmPath: string,
    jsPath: Option<string>,
    additionalFiles: seq<string>,
    isWebapp: bool)

  datatype ProjectType = StandardWasm | WasmBindgen | WebApplication

  datatype BuildStrategy = Cargo | WasmPack | Trunk

  datatype DependencyCheck = DependencyCheck(name: string, available: bool, reason: string)

  datatype DependencyStatus = DependencyStatus(required: seq<DependencyCheck>, optional: seq<DependencyCheck>)

  datatype ProjectInfo = ProjectInfo(
    name: string,
    version: string,
    projectType: ProjectType,
    buildStrategy: BuildStrategy,
    frameworks: seq<string>,
    dependencies: DependencyStatus)

  /** The `[package]` table fields that `CargoTomlFull` deserialises. */
  datatype Package = Package(name: string, version: string)

  /** One subprocess invocation: program, arguments, and the working
      directory when `current_dir` is set. */
  datatype Command = Command(program: string, args: seq<string>, cwd: Option<string>)

  /** What `Command::output()` gives back: the process ran and exited
      (success flag, captured stderr, and the paths it left behind), or it
      could not be started at all. */
  datatype ProcessOutput =
    | Exited(success: bool, stderr: string, created: set<string>)
    | SpawnFailed

  datatype Env = Env(
    paths: set<string>,
    files: map<string, string>,
    tools: set<string>,
    wasmTargetInstalled: bool,
    exec: Command -> ProcessOutput,
    parse: string -> Option<Package>)

  /** The compilation target the plugin builds for and probes rustup for. */
  const WasmTarget: string := "wasm32-unknown-unknown"

  /** `Path::new(project_path).join("Cargo.toml")`. */
  function ManifestPath(projectPath: string): string {
    Join(projectPath, "Cargo.toml")
  }

  /** `fs::read_to_string`: the text of a readable file, `None` otherwise. */
  function ReadFile(env: Env, path: string): Option<string> {
    if path in env.files then Some(env.files[path]) else None
  }

  function ReadManifest(env: Env, projectPath: string): Option<string> {
    ReadFile(env, ManifestPath(projectPath))
  }

  /** `is_tool_available`: `which tool` succeeds. */
  predicate ToolAvailable(env: Env, tool: string) {
    tool in env.tools
  }

  /** `output.status.success()`. */
  predicate Succeeded(out: ProcessOutput) {
    out.Exited? && out.success
  }

  /** The paths a finished invocation leaves behind. */
  function Created(out: ProcessOutput): set<string> {
    if out.Exited? then out.created else {}
  }

  /** The error a build step reports for an invocation that did not
      succeed: `?` on a spawn failure gives `Io`, a non-zero exit gives
      `CompilationFailed` carrying `prefix` followed by the captured stderr. */
  function StepFailure(out: ProcessOutput, prefix: string): (e: Error)
    requires !Succeeded(out)
    ensures out.SpawnFailed? <==> e == Io
    ensures out.Exited? ==> e.CompilationFailed? && StartsWith(e.message, prefix)
                            && e.message[|prefix|..] == out.stderr
  {
    if out.SpawnFailed? then Io else CompilationFailed(prefix + out.stderr)
  }

  /** `can_handle`: the project root holds a `Cargo.toml`. For a project
      path without a trailing `/` that is exactly `<project>/Cargo.toml`
      existing; in every case an existing path under the project path named
      `Cargo.toml` is then at hand. */
  predicate CanHandle(env: Env, projectPath: string)
    ensures projectPath != [] && projectPath[|projectPath| - 1] != '/' ==>
              (CanHandle(env, projectPath) <==> projectPath + "/Cargo.toml" in env.paths)
    ensures CanHandle(env, projectPath) ==>
              exists q :: q in env.paths && StartsWith(q, projectPath) && EndsWith(q, "Cargo.toml")
  {
    assert !StartsWith("Cargo.toml", "/") by { assert "Cargo.toml"[..1] == "C"; }
    assert projectPath + "/" + "Cargo.toml" == projectPath + "/Cargo.toml";
    ManifestPath(projectPath) in env.paths
  }

  /** `get_package_name`: read and parse the manifest again and replace
      every `-` of the package name by `_`. */
  function PackageName(env: Env, projectPath: string): (r: Result<string>)
    ensures ReadManifest(env, projectPath).None? ==> r == Err(Io)
    ensures ReadManifest(env, projectPath).Some? && env.parse(ReadManifest(env, projectPath).value).None?
            ==> r == Err(TomlParse)
    ensures r.Ok? <==> ReadManifest(env, projectPath).Some? && env.parse(ReadManifest(env, projectPath).value).Some?
    ensures r.Ok? ==>
              var name := env.parse(ReadManifest(env, projectPath).value).value.name;
              && '-' !in r.value
              && |r.value| == |name|
              && forall i :: 0 <= i < |name| ==> r.value[i] == (if name[i] == '-' then '_' else name[i])
  {
    match ReadManifest(env, projectPath)
    case None => Err(Io)
    case Some(text) =>
      match env.parse(text)
      case None => Err(TomlParse)
      case Some(pkg) =>
        ReplaceCharRemoves(pkg.name, '-', '_');
        Ok(ReplaceChar(pkg.name, '-', '_'))
  }
}
