/** The build paths of `src/lib.rs`: target installation, the cargo,
    wasm-pack and trunk builds, the dispatch between them, and the entry
    point handed back by `run_for_execution`.

    A build is observed through `Build`: the result or error, the set of
    paths that exist afterwards, and the build commands run, in order (the
    `which` and `rustup target list` probes are oracles and are not logged). Each
    `Compile*` method is proved equal to the specification function of the
    same path; `BuildProperties` states what the build code of `src/lib.rs`
    guarantees about those functions. */
module Builder {
  import opened RustStd
  import opened Plugin
  import opened Classifier

  datatype Build<T> = Build(result: Result<T>, paths: set<string>, log: seq<Command>)

  // ---------------------------------------------------------------------
  // Argument vectors and commands
  // ---------------------------------------------------------------------

  function CargoArgs(opt: OptimizationLevel): seq<string> {
    ["build", "--target", WasmTarget] + (if opt == Debug then [] else ["--release"])
  }

  function WasmPackArgs(opt: OptimizationLevel, outputDir: string): seq<string> {
    ["build", "--target", "web", if opt == Debug then "--dev" else "--release", "--out-dir", outputDir]
  }

  function TrunkArgs(opt: OptimizationLevel, outputDir: string): seq<string> {
    ["build"]
    + (match opt case Debug => [] case Release => ["--release"] case Size => ["--release", "--minify"])
    + ["--dist", outputDir]
  }

  const RustupAddTarget: Command := Command("rustup", ["target", "add", WasmTarget], None)

  function CargoCommand(c: CompileConfig): Command {
    Command("cargo", CargoArgs(c.optimization), Some(c.projectPath))
  }

  function WasmPackCommand(c: CompileConfig): Command {
    Command("wasm-pack", WasmPackArgs(c.optimization, c.outputDir), Some(c.projectPath))
  }

  function TrunkCommand(c: CompileConfig): Command {
    Command("trunk", TrunkArgs(c.optimization, c.outputDir), Some(c.projectPath))
  }

  /** Where cargo leaves the module: `target/wasm32-unknown-unknown/<profile>/<name>.wasm`. */
  function ArtifactPath(projectPath: string, opt: OptimizationLevel, name: string): string {
    Join(Join(Join(projectPath, "target/wasm32-unknown-unknown"), if opt == Debug then "debug" else "release"),
         name + ".wasm")
  }

  /** A directory is there to copy into: the current directory, the root,
      or an existing path. `fs::copy` creates no directories. */
  predicate DirExists(paths: set<string>, dir: string) {
    dir == "" || dir == "." || dir == "/" || dir in paths
  }

  const MissingWasmMessage: string := "WASM file not found after compilation"
  const MissingIndexMessage: string := "No index.html generated by trunk"
  const NoWasmPackMessage: string := "wasm-pack is required for wasm-bindgen projects"
  const InstallTargetPrefix: string := "Failed to install wasm32 target: "

  // ---------------------------------------------------------------------
  // Specification of each path
  // ---------------------------------------------------------------------

  /** `ensure_wasm32_target`. */
  function TargetBuild(env: Env): Build<()> {
    if env.wasmTargetInstalled then Build(Ok(()), env.paths, [])
    else
      var out := env.exec(RustupAddTarget);
      Build(if Succeeded(out) then Ok(()) else Err(StepFailure(out, InstallTargetPrefix)),
            env.paths + Created(out), [RustupAddTarget])
  }

  /** `compile_standard_wasm`. */
  function StandardBuild(env: Env, c: CompileConfig): Build<CompileResult> {
    var t := TargetBuild(env);
    if t.result.Err? then Build(Err(t.result.error), t.paths, t.log)
    else
      var out := env.exec(CargoCommand(c));
      var paths := t.paths + Created(out);
      var log := t.log + [CargoCommand(c)];
      if !Succeeded(out) then Build(Err(StepFailure(out, "")), paths, log)
      else match PackageName(env, c.projectPath)
        case Err(e) => Build(Err(e), paths, log)
        case Ok(name) =>
          var dst := Join(c.outputDir, name + ".wasm");
          if ArtifactPath(c.projectPath, c.optimization, name) !in paths then
            Build(Err(CompilationFailed(MissingWasmMessage)), paths, log)
          else if !DirExists(paths, Parent(dst)) then Build(Err(Io), paths, log)
          else Build(Ok(CompileResult(dst, None, [], false)), paths + {dst}, log)
  }

  /** `compile_wasm_bindgen`. */
  function BindgenBuild(env: Env, c: CompileConfig): Build<CompileResult> {
    if !ToolAvailable(env, "wasm-pack") then Build(Err(ToolNotFound(NoWasmPackMessage)), env.paths, [])
    else
      var out := env.exec(WasmPackCommand(c));
      var paths := env.paths + Created(out);
      var log := [WasmPackCommand(c)];
      if !Succeeded(out) then Build(Err(StepFailure(out, "")), paths, log)
      else match PackageName(env, c.projectPath)
        case Err(e) => Build(Err(e), paths, log)
        case Ok(name) =>
          Build(Ok(CompileResult(Join(c.outputDir, name + "_bg.wasm"), Some(Join(c.outputDir, name + ".js")), [], false)),
                paths, log)
  }

  /** `compile_with_trunk`. */
  function TrunkBuild(env: Env, c: CompileConfig): Build<CompileResult> {
    var out := env.exec(TrunkCommand(c));
    var paths := env.paths + Created(out);
    var log := [TrunkCommand(c)];
    var index := Join(c.outputDir, "index.html");
    if !Succeeded(out) then Build(Err(StepFailure(out, "")), paths, log)
    else if index !in paths then Build(Err(CompilationFailed(MissingIndexMessage)), paths, log)
    else Build(Ok(CompileResult(c.outputDir, Some(index), [], true)), paths, log)
  }

  /** `compile_web_application`: trunk when it is configured and installed,
      wasm-pack otherwise. */
  function WebAppBuild(env: Env, c: CompileConfig): Build<CompileResult> {
    if HasTrunkConfig(env, c.projectPath) && ToolAvailable(env, "trunk") then TrunkBuild(env, c)
    else BindgenBuild(env, c)
  }

  /** `compile`. */
  function CompileBuild(env: Env, c: CompileConfig): Build<CompileResult> {
    if UsesWasmBindgen(env, c.projectPath) then
      if IsWebApp(env, c.projectPath) then WebAppBuild(env, c) else BindgenBuild(env, c)
    else StandardBuild(env, c)
  }

  /** The path `compile` takes. */
  function Route(env: Env, c: CompileConfig): BuildStrategy {
    if !UsesWasmBindgen(env, c.projectPath) then Cargo
    else if IsWebApp(env, c.projectPath) && HasTrunkConfig(env, c.projectPath) && ToolAvailable(env, "trunk") then Trunk
    else WasmPack
  }

  // ---------------------------------------------------------------------
  // The build methods
  // ---------------------------------------------------------------------

  method EnsureWasm32Target(env: Env) returns (r: Result<()>, paths: set<string>, log: seq<Command>)
    ensures Build(r, paths, log) == TargetBuild(env)
  {
    paths, log := env.paths, [];
    if !env.wasmTargetInstalled {
      var cmd := Command("rustup", ["target", "add", WasmTarget], None);
      var out := env.exec(cmd);
      paths, log := paths + Created(out), log + [cmd];
      if !Succeeded(out) {
        if out.SpawnFailed? {
          return Err(Io), paths, log;
        }
        return Err(CompilationFailed("Failed to install wasm32 target: " + out.stderr)), paths, log;
      }
    }
    r := Ok(());
  }

  method CompileStandardWasm(env: Env, c: CompileConfig) returns (r: Result<CompileResult>, paths: set<string>, log: seq<Command>)
    ensures Build(r, paths, log) == StandardBuild(env, c)
  {
    var target;
    target, paths, log := EnsureWasm32Target(env);
    if target.Err? {
      return Err(target.error), paths, log;
    }
    var args := ["build", "--target", "wasm32-unknown-unknown"];
    match c.optimization {
      case Debug =>
      case Release => args := args + ["--release"];
      case Size => args := args + ["--release"];
    }
    var cmd := Command("cargo", args, Some(c.projectPath));
    assert cmd == CargoCommand(c);
    var out := env.exec(cmd);
    paths, log := paths + Created(out), log + [cmd];
    if !Succeeded(out) {
      r := if out.SpawnFailed? then Err(Io) else Err(CompilationFailed(out.stderr));
      assert out.Exited? ==> "" + out.stderr == out.stderr;
      return;
    }
    var profile := if c.optimization == Debug then "debug" else "release";
    var name := PackageName(env, c.projectPath);
    if name.Err? {
      return Err(name.error), paths, log;
    }
    var wasmPath := Join(Join(Join(c.projectPath, "target/wasm32-unknown-unknown"), profile), name.value + ".wasm");
    if wasmPath !in paths {
      return Err(CompilationFailed("WASM file not found after compilation")), paths, log;
    }
    var outputWasm := Join(c.outputDir, name.value + ".wasm");
    if !DirExists(paths, Parent(outputWasm)) {
      return Err(Io), paths, log;
    }
    paths := paths + {outputWasm};
    r := Ok(CompileResult(outputWasm, None, [], false));
  }

  method CompileWasmBindgen(env: Env, c: CompileConfig) returns (r: Result<CompileResult>, paths: set<string>, log: seq<Command>)
    ensures Build(r, paths, log) == BindgenBuild(env, c)
  {
    paths, log := env.paths, [];
    if !ToolAvailable(env, "wasm-pack") {
      return Err(ToolNotFound("wasm-pack is required for wasm-bindgen projects")), paths, log;
    }
    var args := ["build", "--target", "web"];
    match c.optimization {
      case Debug => args := args + ["--dev"];
      case Release => args := args + ["--release"];
      case Size => args := args + ["--release"];
    }
    args := args + ["--out-dir", c.outputDir];
    var cmd := Command("wasm-pack", args, Some(c.projectPath));
    assert cmd == WasmPackCommand(c);
    var out := env.exec(cmd);
    paths, log := paths + Created(out), log + [cmd];
    if !Succeeded(out) {
      r := if out.SpawnFailed? then Err(Io) else Err(CompilationFailed(out.stderr));
      assert out.Exited? ==> "" + out.stderr == out.stderr;
      return;
    }
    var name := PackageName(env, c.projectPath);
    if name.Err? {
      return Err(name.error), paths, log;
    }
    var wasmPath := Join(c.outputDir, name.value + "_bg.wasm");
    var jsPath := Join(c.outputDir, name.value + ".js");
    r := Ok(CompileResult(wasmPath, Some(jsPath), [], false));
  }

  method CompileWithTrunk(env: Env, c: CompileConfig) returns (r: Result<CompileResult>, paths: set<string>, log: seq<Command>)
    ensures Build(r, paths, log) == TrunkBuild(env, c)
  {
    var args := ["build"];
    match c.optimization {
      case Debug =>
      case Release => args := args + ["--release"];
      case Size => args := args + ["--release", "--minify"];
    }
    args := args + ["--dist", c.outputDir];
    var cmd := Command("trunk", args, Some(c.projectPath));
    assert cmd == TrunkCommand(c);
    var out := env.exec(cmd);
    paths, log := env.paths + Created(out), [cmd];
    if !Succeeded(out) {
      r := if out.SpawnFailed? then Err(Io) else Err(CompilationFailed(out.stderr));
      assert out.Exited? ==> "" + out.stderr == out.stderr;
      return;
    }
    var indexPath := Join(c.outputDir, "index.html");
    if indexPath !in paths {
      return Err(CompilationFailed("No index.html generated by trunk")), paths, log;
    }
    r := Ok(CompileResult(c.outputDir, Some(indexPath), [], true));
  }

  method CompileWebApplication(env: Env, c: CompileConfig) returns (r: Result<CompileResult>, paths: set<string>, log: seq<Command>)
    ensures Build(r, paths, log) == WebAppBuild(env, c)
  {
    var usesTrunk := Join(c.projectPath, "Trunk.toml") in env.paths || Join(c.projectPath, "trunk.toml") in env.paths;
    if usesTrunk && ToolAvailable(env, "trunk") {
      r, paths, log := CompileWithTrunk(env, c);
    } else {
      r, paths, log := CompileWasmBindgen(env, c);
    }
  }

  method Compile(env: Env, c: CompileConfig) returns (r: Result<CompileResult>, paths: set<string>, log: seq<Command>)
    ensures Build(r, paths, log) == CompileBuild(env, c)
  {
    if UsesWasmBindgen(env, c.projectPath) {
      var webApp := IsRustWebApplication(env, c.projectPath);
      if webApp {
        r, paths, log := CompileWebApplication(env, c);
      } else {
        r, paths, log := CompileWasmBindgen(env, c);
      }
    } else {
      r, paths, log := CompileStandardWasm(env, c);
    }
  }

  /** The path `run_for_execution` hands back: the JavaScript entry when
      the build produced one, the module otherwise. */
  function EntryPoint(r: CompileResult): (path: string)
    ensures r.jsPath.Some? ==> path == r.jsPath.value
    ensures r.jsPath.None? ==> path == r.wasmPath
  {
    r.jsPath.UnwrapOr(r.wasmPath)
  }

  /** `run_for_execution_with_config`: a wasm-target, non-verbose build at
      the given optimization level, then the entry point. */
  method RunForExecutionWithConfig(env: Env, projectPath: string, outputDir: string, optimization: OptimizationLevel)
    returns (r: Result<string>, paths: set<string>, log: seq<Command>)
    ensures var b := CompileBuild(env, CompileConfig(projectPath, outputDir, optimization, Wasm, false));
            && paths == b.paths && log == b.log
            && (b.result.Err? ==> r == Err(b.result.error))
            && (b.result.Ok? ==> r == Ok(EntryPoint(b.result.value)))
  {
    var config := CompileConfig(projectPath, outputDir, optimization, Wasm, false);
    var result;
    result, paths, log := Compile(env, config);
    if result.Err? {
      return Err(result.error), paths, log;
    }
    r := Ok(result.value.jsPath.UnwrapOr(result.value.wasmPath));
  }

  /** `run_for_execution`: the same at release level. */
  method RunForExecution(env: Env, projectPath: string, outputDir: string)
    returns (r: Result<string>, paths: set<string>, log: seq<Command>)
    ensures var b := CompileBuild(env, CompileConfig(projectPath, outputDir, Release, Wasm, false));
            && paths == b.paths && log == b.log
            && (b.result.Err? ==> r == Err(b.result.error))
            && (b.result.Ok? ==> r == Ok(EntryPoint(b.result.value)))
  {
    r, paths, log := RunForExecutionWithConfig(env, projectPath, outputDir, Release);
  }
}
