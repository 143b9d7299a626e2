/** What `src/lib.rs` promises about its build paths, proved about the
    specification functions of module `Builder`. */
module BuildProperties {
  import opened RustStd
  import opened Plugin
  import opened Classifier
  import opened Builder

  /** The argument vectors for each optimization level. `Size` gives the
      same flags as `Release` except on trunk, which also minifies. */
  lemma ArgumentVectors(out: string)
    ensures CargoArgs(Debug) == ["build", "--target", "wasm32-unknown-unknown"]
    ensures CargoArgs(Release) == CargoArgs(Size) == ["build", "--target", "wasm32-unknown-unknown", "--release"]
    ensures WasmPackArgs(Debug, out) == ["build", "--target", "web", "--dev", "--out-dir", out]
    ensures WasmPackArgs(Release, out) == WasmPackArgs(Size, out)
                                       == ["build", "--target", "web", "--release", "--out-dir", out]
    ensures TrunkArgs(Debug, out) == ["build", "--dist", out]
    ensures TrunkArgs(Release, out) == ["build", "--release", "--dist", out]
    ensures TrunkArgs(Size, out) == ["build", "--release", "--minify", "--dist", out]
    ensures TrunkArgs(Size, out) != TrunkArgs(Release, out)
  {
    assert TrunkArgs(Size, out)[2] != TrunkArgs(Release, out)[2];
  }

  // ---------------------------------------------------------------------
  // The cargo path
  // ---------------------------------------------------------------------

  /** A failed target installation ends the cargo path before cargo runs,
      with the install error prefixed to rustup's stderr. */
  lemma TargetInstallFailureStopsBuild(env: Env, c: CompileConfig)
    requires !env.wasmTargetInstalled && !Succeeded(env.exec(RustupAddTarget))
    ensures StandardBuild(env, c).log == [RustupAddTarget]
    ensures env.exec(RustupAddTarget).SpawnFailed? ==> StandardBuild(env, c).result == Err(Io)
    ensures env.exec(RustupAddTarget).Exited? ==>
              StandardBuild(env, c).result ==
              Err(CompilationFailed("Failed to install wasm32 target: " + env.exec(RustupAddTarget).stderr))
  {
  }

  /** The outcome of the cargo path: success exactly when the target is in
      place, cargo exits zero, the package name can be read, the module
      exists under `target/wasm32-unknown-unknown/<profile>/` and the output
      directory exists; the result is then the copied module, with no
      JavaScript entry, no additional files and no web-application flag. */
  lemma StandardOutcome(env: Env, c: CompileConfig)
    ensures var b := StandardBuild(env, c);
            var t := TargetBuild(env);
            var after := t.paths + Created(env.exec(CargoCommand(c)));
            && (b.result.Ok? <==>
                  && t.result.Ok?
                  && Succeeded(env.exec(CargoCommand(c)))
                  && PackageName(env, c.projectPath).Ok?
                  && ArtifactPath(c.projectPath, c.optimization, PackageName(env, c.projectPath).value) in after
                  && DirExists(after, Parent(Join(c.outputDir, PackageName(env, c.projectPath).value + ".wasm"))))
            && (b.result.Ok? ==>
                  && b.result.value == CompileResult(Join(c.outputDir, PackageName(env, c.projectPath).value + ".wasm"), None, [], false)
                  && b.paths == after + {b.result.value.wasmPath})
            && (t.result.Ok? ==> b.log == t.log + [CargoCommand(c)])
  {
  }

  /** Cargo's failures: a non-zero exit carries cargo's stderr, and a
      missing module after a clean exit is reported as such. */
  lemma StandardFailures(env: Env, c: CompileConfig)
    requires TargetBuild(env).result.Ok?
    ensures var out := env.exec(CargoCommand(c));
            out.Exited? && !out.success ==> StandardBuild(env, c).result == Err(CompilationFailed(out.stderr))
    ensures var out := env.exec(CargoCommand(c));
            var name := PackageName(env, c.projectPath);
            && Succeeded(out) && name.Ok?
            && ArtifactPath(c.projectPath, c.optimization, name.value) !in TargetBuild(env).paths + Created(out)
            ==> StandardBuild(env, c).result == Err(CompilationFailed(MissingWasmMessage))
  {
    var out := env.exec(CargoCommand(c));
    if out.Exited? && !out.success {
      assert "" + out.stderr == out.stderr;
    }
  }

  /** No directory is created on the cargo path: when the output directory
      does not exist and no subprocess made it, the copy fails with an I/O
      error even though the module was built. */
  lemma StandardNeedsOutputDir(env: Env, c: CompileConfig)
    requires c.outputDir != [] && c.outputDir[|c.outputDir| - 1] != '/'
    requires c.outputDir !in {".", "/"}
    requires PackageName(env, c.projectPath).Ok? && '/' !in PackageName(env, c.projectPath).value
    requires c.outputDir !in TargetBuild(env).paths + Created(env.exec(CargoCommand(c)))
    ensures StandardBuild(env, c).result.Err?
  {
    var name := PackageName(env, c.projectPath).value;
    assert '/' !in name + ".wasm";
    ParentOfJoin(c.outputDir, name + ".wasm");
  }

  // ---------------------------------------------------------------------
  // The wasm-pack path
  // ---------------------------------------------------------------------

  /** Without wasm-pack the path stops before any subprocess runs. */
  lemma BindgenNeedsWasmPack(env: Env, c: CompileConfig)
    requires !ToolAvailable(env, "wasm-pack")
    ensures BindgenBuild(env, c) == Build(Err(ToolNotFound("wasm-pack is required for wasm-bindgen projects")), env.paths, [])
  {
  }

  /** The outcome of the wasm-pack path: success exactly when wasm-pack is
      available, exits zero and the package name can be read; the result
      names `<name>_bg.wasm` and `<name>.js` in the output directory. */
  lemma BindgenOutcome(env: Env, c: CompileConfig)
    ensures var b := BindgenBuild(env, c);
            var name := PackageName(env, c.projectPath);
            && (b.result.Ok? <==> ToolAvailable(env, "wasm-pack") && Succeeded(env.exec(WasmPackCommand(c))) && name.Ok?)
            && (b.result.Ok? ==>
                  b.result.value ==
                  CompileResult(Join(c.outputDir, name.value + "_bg.wasm"), Some(Join(c.outputDir, name.value + ".js")), [], false))
            && (ToolAvailable(env, "wasm-pack") ==> b.log == [WasmPackCommand(c)])
            && (var out := env.exec(WasmPackCommand(c));
                ToolAvailable(env, "wasm-pack") && out.Exited? && !out.success ==> b.result == Err(CompilationFailed(out.stderr)))
  {
    var out := env.exec(WasmPackCommand(c));
    if out.Exited? && !out.success {
      assert "" + out.stderr == out.stderr;
    }
  }

  /** The wasm-pack path checks no file: its result is the same whatever
      paths exist. */
  lemma BindgenChecksNoFile(env: Env, c: CompileConfig, paths: set<string>)
    ensures BindgenBuild(env, c).result == BindgenBuild(env.(paths := paths), c).result
  {
  }

  // ---------------------------------------------------------------------
  // The trunk path
  // ---------------------------------------------------------------------

  /** Trunk builds into the configured output directory and the path
      succeeds exactly when trunk exits zero and `index.html` is there
      afterwards; the result is the directory itself with `index.html` as
      entry. */
  lemma TrunkOutcome(env: Env, c: CompileConfig)
    ensures var b := TrunkBuild(env, c);
            var out := env.exec(TrunkCommand(c));
            var index := Join(c.outputDir, "index.html");
            && TrunkCommand(c).args[|TrunkCommand(c).args| - 2..] == ["--dist", c.outputDir]
            && b.log == [TrunkCommand(c)]
            && (b.result.Ok? <==> Succeeded(out) && index in env.paths + Created(out))
            && (b.result.Ok? ==> b.result.value == CompileResult(c.outputDir, Some(index), [], true))
            && (out.Exited? && !out.success ==> b.result == Err(CompilationFailed(out.stderr)))
            && (Succeeded(out) && index !in env.paths + Created(out) ==> b.result == Err(CompilationFailed(MissingIndexMessage)))
  {
    var out := env.exec(TrunkCommand(c));
    if out.Exited? && !out.success {
      assert "" + out.stderr == out.stderr;
    }
  }

  // ---------------------------------------------------------------------
  // Dispatch
  // ---------------------------------------------------------------------

  /** `compile` follows `Route`: the cargo path whenever the manifest lacks
      the bindings signature, trunk when the project is a web application
      with a Trunk configuration and trunk is installed, wasm-pack in every
      other case. The programs run show which path was taken. */
  lemma DispatchFollowsRoute(env: Env, c: CompileConfig)
    ensures Route(env, c) == Cargo ==> CompileBuild(env, c) == StandardBuild(env, c)
    ensures Route(env, c) == Trunk ==> CompileBuild(env, c) == TrunkBuild(env, c)
    ensures Route(env, c) == WasmPack ==> CompileBuild(env, c) == BindgenBuild(env, c)
    ensures Route(env, c) == Cargo ==>
              forall cmd :: cmd in CompileBuild(env, c).log ==> cmd.program in {"rustup", "cargo"}
    ensures Route(env, c) == Trunk ==> CompileBuild(env, c).log == [TrunkCommand(c)]
    ensures Route(env, c) == WasmPack ==> CompileBuild(env, c).log in {[], [WasmPackCommand(c)]}
  {
  }

  /** The shape of a successful result tells the path apart: only trunk
      sets the web-application flag, only cargo gives no JavaScript entry,
      and no path lists additional files. */
  lemma ResultShapeByRoute(env: Env, c: CompileConfig)
    requires CompileBuild(env, c).result.Ok?
    ensures var r := CompileBuild(env, c).result.value;
            && (r.isWebapp <==> Route(env, c) == Trunk)
            && (r.jsPath.None? <==> Route(env, c) == Cargo)
            && r.additionalFiles == []
  {
    DispatchFollowsRoute(env, c);
  }

  /** The `target_type` and `verbose` fields of the configuration are never
      read. */
  lemma TargetTypeAndVerboseIgnored(env: Env, c: CompileConfig, t: TargetType, v: bool)
    ensures CompileBuild(env, c) == CompileBuild(env, c.(targetType := t, verbose := v))
  {
    var c' := c.(targetType := t, verbose := v);
    assert CargoCommand(c) == CargoCommand(c');
    assert WasmPackCommand(c) == WasmPackCommand(c');
    assert TrunkCommand(c) == TrunkCommand(c');
  }

  /** `ToolNotFound` arises only on the wasm-pack path, without wasm-pack,
      before anything has run. */
  lemma ToolNotFoundOnlyWithoutWasmPack(env: Env, c: CompileConfig)
    requires CompileBuild(env, c).result.Err? && CompileBuild(env, c).result.error.ToolNotFound?
    ensures Route(env, c) == WasmPack && !ToolAvailable(env, "wasm-pack")
    ensures CompileBuild(env, c).log == [] && CompileBuild(env, c).paths == env.paths
  {
    DispatchFollowsRoute(env, c);
  }

  /** `analyze_project` and `compile` can disagree: a framework name without
      the bindings signature makes the analysis report a web application
      with a wasm-pack or trunk strategy, while `compile` runs plain
      cargo. */
  lemma AnalysisAndCompileDisagree(env: Env, c: CompileConfig, text: string, k: nat)
    requires ReadManifest(env, c.projectPath) == Some(text)
    requires k < |WebFrameworks| && Contains(text, WebFrameworks[k])
    requires !HasBindings(text)
    ensures ProjectTypeOf(env, c.projectPath, text) == WebApplication
    ensures DetermineBuildStrategy(env, c.projectPath, ProjectTypeOf(env, c.projectPath, text)) != Cargo
    ensures Route(env, c) == Cargo && CompileBuild(env, c) == StandardBuild(env, c)
  {
    assert WebAppMarkers[k] == WebFrameworks[k];
    FrameworkMeansWebApplication(env, c.projectPath, text, k);
  }

  // ---------------------------------------------------------------------
  // Entry points
  // ---------------------------------------------------------------------

  /** Classify, build, resolve: for a project without the bindings
      signature the entry point is the `.wasm` module copied into the
      output directory. */
  lemma StandardEntryIsModuleInOutputDir(env: Env, c: CompileConfig, text: string, pkg: Package)
    requires ReadManifest(env, c.projectPath) == Some(text) && env.parse(text) == Some(pkg)
    requires !HasBindings(text)
    requires CompileBuild(env, c).result.Ok?
    ensures var entry := EntryPoint(CompileBuild(env, c).result.value);
            && EndsWith(entry, ".wasm")
            && (c.outputDir != [] && c.outputDir[|c.outputDir| - 1] != '/' && '/' !in pkg.name
                ==> Parent(entry) == c.outputDir)
  {
    assert Route(env, c) == Cargo;
    DispatchFollowsRoute(env, c);
    StandardOutcome(env, c);
    var name := PackageName(env, c.projectPath).value;
    var file := name + ".wasm";
    assert EntryPoint(CompileBuild(env, c).result.value) == Join(c.outputDir, file);
    assert file[|file| - 5..] == ".wasm";
    JoinKeepsSuffix(c.outputDir, file, ".wasm");
    if c.outputDir != [] && c.outputDir[|c.outputDir| - 1] != '/' && '/' !in pkg.name {
      NoSlashInModuleFile(pkg.name, name);
      ParentOfJoin(c.outputDir, file);
    }
  }

  /** Replacing `-` by `_` in a name without `/` and appending `.wasm` gives
      a bare file name. */
  lemma NoSlashInModuleFile(raw: string, name: string)
    requires '/' !in raw && |name| == |raw|
    requires forall i :: 0 <= i < |raw| ==> name[i] == (if raw[i] == '-' then '_' else raw[i])
    ensures '/' !in name + ".wasm"
  {
    forall i | 0 <= i < |name| ensures name[i] != '/' {
      assert raw[i] in raw;
    }
  }

  /** The entry point of a wasm-pack build is its JavaScript file, and that
      of a trunk build is `index.html`, both in the output directory. */
  lemma BundledEntryPoints(env: Env, c: CompileConfig)
    requires CompileBuild(env, c).result.Ok?
    ensures Route(env, c) == WasmPack ==>
              EntryPoint(CompileBuild(env, c).result.value) == Join(c.outputDir, PackageName(env, c.projectPath).value + ".js")
    ensures Route(env, c) == Trunk ==>
              EntryPoint(CompileBuild(env, c).result.value) == Join(c.outputDir, "index.html")
  {
    DispatchFollowsRoute(env, c);
  }

  /** A build can change how the project is classified: once a wasm-pack
      build of a `[lib]`/`cdylib` bindings crate from `.` into the command
      line's default `./dist` has left a `dist` directory in the project root
      (what the tool does, not the plugin), the crate is a web application. */
  lemma BuildIntoDistReclassifies(env: Env, c: CompileConfig, text: string)
    requires c.projectPath == "." && c.outputDir == "./dist"
    requires ReadManifest(env, ".") == Some(text)
    requires HasBindings(text) && Contains(text, "[lib]") && Contains(text, "cdylib")
    requires forall i :: 0 <= i < |WebAppMarkers| ==> !Contains(text, WebAppMarkers[i])
    requires !HasStaticMarker(env, ".")
    requires ToolAvailable(env, "wasm-pack") && "./dist" in Created(env.exec(WasmPackCommand(c)))
    ensures ProjectTypeOf(env, ".", text) == WasmBindgen
    ensures Route(env, c) == WasmPack
    ensures ProjectTypeOf(env.(paths := CompileBuild(env, c).paths), ".", text) == WebApplication
  {
    DistDirectoryReclassifies(env, ".", text);
    DispatchFollowsRoute(env, c);
    var paths := CompileBuild(env, c).paths;
    assert Join(".", "dist") in paths by {
      assert "dist"[..1] == "d";
      assert Join(".", "dist") == "./dist";
    }
    DistInPathsIsWebApplication(env, paths, text);
  }

  /** Any set of paths holding `./dist` makes the bindings crate a web
      application. */
  lemma DistInPathsIsWebApplication(env: Env, paths: set<string>, text: string)
    requires ReadManifest(env, ".") == Some(text)
    requires HasBindings(text) && Contains(text, "[lib]") && Contains(text, "cdylib")
    requires Join(".", "dist") in paths
    ensures ProjectTypeOf(env.(paths := paths), ".", text) == WebApplication
  {
    var after := env.(paths := paths);
    assert HasStaticMarker(after, ".") by {
      assert StaticDirs[3] == "dist";
    }
    ClassificationPriority(after, ".", text);
  }
}
