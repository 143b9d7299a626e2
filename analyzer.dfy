/** `analyze_project` of `src/lib.rs`: manifest checks, classification,
    build strategy and dependency report in one `ProjectInfo`. */
module Analyzer {
  import opened RustStd
  import opened Plugin
  import opened Classifier
  import opened Audit

  const NoManifestMessage: string := "No Cargo.toml found"

  /** What `analyze_project` returns for a project. */
  function Analysis(env: Env, projectPath: string): Result<ProjectInfo> {
    if !CanHandle(env, projectPath) then Err(InvalidProject(NoManifestMessage))
    else match ReadManifest(env, projectPath)
      case None => Err(Io)
      case Some(content) =>
        match env.parse(content)
        case None => Err(TomlParse)
        case Some(pkg) =>
          var pt := ProjectTypeOf(env, projectPath, content);
          var strategy := DetermineBuildStrategy(env, projectPath, pt);
          Ok(ProjectInfo(pkg.name, pkg.version, pt, strategy, FrameworksIn(content),
                         DependencyStatus(RequiredChecks(env, strategy), OptionalChecks(env, strategy))))
  }

  /** `analyze_project`: the early returns, then the two helper calls. */
  method AnalyzeProject(env: Env, projectPath: string) returns (r: Result<ProjectInfo>)
    ensures r == Analysis(env, projectPath)
  {
    if ManifestPath(projectPath) !in env.paths {
      return Err(InvalidProject(NoManifestMessage));
    }
    var read := ReadFile(env, ManifestPath(projectPath));
    if read.None? {
      return Err(Io);
    }
    var content := read.value;
    var parsed := env.parse(content);
    if parsed.None? {
      return Err(TomlParse);
    }
    var name := parsed.value.name;
    var version := parsed.value.version;
    var projectType, frameworks := DetectProjectTypeAndFrameworks(env, projectPath, content);
    var strategy := DetermineBuildStrategy(env, projectPath, projectType);
    var dependencies := CheckDependenciesComprehensive(env, projectType, strategy);
    r := Ok(ProjectInfo(name, version, projectType, strategy, frameworks, dependencies));
  }

  /** The error cases, in the order `analyze_project` checks them, and success
      exactly when the manifest exists, can be read and parses. */
  lemma AnalysisErrors(env: Env, projectPath: string)
    ensures !CanHandle(env, projectPath) ==> Analysis(env, projectPath) == Err(InvalidProject("No Cargo.toml found"))
    ensures CanHandle(env, projectPath) && ReadManifest(env, projectPath).None? ==> Analysis(env, projectPath) == Err(Io)
    ensures CanHandle(env, projectPath) && ReadManifest(env, projectPath).Some?
            && env.parse(ReadManifest(env, projectPath).value).None?
            ==> Analysis(env, projectPath) == Err(TomlParse)
    ensures Analysis(env, projectPath).Ok? <==>
              CanHandle(env, projectPath) && ReadManifest(env, projectPath).Some?
              && env.parse(ReadManifest(env, projectPath).value).Some?
  {
  }

  /** A successful report is consistent: the frameworks are exactly the
      markers the manifest mentions, a framework forces the web-application
      type, the strategy agrees with the type (trunk only for web
      applications, wasm-pack for every bindings crate), and the tool the strategy
      runs is among the required checks. */
  lemma ReportIsConsistent(env: Env, projectPath: string, content: string, info: ProjectInfo)
    requires ReadManifest(env, projectPath) == Some(content)
    requires Analysis(env, projectPath) == Ok(info)
    ensures forall f :: f in info.frameworks <==> f in WebAppMarkers && Contains(content, f)
    ensures info.frameworks != [] ==> info.projectType == WebApplication
    ensures info.buildStrategy == Cargo <==> info.projectType == StandardWasm
    ensures info.projectType == WasmBindgen ==> info.buildStrategy == WasmPack
    ensures info.buildStrategy == Trunk ==> info.projectType == WebApplication
    ensures info.buildStrategy == WasmPack ==> "wasm-pack" in Names(info.dependencies.required)
    ensures info.buildStrategy == Trunk ==> "trunk" in Names(info.dependencies.required)
  {
    var pt := ProjectTypeOf(env, projectPath, content);
    var strategy := DetermineBuildStrategy(env, projectPath, pt);
    assert info.frameworks == FrameworksIn(content);
    assert info.projectType == pt && info.buildStrategy == strategy;
    assert info.dependencies.required == RequiredChecks(env, strategy);
    FrameworksAreMatchingMarkers(content);
    RequiredToolsByStrategy(env, strategy);
    if info.frameworks != [] {
      FrameworkInListIsWebApplication(env, projectPath, content);
    }
  }

  /** One framework found is enough to make the project a web application. */
  lemma FrameworkInListIsWebApplication(env: Env, projectPath: string, content: string)
    requires FrameworksIn(content) != []
    ensures ProjectTypeOf(env, projectPath, content) == WebApplication
  {
    FrameworksAreMatchingMarkers(content);
    var f := FrameworksIn(content)[0];
    assert f in FrameworksIn(content);
    var i :| 0 <= i < |WebAppMarkers| && WebAppMarkers[i] == f;
    FrameworkMeansWebApplication(env, projectPath, content, i);
  }

  /** The report carries the package name as written, while the build
      paths name their files after it with `-` replaced by `_`. */
  lemma ReportNameIsRaw(env: Env, projectPath: string)
    requires Analysis(env, projectPath).Ok?
    ensures PackageName(env, projectPath) == Ok(ReplaceChar(Analysis(env, projectPath).value.name, '-', '_'))
    ensures '-' in Analysis(env, projectPath).value.name ==>
              PackageName(env, projectPath).value != Analysis(env, projectPath).value.name
  {
    var name := Analysis(env, projectPath).value.name;
    ReplaceCharRemoves(name, '-', '_');
  }
}
