/** Project classification of `src/lib.rs`: substring signatures in the
    manifest text, the structural web-application test, the project type and
    the build strategy. */
module Classifier {
  import opened RustStd
  import opened Plugin

  /** The framework registry, in the order the manifest is scanned. */
  const WebFrameworks: seq<string> :=
    ["yew", "leptos", "dioxus", "sycamore", "mogwai", "seed", "percy", "iced", "dodrio", "smithy"]

  /** The markers of the web-application test: the registry and `trunk`. */
  const WebAppMarkers: seq<string> := WebFrameworks + ["trunk"]

  /** Directories whose presence marks a `cdylib` crate as a web application. */
  const StaticDirs: seq<string> := ["public", "static", "assets", "dist", "www"]

  /** The bindings signature: any of the three interop crate names. */
  predicate HasBindings(text: string) {
    Contains(text, "wasm-bindgen") || Contains(text, "web-sys") || Contains(text, "js-sys")
  }

  /** `uses_wasm_bindgen`: the manifest can be read and shows the bindings
      signature. */
  function UsesWasmBindgen(env: Env, projectPath: string): (r: bool)
    ensures r <==> ReadManifest(env, projectPath).Some? && HasBindings(ReadManifest(env, projectPath).value)
  {
    match ReadManifest(env, projectPath)
    case None => false
    case Some(text) => HasBindings(text)
  }

  /** The names of `names` that occur in `text`, in the order of `names`. */
  function Matching(names: seq<string>, text: string): (r: seq<string>)
    ensures |r| <= |names|
    ensures forall f :: f in r <==> f in names && Contains(text, f)
  {
    if names == [] then []
    else (if Contains(text, names[0]) then [names[0]] else []) + Matching(names[1..], text)
  }

  /** Scanning a concatenation of registries scans each in turn. */
  lemma {:induction false} MatchingAppend(a: seq<string>, b: seq<string>, text: string)
    ensures Matching(a + b, text) == Matching(a, text) + Matching(b, text)
  {
    if a != [] {
      assert (a + b)[1..] == a[1..] + b;
      MatchingAppend(a[1..], b, text);
    } else {
      assert a + b == b;
    }
  }

  /** The framework list `detect_project_type_and_frameworks` builds: the
      registry names the text contains, followed by `trunk` when it occurs. */
  function FrameworksIn(text: string): seq<string> {
    Matching(WebFrameworks, text) + (if Contains(text, "trunk") then ["trunk"] else [])
  }

  /** The framework list is exactly the markers, in registry order, that
      occur as substrings of the manifest text. */
  lemma FrameworksAreMatchingMarkers(text: string)
    ensures FrameworksIn(text) == Matching(WebAppMarkers, text)
    ensures forall f :: f in FrameworksIn(text) <==> f in WebAppMarkers && Contains(text, f)
  {
    MatchingAppend(WebFrameworks, ["trunk"], text);
    assert ["trunk"][1..] == [];
  }

  /** Some name of `names` occurs in `text`. */
  predicate AnyMatch(names: seq<string>, text: string) {
    exists i :: 0 <= i < |names| && Contains(text, names[i])
  }

  lemma AnyMatchIffMatching(names: seq<string>, text: string)
    ensures AnyMatch(names, text) <==> Matching(names, text) != []
  {
    if AnyMatch(names, text) {
      var i :| 0 <= i < |names| && Contains(text, names[i]);
      assert names[i] in Matching(names, text);
    }
    if Matching(names, text) != [] {
      var f := Matching(names, text)[0];
      assert f in names && Contains(text, f);
    }
  }

  /** An entry HTML file or one of the static-asset directories exists in
      the project root. */
  predicate HasStaticMarker(env: Env, projectPath: string) {
    Join(projectPath, "index.html") in env.paths
    || exists i :: 0 <= i < |StaticDirs| && Join(projectPath, StaticDirs[i]) in env.paths
  }

  /** The condition `is_rust_web_application` decides. */
  predicate IsWebApp(env: Env, projectPath: string) {
    match ReadManifest(env, projectPath)
    case None => false
    case Some(text) =>
      && HasBindings(text)
      && (|| AnyMatch(WebAppMarkers, text)
          || (Contains(text, "[lib]") && Contains(text, "cdylib") && HasStaticMarker(env, projectPath)))
  }

  /** `is_rust_web_application`, with its early-return loops over the
      markers and the static directories. It is false whenever the manifest
      is unreadable or lacks the bindings signature, whatever is on disk. */
  method IsRustWebApplication(env: Env, projectPath: string) returns (r: bool)
    ensures r == IsWebApp(env, projectPath)
    ensures !UsesWasmBindgen(env, projectPath) ==> !r
  {
    var manifest := ReadManifest(env, projectPath);
    if manifest.None? {
      return false;
    }
    var text := manifest.value;
    if !UsesWasmBindgen(env, projectPath) {
      return false;
    }
    var markers := WebAppMarkers;
    for i := 0 to |markers|
      invariant forall j :: 0 <= j < i ==> !Contains(text, markers[j])
    {
      if Contains(text, markers[i]) {
        return true;
      }
    }
    if Contains(text, "[lib]") && Contains(text, "cdylib") {
      if Join(projectPath, "index.html") in env.paths {
        return true;
      }
      var dirs := StaticDirs;
      for i := 0 to |dirs|
        invariant forall j :: 0 <= j < i ==> Join(projectPath, dirs[j]) !in env.paths
      {
        if Join(projectPath, dirs[i]) in env.paths {
          return true;
        }
      }
    }
    return false;
  }

  /** The project type `detect_project_type_and_frameworks` returns for
      manifest text `content` of the project at `projectPath`. */
  function ProjectTypeOf(env: Env, projectPath: string, content: string): ProjectType {
    if FrameworksIn(content) != [] || IsWebApp(env, projectPath) then WebApplication
    else if HasBindings(content) then WasmBindgen
    else StandardWasm
  }

  /** `detect_project_type_and_frameworks`: the framework loop with its
      pushes, then the priority decision. */
  method DetectProjectTypeAndFrameworks(env: Env, projectPath: string, content: string)
    returns (projectType: ProjectType, frameworks: seq<string>)
    ensures frameworks == FrameworksIn(content)
    ensures projectType == ProjectTypeOf(env, projectPath, content)
  {
    frameworks := [];
    var registry := WebFrameworks;
    for i := 0 to |registry|
      invariant frameworks == Matching(registry[..i], content)
    {
      MatchingAppend(registry[..i], [registry[i]], content);
      assert registry[..i + 1] == registry[..i] + [registry[i]];
      if Contains(content, registry[i]) {
        frameworks := frameworks + [registry[i]];
      }
    }
    assert registry[..|registry|] == registry;
    var hasWasmBindgen := HasBindings(content);
    if Contains(content, "trunk") {
      frameworks := frameworks + ["trunk"];
    }
    var webApp := IsRustWebApplication(env, projectPath);
    if frameworks != [] || webApp {
      projectType := WebApplication;
    } else if hasWasmBindgen {
      projectType := WasmBindgen;
    } else {
      projectType := StandardWasm;
    }
  }

  /** A `Trunk.toml` or `trunk.toml` exists in the project root. */
  predicate HasTrunkConfig(env: Env, projectPath: string) {
    Join(projectPath, "Trunk.toml") in env.paths || Join(projectPath, "trunk.toml") in env.paths
  }

  /** `determine_build_strategy`: a pure function of the project type and
      the presence of a Trunk configuration file. */
  function DetermineBuildStrategy(env: Env, projectPath: string, projectType: ProjectType): (s: BuildStrategy)
    ensures s == Cargo <==> projectType == StandardWasm
    ensures s == Trunk <==> projectType == WebApplication && HasTrunkConfig(env, projectPath)
    ensures s == WasmPack <==> projectType == WasmBindgen
                               || (projectType == WebApplication && !HasTrunkConfig(env, projectPath))
  {
    match projectType
    case StandardWasm => Cargo
    case WasmBindgen => WasmPack
    case WebApplication => if HasTrunkConfig(env, projectPath) then Trunk else WasmPack
  }

  // ---------------------------------------------------------------------
  // Properties of the classification
  // ---------------------------------------------------------------------

  /** Classification priority, stated on the manifest text and the paths:
      a web application is a project with a framework marker, or with the
      bindings signature, `[lib]`, `cdylib` and an entry HTML file or static
      directory; otherwise the bindings signature alone gives `WasmBindgen`,
      and everything else is `StandardWasm`. */
  lemma ClassificationPriority(env: Env, projectPath: string, text: string)
    requires ReadManifest(env, projectPath) == Some(text)
    ensures var pt := ProjectTypeOf(env, projectPath, text);
            var lib := Contains(text, "[lib]") && Contains(text, "cdylib") && HasStaticMarker(env, projectPath);
            && (pt == WebApplication <==> FrameworksIn(text) != [] || (HasBindings(text) && lib))
            && (pt == WasmBindgen <==> !(FrameworksIn(text) != [] || (HasBindings(text) && lib)) && HasBindings(text))
            && (pt == StandardWasm <==> FrameworksIn(text) == [] && !HasBindings(text))
  {
    FrameworksAreMatchingMarkers(text);
    AnyMatchIffMatching(WebAppMarkers, text);
  }

  /** Without framework markers and without the bindings signature a
      project is a plain cargo project, whatever files it has. */
  lemma NoSignaturesMeansStandard(env: Env, projectPath: string, text: string)
    requires ReadManifest(env, projectPath) == Some(text)
    requires forall i :: 0 <= i < |WebAppMarkers| ==> !Contains(text, WebAppMarkers[i])
    requires !HasBindings(text)
    ensures ProjectTypeOf(env, projectPath, text) == StandardWasm
    ensures DetermineBuildStrategy(env, projectPath, ProjectTypeOf(env, projectPath, text)) == Cargo
  {
    FrameworksAreMatchingMarkers(text);
    AnyMatchIffMatching(WebAppMarkers, text);
  }

  /** A framework marker alone makes a web application, with or without the
      bindings signature or any file on disk. */
  lemma FrameworkMeansWebApplication(env: Env, projectPath: string, text: string, k: nat)
    requires k < |WebAppMarkers| && Contains(text, WebAppMarkers[k])
    ensures WebAppMarkers[k] in FrameworksIn(text)
    ensures ProjectTypeOf(env, projectPath, text) == WebApplication
  {
    FrameworksAreMatchingMarkers(text);
  }

  /** Markers are matched as plain substrings anywhere in the manifest: a
      `seed` inside a description, a comment or another crate's name makes a
      web application just as a `seed` dependency does. */
  lemma SubstringMarkerIsWebApplication(env: Env, projectPath: string, before: string, after: string)
    ensures "seed" in FrameworksIn(before + "seed" + after)
    ensures ProjectTypeOf(env, projectPath, before + "seed" + after) == WebApplication
  {
    ContainsInfix(before, "seed", after);
    FrameworkMeansWebApplication(env, projectPath, before + "seed" + after, 5);
  }

  /** With the bindings signature, no framework marker and no `[lib]`
      section, a project is a bindings module built with wasm-pack. */
  lemma BindingsWithoutLibIsWasmBindgen(env: Env, projectPath: string, text: string)
    requires ReadManifest(env, projectPath) == Some(text)
    requires HasBindings(text) && !Contains(text, "[lib]")
    requires forall i :: 0 <= i < |WebAppMarkers| ==> !Contains(text, WebAppMarkers[i])
    ensures ProjectTypeOf(env, projectPath, text) == WasmBindgen
    ensures DetermineBuildStrategy(env, projectPath, ProjectTypeOf(env, projectPath, text)) == WasmPack
  {
    ClassificationPriority(env, projectPath, text);
    AnyMatchIffMatching(WebAppMarkers, text);
    FrameworksAreMatchingMarkers(text);
  }

  /** A directory called `dist` in the project root is one of the static
      markers: a `[lib]`/`cdylib` bindings crate without framework markers
      is `WasmBindgen` until such a directory appears, and `WebApplication`
      from then on. */
  lemma DistDirectoryReclassifies(env: Env, projectPath: string, text: string)
    requires ReadManifest(env, projectPath) == Some(text)
    requires HasBindings(text) && Contains(text, "[lib]") && Contains(text, "cdylib")
    requires forall i :: 0 <= i < |WebAppMarkers| ==> !Contains(text, WebAppMarkers[i])
    requires !HasStaticMarker(env, projectPath)
    ensures ProjectTypeOf(env, projectPath, text) == WasmBindgen
    ensures ProjectTypeOf(env.(paths := env.paths + {Join(projectPath, "dist")}), projectPath, text) == WebApplication
  {
    var env' := env.(paths := env.paths + {Join(projectPath, "dist")});
    assert StaticDirs[3] == "dist";
    assert HasStaticMarker(env', projectPath);
    ClassificationPriority(env, projectPath, text);
    ClassificationPriority(env', projectPath, text);
    AnyMatchIffMatching(WebAppMarkers, text);
    FrameworksAreMatchingMarkers(text);
  }
}
