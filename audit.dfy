/** The dependency audits of `src/lib.rs`: `check_dependencies` and
    `check_dependencies_comprehensive`. */
module Audit {
  import opened Plugin

  /** What the audit probes for a name: rustup's installed-target list for
      the wasm32 target, `which` for everything else. */
  predicate Probe(env: Env, name: string) {
    if name == WasmTarget then env.wasmTargetInstalled else ToolAvailable(env, name)
  }

  function Check(env: Env, name: string, reason: string): DependencyCheck {
    DependencyCheck(name, Probe(env, name), reason)
  }

  function Names(checks: seq<DependencyCheck>): (r: seq<string>)
    ensures |r| == |checks| && forall i :: 0 <= i < |checks| ==> r[i] == checks[i].name
  {
    if checks == [] then [] else [checks[0].name] + Names(checks[1..])
  }

  /** The required checks of the report, in order. */
  function RequiredChecks(env: Env, strategy: BuildStrategy): seq<DependencyCheck> {
    [ Check(env, "cargo", "Rust build tool"),
      Check(env, "rustc", "Rust compiler"),
      Check(env, WasmTarget, "WebAssembly compilation target") ]
    + match strategy
      case WasmPack => [Check(env, "wasm-pack", "Required for wasm-bindgen projects")]
      case Trunk => [Check(env, "trunk", "Required for web application builds")]
      case Cargo => []
  }

  /** The optional checks of the report, in order. */
  function OptionalChecks(env: Env, strategy: BuildStrategy): seq<DependencyCheck> {
    (match strategy
     case WasmPack => []
     case Trunk => [Check(env, "wasm-pack", "Useful for optimized builds")]
     case Cargo => [Check(env, "wasm-pack", "Useful for advanced WASM features")])
    + [ Check(env, "rustup", "Rust toolchain manager"),
        Check(env, "wasm-opt", "WebAssembly optimizer") ]
  }

  /** `check_dependencies_comprehensive`: the pushes onto `required` and
      `optional`. The project type is accepted and never looked at. */
  method CheckDependenciesComprehensive(env: Env, projectType: ProjectType, strategy: BuildStrategy)
    returns (status: DependencyStatus)
    ensures status.required == RequiredChecks(env, strategy)
    ensures status.optional == OptionalChecks(env, strategy)
  {
    var required: seq<DependencyCheck> := [];
    var optional: seq<DependencyCheck> := [];
    required := required + [DependencyCheck("cargo", ToolAvailable(env, "cargo"), "Rust build tool")];
    required := required + [DependencyCheck("rustc", ToolAvailable(env, "rustc"), "Rust compiler")];
    required := required + [DependencyCheck(WasmTarget, env.wasmTargetInstalled, "WebAssembly compilation target")];
    match strategy {
      case WasmPack =>
        required := required + [DependencyCheck("wasm-pack", ToolAvailable(env, "wasm-pack"), "Required for wasm-bindgen projects")];
      case Trunk =>
        required := required + [DependencyCheck("trunk", ToolAvailable(env, "trunk"), "Required for web application builds")];
        optional := optional + [DependencyCheck("wasm-pack", ToolAvailable(env, "wasm-pack"), "Useful for optimized builds")];
      case Cargo =>
        optional := optional + [DependencyCheck("wasm-pack", ToolAvailable(env, "wasm-pack"), "Useful for advanced WASM features")];
    }
    optional := optional + [DependencyCheck("rustup", ToolAvailable(env, "rustup"), "Rust toolchain manager")];
    optional := optional + [DependencyCheck("wasm-opt", ToolAvailable(env, "wasm-opt"), "WebAssembly optimizer")];
    status := DependencyStatus(required, optional);
  }

  /** The shape of the report: three base requirements, then wasm-pack for
      wasm-pack builds or trunk for trunk builds; wasm-pack optional for the
      other two strategies, then rustup and wasm-opt; every entry's
      availability is its probe. */
  lemma ReportShape(env: Env, strategy: BuildStrategy)
    ensures Names(RequiredChecks(env, strategy)) ==
            ["cargo", "rustc", WasmTarget]
            + (match strategy case WasmPack => ["wasm-pack"] case Trunk => ["trunk"] case Cargo => [])
    ensures Names(OptionalChecks(env, strategy)) ==
            (if strategy == WasmPack then [] else ["wasm-pack"]) + ["rustup", "wasm-opt"]
    ensures forall c :: c in RequiredChecks(env, strategy) + OptionalChecks(env, strategy)
                        ==> c.available == Probe(env, c.name)
  {
  }

  /** Trunk is required exactly for trunk builds, wasm-pack exactly for
      wasm-pack builds, and neither for cargo builds; wasm-pack is optional
      exactly when it is not required. */
  lemma RequiredToolsByStrategy(env: Env, strategy: BuildStrategy)
    ensures "trunk" in Names(RequiredChecks(env, strategy)) <==> strategy == Trunk
    ensures "wasm-pack" in Names(RequiredChecks(env, strategy)) <==> strategy == WasmPack
    ensures "wasm-pack" in Names(OptionalChecks(env, strategy)) <==> strategy != WasmPack
  {
    ReportShape(env, strategy);
  }

  /** `check_dependencies`: the short list of what is missing. */
  method CheckDependencies(env: Env) returns (missing: seq<string>)
    ensures missing ==
            (if ToolAvailable(env, "cargo") then [] else ["cargo (Rust toolchain)"])
            + (if ToolAvailable(env, "rustc") then [] else ["rustc (Rust compiler)"])
            + (if env.wasmTargetInstalled then [] else ["wasm32-unknown-unknown target"])
    ensures |missing| <= 3
    ensures "cargo (Rust toolchain)" in missing <==> !ToolAvailable(env, "cargo")
    ensures "rustc (Rust compiler)" in missing <==> !ToolAvailable(env, "rustc")
    ensures "wasm32-unknown-unknown target" in missing <==> !env.wasmTargetInstalled
  {
    missing := [];
    if !ToolAvailable(env, "cargo") {
      missing := missing + ["cargo (Rust toolchain)"];
    }
    if !ToolAvailable(env, "rustc") {
      missing := missing + ["rustc (Rust compiler)"];
    }
    if !env.wasmTargetInstalled {
      missing := missing + ["wasm32-unknown-unknown target"];
    }
  }
}
