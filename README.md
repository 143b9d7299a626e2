# wasmrust in Dafny

This project models the WebAssembly build plugin of the wasmrust repository
(`src/lib.rs`), together with two of its example crates: the Yew todo list
(`examples/complex-yew/src/main.rs`) and the `i32` exports of
`examples/simple-rust/src/lib.rs`.

The plugin has three parts:

- It classifies a Rust project from the text of its `Cargo.toml` and the
  files in its root: `StandardWasm`, `WasmBindgen` or `WebApplication`.
- It picks a build strategy and audits the toolchain: `Cargo`, `WasmPack`
  or `Trunk`.
- It drives `rustup`, `cargo`, `wasm-pack` or `trunk` to build the project,
  then hands back the entry point to load.

## How the model is organised

- `rust_std.dfy` (`RustStd`) models the Rust library operations the code
  relies on: `Option::unwrap_or`, `str::contains`, one-character
  `str::replace`, `str::trim` with the Unicode White_Space set, and Unix
  `Path::join` on plain strings. It also defines `Parent`, the directory
  part of a plain-string path, which stands for the destination directory
  `fs::copy` needs; the code never calls `Path::parent`.
- `plugin.dfy` (`Plugin`) holds the records and enums of `src/lib.rs`, plus
  `Env`, everything the plugin can observe:
  - which paths exist, and the text of the files it can read;
  - which tools `which` finds, and whether rustup lists the wasm32 target;
  - what each subprocess invocation does: its exit status, its stderr and
    the paths it creates;
  - what `toml::from_str` makes of a manifest.

  Given an `Env`, every operation of the plugin is a deterministic function.
  The plugin struct has no fields, so no class is needed.
- `classifier.dfy` (`Classifier`) models `uses_wasm_bindgen`,
  `is_rust_web_application`, `detect_project_type_and_frameworks` and
  `determine_build_strategy`.
- `audit.dfy` (`Audit`) models `check_dependencies` and
  `check_dependencies_comprehensive`.
- `analyzer.dfy` (`Analyzer`) models `analyze_project`.
- `builder.dfy` (`Builder`) models `ensure_wasm32_target`, the three build
  paths, `compile_web_application`, `compile` and the two
  `run_for_execution` entry points. Each one observes a build as
  `Build(result, paths, log)`: the result, the paths that exist afterwards,
  and the build commands run, in order. The `which` and
  `rustup target list --installed` probes are oracles of `Env` and are not
  logged.
- `build_properties.dfy` (`BuildProperties`) holds what the build paths
  promise, stated on the specification functions of `Builder`.
- `todo_app.dfy` (`TodoList`) models the Yew component:
  - `TodoApp` is a class whose `Update` changes its fields in place;
  - `Model` is the fields' value and `Next` the transition.
- `simple_rust.dfy` (`SimpleRust`) models `add`, `multiply` and `fibonacci`
  with explicit two's-complement wrap-around. That is the release profile's
  arithmetic.

Where the code works step by step, the model is a method with loops or early
returns, proved equal to a specification function. This covers the framework
scan (with its pushes), the marker and static-directory loops, the dependency
pushes, the build steps and the todo lookup. The properties are lemmas about
those specification functions.

Some behaviours one might expect from a build plugin are absent from the
code. The model follows the code:

- The cargo path looks for exactly one module name, `<name>.wasm`, where
  `-` has been replaced by `_`. It never tries other spellings.
- Trunk is told to build straight into the configured output directory with
  `--dist`. Nothing is copied afterwards.
- The output directory is never created. Copying into a missing directory
  fails with an I/O error (`BuildProperties.StandardNeedsOutputDir`).
- A trunk build hands back `index.html` as its entry, not the directory.
- `WebApplication` does not imply the bindings signature. A framework name
  in the manifest is enough for `analyze_project`
  (`Classifier.FrameworkMeansWebApplication`). `compile`, however, takes
  the cargo path whenever the bindings signature is missing
  (`BuildProperties.AnalysisAndCompileDisagree`).

Five other consequences of the code are proved:

- Framework markers are matched as plain substrings of the manifest, so a
  `seed` in a description or inside another crate's name makes a web
  application (`Classifier.SubstringMarkerIsWebApplication`).
- Once a wasm-pack build of `.` into `./dist` has left a `dist` directory
  behind in the project root (an assumption about the tool, not something
  the plugin does), the crate is reclassified as a web application
  (`BuildProperties.BuildIntoDistReclassifies`).
- Todo ids restart at 1 whatever todos were loaded, so two todos can share
  an id (`TodoList.DuplicateIdsPossible`).
- A key other than Enter clears the input, although the callback is
  commented as a no-op (`TodoList.OtherKeyClearsInput`).
- `fibonacci(47)` wraps to a negative number
  (`SimpleRust.FibonacciOverflowsAt47`).

## Model

| member | source | states |
|---|---|---|
| RustStd.Option.UnwrapOr | src/lib.rs:564 | the contained value when present, the default otherwise |
| RustStd.Contains | src/lib.rs:182 | a match needs room for the pattern, and the empty pattern is found in every text; `ContainsIffOccurs` ties it to positional occurrence |
| RustStd.ContainsInfix | src/lib.rs:181-182 | a pattern placed anywhere in a text, whatever surrounds it, is found |
| RustStd.ContainsIffOccurs | src/lib.rs:182 | the scanning `contains` holds exactly when some start index carries the pattern |
| RustStd.ReplaceChar | src/lib.rs:511 | same length; every `from` becomes `to` and every other character stays at its position |
| RustStd.ReplaceCharRemoves | src/lib.rs:511 | after replacing `-` the name holds no `-`, and replacing again changes nothing |
| RustStd.Trim | examples/complex-yew/src/main.rs:54 | the trimmed text is no longer than the input and neither starts nor ends with whitespace |
| RustStd.TrimIsInfix | examples/complex-yew/src/main.rs:54 | the trimmed text is the piece of the input between a whitespace-only prefix and a whitespace-only suffix, so only whitespace at the two ends is removed |
| RustStd.IsBlank | examples/complex-yew/src/main.rs:54 | blank exactly when trimming the start alone consumes the whole input |
| RustStd.BlankIffAllWhitespace | examples/complex-yew/src/main.rs:54 | `trim().is_empty()` holds exactly when every character is whitespace |
| RustStd.Join | src/lib.rs:390-401 | the joined path is at least as long as the part and at most one separator longer than base and part together; `JoinRelative` and `JoinKeepsSuffix` state what it keeps |
| RustStd.JoinKeepsSuffix | src/lib.rs:401 | joining keeps every suffix of the joined part, such as `.wasm` |
| RustStd.ParentOfJoin | src/lib.rs:401-402 | the directory of a bare file name joined onto a directory is that directory |
| Plugin.CanHandle | src/lib.rs:112-115 | for a project path without a trailing `/`, true exactly when `<project>/Cargo.toml` exists; when true, an existing path under the project path named `Cargo.toml` is at hand |
| Plugin.StepFailure | src/lib.rs:514-529 | a spawn failure gives `Io`; a non-zero exit gives `CompilationFailed` carrying the prefix followed by stderr |
| Plugin.PackageName | src/lib.rs:506-512 | `Io` for an unreadable manifest, `TomlParse` for an unparsable one, success exactly otherwise; the name has `-` replaced by `_` at every position and nothing else changed |
| Classifier.UsesWasmBindgen | src/lib.rs:313-323 | true exactly when the manifest can be read and contains `wasm-bindgen`, `web-sys` or `js-sys` |
| Classifier.Matching | src/lib.rs:181-185 | a name is kept exactly when it is in the registry and occurs in the text; never more names than the registry |
| Classifier.MatchingAppend | src/lib.rs:176-196 | scanning two registries in turn gives the two matches concatenated, in order |
| Classifier.FrameworksAreMatchingMarkers | src/lib.rs:176-196 | the framework list is exactly the ten names and `trunk` that occur in the manifest, in registry order |
| Classifier.AnyMatchIffMatching | src/lib.rs:338-342 | the early-return marker loop fires exactly when the framework scan finds something |
| Classifier.IsRustWebApplication | src/lib.rs:325-359 | the loops decide the web-application test: bindings signature and a marker, or bindings signature, `[lib]`, `cdylib` and an `index.html` or static directory; false whenever the bindings signature is missing |
| Classifier.DetectProjectTypeAndFrameworks | src/lib.rs:168-207 | the framework loop yields the registry matches followed by `trunk`, and the type follows the stated priority |
| Classifier.DetermineBuildStrategy | src/lib.rs:209-228 | cargo exactly for `StandardWasm`; trunk exactly for a web application with `Trunk.toml` or `trunk.toml`; wasm-pack otherwise |
| Classifier.ClassificationPriority | src/lib.rs:198-204 | a web application exactly when there is a framework or the structural test holds; `WasmBindgen` exactly for the remaining crates with the bindings signature; `StandardWasm` exactly when neither frameworks nor bindings are present |
| Classifier.NoSignaturesMeansStandard | src/lib.rs:198-216 | no marker and no bindings signature give `StandardWasm` and cargo, whatever files exist |
| Classifier.FrameworkMeansWebApplication | src/lib.rs:181-199 | one marker in the manifest is listed and makes the project a web application |
| Classifier.SubstringMarkerIsWebApplication | src/lib.rs:181-199 | `seed` anywhere in the manifest text, whatever surrounds it, is listed as a framework and makes a web application |
| Classifier.BindingsWithoutLibIsWasmBindgen | src/lib.rs:198-216 | bindings signature, no marker and no `[lib]` give `WasmBindgen` and wasm-pack |
| Classifier.DistDirectoryReclassifies | src/lib.rs:344-354 | a `[lib]`/`cdylib` bindings crate is `WasmBindgen` until a `dist` directory appears, then `WebApplication` |
| Audit.CheckDependenciesComprehensive | src/lib.rs:230-299 | the pushes give exactly the required and optional tables, with their names, probes and reasons |
| Audit.ReportShape | src/lib.rs:230-299 | the required names are cargo, rustc and the wasm32 target, then wasm-pack or trunk by strategy; the optional names are wasm-pack (except for wasm-pack builds), rustup and wasm-opt; every availability is its probe |
| Audit.RequiredToolsByStrategy | src/lib.rs:256-284 | trunk is required exactly for trunk builds, wasm-pack exactly for wasm-pack builds, and wasm-pack is optional exactly when it is not required |
| Audit.CheckDependencies | src/lib.rs:117-133 | the missing list in check order, at most three entries, each present exactly when its tool or the target is missing |
| Analyzer.AnalyzeProject | src/lib.rs:135-166 | the early returns and helper calls produce exactly `Analysis` |
| Analyzer.AnalysisErrors | src/lib.rs:136-147 | `InvalidProject("No Cargo.toml found")` without a manifest, `Io` when it cannot be read, `TomlParse` when it does not parse, success exactly otherwise |
| Analyzer.ReportIsConsistent | src/lib.rs:149-165 | the frameworks are exactly the markers in the manifest and force `WebApplication`; the strategy agrees with the type; the strategy's tool is among the required checks |
| Analyzer.FrameworkInListIsWebApplication | src/lib.rs:198-199 | a non-empty framework list makes the project a web application |
| Analyzer.ReportNameIsRaw | src/lib.rs:148 | the report keeps the package name as written, while the build paths use it with `-` replaced |
| Builder.EnsureWasm32Target | src/lib.rs:514-529 | runs `rustup target add` only when the target is missing; fails with the install prefix and rustup's stderr |
| Builder.CompileStandardWasm | src/lib.rs:361-410 | the early returns match `StandardBuild`: target, cargo, package name, artifact check, copy |
| Builder.CompileWasmBindgen | src/lib.rs:412-451 | the early returns match `BindgenBuild`: tool check, wasm-pack, package name |
| Builder.CompileWithTrunk | src/lib.rs:466-504 | the steps match `TrunkBuild`: trunk, then the `index.html` check |
| Builder.CompileWebApplication | src/lib.rs:453-464 | trunk when a Trunk configuration exists and trunk is installed, wasm-pack otherwise |
| Builder.Compile | src/lib.rs:301-311 | the dispatch matches `CompileBuild` |
| Builder.EntryPoint | src/lib.rs:564 | the JavaScript entry when there is one, the module path otherwise |
| Builder.RunForExecutionWithConfig | src/lib.rs:568-587 | a wasm-target, non-verbose build at the given level; its error, or its entry point |
| Builder.RunForExecution | src/lib.rs:551-566 | the same at release level |
| BuildProperties.ArgumentVectors | src/lib.rs:364-477 | the exact argument vectors per level; `Size` equals `Release` for cargo and wasm-pack, and trunk alone adds `--minify` |
| BuildProperties.TargetInstallFailureStopsBuild | src/lib.rs:514-529 | a failed target install stops the cargo path before cargo runs, with `Io` or the prefixed stderr |
| BuildProperties.StandardOutcome | src/lib.rs:361-410 | success exactly when target, cargo, name, artifact and output directory are all in place; the result is `<out>/<name>.wasm` with no JavaScript, no extra files and no web-application flag, and the copy is the only path beyond what the subprocesses created |
| BuildProperties.StandardFailures | src/lib.rs:379-399 | a cargo failure carries cargo's stderr; a missing module after a clean exit gives "WASM file not found after compilation" |
| BuildProperties.StandardNeedsOutputDir | src/lib.rs:401-402 | with a missing output directory the cargo path fails even after a successful build |
| BuildProperties.BindgenNeedsWasmPack | src/lib.rs:413-417 | without wasm-pack: `ToolNotFound`, no subprocess, no new path |
| BuildProperties.BindgenOutcome | src/lib.rs:419-451 | success exactly when wasm-pack runs cleanly and the name is read; the result names `<name>_bg.wasm` and `<name>.js` in the output directory; a failure carries wasm-pack's stderr |
| BuildProperties.BindgenChecksNoFile | src/lib.rs:441-450 | the wasm-pack result does not depend on which paths exist |
| BuildProperties.TrunkOutcome | src/lib.rs:466-504 | trunk builds into the output directory with `--dist`; success exactly when it exits cleanly and `index.html` exists; the result is the directory with `index.html` as the entry |
| BuildProperties.DispatchFollowsRoute | src/lib.rs:301-311 | each route gives its own path, and the build commands run show which one was taken |
| BuildProperties.ResultShapeByRoute | src/lib.rs:404-503 | on success, only trunk sets the web-application flag, only cargo leaves out the JavaScript entry, and no path lists extra files |
| BuildProperties.TargetTypeAndVerboseIgnored | src/lib.rs:301-311 | the target-type and verbose fields never change a build |
| BuildProperties.ToolNotFoundOnlyWithoutWasmPack | src/lib.rs:412-417 | `ToolNotFound` arises only on the wasm-pack route without wasm-pack, before anything runs |
| BuildProperties.AnalysisAndCompileDisagree | src/lib.rs:301-311 | a framework name without bindings is analysed as a web application with a non-cargo strategy, but compiled with cargo |
| BuildProperties.StandardEntryIsModuleInOutputDir | src/lib.rs:401-409 | without the bindings signature the entry point ends in `.wasm`, and for a plain package name it sits directly in the output directory |
| BuildProperties.BundledEntryPoints | src/lib.rs:441-503 | the wasm-pack entry is `<out>/<name>.js`; the trunk entry is `<out>/index.html` |
| BuildProperties.BuildIntoDistReclassifies | src/lib.rs:349-354 | building a `[lib]`/`cdylib` bindings crate from `.` into `./dist` turns it into a web application |
| TodoList.Filtered | examples/complex-yew/src/main.rs:93-99 | a todo is shown exactly when it is in the list and passes the filter |
| TodoList.FilteredAppend | examples/complex-yew/src/main.rs:93-99 | filtering keeps list order: it distributes over concatenation |
| TodoList.FilteredViews | examples/complex-yew/src/main.rs:93-99 | `All` shows the whole list; `Active` and `Completed` have the two counts as sizes and hold only todos of their kind |
| TodoList.ActiveCount | examples/complex-yew/src/main.rs:191-193 | at most the list length, and zero exactly when every todo is completed |
| TodoList.CompletedCount | examples/complex-yew/src/main.rs:195-197 | at most the list length, and zero exactly when no todo is completed |
| TodoList.CountsPartition | examples/complex-yew/src/main.rs:191-197 | active and completed counts add up to the list length |
| TodoList.FilteredActiveTwice | examples/complex-yew/src/main.rs:82-85 | retaining active todos twice is retaining once; no completed todo survives |
| TodoList.ToggleFirst | examples/complex-yew/src/main.rs:66-71 | same length, ids and texts; a flag flips exactly at the first todo with the id; no match changes nothing |
| TodoList.ToggleFirstAt | examples/complex-yew/src/main.rs:67-68 | the toggle is an update at the first index carrying the id |
| TodoList.WithoutId | examples/complex-yew/src/main.rs:72-75 | a todo is kept exactly when it is in the list and has another id |
| TodoList.WithoutIdAppend | examples/complex-yew/src/main.rs:73 | deletion keeps order: it distributes over concatenation |
| TodoList.WithoutAbsentId | examples/complex-yew/src/main.rs:73 | deleting an id nobody carries changes nothing |
| TodoList.Next | examples/complex-yew/src/main.rs:51-88 | only `AddTodo` moves the id counter (by one) and lengthens the list (by one); only `SetFilter` changes the filter; only `AddTodo` and `UpdateInput` touch the input; the per-message lemmas below state each case in full |
| TodoList.KeyPressMsg | examples/complex-yew/src/main.rs:113-119 | Enter gives `AddTodo`, any other key gives `UpdateInput("")` |
| TodoList.AddAppendsOne | examples/complex-yew/src/main.rs:53-64 | one incomplete todo with the current id and untrimmed text appended at the end, id bumped, input cleared, filter kept, one more active todo |
| TodoList.BlankAddIsNoOp | examples/complex-yew/src/main.rs:54 | adding with whitespace-only input changes nothing |
| TodoList.ToggleMovesOne | examples/complex-yew/src/main.rs:66-71 | toggling the first todo with an id flips it alone and moves it between the active and completed counts |
| TodoList.DeleteRemovesId | examples/complex-yew/src/main.rs:72-75 | no todo keeps the id, every other todo stays, and the other fields are unchanged |
| TodoList.ClearCompletedKeepsActive | examples/complex-yew/src/main.rs:82-85 | exactly the active todos in order remain; completed count 0, active count unchanged |
| TodoList.SettersChangeOneField | examples/complex-yew/src/main.rs:76-81 | `UpdateInput` and `SetFilter` change only their own field |
| TodoList.OtherKeyClearsInput | examples/complex-yew/src/main.rs:113-119 | a non-Enter key empties the input |
| TodoList.DuplicateIdsPossible | examples/complex-yew/src/main.rs:41-48 | a loaded todo with id 1 and a newly added one share the id; toggle reaches only the first, delete removes both |
| TodoList.TodoApp.constructor | examples/complex-yew/src/main.rs:41-49 | the loaded todos, next id 1, empty input, filter `All` |
| TodoList.TodoApp.Update | examples/complex-yew/src/main.rs:51-88 | the fields become `Next` of the old fields; always asks for a re-render |
| SimpleRust.Add | examples/simple-rust/src/lib.rs:2-4 | the exact sum when it fits in `i32`, the two's-complement wrap of it otherwise |
| SimpleRust.Multiply | examples/simple-rust/src/lib.rs:7-9 | the exact product when it fits, congruent to it modulo 2^32 always |
| SimpleRust.Fibonacci | examples/simple-rust/src/lib.rs:12-17 | for every `n >= 0` the `i32` result is congruent to the true Fibonacci number modulo 2^32 |
| SimpleRust.FibonacciBelowTwo | examples/simple-rust/src/lib.rs:13-14 | every `n <= 1`, negative ones included, comes back unchanged |
| SimpleRust.FibonacciExact | examples/simple-rust/src/lib.rs:12-17 | for `0 <= n <= 46` the result is the true Fibonacci number |
| SimpleRust.FibonacciRecurrence | examples/simple-rust/src/lib.rs:16 | for `2 <= n <= 46` the two recursive results sum within `i32` and give the result |
| SimpleRust.FibonacciNonNegative | examples/simple-rust/src/lib.rs:12-17 | non-negative for `0 <= n <= 46` |
| SimpleRust.FibAroundI32Limit | examples/simple-rust/src/lib.rs:12-17 | fib(46) = 1836311903 fits in `i32`; fib(47) = 2971215073 does not |
| SimpleRust.FibonacciWrapsPastLimit | examples/simple-rust/src/lib.rs:16 | when the two recursive results sum past `i32::MAX`, the result is that sum minus 2^32, and it is negative |
| SimpleRust.FibonacciOverflowsAt47 | examples/simple-rust/src/lib.rs:12-17 | at 47 the addition overflows and the result is -1323752223 |

## Left out

- Real subprocesses are not modelled.
  - `which`, `rustup target list`, `rustup target add`, `cargo`, `wasm-pack` and `trunk` are oracles in `Env`.
  - Parsing rustup's standard output becomes the installed-target flag.
  - Both tools resolve a relative output directory against the project directory, while the plugin checks paths against its own working directory. The oracle's `created` set stands for whatever a tool leaves behind, so the model does not decide which directory that is.
- TOML parsing and serde are an uninterpreted `parse` oracle. The I/O and TOML error payloads are dropped from `Io` and `TomlParse`.
- Lossy UTF-8 conversion of stderr and of paths (`to_string_lossy`) is not modelled: stderr is taken as text.
- Paths are plain strings.
  - There is no normalisation of `.`, `..` or repeated `/`.
  - No symbolic link is followed.
  - Existence is membership in the path set.
- `fs::copy` fails only when the destination directory is missing. Permission errors, and a destination that is itself a directory, are not modelled.
- The component's rendering (`html!`, `view_todo`, `view_filter_button`) and its `Context`/`Scope` callbacks are browser I/O and not modelled. The exception is the key-to-message mapping.
- `LocalStorage` loading and saving is browser I/O. The constructor takes the loaded list as a parameter, and saving is not modelled.
- TodoList.TodoApp.Update: ids are unbounded naturals, so `usize` overflow of `next_id` is not modelled.
- SimpleRust.Add: models the release profile's wrap-around. A debug build would panic on overflow instead.
- SimpleRust.Multiply: models the release profile's wrap-around. A debug build would panic on overflow instead.
- SimpleRust.Fibonacci: no stack limit or running time is modelled. The function recurses `n` calls deep and makes exponentially many calls, so for large `n` the model gives a value where the program exhausts the stack or does not finish.
- SimpleRust.FibonacciNonNegative: non-negativity is proved only up to 46, because at 47 the wrapped result is negative (`SimpleRust.FibonacciOverflowsAt47`).
- `WasmRustPlugin::new` and `Default` carry no state and are not modelled.
- `src/main.rs` is not part of this model: it is command-line plumbing.
- `tests/integration_test.rs` is not part of this model: it targets an API that `src/lib.rs` does not have.
- `examples/simple-web/src/lib.rs` is not part of this model: it is JavaScript calls and floating point.
