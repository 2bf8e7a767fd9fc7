# Doctest execution in the wasm-bindgen test runner, modelled in Dafny

A doctest is compiled to a wasm module whose only entry point is an exported `main`.
The test runner runs it in one of four ways:

- under Node, loading the binding glue as CommonJS;
- under Node, loading the binding glue as an ES module;
- under Deno;
- under Node in *fallback mode*, which loads the raw wasm with stub imports because no binding glue could be generated.

Each runner writes a small loader script (plus, for ES modules, a `package.json` declaring the module type) into a temporary directory. It starts the interpreter on that script. It then turns the child's exit status into `Ok` or an error. The loader calls `main` and prints one summary line in the conventional test-harness phrasing.

This project models those rules and proves what they promise:

- how `NODE_ARGS` is tokenised;
- how `NODE_PATH` is extended;
- which files are written, and how the runtime then reads them;
- the outcome rule of each loader;
- the stub table, stub dispatch and import-object loop of the fallback loader;
- how the exit status is mapped.

| file | module | what it holds |
|---|---|---|
| `text.dfy` | `Wrappers`, `Text` | Option; Rust-style split on a character; join; decimal formatting and parsing |
| `environment.dfy` | `Environment` | `NODE_ARGS` tokenising; `NODE_PATH` augmentation and search order |
| `layout.dfy` | `Layout` | loader file names; the manifest; how Node and Deno choose CommonJS or ES-module syntax |
| `outcome.dfy` | `Outcome` | outcome rule of the CommonJS, ES-module and Deno loaders |
| `imports.dfy` | `Imports` | stub table; stub dispatch; the import-object loop (corrected and as written) |
| `fallback.dfy` | `Fallback` | the fallback loader: compile, link against stubs, probe `main`, call it |
| `runner.dfy` | `Runner` | `execute_node`, `execute_node_fallback` and `execute_deno` step by step over a `TempDir` class; exit-status mapping; end-to-end verdicts |

The host's answers are parameters. They cover the environment variables, the working directory, which files can be read or written, whether a temporary directory can be created, and whether the child started and how it exited. The embedded JavaScript is modelled through abstract inputs, such as "`main` is missing", "`main` is not a function", "`main` returns" or "`main` throws", and, for the fallback loader, the module's imports and the stub calls `main` makes.

## Model

| member | source | states |
|---|---|---|
| `Text.SplitFieldsFree` | crates/cli/src/wasm_bindgen_test_runner/doctest.rs:84 | no field produced by splitting on `,` contains `,` |
| `Text.JoinSplit` | crates/cli/src/wasm_bindgen_test_runner/doctest.rs:84 | splitting loses nothing: joining the fields with the separator restores the value |
| `Text.SplitJoin` | crates/cli/src/wasm_bindgen_test_runner/doctest.rs:84 | the split is unique: separator-free fields, once joined, split back into exactly those fields |
| `Text.SplitKeepsCharacters` | crates/cli/src/wasm_bindgen_test_runner/doctest.rs:84 | the fields, concatenated, are the value with its separators removed, in order |
| `Text.FormatParseInt` | crates/cli/src/wasm_bindgen_test_runner/doctest.rs:97 | an exit code formatted with `{}` reads back as the same integer, negative codes included |
| `Environment.NonEmpty` | crates/cli/src/wasm_bindgen_test_runner/doctest.rs:86 | the filter keeps exactly the non-empty fields of its input: every kept field is a non-empty input field, and every non-empty input field is kept |
| `Environment.ExtraArgsWellFormed` | crates/cli/src/wasm_bindgen_test_runner/doctest.rs:82-87 | every extra Node flag is non-empty and contains no `,`; the same rule is used at :193-198 |
| `Environment.ExtraArgsUnset` | crates/cli/src/wasm_bindgen_test_runner/doctest.rs:82-83 | an unset `NODE_ARGS` gives no flags |
| `Environment.ExtraArgsRoundTrip` | crates/cli/src/wasm_bindgen_test_runner/doctest.rs:82-87 | any list of non-empty, comma-free flags, written comma-separated, is read back as exactly that list in the same order |
| `Environment.ExtraArgsKeepCharacters` | crates/cli/src/wasm_bindgen_test_runner/doctest.rs:82-87 | only commas are dropped: the flags, concatenated, are the variable's value without its commas, in order |
| `Environment.AugmentSearchPath` | crates/cli/src/wasm_bindgen_test_runner/doctest.rs:78-81 | the new search path keeps every inherited entry in order, then adds the working directory, then the temporary directory |
| `Environment.AugmentKeepsResolution` | crates/cli/src/wasm_bindgen_test_runner/doctest.rs:77-81 | augmenting never changes what an inherited entry resolves; otherwise the working directory is searched first, then the temporary directory |
| `Layout.NodeLoader` | crates/cli/src/wasm_bindgen_test_runner/doctest.rs:16 | the module-format switch selects the ES-module loader exactly when on, the CommonJS loader exactly when off |
| `Layout.ManifestOnlyForModuleFormat` | crates/cli/src/wasm_bindgen_test_runner/doctest.rs:67-74 | a manifest is written exactly for the ES-module Node loader, and it declares type `module` |
| `Layout.ScriptExtensions` | crates/cli/src/wasm_bindgen_test_runner/doctest.rs:67-74 | the loader is `.mjs` exactly for ES modules and `.cjs` exactly for CommonJS and fallback (:190); Deno alone uses `run.js` (:236) |
| `Layout.ScriptReadAsWritten` | crates/cli/src/wasm_bindgen_test_runner/doctest.rs:16-74 | each runtime reads the generated loader in the syntax it is written in (`require` or `import`), whatever manifest an ancestor directory holds |
| `Layout.GlueReadAsGenerated` | crates/cli/src/wasm_bindgen_test_runner/doctest.rs:67-70 | Node reads `{module}.js` in the syntax of the loader that imports it: always with the module format on; with it off (no manifest written, so Node looks upwards) exactly when no ancestor manifest declares the module type |
| `Outcome.SummaryLinesAreConventional` | crates/cli/src/wasm_bindgen_test_runner/doctest.rs:31-35 | the two printed lines are the conventional summary for one passed test and for one failed test, and they differ |
| `Outcome.MainCompletion` | crates/cli/src/wasm_bindgen_test_runner/doctest.rs:26-30 | the probe lets the try block end normally exactly when `main` is a function that returns |
| `Outcome.NodeLoaderVerdict` | crates/cli/src/wasm_bindgen_test_runner/doctest.rs:25-37 | the CommonJS and ES-module loaders (:50-61) print exactly one summary line; it is the ok line iff `main` is a function that returns; they exit 0 after it and 1 after the FAILED line |
| `Outcome.NodeLoaderReportsError` | crates/cli/src/wasm_bindgen_test_runner/doctest.rs:28-35 | a failing run reports one error: the missing-main error when `main` is not a function, or what `main` threw |
| `Outcome.DenoAgreesWithNode` | crates/cli/src/wasm_bindgen_test_runner/doctest.rs:221-232 | Deno prints the same line and ends with the same exit code as Node, but calls exit only on failure |
| `Imports.StubFor` | crates/cli/src/wasm_bindgen_test_runner/doctest.rs:160 | a namespace's value is a stub proxy exactly for the placeholder and externref namespaces |
| `Imports.DescribeIsSilent` | crates/cli/src/wasm_bindgen_test_runner/doctest.rs:124-129 | the placeholder stub `__wbindgen_describe` returns without error |
| `Imports.OtherStubsThrow` | crates/cli/src/wasm_bindgen_test_runner/doctest.rs:124-141 | every other placeholder stub and every externref stub throws, with a message that contains the import's name |
| `Imports.FirstEntryWins` | crates/cli/src/wasm_bindgen_test_runner/doctest.rs:157-162 | once a namespace has an entry, no later import overwrites it |
| `Imports.AddImportsContents` | crates/cli/src/wasm_bindgen_test_runner/doctest.rs:158-162 | running the loop from any object adds exactly the imported namespaces it lacks, each with its stub value |
| `Imports.ImportObjectContents` | crates/cli/src/wasm_bindgen_test_runner/doctest.rs:157-162 | the import object has one key per imported namespace and none for other namespaces; each key holds the stub-table entry, or an empty object if there is none |
| `Imports.BuildImportObject` | crates/cli/src/wasm_bindgen_test_runner/doctest.rs:157-162 | the loop computes the import object: exactly the imported namespaces as keys, each with its stub value |
| `Imports.AsWrittenSkipsPrototypeNames` | crates/cli/src/wasm_bindgen_test_runner/doctest.rs:159 | the loop as written gives no key to a namespace named like an Object.prototype property; every other imported namespace gets its stub value |
| `Imports.ConstructorNamespaceDropped` | crates/cli/src/wasm_bindgen_test_runner/doctest.rs:157-162 | a module that imports from namespace `constructor` gets no entry from the loop as written, but gets one from the corrected loop |
| `Fallback.FirstLoud` | crates/cli/src/wasm_bindgen_test_runner/doctest.rs:129 | finds the first stub call other than the describe hook; every call before it is the describe hook |
| `Fallback.RunCallsFirstLoud` | crates/cli/src/wasm_bindgen_test_runner/doctest.rs:127-141 | the first non-describe stub call that `main` makes throws, and that error ends `main`; with no such call, `main` ends on its own |
| `Fallback.AsWrittenLinksAlike` | crates/cli/src/wasm_bindgen_test_runner/doctest.rs:157-164 | under the model's link rule, the loop as written and the corrected loop link exactly the same modules |
| `Fallback.LinkedCallsResolve` | crates/cli/src/wasm_bindgen_test_runner/doctest.rs:164 | after linking, every call resolves to a stub; a call is silent exactly when it is the placeholder's describe hook |
| `Fallback.FallbackVerdict` | crates/cli/src/wasm_bindgen_test_runner/doctest.rs:147-184 | a passing run prints the ok line, the fallback note and the console-capture note, then exits 0; any failure prints the FAILED line, the fallback note and the import hint, reports one error, then exits 1 |
| `Fallback.FallbackReportsStubCall` | crates/cli/src/wasm_bindgen_test_runner/doctest.rs:164-183 | a linked `main` that calls a stub other than the describe hook fails; the error names the first such call |
| `Runner.StatusOutcome` | crates/cli/src/wasm_bindgen_test_runner/doctest.rs:96-100 | a runner returns `Ok` exactly when the child's status is success |
| `Runner.FailureReportsCode` | crates/cli/src/wasm_bindgen_test_runner/doctest.rs:96-98 | a failure's message starts `<tool> failed with exit_code ` and ends with the child's exit code (1 if it has none), which parses back |
| `Runner.NodeWritesFollowLayout` | crates/cli/src/wasm_bindgen_test_runner/doctest.rs:67-75 | the Node runner writes `package.json` then `run.mjs` with the module format on, and only `run.cjs` with it off |
| `Runner.TempDir.constructor` | crates/cli/src/wasm_bindgen_test_runner/doctest.rs:109 | a new temporary directory is empty |
| `Runner.TempDir.Write` | crates/cli/src/wasm_bindgen_test_runner/doctest.rs:75 | a write that the host accepts sets exactly that file; a refused write changes nothing |
| `Runner.TempDir.Remove` | crates/cli/src/wasm_bindgen_test_runner/doctest.rs:109 | removing the directory leaves it holding no files |
| `Runner.ExecuteNode` | crates/cli/src/wasm_bindgen_test_runner/doctest.rs:15-101 | see the note below the table |
| `Runner.ExecuteNodeFallback` | crates/cli/src/wasm_bindgen_test_runner/doctest.rs:108-212 | a tempdir failure returns the operating system's error unchanged; the directory is the one `tempdir()` made; an unreadable or refused copy is the copy error and writes nothing; a refused `run.cjs` after a good copy is the write error; otherwise both files are written and `node` runs in that directory with the extra flags and the loader path, without changing `NODE_PATH`; the directory is removed on every path; `Ok` iff Node started and succeeded |
| `Runner.ExecuteDeno` | crates/cli/src/wasm_bindgen_test_runner/doctest.rs:215-251 | writes `run.js`, and a refused write is an error; runs `deno run --allow-read <loader>`; a Deno that cannot start is an error; `Ok` iff the status is success |
| `Runner.NodeDoctestVerdict` | crates/cli/src/wasm_bindgen_test_runner/doctest.rs:26-36 | end to end under Node, the runner gives `Ok` exactly when `main` is a function that returns, and otherwise the error with exit code 1 |
| `Runner.DenoDoctestVerdict` | crates/cli/src/wasm_bindgen_test_runner/doctest.rs:221-232 | end to end under Deno, the same verdict as under Node |
| `Runner.FallbackDoctestVerdict` | crates/cli/src/wasm_bindgen_test_runner/doctest.rs:147-211 | end to end in fallback mode, `Ok` exactly when the module compiles, links against the stubs, calls no stub but the describe hook, and `main` returns |

`Runner.ExecuteNode` proves the following about `execute_node`:

- The files written are the manifest (ES modules only), then the loader, stopping at the first refused write.
- A refused manifest write panics. A refused loader write gives the write error.
- A missing working directory panics.
- The command is `node`, followed by the extra flags and the loader path.
- The child's `NODE_PATH` is the inherited entries, then the working directory, then the temporary directory.
- A Node that cannot start gives the spawn error.
- The result is `Ok` exactly when Node started and its status is success.

## Findings

| source | as written | input that shows it | evidently intended | confidence | as-written member | corrected member |
|---|---|---|---|---|---|---|
| crates/cli/src/wasm_bindgen_test_runner/doctest.rs:157-162 | the guard `!imports[imp.module]` reads a property of an object literal, so the lookup falls through to Object.prototype. A namespace named `constructor`, `toString`, `valueOf` and so on looks already present and never gets its own entry. | a module importing function `f` from namespace `constructor` | one own entry per imported namespace | low (rare namespace names, not executed) | `Imports.AsWrittenSkipsPrototypeNames` | `Imports.BuildImportObject` |

`Imports.ConstructorNamespaceDropped` gives the concrete instance. The rest of the model (`Fallback.FallbackLoaderRun`) uses the corrected `Imports.ImportObject`.

The missing entry does not change the test's verdict under the model's link rule. Such a namespace has no stub, so its corrected value `{}` links no function import either; `Fallback.AsWrittenLinksAlike` proves that both loops link the same modules. The corrected loop models an import object without a prototype: on a plain `{}`, even an own-key test could not give `__proto__` an own entry by assignment.

## Left out

- Loader script text: the templates are represented by a `LoaderScript(loader, module)` value. Only the printed lines, file names and manifest are modelled.
- Console rendering: `console.error('Doctest failed:', e)` (and the fallback's `e.message || e`) is modelled as the thrown value. How the engine renders it is not modelled.
- Glue load failure: an error thrown by `require`/`import` of the binding glue happens before the `try`, so the loader never reaches it. The engine's exit code for that case is not modelled. An absent `__wasm` field is not modelled either.
- Engine error messages: compile and link errors in fallback mode have empty message text.
- Inherited functions at link time: the link rule lets a function import resolve only through a stub proxy. In Node, the plain `{}` namespaces (the stub table's `env` and the fresh objects) also inherit Object.prototype's methods, so an import such as `env.toString` or `env.valueOf` links, and calling it runs that method. The model gives such an import a link error.
- Natural exit: a script that ends without calling exit is taken to exit with 0, which the Deno success path relies on.
- Path handling: `env::split_paths` is not modelled (`NODE_PATH` arrives already split), and neither are `env::join_paths` and its `unwrap` panic. Paths are strings joined with `/`.
- Ancestor manifests: the nearest `package.json` above the temporary directory is a parameter of `Layout.NearestManifest`; the upward search itself is not modelled.
- Module resolution: `Environment.Resolve` models only the order in which search-path entries are consulted, not Node's full resolution algorithm.
- Unreadable `NODE_ARGS`: a value that is not valid Unicode is treated like an unset variable, since `unwrap_or_default` maps both to the empty string.
- File contents: copies and writes record what was written, not the bytes. Panics carry no message.
- Wasm modules: start functions, non-function stub lookups and traps other than thrown errors are not modelled.
- Rest of the runner: the classifier of doctest exports, console capture, progress-line filtering and report assembly are not part of this model.
