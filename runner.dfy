/** The three doctest runners, step by step: write the loader files into a temporary
    directory, start the interpreter on the loader, and map the child's exit status
    to the runner's result. The file system, the environment and the child process
    are the host's; what they answer is given to each runner as parameters. */
module Runner {
  import opened Wrappers
  import opened Text
  import opened Environment
  import opened Layout
  import opened Outcome
  import Fallback

  /** How a child process ended: with an exit code, or by a signal, which leaves it
      without one. */
  datatype ExitStatus = Exited(code: int) | Signalled(signal: int) {
    predicate Success() {
      this == Exited(0)
    }

    function Code(): Option<int> {
      if Exited? then Some(code) else None
    }
  }

  /** The errors a runner returns: the temporary directory could not be created (the
      operating system's own message, passed on unchanged), an I/O step failed (with
      the context message the runner attaches), or the child exited unsuccessfully. */
  datatype RunError = TempDirFailed(osMessage: string) | Context(message: string) | ChildFailed(tool: string, code: int)

  /** A runner's result: `Ok(())`, an error, or a panic from an `unwrap`. */
  datatype RunOutcome = Ok | Err(error: RunError) | Panic

  const JsWriteFailed := "failed to write JS file"
  const WasmCopyFailed := "failed to copy wasm file"
  const NodeSpawnFailed := "failed to find or execute Node.js"
  const DenoSpawnFailed := "failed to find or execute Deno"
  const ExitCodePhrase := " failed with exit_code "

  /** The text of an error. */
  function Describe(e: RunError): string
  {
    match e
    case TempDirFailed(osMessage) => osMessage
    case Context(message) => message
    case ChildFailed(tool, code) => tool + ExitCodePhrase + FormatInt(code)
  }

  /** The status check that ends every runner: success gives `Ok`, anything else an
      error carrying the child's exit code, or 1 when it has none. */
  function StatusOutcome(tool: string, status: ExitStatus): (r: RunOutcome)
    ensures r.Ok? <==> status.Success()
  {
    if status.Success() then Ok else Err(ChildFailed(tool, status.Code().GetOr(1)))
  }

  /** A failed status is reported with the child's exit code, or 1 for a child
      killed by a signal, and that code can be read back from the error's text. */
  lemma FailureReportsCode(tool: string, status: ExitStatus)
    requires !status.Success()
    ensures var r := StatusOutcome(tool, status);
      && r.Err?
      && StartsWith(Describe(r.error), tool + ExitCodePhrase)
      && ParseInt(Describe(r.error)[|tool + ExitCodePhrase|..]) == Some(if status.Exited? then status.code else 1)
  {
    var code := status.Code().GetOr(1);
    var text := tool + ExitCodePhrase + FormatInt(code);
    assert text[|tool + ExitCodePhrase|..] == FormatInt(code);
    assert text[..|tool + ExitCodePhrase|] == tool + ExitCodePhrase;
    FormatParseInt(code);
  }

  /** What a runner writes into its directory. */
  datatype FileContent = ManifestFile(manifest: Manifest) | LoaderScript(loader: Loader, moduleName: string) | WasmCopy(source: string)

  /** A temporary directory: its path, the file names the host refuses to write in
      it, and the files written so far. */
  class TempDir {
    const path: string
    const unwritable: set<string>
    var files: map<string, FileContent>

    constructor (path: string, unwritable: set<string>)
      ensures this.path == path && this.unwritable == unwritable && files == map[]
    {
      this.path := path;
      this.unwritable := unwritable;
      files := map[];
    }

    /** Writes (or overwrites) one file; the host may refuse. */
    method Write(name: string, content: FileContent) returns (ok: bool)
      modifies this
      ensures ok <==> name !in unwritable
      ensures files == if ok then old(files)[name := content] else old(files)
    {
      ok := name !in unwritable;
      if ok {
        files := files[name := content];
      }
    }

    /** Deletes the directory with everything in it. */
    method Remove()
      modifies this
      ensures files == map[]
    {
      files := map[];
    }
  }

  /** Where a fresh temporary directory would be created, and which file names the
      host refuses in it. */
  datatype DirSpec = DirSpec(path: string, unwritable: set<string>)

  /** What `tempdir()` answers: a new directory, or the operating system's error. */
  datatype Scratch = Created(spec: DirSpec) | CreateFailed(osMessage: string)

  /** What the host answers: `NODE_PATH` as the platform splits it, the raw value of
      `NODE_ARGS` if set, the working directory if it can be read, the paths that
      can be read, and what `tempdir()` answers. */
  datatype Host = Host(nodePath: seq<string>, nodeArgs: Option<string>, cwd: Option<string>,
                       readable: set<string>, scratch: Scratch)

  /** The child process: it could not be started, or it finished with a status. */
  datatype Child = SpawnFailed | Finished(status: ExitStatus)

  /** A command line: the program, its arguments, the `NODE_PATH` it is given (None:
      inherited unchanged) and its working directory (None: inherited). */
  datatype Command = Command(program: string, args: seq<string>, nodePath: Option<seq<string>>, workDir: Option<string>)

  function PathJoin(dir: string, name: string): string
  {
    dir + "/" + name
  }

  /** The writes a runner makes, in order, until one is refused. */
  function Applied(files: map<string, FileContent>, writes: seq<(string, FileContent)>, unwritable: set<string>): map<string, FileContent>
    decreases writes
  {
    if writes == [] || writes[0].0 in unwritable then files
    else Applied(files[writes[0].0 := writes[0].1], writes[1..], unwritable)
  }

  /** None of `writes` is refused. */
  predicate AllWritable(writes: seq<(string, FileContent)>, unwritable: set<string>)
  {
    forall i :: 0 <= i < |writes| ==> writes[i].0 !in unwritable
  }

  /** The Node runner's writes: the manifest when the module format is on, then the
      loader script. */
  function NodeWrites(moduleName: string, moduleFormat: bool): seq<(string, FileContent)>
  {
    var l := NodeLoader(moduleFormat);
    (if moduleFormat then [(ManifestName, ManifestFile(ModuleManifest))] else [])
    + [(ScriptName(l), LoaderScript(l, moduleName))]
  }

  /** The Node runner's writes follow the layout: `package.json` declaring the module
      type and then `run.mjs` with the module format on, only `run.cjs` with it off. */
  lemma NodeWritesFollowLayout(moduleName: string, moduleFormat: bool)
    ensures NodeWrites(moduleName, moduleFormat) ==
      if moduleFormat then [("package.json", ManifestFile(PackageJson("module"))), ("run.mjs", LoaderScript(NodeEsModule, moduleName))]
      else [("run.cjs", LoaderScript(NodeCommonJs, moduleName))]
  {
  }

  /** `execute_node`: write the manifest (a refused write panics, as its `unwrap`
      does) and the loader, extend the search path, read the extra flags, start
      Node on the loader and map its status. */
  method ExecuteNode(moduleName: string, dir: TempDir, moduleFormat: bool, host: Host, child: Child)
    returns (r: RunOutcome, launched: Option<Command>)
    modifies dir
    ensures dir.files == Applied(old(dir.files), NodeWrites(moduleName, moduleFormat), dir.unwritable)
    ensures moduleFormat && ManifestName in dir.unwritable ==> r == Panic
    ensures launched.Some? <==> AllWritable(NodeWrites(moduleName, moduleFormat), dir.unwritable) && host.cwd.Some?
    ensures launched.Some? ==> launched.value == Command("node",
      ExtraArgs(host.nodeArgs) + [PathJoin(dir.path, ScriptName(NodeLoader(moduleFormat)))],
      Some(host.nodePath + [host.cwd.value, dir.path]), None)
    ensures launched.Some? ==> r == match child
      case SpawnFailed => Err(Context(NodeSpawnFailed))
      case Finished(status) => StatusOutcome("Node", status)
    ensures launched.None? ==> r == Panic || r == Err(Context(JsWriteFailed))
    ensures !(moduleFormat && ManifestName in dir.unwritable) && ScriptName(NodeLoader(moduleFormat)) in dir.unwritable
      ==> r == Err(Context(JsWriteFailed))
    ensures AllWritable(NodeWrites(moduleName, moduleFormat), dir.unwritable) && host.cwd.None? ==> r == Panic
    ensures r.Ok? <==> launched.Some? && child.Finished? && child.status.Success()
  {
    var loader := NodeLoader(moduleFormat);
    var writes := NodeWrites(moduleName, moduleFormat);
    if moduleFormat {
      var wrote := dir.Write(ManifestName, ManifestFile(ModuleManifest));
      assert writes[0] == (ManifestName, ManifestFile(ModuleManifest));
      if !wrote {
        assert Applied(old(dir.files), writes, dir.unwritable) == old(dir.files);
        return Panic, None;
      }
    }
    var wrote := dir.Write(ScriptName(loader), LoaderScript(loader, moduleName));
    if !wrote {
      assert !AllWritable(writes, dir.unwritable) by {
        assert writes[|writes| - 1].0 == ScriptName(loader);
      }
      return Err(Context(JsWriteFailed)), None;
    }
    assert dir.files == Applied(old(dir.files), writes, dir.unwritable) by {
      var last := writes[|writes| - 1];
      if moduleFormat {
        assert writes[1..] == [last] && [last][1..] == [];
        assert Applied(old(dir.files), writes, dir.unwritable)
            == Applied(old(dir.files)[ManifestName := ManifestFile(ModuleManifest)], [last], dir.unwritable);
      } else {
        assert writes == [last] && writes[1..] == [];
      }
    }
    if host.cwd.None? {
      return Panic, None;
    }
    var path := AugmentSearchPath(host.nodePath, host.cwd.value, dir.path);
    assert path == host.nodePath + [host.cwd.value, dir.path];
    var args := ExtraArgs(host.nodeArgs);
    launched := Some(Command("node", args + [PathJoin(dir.path, ScriptName(loader))], Some(path), None));
    match child
    case SpawnFailed =>
      r := Err(Context(NodeSpawnFailed));
    case Finished(status) =>
      r := StatusOutcome("Node", status);
  }

  /** The fallback runner's writes: the copy of the wasm file, then the loader. */
  function FallbackWrites(wasmPath: string): seq<(string, FileContent)>
  {
    [("doctest.wasm", WasmCopy(wasmPath)), (ScriptName(NodeFallback), LoaderScript(NodeFallback, "doctest"))]
  }

  /** `execute_node_fallback`: create a temporary directory, copy the wasm file into
      it, write the loader, start Node there on the loader and map its status. The
      directory is deleted when the runner returns, whatever the result. */
  method ExecuteNodeFallback(wasmPath: string, host: Host, child: Child)
    returns (r: RunOutcome, launched: Option<Command>, dir: TempDir?, ghost staged: map<string, FileContent>)
    ensures host.scratch.CreateFailed? <==> dir == null
    ensures host.scratch.CreateFailed? ==> r == Err(TempDirFailed(host.scratch.osMessage)) && launched.None?
    ensures dir != null ==> fresh(dir) && dir.path == host.scratch.spec.path && dir.unwritable == host.scratch.spec.unwritable
    ensures dir != null ==> dir.files == map[]
    ensures dir != null && wasmPath in host.readable ==> staged == Applied(map[], FallbackWrites(wasmPath), dir.unwritable)
    ensures dir != null && wasmPath !in host.readable ==> staged == map[]
    ensures dir != null && (wasmPath !in host.readable || "doctest.wasm" in dir.unwritable) ==> r == Err(Context(WasmCopyFailed))
    ensures dir != null && wasmPath in host.readable && "doctest.wasm" !in dir.unwritable && "run.cjs" in dir.unwritable
      ==> r == Err(Context(JsWriteFailed))
    ensures launched.Some? <==> dir != null && wasmPath in host.readable && AllWritable(FallbackWrites(wasmPath), dir.unwritable)
    ensures launched.Some? ==> launched.value == Command("node",
      ExtraArgs(host.nodeArgs) + [PathJoin(dir.path, "run.cjs")], None, Some(dir.path))
    ensures launched.Some? ==> staged.Keys == {"doctest.wasm", "run.cjs"}
    ensures launched.None? && dir != null ==> r == Err(Context(WasmCopyFailed)) || r == Err(Context(JsWriteFailed))
    ensures launched.Some? ==> r == match child
      case SpawnFailed => Err(Context(NodeSpawnFailed))
      case Finished(status) => StatusOutcome("Node", status)
    ensures r.Ok? <==> launched.Some? && child.Finished? && child.status.Success()
  {
    if host.scratch.CreateFailed? {
      return Err(TempDirFailed(host.scratch.osMessage)), None, null, map[];
    }
    dir := new TempDir(host.scratch.spec.path, host.scratch.spec.unwritable);
    var writes := FallbackWrites(wasmPath);
    if wasmPath !in host.readable {
      staged := map[];
      dir.Remove();
      return Err(Context(WasmCopyFailed)), None, dir, staged;
    }
    var copied := dir.Write("doctest.wasm", WasmCopy(wasmPath));
    if !copied {
      staged := dir.files;
      dir.Remove();
      return Err(Context(WasmCopyFailed)), None, dir, staged;
    }
    var wrote := dir.Write(ScriptName(NodeFallback), LoaderScript(NodeFallback, "doctest"));
    staged := dir.files;
    assert writes[1..][1..] == [];
    ghost var afterCopy := map["doctest.wasm" := WasmCopy(wasmPath)];
    assert Applied(map[], writes, dir.unwritable) == Applied(afterCopy, writes[1..], dir.unwritable);
    assert staged == Applied(map[], writes, dir.unwritable);
    if !wrote {
      dir.Remove();
      return Err(Context(JsWriteFailed)), None, dir, staged;
    }
    var args := ExtraArgs(host.nodeArgs);
    launched := Some(Command("node", args + [PathJoin(dir.path, ScriptName(NodeFallback))], None, Some(dir.path)));
    match child {
      case SpawnFailed =>
        r := Err(Context(NodeSpawnFailed));
      case Finished(status) =>
        r := StatusOutcome("Node", status);
    }
    dir.Remove();
  }

  /** `execute_deno`: write `run.js` and start `deno run --allow-read` on it. */
  method ExecuteDeno(moduleName: string, dir: TempDir, child: Child)
    returns (r: RunOutcome, launched: Option<Command>)
    modifies dir
    ensures "run.js" in dir.unwritable ==> dir.files == old(dir.files) && r == Err(Context(JsWriteFailed)) && launched.None?
    ensures "run.js" !in dir.unwritable ==> dir.files == old(dir.files)["run.js" := LoaderScript(Deno, moduleName)]
    ensures launched.Some? <==> "run.js" !in dir.unwritable
    ensures launched.Some? ==> launched.value == Command("deno", ["run", "--allow-read", PathJoin(dir.path, "run.js")], None, None)
    ensures launched.Some? ==> r == match child
      case SpawnFailed => Err(Context(DenoSpawnFailed))
      case Finished(status) => StatusOutcome("Deno", status)
    ensures r.Ok? <==> launched.Some? && child.Finished? && child.status.Success()
  {
    var wrote := dir.Write(ScriptName(Deno), LoaderScript(Deno, moduleName));
    if !wrote {
      return Err(Context(JsWriteFailed)), None;
    }
    launched := Some(Command("deno", ["run", "--allow-read", PathJoin(dir.path, ScriptName(Deno))], None, None));
    match child
    case SpawnFailed =>
      r := Err(Context(DenoSpawnFailed));
    case Finished(status) =>
      r := StatusOutcome("Deno", status);
  }

  /** The status of a loader's process. */
  function ScriptStatus(run: ScriptRun): ExitStatus
  {
    Exited(ExitCodeOf(run))
  }

  /** End to end under Node: the runner's status check gives `Ok` exactly when the
      loader found `main` to be a function that returned; otherwise the error
      carries exit code 1. */
  lemma NodeDoctestVerdict(main: MainExport)
    ensures StatusOutcome("Node", ScriptStatus(NodeLoaderRun(main))) ==
      if Passes(main) then Ok else Err(ChildFailed("Node", 1))
  {
    NodeLoaderVerdict(main);
  }

  /** End to end under Deno: the same verdict, though a passing Deno loader ends
      without calling exit. */
  lemma DenoDoctestVerdict(main: MainExport)
    ensures StatusOutcome("Deno", ScriptStatus(DenoLoaderRun(main))) ==
      if Passes(main) then Ok else Err(ChildFailed("Deno", 1))
  {
    NodeLoaderVerdict(main);
    DenoAgreesWithNode(main);
  }

  /** End to end in fallback mode: `Ok` exactly when the module compiles and links
      against the stubs, `main` is a function, it calls no stub but the describe
      hook, and it returns. */
  lemma FallbackDoctestVerdict(m: Fallback.WasmModule)
    ensures StatusOutcome("Node", ScriptStatus(Fallback.FallbackLoaderRun(m))) ==
      if Fallback.FallbackPasses(m) then Ok else Err(ChildFailed("Node", 1))
  {
    Fallback.FallbackVerdict(m);
  }
}
