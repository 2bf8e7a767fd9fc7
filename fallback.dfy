/** The fallback loader: Node runs the raw wasm file with stub imports instead of
    binding glue. It compiles the module, builds the import object, instantiates,
    probes `instance.exports.main` and calls it; every failure on the way is caught
    by one handler. The engine is reduced to the decision rules the loader relies
    on. */
module Fallback {
  import opened Wrappers
  import opened Text
  import opened Outcome
  import opened Imports

  /** A compiled doctest as the fallback loader sees it: whether its bytes are
      otherwise valid, its imports in declaration order, its `main` export, and the
      imports `main` calls (as indices into `imports`) before it ends as its
      export's completion says. */
  datatype WasmModule = WasmModule(valid: bool, imports: seq<Import>, main: MainExport, calls: seq<nat>)

  const FallbackNote := "note: This doctest ran in fallback mode without wasm-bindgen."
  const CaptureNote := "      Console output from the test was not captured."
  const ImportsHint := "      For better error messages, add wasm_bindgen_test imports."

  /** `WebAssembly.compile` accepts the module: its bytes are valid and every call
      goes to an imported function. */
  predicate Compiles(m: WasmModule)
  {
    && m.valid
    && forall k :: 0 <= k < |m.calls| ==> m.calls[k] < |m.imports| && m.imports[m.calls[k]].kind == Func
  }

  /** Instantiation finds a function for `imp`: only a proxy namespace answers a
      lookup with a function, and a function satisfies only a function import. */
  predicate Resolves(obj: map<string, Namespace>, imp: Import)
  {
    imp.moduleName in obj && obj[imp.moduleName].IsProxy() && imp.kind == Func
  }

  /** `WebAssembly.instantiate` links every import of the module. */
  predicate Links(obj: map<string, Namespace>, imports: seq<Import>)
  {
    forall i :: 0 <= i < |imports| ==> Resolves(obj, imports[i])
  }

  /** Every call in `calls` goes to an import that resolves. */
  predicate CallsResolve(obj: map<string, Namespace>, imports: seq<Import>, calls: seq<nat>)
  {
    forall k :: 0 <= k < |calls| ==> calls[k] < |imports| && Resolves(obj, imports[calls[k]])
  }

  /** The import `main` calls, dispatched to the stub its namespace holds. */
  function Dispatch(obj: map<string, Namespace>, imp: Import): Completion
    requires Resolves(obj, imp)
  {
    CallStub(obj[imp.moduleName], imp.name)
  }

  /** A call that the stubs let through: the placeholder namespace's describe hook. */
  predicate Silent(obj: map<string, Namespace>, imp: Import)
    requires Resolves(obj, imp)
  {
    obj[imp.moduleName] == PlaceholderProxy && imp.name == DescribeName
  }

  /** How `main` ends: the first stub call that throws ends it, otherwise it ends as
      `ending`. */
  function RunCalls(obj: map<string, Namespace>, imports: seq<Import>, calls: seq<nat>, ending: Completion): Completion
    requires CallsResolve(obj, imports, calls)
    decreases |calls|
  {
    if calls == [] then ending
    else
      var c := Dispatch(obj, imports[calls[0]]);
      if c.Threw? then c else RunCalls(obj, imports, calls[1..], ending)
  }

  /** The position in `calls` of the first call that is not silent, if any. */
  function FirstLoud(obj: map<string, Namespace>, imports: seq<Import>, calls: seq<nat>): (k: Option<nat>)
    requires CallsResolve(obj, imports, calls)
    ensures k.Some? ==> k.value < |calls| && !Silent(obj, imports[calls[k.value]])
    ensures k.Some? ==> forall j :: 0 <= j < k.value ==> Silent(obj, imports[calls[j]])
    ensures k.None? ==> forall j :: 0 <= j < |calls| ==> Silent(obj, imports[calls[j]])
    decreases |calls|
  {
    if calls == [] then None
    else if !Silent(obj, imports[calls[0]]) then Some(0)
    else
      match FirstLoud(obj, imports, calls[1..])
      case None => None
      case Some(k) => Some(k + 1)
  }

  /** The first call that is not silent decides how `main` ends: it throws that
      stub's error; when every call is silent, `main` ends as its export says. */
  lemma {:induction false} RunCallsFirstLoud(obj: map<string, Namespace>, imports: seq<Import>, calls: seq<nat>, ending: Completion)
    requires CallsResolve(obj, imports, calls)
    ensures FirstLoud(obj, imports, calls).None? ==> RunCalls(obj, imports, calls, ending) == ending
    ensures FirstLoud(obj, imports, calls).Some? ==>
      var imp := imports[calls[FirstLoud(obj, imports, calls).value]];
      RunCalls(obj, imports, calls, ending) == Dispatch(obj, imp) && Dispatch(obj, imp).Threw?
    decreases |calls|
  {
    if calls != [] {
      var imp := imports[calls[0]];
      if Silent(obj, imp) {
        RunCallsFirstLoud(obj, imports, calls[1..], ending);
      } else {
        OtherStubsThrow(obj[imp.moduleName], imp.name);
      }
    }
  }

  /** The lines printed after a passing run. */
  const PassLines := [OkLine, "", FallbackNote, CaptureNote]
  /** The lines printed after a failing run. */
  const FailLines := [FailedLine, "", FallbackNote, ImportsHint]

  function FallbackPass(): ScriptRun
  {
    ScriptRun(PassLines, [], Some(0))
  }

  function FallbackFail(e: Thrown): ScriptRun
  {
    ScriptRun(FailLines, [e], Some(1))
  }

  /** What the fallback loader does with module `m`. The messages of the errors the
      engine raises for compilation and linking are not modelled. */
  function FallbackLoaderRun(m: WasmModule): ScriptRun
  {
    if !Compiles(m) then FallbackFail(Thrown(CompileError, ""))
    else
      var obj := ImportObject(m.imports);
      if !Links(obj, m.imports) then FallbackFail(Thrown(LinkError, ""))
      else
        match m.main
        case Callable(ending) =>
          (match RunCalls(obj, m.imports, m.calls, ending)
           case Returned => FallbackPass()
           case Threw(e) => FallbackFail(e))
        case _ => FallbackFail(NoMain)
  }

  /** The fallback run passes: the module compiles and links, `main` is a function,
      every stub it calls is the describe hook, and it returns. */
  ghost predicate FallbackPasses(m: WasmModule)
  {
    && Compiles(m)
    && Links(ImportObject(m.imports), m.imports)
    && m.main == Callable(Returned)
    && forall k :: 0 <= k < |m.calls| ==>
         m.imports[m.calls[k]].moduleName == PlaceholderModule && m.imports[m.calls[k]].name == DescribeName
  }

  /** A linked module's calls all resolve, and a call is silent exactly when it is
      the describe hook of the placeholder namespace. */
  lemma LinkedCallsResolve(m: WasmModule)
    requires Compiles(m) && Links(ImportObject(m.imports), m.imports)
    ensures CallsResolve(ImportObject(m.imports), m.imports, m.calls)
    ensures forall k :: 0 <= k < |m.calls| ==>
      (Silent(ImportObject(m.imports), m.imports[m.calls[k]]) <==>
       m.imports[m.calls[k]].moduleName == PlaceholderModule && m.imports[m.calls[k]].name == DescribeName)
  {
    ImportObjectContents(m.imports);
  }

  /** Under this link rule the loop as written links exactly the modules the
      corrected loop links: a namespace it skips is named like an Object.prototype
      property, has no stub, and so links no function import either way. */
  lemma AsWrittenLinksAlike(imports: seq<Import>)
    ensures Links(AddImportsAsWritten(map[], imports), imports) <==> Links(ImportObject(imports), imports)
  {
    AsWrittenSkipsPrototypeNames(map[], imports);
    ImportObjectContents(imports);
    assert PlaceholderModule !in ObjectPrototypeNames && ExternrefModule !in ObjectPrototypeNames;
    forall i | 0 <= i < |imports|
      ensures Resolves(AddImportsAsWritten(map[], imports), imports[i]) <==> Resolves(ImportObject(imports), imports[i])
    {
      assert imports[i] in imports;
    }
  }

  /** Both outcomes of the fallback loader: the ok line, the fallback note, the note
      that console output was not captured and exit 0 when the run passes; otherwise
      the FAILED line, the fallback note, the hint to add wasm_bindgen_test imports,
      one reported error and exit 1. */
  lemma FallbackVerdict(m: WasmModule)
    ensures FallbackPasses(m) ==> FallbackLoaderRun(m) == ScriptRun([OkLine, "", FallbackNote, CaptureNote], [], Some(0))
    ensures !FallbackPasses(m) ==>
      && FallbackLoaderRun(m).stdout == [FailedLine, "", FallbackNote, ImportsHint]
      && |FallbackLoaderRun(m).stderr| == 1
      && FallbackLoaderRun(m).exitCall == Some(1)
  {
    if Compiles(m) && Links(ImportObject(m.imports), m.imports) && m.main.Callable? {
      var obj := ImportObject(m.imports);
      LinkedCallsResolve(m);
      RunCallsFirstLoud(obj, m.imports, m.calls, m.main.completion);
      var k := FirstLoud(obj, m.imports, m.calls);
      if k.Some? {
        assert !FallbackPasses(m);
      }
    }
  }

  /** A stub that a linked `main` calls and that is not the describe hook fails the
      test, and the reported error names the import: the first such call's name. */
  lemma FallbackReportsStubCall(m: WasmModule, k: nat)
    requires Compiles(m) && Links(ImportObject(m.imports), m.imports) && m.main.Callable?
    requires k < |m.calls|
    requires m.imports[m.calls[k]].moduleName != PlaceholderModule || m.imports[m.calls[k]].name != DescribeName
    ensures FallbackLoaderRun(m).stdout[0] == FailedLine && |FallbackLoaderRun(m).stderr| == 1
    ensures exists j :: (
      && 0 <= j <= k
      && Dispatch(ImportObject(m.imports), m.imports[m.calls[j]]) == Threw(FallbackLoaderRun(m).stderr[0])
      && Contains(FallbackLoaderRun(m).stderr[0].message, m.imports[m.calls[j]].name))
  {
    var obj := ImportObject(m.imports);
    LinkedCallsResolve(m);
    RunCallsFirstLoud(obj, m.imports, m.calls, m.main.completion);
    var first := FirstLoud(obj, m.imports, m.calls);
    assert first.Some?;
    var j := first.value;
    assert j <= k;
    var imp := m.imports[m.calls[j]];
    OtherStubsThrow(obj[imp.moduleName], imp.name);
  }
}
