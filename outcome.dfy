/** The outcome rule of the generated loader scripts: how the CommonJS, ES-module and
    Deno loaders turn "main is there and returns" or "main is missing or throws"
    into one summary line and an exit code. The JavaScript engine itself is not
    modelled; the loader's inputs are abstract. */
module Outcome {
  import opened Wrappers
  import opened Text

  /** The kinds of JavaScript error the loaders can see. */
  datatype ErrorKind = Error | CompileError | LinkError | RuntimeError | TypeError

  /** A thrown JavaScript value, by its kind and its `message`. */
  datatype Thrown = Thrown(kind: ErrorKind, message: string)

  /** How a call ends: by returning, or by throwing. */
  datatype Completion = Returned | Threw(error: Thrown)

  /** What the loader finds under `main`: nothing, something that is not a function,
      or a function that, when called, ends as `completion`. */
  datatype MainExport = Missing | NotCallable | Callable(completion: Completion)

  /** What a loader script does that the runner can observe: the lines it prints on
      standard output, the errors it reports on standard error after
      `Doctest failed:`, and the code it passes to an explicit exit call, if any. */
  datatype ScriptRun = ScriptRun(stdout: seq<string>, stderr: seq<Thrown>, exitCall: Option<int>)

  const OkLine := "test result: ok. 1 passed; 0 failed"
  const FailedLine := "test result: FAILED. 0 passed; 1 failed"

  /** The error a loader throws itself when `main` is not a function. */
  const NoMain := Thrown(Error, "No main function found in doctest wasm module")

  /** The conventional test-harness summary line for `passed` and `failed` tests. */
  function SummaryLine(passed: nat, failed: nat): string
  {
    "test result: " + (if failed == 0 then "ok" else "FAILED") + ". "
    + FormatInt(passed) + " passed; " + FormatInt(failed) + " failed"
  }

  lemma FormatZeroOne()
    ensures FormatInt(0) == "0" && FormatInt(1) == "1"
  {
    assert NatDigits(0) == "0" && NatDigits(1) == "1";
  }

  lemma OkLineIsConventional()
    ensures OkLine == SummaryLine(1, 0)
  {
    FormatZeroOne();
    assert SummaryLine(1, 0) == "test result: ok. " + "1" + " passed; " + "0" + " failed";
  }

  lemma FailedLineIsConventional()
    ensures FailedLine == SummaryLine(0, 1)
  {
    FormatZeroOne();
    assert SummaryLine(0, 1) == "test result: FAILED. " + "0" + " passed; " + "1" + " failed";
  }

  /** The two lines the loaders print are the conventional summary for one passing
      and for one failing test. */
  lemma SummaryLinesAreConventional()
    ensures OkLine == SummaryLine(1, 0)
    ensures FailedLine == SummaryLine(0, 1)
    ensures OkLine != FailedLine
  {
    OkLineIsConventional();
    FailedLineIsConventional();
    assert OkLine[13] != FailedLine[13];
  }

  /** How the try block of a loader ends: the probe `typeof main === 'function'`
      either lets `main` run to its completion or throws the missing-main error. */
  function MainCompletion(main: MainExport): (c: Completion)
    ensures c == Returned <==> main == Callable(Returned)
  {
    match main
    case Callable(c) => c
    case _ => Threw(NoMain)
  }

  /** True when a loader's `main` is a function that returns normally. */
  predicate Passes(main: MainExport)
  {
    main == Callable(Returned)
  }

  /** The CommonJS and the ES-module Node loaders (their try/catch blocks are the
      same): the ok line and exit 0 after `main` returns, otherwise the error is
      reported, the FAILED line printed and exit 1 called. */
  function NodeLoaderRun(main: MainExport): ScriptRun
  {
    match MainCompletion(main)
    case Returned => ScriptRun([OkLine], [], Some(0))
    case Threw(e) => ScriptRun([FailedLine], [e], Some(1))
  }

  /** The Deno loader: the same lines, but only the failure path calls exit (with 1);
      a passing script ends without an exit call. */
  function DenoLoaderRun(main: MainExport): ScriptRun
  {
    match MainCompletion(main)
    case Returned => ScriptRun([OkLine], [], None)
    case Threw(e) => ScriptRun([FailedLine], [e], Some(1))
  }

  /** The exit code of a script's process: the code of its explicit exit call, or 0
      when it runs to its end without one. */
  function ExitCodeOf(run: ScriptRun): int
  {
    match run.exitCall
    case Some(c) => c
    case None => 0
  }

  /** The Node loaders print exactly one summary line, the ok line exactly when
      `main` is a function that returns; they exit 0 after the ok line and 1 after
      the FAILED line, and always by an explicit exit call. */
  lemma NodeLoaderVerdict(main: MainExport)
    ensures var run := NodeLoaderRun(main);
      && (run.stdout == [OkLine] || run.stdout == [FailedLine])
      && (run.stdout == [OkLine] <==> Passes(main))
      && run.exitCall == Some(if Passes(main) then 0 else 1)
  {
  }

  /** A failing Node run reports exactly one error: the missing-main error when
      `main` is not a function, otherwise what `main` threw. */
  lemma NodeLoaderReportsError(main: MainExport)
    ensures !Passes(main) <==> |NodeLoaderRun(main).stderr| == 1
    ensures !main.Callable? ==> NodeLoaderRun(main).stderr == [NoMain]
    ensures main.Callable? && main.completion.Threw? ==> NodeLoaderRun(main).stderr == [main.completion.error]
  {
  }

  /** Deno prints the same summary line as Node for every `main`, and its process
      ends with the same exit code, but it calls exit only on failure. */
  lemma DenoAgreesWithNode(main: MainExport)
    ensures DenoLoaderRun(main).stdout == NodeLoaderRun(main).stdout
    ensures DenoLoaderRun(main).stderr == NodeLoaderRun(main).stderr
    ensures ExitCodeOf(DenoLoaderRun(main)) == ExitCodeOf(NodeLoaderRun(main))
    ensures DenoLoaderRun(main).exitCall.Some? <==> !Passes(main)
  {
  }
}
