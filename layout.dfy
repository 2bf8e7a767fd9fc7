/** Which files each doctest runner writes next to the compiled test, and how the
    JavaScript runtime that then loads them decides between CommonJS and ES-module
    syntax. */
module Layout {
  import opened Wrappers
  import opened Text

  /** The four ways a doctest is run: Node loading the binding glue as CommonJS or as
      an ES module, Deno, and Node loading the raw wasm without bindings. */
  datatype Loader = NodeCommonJs | NodeEsModule | Deno | NodeFallback

  /** The two module syntaxes: `require`/`module.exports`, or `import`/`export`. */
  datatype Syntax = CommonJs | EsModule

  /** A `package.json` reduced to the one field the runner writes, its `"type"`. */
  datatype Manifest = PackageJson(moduleType: string)

  const ManifestName := "package.json"
  /** The manifest written for ES-module runs, whose text is `{"type": "module"}`. */
  const ModuleManifest := PackageJson("module")

  /** The Node loader selected by the runner's module-format switch. */
  function NodeLoader(moduleFormat: bool): (l: Loader)
    ensures l == NodeEsModule <==> moduleFormat
    ensures l == NodeCommonJs <==> !moduleFormat
  {
    if moduleFormat then NodeEsModule else NodeCommonJs
  }

  /** The file name of the generated loader script. */
  function ScriptName(l: Loader): string
  {
    match l
    case NodeCommonJs => "run.cjs"
    case NodeEsModule => "run.mjs"
    case Deno => "run.js"
    case NodeFallback => "run.cjs"
  }

  /** The manifest written beside the script, if any. */
  function ManifestFor(l: Loader): Option<Manifest>
  {
    if l == NodeEsModule then Some(ModuleManifest) else None
  }

  /** The syntax the generated script is written in: the CommonJS and fallback
      loaders `require` their dependencies, the ES-module and Deno loaders `import`
      them. */
  function ScriptSyntax(l: Loader): Syntax
  {
    match l
    case NodeCommonJs => CommonJs
    case NodeEsModule => EsModule
    case Deno => EsModule
    case NodeFallback => CommonJs
  }

  /** The syntax of the binding glue `{module}.js` that the Node loaders import: the
      glue is generated as an ES module exactly when the module format is on. */
  function GlueSyntax(moduleFormat: bool): Syntax
  {
    if moduleFormat then EsModule else CommonJs
  }

  /** How Node decides the syntax of a file: `.mjs` is always an ES module, `.cjs`
      always CommonJS, and any other file follows the `"type"` of the nearest
      manifest, CommonJS when there is none or it says anything but `"module"`. */
  function NodeReads(name: string, manifest: Option<Manifest>): Syntax
  {
    if EndsWith(name, ".mjs") then EsModule
    else if EndsWith(name, ".cjs") then CommonJs
    else if manifest == Some(PackageJson("module")) then EsModule
    else CommonJs
  }

  /** How Deno decides the syntax of a file: everything but `.cjs` is an ES module. */
  function DenoReads(name: string): Syntax
  {
    if EndsWith(name, ".cjs") then CommonJs else EsModule
  }

  /** The manifest Node finds for a file in the temporary directory: the one written
      there, if any; otherwise Node keeps looking upwards and finds the nearest
      manifest of an ancestor directory, if any. */
  function NearestManifest(written: Option<Manifest>, ancestor: Option<Manifest>): Option<Manifest>
  {
    if written.Some? then written else ancestor
  }

  /** The syntax the runtime that runs loader `l` gives to file `name`. */
  function RuntimeReads(l: Loader, name: string, manifest: Option<Manifest>): Syntax
  {
    if l == Deno then DenoReads(name) else NodeReads(name, manifest)
  }

  /** A manifest is written exactly for the Node ES-module loader, and it declares
      the ES-module type. */
  lemma ManifestOnlyForModuleFormat(l: Loader)
    ensures ManifestFor(l).Some? <==> l == NodeEsModule
    ensures ManifestFor(l).Some? ==> ManifestFor(l).value.moduleType == "module"
  {
  }

  /** Each loader's script name: `.mjs` with the module format on, `.cjs` with it off
      and in fallback mode, `.js` under Deno. */
  lemma ScriptExtensions(l: Loader)
    ensures EndsWith(ScriptName(l), ".mjs") <==> l == NodeEsModule
    ensures EndsWith(ScriptName(l), ".cjs") <==> l == NodeCommonJs || l == NodeFallback
    ensures l == Deno <==> ScriptName(l) == "run.js"
  {
    assert "run.cjs"[3..] == ".cjs" && "run.mjs"[3..] == ".mjs" && "run.js"[3..] == ".js";
  }

  /** Every generated script is read in the syntax it is written in, whatever
      manifest an ancestor directory holds. */
  lemma ScriptReadAsWritten(l: Loader, ancestor: Option<Manifest>)
    ensures RuntimeReads(l, ScriptName(l), NearestManifest(ManifestFor(l), ancestor)) == ScriptSyntax(l)
  {
    ScriptExtensions(l);
  }

  /** Node reads the binding glue `{module}.js` in the syntax it was generated in,
      the same syntax as the loader that imports it, whatever manifest an ancestor
      holds when the module format is on; with it off no manifest is written, so
      this holds exactly when the nearest ancestor manifest, if any, does not
      declare the module type. */
  lemma GlueReadAsGenerated(moduleFormat: bool, moduleName: string, ancestor: Option<Manifest>)
    ensures var nearest := NearestManifest(ManifestFor(NodeLoader(moduleFormat)), ancestor);
      NodeReads(moduleName + ".js", nearest) == GlueSyntax(moduleFormat)
      <==> moduleFormat || ancestor != Some(ModuleManifest)
    ensures GlueSyntax(moduleFormat) == ScriptSyntax(NodeLoader(moduleFormat))
  {
    var name := moduleName + ".js";
    assert name[|name| - 3..] == ".js";
    assert !EndsWith(name, ".mjs") && !EndsWith(name, ".cjs") by {
      assert name[|name| - 1] == 's' && name[|name| - 2] == 'j' && name[|name| - 3] == '.';
    }
  }
}
