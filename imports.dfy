/** The import side of the fallback loader: the table of stub namespaces, what a stub
    does when the test calls it, and the loop that builds the import object handed
    to `WebAssembly.instantiate`. */
module Imports {
  import opened Text
  import opened Outcome

  /** The kinds of import a wasm module declares. */
  datatype ImportKind = Func | Table | Memory | Global | Tag

  /** One entry of `WebAssembly.Module.imports`: the namespace it is imported from,
      its name within that namespace, and its kind. */
  datatype Import = Import(moduleName: string, name: string, kind: ImportKind)

  /** The values a namespace of the import object can hold: the two proxies of the
      stub table, the stub table's own empty `env` object, or a fresh empty object. */
  datatype Namespace = PlaceholderProxy | ExternrefProxy | EnvObject | FreshObject {
    /** A proxy answers every property lookup with a stub function. */
    predicate IsProxy() {
      PlaceholderProxy? || ExternrefProxy?
    }
  }

  const PlaceholderModule := "__wbindgen_placeholder__"
  const ExternrefModule := "__wbindgen_externref_xform__"
  const DescribeName := "__wbindgen_describe"
  const StubSuffix := ". This doctest requires wasm-bindgen-test support."

  /** The fallback loader's stub table, keyed by namespace. */
  const StubTable: map<string, Namespace> :=
    map[PlaceholderModule := PlaceholderProxy, ExternrefModule := ExternrefProxy, "env" := EnvObject]

  /** The value the loader puts under a namespace: the stub table's entry when there
      is one, otherwise a fresh empty object. */
  function StubFor(moduleName: string): (ns: Namespace)
    ensures ns.IsProxy() <==> moduleName == PlaceholderModule || moduleName == ExternrefModule
  {
    if moduleName in StubTable then StubTable[moduleName] else FreshObject
  }

  /** What calling the stub function that proxy `ns` gives for property `name` does:
      the describe hook of the placeholder namespace returns without effect, and
      every other stub throws an error naming the property it was looked up under. */
  function CallStub(ns: Namespace, name: string): Completion
    requires ns.IsProxy()
  {
    if ns == PlaceholderProxy then
      if name == DescribeName then Returned
      else Threw(Thrown(Error, "wasm-bindgen stub called: " + name + StubSuffix))
    else Threw(Thrown(Error, "externref stub called: " + name + StubSuffix))
  }

  /** Calling the describe hook is silent. */
  lemma DescribeIsSilent()
    ensures CallStub(StubFor(PlaceholderModule), DescribeName) == Returned
  {
  }

  /** Every stub but the describe hook throws, and its message names the import. */
  lemma OtherStubsThrow(ns: Namespace, name: string)
    requires ns.IsProxy()
    requires !(ns == PlaceholderProxy && name == DescribeName)
    ensures CallStub(ns, name).Threw?
    ensures Contains(CallStub(ns, name).error.message, name)
  {
    if ns == PlaceholderProxy {
      ContainsMiddle("wasm-bindgen stub called: ", name, StubSuffix);
    } else {
      ContainsMiddle("externref stub called: ", name, StubSuffix);
    }
  }

  /** The namespaces the module imports from. */
  function Namespaces(imports: seq<Import>): set<string>
  {
    set imp | imp in imports :: imp.moduleName
  }

  /** One pass of the builder loop: a namespace that already has an entry keeps it,
      a new one gets its stub value. */
  function AddImport(obj: map<string, Namespace>, imp: Import): map<string, Namespace>
  {
    if imp.moduleName in obj then obj else obj[imp.moduleName := StubFor(imp.moduleName)]
  }

  /** The builder loop run over `imports` starting from `obj`. */
  function AddImports(obj: map<string, Namespace>, imports: seq<Import>): map<string, Namespace>
    decreases imports
  {
    if imports == [] then obj else AddImports(AddImport(obj, imports[0]), imports[1..])
  }

  /** The import object the fallback loader builds, starting from an empty object. */
  function ImportObject(imports: seq<Import>): map<string, Namespace>
  {
    AddImports(map[], imports)
  }

  /** An entry, once made, is never overwritten by a later import. */
  lemma {:induction false} FirstEntryWins(obj: map<string, Namespace>, imports: seq<Import>)
    ensures forall k :: k in obj ==> k in AddImports(obj, imports) && AddImports(obj, imports)[k] == obj[k]
    decreases imports
  {
    if imports != [] {
      FirstEntryWins(AddImport(obj, imports[0]), imports[1..]);
    }
  }

  /** Running the loop from `obj` adds exactly the imported namespaces not yet in
      `obj`, each with its stub value. */
  lemma {:induction false} AddImportsContents(obj: map<string, Namespace>, imports: seq<Import>)
    ensures AddImports(obj, imports).Keys == obj.Keys + Namespaces(imports)
    ensures forall k :: k in AddImports(obj, imports) && k !in obj ==> AddImports(obj, imports)[k] == StubFor(k)
    decreases imports
  {
    if imports != [] {
      AddImportsContents(AddImport(obj, imports[0]), imports[1..]);
      FirstEntryWins(AddImport(obj, imports[0]), imports[1..]);
      assert Namespaces(imports) == {imports[0].moduleName} + Namespaces(imports[1..]) by {
        assert forall imp :: imp in imports <==> imp == imports[0] || imp in imports[1..];
      }
    }
  }

  /** The import object has exactly one key per imported namespace and no other, and
      each key holds the stub table's entry for it or a fresh empty object. */
  lemma ImportObjectContents(imports: seq<Import>)
    ensures ImportObject(imports).Keys == Namespaces(imports)
    ensures forall k :: k in ImportObject(imports) ==> ImportObject(imports)[k] == StubFor(k)
  {
    AddImportsContents(map[], imports);
  }

  /** The builder loop as the fallback loader runs it: for each import in turn, a
      namespace without an entry gets its stub value. */
  method BuildImportObject(imports: seq<Import>) returns (obj: map<string, Namespace>)
    ensures obj == ImportObject(imports)
    ensures obj.Keys == Namespaces(imports)
    ensures forall k :: k in obj ==> obj[k] == StubFor(k)
  {
    obj := map[];
    var i := 0;
    while i < |imports|
      invariant 0 <= i <= |imports|
      invariant AddImports(obj, imports[i..]) == ImportObject(imports)
    {
      assert imports[i..][1..] == imports[i + 1..];
      if imports[i].moduleName !in obj {
        obj := obj[imports[i].moduleName := StubFor(imports[i].moduleName)];
      }
      i := i + 1;
    }
    assert imports[i..] == [];
    ImportObjectContents(imports);
  }

  // The loop as written tests `!imports[imp.module]` on an object literal, so a
  // lookup that misses the object's own keys continues into Object.prototype.

  /** The properties every object literal inherits from Object.prototype (section
      20.1.3 of ECMA-262, with the legacy accessors of Annex B.2.2). */
  const ObjectPrototypeNames: set<string> := {
    "constructor", "hasOwnProperty", "isPrototypeOf", "propertyIsEnumerable",
    "toLocaleString", "toString", "valueOf", "__proto__", "__defineGetter__",
    "__defineSetter__", "__lookupGetter__", "__lookupSetter__"
  }

  /** The result of reading a property of an object literal. */
  datatype Lookup = Undefined | Inherited | Own(ns: Namespace)

  function Get(obj: map<string, Namespace>, key: string): Lookup
  {
    if key in obj then Own(obj[key])
    else if key in ObjectPrototypeNames then Inherited
    else Undefined
  }

  /** Every value found by a lookup is an object or a function, and so truthy. */
  predicate Truthy(v: Lookup)
  {
    !v.Undefined?
  }

  /** One pass of the loop as written: the guard is the truthiness of the lookup. */
  function AddImportAsWritten(obj: map<string, Namespace>, imp: Import): map<string, Namespace>
  {
    if !Truthy(Get(obj, imp.moduleName)) then obj[imp.moduleName := StubFor(imp.moduleName)] else obj
  }

  function AddImportsAsWritten(obj: map<string, Namespace>, imports: seq<Import>): map<string, Namespace>
    decreases imports
  {
    if imports == [] then obj else AddImportsAsWritten(AddImportAsWritten(obj, imports[0]), imports[1..])
  }

  /** The loop as written gives no key to an imported namespace that shares its
      name with an Object.prototype property; every other namespace it adds holds
      its stub value, and existing entries are kept. */
  lemma {:induction false} AsWrittenSkipsPrototypeNames(obj: map<string, Namespace>, imports: seq<Import>)
    requires obj.Keys !! ObjectPrototypeNames
    ensures AddImportsAsWritten(obj, imports).Keys == obj.Keys + (Namespaces(imports) - ObjectPrototypeNames)
    ensures forall k :: k in AddImportsAsWritten(obj, imports) ==>
      AddImportsAsWritten(obj, imports)[k] == if k in obj then obj[k] else StubFor(k)
    decreases imports
  {
    if imports != [] {
      AsWrittenSkipsPrototypeNames(AddImportAsWritten(obj, imports[0]), imports[1..]);
      assert Namespaces(imports) == {imports[0].moduleName} + Namespaces(imports[1..]) by {
        assert forall imp :: imp in imports <==> imp == imports[0] || imp in imports[1..];
      }
    }
  }

  /** A module importing a function from a namespace called `constructor` gets no
      entry for it from the loop as written, though it gets one from the builder
      above. */
  lemma ConstructorNamespaceDropped()
    ensures var imports := [Import("constructor", "f", Func)];
      && "constructor" in Namespaces(imports)
      && "constructor" !in AddImportsAsWritten(map[], imports)
      && "constructor" in ImportObject(imports)
  {
    var imports := [Import("constructor", "f", Func)];
    assert imports[0] in imports;
    AsWrittenSkipsPrototypeNames(map[], imports);
    ImportObjectContents(imports);
  }
}
