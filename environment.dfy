/** What the Node runners take from their environment: the extra interpreter flags in
    `NODE_ARGS`, and the module search path `NODE_PATH` handed to the child. */
module Environment {
  import opened Wrappers
  import opened Text

  /** The fields that are not empty, in their original order. */
  function NonEmpty(fields: seq<string>): (kept: seq<string>)
    ensures forall f :: f in kept ==> f in fields && f != []
    ensures forall f :: f in fields && f != [] ==> f in kept
  {
    if fields == [] then []
    else (if fields[0] == [] then [] else [fields[0]]) + NonEmpty(fields[1..])
  }

  /** The extra interpreter flags taken from the `NODE_ARGS` variable: an unset (or
      unreadable) variable counts as empty, the value is split on `,`, and the empty
      fields are dropped. Both Node runners use this same rule. */
  function ExtraArgs(nodeArgs: Option<string>): seq<string>
  {
    NonEmpty(Split(nodeArgs.GetOr(""), ','))
  }

  /** A well-formed flag list: no flag is empty and none contains the separator. */
  ghost predicate WellFormedFlags(flags: seq<string>)
  {
    forall f :: f in flags ==> f != [] && ',' !in f
  }

  /** How a flag list is written in `NODE_ARGS`: comma-separated. */
  function WriteFlags(flags: seq<string>): string
  {
    if flags == [] then "" else Join(flags, ',')
  }

  /** Every flag handed to the interpreter is non-empty and free of commas. */
  lemma ExtraArgsWellFormed(nodeArgs: Option<string>)
    ensures WellFormedFlags(ExtraArgs(nodeArgs))
  {
    SplitFieldsFree(nodeArgs.GetOr(""), ',');
  }

  /** An unset variable gives no flags at all. */
  lemma ExtraArgsUnset()
    ensures ExtraArgs(None) == []
  {
  }

  lemma {:induction false} NonEmptyKeepsNonEmpty(fields: seq<string>)
    requires forall f :: f in fields ==> f != []
    ensures NonEmpty(fields) == fields
  {
    if fields != [] {
      assert forall f :: f in fields[1..] ==> f in fields;
      NonEmptyKeepsNonEmpty(fields[1..]);
      assert fields[0] in fields;
      assert [fields[0]] + fields[1..] == fields;
    }
  }

  lemma {:induction false} NonEmptyKeepsCharacters(fields: seq<string>)
    ensures Concat(NonEmpty(fields)) == Concat(fields)
  {
    if fields != [] {
      NonEmptyKeepsCharacters(fields[1..]);
      var head := if fields[0] == [] then [] else [fields[0]];
      ConcatAppend(head, NonEmpty(fields[1..]));
      assert Concat([fields[0]]) == fields[0];
    }
  }

  lemma {:induction false} ConcatAppend(a: seq<string>, b: seq<string>)
    ensures Concat(a + b) == Concat(a) + Concat(b)
  {
    if a == [] {
      assert a + b == b;
    } else {
      ConcatAppend(a[1..], b);
      assert (a + b)[1..] == a[1..] + b;
    }
  }

  /** Round trip: a well-formed flag list written comma-separated into `NODE_ARGS`
      comes back as exactly that list, in the same order. */
  lemma ExtraArgsRoundTrip(flags: seq<string>)
    requires WellFormedFlags(flags)
    ensures ExtraArgs(Some(WriteFlags(flags))) == flags
  {
    if flags != [] {
      SplitJoin(flags, ',');
      NonEmptyKeepsNonEmpty(flags);
    }
  }

  /** Nothing but commas is lost: the flags, written one after the other, are the
      variable's value with its commas removed, in their original order. */
  lemma ExtraArgsKeepCharacters(value: string)
    ensures Concat(ExtraArgs(Some(value))) == Without(value, ',')
  {
    SplitKeepsCharacters(value, ',');
    NonEmptyKeepsCharacters(Split(value, ','));
  }

  /** The search path of the child: the inherited `NODE_PATH` entries, then the
      working directory, then the temporary directory holding the loader. */
  method AugmentSearchPath(inherited: seq<string>, cwd: string, tmpdir: string) returns (path: seq<string>)
    ensures |path| == |inherited| + 2
    ensures path[..|inherited|] == inherited
    ensures path[|inherited|] == cwd && path[|inherited| + 1] == tmpdir
  {
    path := inherited;
    path := path + [cwd];
    path := path + [tmpdir];
  }

  /** The first entry of a search path that is one of `holding`, the directories
      that hold the module being looked up: the directory a lookup resolves to. */
  function Resolve(path: seq<string>, holding: set<string>): (found: Option<string>)
    ensures found.Some? ==> found.value in path && found.value in holding
  {
    if path == [] then None
    else if path[0] in holding then Some(path[0])
    else Resolve(path[1..], holding)
  }

  /** Augmenting the search path never changes what the inherited entries resolve;
      only a module they do not provide is looked up in the working directory, and
      only after that in the temporary directory. */
  lemma {:induction false} AugmentKeepsResolution(inherited: seq<string>, cwd: string, tmpdir: string, holding: set<string>)
    ensures Resolve(inherited + [cwd, tmpdir], holding) ==
      if Resolve(inherited, holding).Some? then Resolve(inherited, holding)
      else if cwd in holding then Some(cwd)
      else if tmpdir in holding then Some(tmpdir)
      else None
  {
    if inherited != [] {
      AugmentKeepsResolution(inherited[1..], cwd, tmpdir, holding);
      assert (inherited + [cwd, tmpdir])[1..] == inherited[1..] + [cwd, tmpdir];
    } else {
      assert [cwd, tmpdir][1..] == [tmpdir];
    }
  }
}
