/** Binding generation (build.rs, `configure_arduino_bindgen` and the branch
    logic of `generate_bindings`). A `bindgen::Builder` is modelled as the
    record of what has been handed to it. */
module Bindgen {
  import opened Paths
  import opened Results
  import opened Manifest
  import opened Discovery

  /** The arguments a `bindgen::Builder` has accumulated: raw clang arguments,
      the option switches the script sets, the four identifier lists and the
      header files to parse. */
  datatype Builder = Builder(
    clangArgs: seq<string>,
    useCore: bool,
    sizeTIsUsize: bool,
    layoutTests: bool,
    cargoCallbacks: bool,
    allowlistFunction: seq<string>,
    allowlistType: seq<string>,
    blocklistFunction: seq<string>,
    blocklistType: seq<string>,
    headers: seq<string>)

  /** `Builder::default()`. */
  function DefaultBuilder(): Builder {
    Builder([], false, true, true, false, [], [], [], [], [])
  }

  /** `clang_arg(a)` for each argument, in the order given. */
  function ClangArgAll(b: Builder, args: seq<string>): (r: Builder)
    ensures r.clangArgs == b.clangArgs + args
    ensures r == b.(clangArgs := r.clangArgs)
  {
    if |args| == 0 then b
    else
      var r := ClangArgAll(b, args[..|args| - 1]);
      assert args == args[..|args| - 1] + [args[|args| - 1]];
      r.(clangArgs := r.clangArgs + [args[|args| - 1]])
  }

  /** `format!("-D{}={}", k, v)`. */
  function DefineArg(d: Definition): string {
    "-D" + d.name + "=" + d.value
  }

  /** `format!("-I{}", dir.to_string_lossy())`. */
  function IncludeArg(dir: Path): string {
    "-I" + Render(dir)
  }

  /** The source is parsed as GNU C++11, like the C++ compiler pass. */
  const LanguageArgs: seq<string> := ["-x", "c++", "-std=gnu++11"]

  function DefineArgs(ds: seq<Definition>): (r: seq<string>)
    ensures |r| == |ds|
    ensures forall i :: 0 <= i < |ds| ==> r[i] == DefineArg(ds[i])
  {
    seq(|ds|, i requires 0 <= i < |ds| => DefineArg(ds[i]))
  }

  function IncludeArgs(dirs: seq<Path>): (r: seq<string>)
    ensures |r| == |dirs|
    ensures forall i :: 0 <= i < |dirs| ==> r[i] == IncludeArg(dirs[i])
  {
    seq(|dirs|, i requires 0 <= i < |dirs| => IncludeArg(dirs[i]))
  }

  function RenderAll(ps: seq<Path>): (r: seq<string>)
    ensures |r| == |ps|
    ensures forall i :: 0 <= i < |ps| ==> r[i] == Render(ps[i])
  {
    seq(|ps|, i requires 0 <= i < |ps| => Render(ps[i]))
  }

  /** Where the clang arguments for the include path start: after the
      definitions, the configured flags and the language selection. */
  function IncludeArgsStart(c: Config): nat {
    |c.definitions| + |c.flags| + |LanguageArgs|
  }

  /** Everything `configure_arduino_bindgen` sets before adding headers:
      definitions, configured flags and the language selection as clang
      arguments, the option switches, the four lists, then the include path
      `includeDirs` (`IncludeDirs` of the configuration). */
  function ConfiguredBuilder(c: Config, includeDirs: seq<Path>): (r: Builder)
    ensures r.clangArgs == DefineArgs(c.definitions) + c.flags + LanguageArgs + IncludeArgs(includeDirs)
    ensures r.useCore && r.sizeTIsUsize && !r.layoutTests && r.cargoCallbacks
    ensures r.allowlistFunction == c.bindgenLists.allowlistFunction
    ensures r.allowlistType == c.bindgenLists.allowlistType
    ensures r.blocklistFunction == c.bindgenLists.blocklistFunction
    ensures r.blocklistType == c.bindgenLists.blocklistType
    ensures r.headers == []
  {
    var lists := c.bindgenLists;
    var defined := ClangArgAll(DefaultBuilder(), DefineArgs(c.definitions));
    var flagged := ClangArgAll(defined, c.flags);
    var language := ClangArgAll(flagged, LanguageArgs)
                      .(useCore := true, sizeTIsUsize := true, layoutTests := false, cargoCallbacks := true);
    var listed := language.(allowlistFunction := language.allowlistFunction + lists.allowlistFunction)
                          .(allowlistType := language.allowlistType + lists.allowlistType)
                          .(blocklistFunction := language.blocklistFunction + lists.blocklistFunction)
                          .(blocklistType := language.blocklistType + lists.blocklistType);
    assert listed.clangArgs == DefineArgs(c.definitions) + c.flags + LanguageArgs;
    assert listed.headers == [];
    ClangArgAll(listed, IncludeArgs(includeDirs))
  }

  /** `configure_arduino_bindgen`: the configured builder plus every header
      `bindgen_headers` finds. Fails only when the header search fails. */
  function ConfigureArduinoBindgen(c: Config, expand: string -> string, glob: string -> GlobOutcome)
    : (r: Result<Builder>)
    ensures r.Ok? <==> BindgenHeaders(c, expand, glob).Ok?
    ensures r.Err? ==> r.error == BindgenHeaders(c, expand, glob).error
    ensures r.Ok? ==> r.value == ConfiguredBuilder(c, IncludeDirs(c, expand))
                                   .(headers := RenderAll(BindgenHeaders(c, expand, glob).value))
  {
    var headers :- BindgenHeaders(c, expand, glob);
    var b := ConfiguredBuilder(c, IncludeDirs(c, expand));
    Ok(b.(headers := b.headers + RenderAll(headers)))
  }

  /** The clang arguments open with one `-Dk=v` per definition, in the
      iteration order of the definitions. */
  lemma DefineArgsLayout(c: Config, dirs: seq<Path>)
    ensures var args := ConfiguredBuilder(c, dirs).clangArgs;
            && |args| >= |c.definitions|
            && forall i :: 0 <= i < |c.definitions| ==>
                 args[i] == "-D" + c.definitions[i].name + "=" + c.definitions[i].value
  {
    var args := ConfiguredBuilder(c, dirs).clangArgs;
    var defs := DefineArgs(c.definitions);
    ConcatParts(defs, c.flags, LanguageArgs, IncludeArgs(dirs));
    forall i | 0 <= i < |defs|
      ensures args[i] == defs[i]
    {
      assert args[..|defs|][i] == args[i];
    }
  }

  /** After the definitions come the configured flags, unchanged and in
      order, then the selection of GNU C++11 (`LanguageArgs`). */
  lemma FlagArgsLayout(c: Config, dirs: seq<Path>)
    ensures var args := ConfiguredBuilder(c, dirs).clangArgs;
            var nd := |c.definitions|;
            var nf := |c.flags|;
            && args[nd..nd + nf] == c.flags
            && args[nd + nf..IncludeArgsStart(c)] == LanguageArgs
  {
    ConcatParts(DefineArgs(c.definitions), c.flags, LanguageArgs, IncludeArgs(dirs));
  }

  /** The four pieces of a concatenation can be read back off it. */
  lemma ConcatParts(a: seq<string>, b: seq<string>, c: seq<string>, d: seq<string>)
    ensures var s := a + b + c + d;
            && s[..|a|] == a
            && s[|a|..|a| + |b|] == b
            && s[|a| + |b|..|a| + |b| + |c|] == c
            && s[|a| + |b| + |c|..] == d
  {
  }

  /** The clang arguments end with one `-I` per include directory, in order. */
  lemma IncludeArgsLayout(c: Config, dirs: seq<Path>)
    ensures var args := ConfiguredBuilder(c, dirs).clangArgs;
            var k := IncludeArgsStart(c);
            && |args| == k + |dirs|
            && args[k..] == IncludeArgs(dirs)
            && forall i :: k <= i < |args| ==> args[i] == "-I" + Render(dirs[i - k])
  {
    var front := DefineArgs(c.definitions) + c.flags + LanguageArgs;
    var args := ConfiguredBuilder(c, dirs).clangArgs;
    assert args == front + IncludeArgs(dirs);
    assert |front| == IncludeArgsStart(c);
    IncludeTail(front, dirs);
  }

  lemma IncludeTail(front: seq<string>, dirs: seq<Path>)
    ensures var s := front + IncludeArgs(dirs);
            forall i :: |front| <= i < |s| ==> s[i] == "-I" + Render(dirs[i - |front|])
  {
  }

  /** Every definition `(k, v)` reaches clang as exactly the argument `-Dk=v`. */
  lemma DefinitionArgs(c: Config, expand: string -> string, glob: string -> GlobOutcome, d: Definition)
    requires ConfigureArduinoBindgen(c, expand, glob).Ok?
    requires d in c.definitions
    ensures "-D" + d.name + "=" + d.value in ConfigureArduinoBindgen(c, expand, glob).value.clangArgs
  {
    var args := ConfigureArduinoBindgen(c, expand, glob).value.clangArgs;
    DefineArgsLayout(c, IncludeDirs(c, expand));
    var i :| 0 <= i < |c.definitions| && c.definitions[i] == d;
    assert args[i] == DefineArg(d);
  }

  /** What `generate_bindings` does with the bindings file. */
  datatype BindingAction =
    | NoOp                                      // no external libraries and no file to remove
    | Delete(target: Path)                      // no external libraries: remove the stale file
    | Generate(builder: Builder, target: Path)  // generate from this builder and write to target

  /** `<CARGO_MANIFEST_DIR>/src/<bindings_file>`. */
  function BindingsPath(c: Config, manifestDir: string): (r: Path)
    ensures !IsAbsolute(c.bindingsFile) ==> r == [manifestDir, "src", c.bindingsFile]
    ensures IsAbsolute(c.bindingsFile) ==> r == [c.bindingsFile]
  {
    Join(Join([manifestDir], "src"), c.bindingsFile)
  }

  /** The decision of `generate_bindings`, with `fileExists` standing for
      `Path::exists`. Without external libraries no builder is constructed
      and the file is deleted exactly when it exists; otherwise the builder of
      `configure_arduino_bindgen` is used. */
  function GenerateBindings(c: Config, expand: string -> string, glob: string -> GlobOutcome,
                            manifestDir: string, fileExists: Path -> bool): (r: Result<BindingAction>)
    ensures var target := BindingsPath(c, manifestDir);
            |c.externalLibraries| == 0 ==>
              && r.Ok?
              && (r.value == Delete(target) <==> fileExists(target))
              && (r.value == NoOp <==> !fileExists(target))
    ensures |c.externalLibraries| > 0 ==>
              && (r.Ok? <==> ConfigureArduinoBindgen(c, expand, glob).Ok?)
              && (r.Err? ==> r.error == ConfigureArduinoBindgen(c, expand, glob).error)
              && (r.Ok? ==> r.value == Generate(ConfigureArduinoBindgen(c, expand, glob).value,
                                                BindingsPath(c, manifestDir)))
    ensures r.Ok? && r.value.Generate? ==> |c.externalLibraries| > 0
  {
    var target := BindingsPath(c, manifestDir);
    if |c.externalLibraries| == 0 then
      if fileExists(target) then Ok(Delete(target)) else Ok(NoOp)
    else
      var builder :- ConfigureArduinoBindgen(c, expand, glob);
      Ok(Generate(builder, target))
  }
}
