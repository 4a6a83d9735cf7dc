/** The build script's entry point (build.rs, `main`, `compile_arduino` and
    `generate_bindings` run one after the other). Everything outside the
    script reaches it through `Host`. */
module Orchestrator {
  import opened Paths
  import opened Results
  import opened Manifest
  import opened Discovery
  import opened Compiler
  import opened Bindgen

  /** What the script takes from its surroundings: environment expansion
      (`envmnt::expand`), globbing, `CARGO_MANIFEST_DIR`, file existence, and
      whether the foreign steps succeed (`cc::Build::compile`,
      `Builder::generate`, `Bindings::write_to_file`, `fs::remove_file`). */
  datatype Host = Host(
    expand: string -> string,
    glob: string -> GlobOutcome,
    manifestDir: string,
    fileExists: Path -> bool,
    compile: (Invocation, string) -> bool,
    generate: Builder -> bool,
    write: (Builder, Path) -> bool,
    remove: Path -> bool)

  /** What a successful build handed to the foreign tools. */
  datatype Report = Report(passes: Passes, bindings: BindingAction)

  /** Carrying out the bindings decision. */
  function ApplyBindings(c: Config, h: Host, action: BindingAction): (r: Result<BindingAction>)
    ensures r.Ok? ==> r.value == action
    ensures action.NoOp? ==> r.Ok?
    ensures action.Delete? ==> (r.Ok? <==> h.remove(action.target))
    ensures action.Delete? && r.Err? ==> r.error == CleanupFailed(c.bindingsFile)
    ensures action.Generate? ==>
              (r.Ok? <==> h.generate(action.builder) && h.write(action.builder, action.target))
    ensures action.Generate? && !h.generate(action.builder) ==> r == Err(GenerationFailed)
    ensures action.Generate? && h.generate(action.builder) && !h.write(action.builder, action.target)
            ==> r == Err(WriteFailed(c.bindingsFile))
  {
    match action
    case NoOp => Ok(action)
    case Delete(target) =>
      if h.remove(target) then Ok(action) else Err(CleanupFailed(c.bindingsFile))
    case Generate(builder, target) =>
      if !h.generate(builder) then Err(GenerationFailed)
      else if !h.write(builder, target) then Err(WriteFailed(c.bindingsFile))
      else Ok(action)
  }

  /** `main` after the configuration has been read: both compiler passes,
      then the bindings. The first failure ends the build. */
  function Run(c: Config, h: Host): (r: Result<Report>)
    ensures var compiled := CompileArduino(c, h.expand, h.glob, h.compile);
            && (compiled.Err? ==> r == Err(compiled.error))
            && (r.Ok? ==> compiled.Ok? && r.value.passes == compiled.value)
    ensures var decided := GenerateBindings(c, h.expand, h.glob, h.manifestDir, h.fileExists);
            r.Ok? ==> decided.Ok? && r.value.bindings == decided.value
    ensures var compiled := CompileArduino(c, h.expand, h.glob, h.compile);
            var decided := GenerateBindings(c, h.expand, h.glob, h.manifestDir, h.fileExists);
            r.Ok? <==> compiled.Ok? && decided.Ok? && ApplyBindings(c, h, decided.value).Ok?
    ensures var compiled := CompileArduino(c, h.expand, h.glob, h.compile);
            var decided := GenerateBindings(c, h.expand, h.glob, h.manifestDir, h.fileExists);
            compiled.Ok? && decided.Err? ==> r == Err(decided.error)
    ensures var compiled := CompileArduino(c, h.expand, h.glob, h.compile);
            var decided := GenerateBindings(c, h.expand, h.glob, h.manifestDir, h.fileExists);
            compiled.Ok? && decided.Ok? && ApplyBindings(c, h, decided.value).Err? ==>
              r == Err(ApplyBindings(c, h, decided.value).error)
  {
    var passes :- CompileArduino(c, h.expand, h.glob, h.compile);
    var decided :- GenerateBindings(c, h.expand, h.glob, h.manifestDir, h.fileExists);
    var done :- ApplyBindings(c, h, decided);
    Ok(Report(passes, done))
  }

  /** Without external libraries the binding backend is never used: the
      outcome does not depend on what generating or writing would do, no
      builder is reported, and the bindings file is deleted exactly when it
      exists. */
  lemma NoExternalLibrariesNoBackend(c: Config, h: Host, generate: Builder -> bool, write: (Builder, Path) -> bool)
    requires |c.externalLibraries| == 0
    ensures Run(c, h) == Run(c, h.(generate := generate, write := write))
    ensures Run(c, h).Ok? ==> !Run(c, h).value.bindings.Generate?
    ensures Run(c, h).Ok? ==>
              (Run(c, h).value.bindings == Delete(BindingsPath(c, h.manifestDir))
               <==> h.fileExists(BindingsPath(c, h.manifestDir)))
  {
    var h' := h.(generate := generate, write := write);
    var compiled := CompileArduino(c, h.expand, h.glob, h.compile);
    var decided := GenerateBindings(c, h.expand, h.glob, h.manifestDir, h.fileExists);
    assert decided.Ok?;
    assert !decided.value.Generate?;
    assert ApplyBindings(c, h, decided.value) == ApplyBindings(c, h', decided.value);
  }

  /** Compilation and binding generation agree on the include path: both
      passes use `IncludeDirs` in order, and the generator's `-I` arguments
      list the same directories in the same order. */
  lemma IncludePathsAgree(c: Config, h: Host)
    requires Run(c, h).Ok?
    ensures var p := Run(c, h).value.passes;
            && p.cppPass.includes == IncludeDirs(c, h.expand)
            && p.cPass.includes == p.cppPass.includes
    ensures var p := Run(c, h).value.passes;
            var action := Run(c, h).value.bindings;
            action.Generate? ==>
              && IncludeArgsStart(c) <= |action.builder.clangArgs|
              && action.builder.clangArgs[IncludeArgsStart(c)..] == IncludeArgs(p.cppPass.includes)
  {
    PassIncludes(c, h);
    var action := Run(c, h).value.bindings;
    if action.Generate? {
      GeneratedArgs(c, h);
      IncludeArgsLayout(c, IncludeDirs(c, h.expand));
    }
  }

  /** Both compiler passes of a successful build search `IncludeDirs`. */
  lemma PassIncludes(c: Config, h: Host)
    requires Run(c, h).Ok?
    ensures Run(c, h).value.passes.cppPass.includes == IncludeDirs(c, h.expand)
    ensures Run(c, h).value.passes.cPass.includes == IncludeDirs(c, h.expand)
  {
    var compiled := CompileArduino(c, h.expand, h.glob, h.compile);
    assert compiled.Ok?;
    assert compiled.value.cppPass == CppPass(c, h.expand, h.glob).value;
    assert compiled.value.cPass == CPass(c, h.expand, h.glob).value;
  }

  /** A successful build generates from a builder whose clang arguments are
      those of the configured builder. */
  lemma GeneratedArgs(c: Config, h: Host)
    requires Run(c, h).Ok? && Run(c, h).value.bindings.Generate?
    ensures Run(c, h).value.bindings.builder.clangArgs == ConfiguredBuilder(c, IncludeDirs(c, h.expand)).clangArgs
  {
    var decided := GenerateBindings(c, h.expand, h.glob, h.manifestDir, h.fileExists);
    assert decided.Ok? && decided.value.Generate?;
    assert |c.externalLibraries| > 0;
  }

  /** Every definition reaches all three invocations: as a define of the C++
      pass and of the C pass, and as `-Dk=v` for the binding generator. */
  lemma DefinitionsReachEveryInvocation(c: Config, h: Host, d: Definition)
    requires Run(c, h).Ok?
    requires d in c.definitions
    ensures d in Run(c, h).value.passes.cppPass.defines
    ensures d in Run(c, h).value.passes.cPass.defines
    ensures Run(c, h).value.bindings.Generate? ==>
              "-D" + d.name + "=" + d.value in Run(c, h).value.bindings.builder.clangArgs
  {
    var compiled := CompileArduino(c, h.expand, h.glob, h.compile);
    assert compiled.Ok? && Run(c, h).value.passes == compiled.value;
    var base := ConfigureArduino(c, h.expand);
    assert d in base.defines;
    assert compiled.value.cppPass.defines == base.defines;
    assert compiled.value.cPass.defines == base.defines;
    var action := Run(c, h).value.bindings;
    if action.Generate? {
      var decided := GenerateBindings(c, h.expand, h.glob, h.manifestDir, h.fileExists);
      assert decided.Ok? && action == decided.value;
      DefinitionArgs(c, h.expand, h.glob, d);
    }
  }
}
