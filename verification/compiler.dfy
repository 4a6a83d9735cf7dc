/** The two compiler passes (build.rs, `configure_arduino`, `compile_arduino`).
    A `cc::Build` is modelled as an immutable record of what has been handed to
    it; each builder call returns a new record, so the two passes are two
    independent values built by the same pure function. */
module Compiler {
  import opened Paths
  import opened Results
  import opened Manifest
  import opened Discovery

  /** The compiler a `cc::Build` runs: the tool `cc` picks itself until one
      is set. */
  datatype Executable = DefaultTool | ToolAt(path: Path)

  /** The arguments a `cc::Build` has accumulated. `noStdlib` records `cpp_set_stdlib(None)`, which stops the C++
      standard library from being linked in. */
  datatype Invocation = Invocation(
    defines: seq<Definition>,
    flags: seq<string>,
    includes: seq<Path>,
    files: seq<Path>,
    compiler: Executable,
    cpp: bool,
    noStdlib: bool)

  /** `Build::new()`. */
  function NewBuild(): Invocation {
    Invocation([], [], [], [], DefaultTool, false, false)
  }

  /** Everything of `b` except its flags. */
  predicate SameButFlags(a: Invocation, b: Invocation) {
    a.defines == b.defines && a.includes == b.includes && a.files == b.files
    && a.compiler == b.compiler && a.cpp == b.cpp && a.noStdlib == b.noStdlib
  }

  /** `define(k, v)` for each entry, in the order given. */
  function DefineAll(b: Invocation, ds: seq<Definition>): (r: Invocation)
    ensures r.defines == b.defines + ds
    ensures r == b.(defines := r.defines)
  {
    if |ds| == 0 then b
    else
      var r := DefineAll(b, ds[..|ds| - 1]);
      assert ds == ds[..|ds| - 1] + [ds[|ds| - 1]];
      r.(defines := r.defines + [ds[|ds| - 1]])
  }

  /** `flag(f)`: one more flag, nothing else touched. */
  function Flag(b: Invocation, f: string): (r: Invocation)
    ensures r.flags == b.flags + [f]
    ensures SameButFlags(r, b)
  {
    b.(flags := b.flags + [f])
  }

  /** Three flags added one at a time are the three as a block. */
  lemma FlagsInTurn3(b: Invocation, x: string, y: string, z: string)
    ensures Flag(Flag(Flag(b, x), y), z).flags == b.flags + [x, y, z]
    ensures SameButFlags(Flag(Flag(Flag(b, x), y), z), b)
  {
    assert b.flags + [x] + [y] + [z] == b.flags + [x, y, z];
  }

  /** `flag(f)` for each flag, in the order given. */
  function FlagAll(b: Invocation, fs: seq<string>): (r: Invocation)
    ensures r.flags == b.flags + fs
    ensures SameButFlags(r, b)
  {
    if |fs| == 0 then b
    else
      var r := FlagAll(b, fs[..|fs| - 1]);
      assert fs == fs[..|fs| - 1] + [fs[|fs| - 1]];
      r.(flags := r.flags + [fs[|fs| - 1]])
  }

  /** `include(d)` for each directory, in the order given. */
  function IncludeAll(b: Invocation, ds: seq<Path>): (r: Invocation)
    ensures r.includes == b.includes + ds
    ensures r == b.(includes := r.includes)
  {
    if |ds| == 0 then b
    else
      var r := IncludeAll(b, ds[..|ds| - 1]);
      assert ds == ds[..|ds| - 1] + [ds[|ds| - 1]];
      r.(includes := r.includes + [ds[|ds| - 1]])
  }

  /** `add_source_file`: `file(f)` for each source, in the order given. */
  function AddSourceFiles(b: Invocation, fs: seq<Path>): (r: Invocation)
    ensures r.files == b.files + fs
    ensures r == b.(files := r.files)
  {
    if |fs| == 0 then b
    else
      var r := AddSourceFiles(b, fs[..|fs| - 1]);
      assert fs == fs[..|fs| - 1] + [fs[|fs| - 1]];
      r.(files := r.files + [fs[|fs| - 1]])
  }

  /** Flags every pass gets after the configured ones. */
  const BaselineFlags: seq<string> := ["-Os", "-fno-exceptions", "-ffunction-sections", "-fdata-sections"]

  /** Flags only the C++ pass gets. */
  const CppFlags: seq<string> := ["-std=gnu++11", "-fpermissive", "-fno-threadsafe-statics"]

  /** Flags only the C pass gets. */
  const CFlags: seq<string> := ["-std=gnu11"]

  /** `configure_arduino`: the shared starting point of both passes. */
  function ConfigureArduino(c: Config, expand: string -> string): (r: Invocation)
    ensures forall d :: d in r.defines <==> d in c.definitions
    ensures |r.defines| == |c.definitions|
    ensures r.flags == c.flags + BaselineFlags
    ensures r.compiler == ToolAt(AvrGcc(c, expand))
    ensures r.includes == IncludeDirs(c, expand)
    ensures r.files == [] && !r.cpp && r.noStdlib
  {
    Configure(c, AvrGcc(c, expand), IncludeDirs(c, expand))
  }

  /** With a well-formed configuration the defines of every pass are exactly
      the entries of the `definitions` map: `k` is defined as `v` when the
      map sends `k` to `v`, and only then. */
  lemma DefinesMatchMap(c: Config, expand: string -> string, k: string, v: string)
    requires WellFormed(c)
    ensures Definition(k, v) in ConfigureArduino(c, expand).defines <==>
              k in DefinitionMap(c.definitions) && DefinitionMap(c.definitions)[k] == v
  {
    DefinitionMapAgrees(c.definitions, k, v);
  }

  /** The steps of `configure_arduino` for a given compiler executable and
      include path: definitions, configured flags, compiler, `-Os`, no C++
      standard library, the remaining baseline flags, then the include path. */
  function Configure(c: Config, compiler: Path, includeDirs: seq<Path>): (r: Invocation)
    ensures r.defines == c.definitions
    ensures r.flags == c.flags + BaselineFlags
    ensures r.compiler == ToolAt(compiler)
    ensures r.includes == includeDirs
    ensures r.files == [] && !r.cpp && r.noStdlib
  {
    var defined := DefineAll(NewBuild(), c.definitions);
    assert defined == Invocation(c.definitions, [], [], [], DefaultTool, false, false);
    var configured := FlagAll(defined, c.flags);
    assert configured == Invocation(c.definitions, c.flags, [], [], DefaultTool, false, false);
    var tuned := Flag(configured.(compiler := ToolAt(compiler)), "-Os").(noStdlib := true);
    assert tuned == Invocation(c.definitions, c.flags + ["-Os"], [], [], ToolAt(compiler), false, true);
    var baseline := Flag(Flag(Flag(tuned, "-fno-exceptions"), "-ffunction-sections"), "-fdata-sections");
    FlagsInTurn3(tuned, "-fno-exceptions", "-ffunction-sections", "-fdata-sections");
    assert c.flags + ["-Os"] + ["-fno-exceptions", "-ffunction-sections", "-fdata-sections"] == c.flags + BaselineFlags;
    assert baseline == Invocation(c.definitions, c.flags + BaselineFlags, [], [], ToolAt(compiler), false, true);
    IncludeAll(baseline, includeDirs)
  }

  /** The first half of `compile_arduino`: a fresh configuration switched to
      C++, the C++ flags, then every `*.cpp` source. */
  function CppPass(c: Config, expand: string -> string, glob: string -> GlobOutcome): (r: Result<Invocation>)
    ensures r.Ok? <==> CppFiles(c, expand, glob).Ok?
    ensures r.Err? ==> r.error == CppFiles(c, expand, glob).error
    ensures r.Ok? ==> var base := ConfigureArduino(c, expand);
                      && r.value.flags == base.flags + CppFlags
                      && r.value.files == CppFiles(c, expand, glob).value
                      && r.value.cpp
                      && r.value.defines == base.defines
                      && r.value.includes == base.includes
                      && r.value.compiler == base.compiler
                      && r.value.noStdlib == base.noStdlib
  {
    var b := ConfigureArduino(c, expand).(cpp := true);
    FlagsInTurn3(b, "-std=gnu++11", "-fpermissive", "-fno-threadsafe-statics");
    var b := Flag(Flag(Flag(b, "-std=gnu++11"), "-fpermissive"), "-fno-threadsafe-statics");
    var files :- CppFiles(c, expand, glob);
    Ok(AddSourceFiles(b, files))
  }

  /** The second half of `compile_arduino`: another fresh configuration, the
      C standard flag, then every `*.c` source. */
  function CPass(c: Config, expand: string -> string, glob: string -> GlobOutcome): (r: Result<Invocation>)
    ensures r.Ok? <==> CFiles(c, expand, glob).Ok?
    ensures r.Err? ==> r.error == CFiles(c, expand, glob).error
    ensures r.Ok? ==> var base := ConfigureArduino(c, expand);
                      && r.value.flags == base.flags + CFlags
                      && r.value.files == CFiles(c, expand, glob).value
                      && !r.value.cpp
                      && r.value.defines == base.defines
                      && r.value.includes == base.includes
                      && r.value.compiler == base.compiler
                      && r.value.noStdlib == base.noStdlib
  {
    var b := Flag(ConfigureArduino(c, expand), "-std=gnu11");
    var files :- CFiles(c, expand, glob);
    Ok(AddSourceFiles(b, files))
  }

  /** Nothing of the C++ pass leaks into the C pass: a C++-only flag reaches
      the C compiler only when the configuration itself lists it, and the C
      pass is never in C++ mode. */
  lemma NoFlagLeakage(c: Config, expand: string -> string, glob: string -> GlobOutcome)
    requires CPass(c, expand, glob).Ok?
    ensures var cpass := CPass(c, expand, glob).value;
            && !cpass.cpp
            && forall f :: f in CppFlags ==> (f in cpass.flags <==> f in c.flags)
  {
    var cpass := CPass(c, expand, glob).value;
    assert cpass.flags == c.flags + BaselineFlags + CFlags;
    OnlyCppPassFlags();
  }

  /** No C++-only flag is among the flags every pass gets or the C-only ones. */
  lemma OnlyCppPassFlags()
    ensures forall f :: f in CppFlags ==> f !in BaselineFlags && f !in CFlags
  {
  }

  /** What `compile_arduino` hands to the compiler, pass by pass. */
  datatype Passes = Passes(cppPass: Invocation, cPass: Invocation)

  /** The archive each pass produces. */
  const CppArchive: string := "libarduino_c++.a"
  const CArchive: string := "libarduino_c.a"

  /** `compile_arduino`, with `compile` standing for `cc::Build::compile`
      (true when the archive was built). The C++ sources are discovered and
      compiled before the C sources are discovered; any failure stops the
      build there. */
  function CompileArduino(c: Config, expand: string -> string, glob: string -> GlobOutcome,
                          compile: (Invocation, string) -> bool): (r: Result<Passes>)
    ensures r.Ok? <==> && CppPass(c, expand, glob).Ok? && compile(CppPass(c, expand, glob).value, CppArchive)
                       && CPass(c, expand, glob).Ok? && compile(CPass(c, expand, glob).value, CArchive)
    ensures r.Ok? ==> r.value == Passes(CppPass(c, expand, glob).value, CPass(c, expand, glob).value)
    ensures CppPass(c, expand, glob).Ok? && !compile(CppPass(c, expand, glob).value, CppArchive)
            ==> r == Err(CompileFailed(CppArchive))
    ensures CppPass(c, expand, glob).Err? ==> r == Err(CppPass(c, expand, glob).error)
    ensures (CppPass(c, expand, glob).Ok? && compile(CppPass(c, expand, glob).value, CppArchive)
             && CPass(c, expand, glob).Err?) ==> r == Err(CPass(c, expand, glob).error)
    ensures (CppPass(c, expand, glob).Ok? && compile(CppPass(c, expand, glob).value, CppArchive)
             && CPass(c, expand, glob).Ok? && !compile(CPass(c, expand, glob).value, CArchive))
            ==> r == Err(CompileFailed(CArchive))
  {
    var cppPass :- CppPass(c, expand, glob);
    if !compile(cppPass, CppArchive) then Err(CompileFailed(CppArchive))
    else
      var cPass :- CPass(c, expand, glob);
      if !compile(cPass, CArchive) then Err(CompileFailed(CArchive))
      else Ok(Passes(cppPass, cPass))
  }
}
