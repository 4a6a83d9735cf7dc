/** The build configuration read from `arduino.yaml` and every path derived
    from it (build.rs, `struct Config` and its path methods). Environment
    placeholders in the two home fields are expanded by `expand`, a parameter
    standing for `envmnt::expand`. */
module Manifest {
  import opened Paths

  /** One entry of the `definitions` map: a preprocessor symbol and its value. */
  datatype Definition = Definition(name: string, value: string)

  /** Identifier patterns handed to the binding generator. */
  datatype BindgenLists = BindgenLists(
    allowlistFunction: seq<string>,
    allowlistType: seq<string>,
    blocklistFunction: seq<string>,
    blocklistType: seq<string>)

  /** The parsed configuration. `definitions` is the source's hash map, listed
      in the (unspecified) order in which iterating it yields its entries; the
      same map is iterated each time, so every consumer sees the same order. */
  datatype Config = Config(
    arduinoHome: string,
    externalLibrariesHome: string,
    coreVersion: string,
    variant: string,
    avrGccVersion: string,
    arduinoLibraries: seq<string>,
    externalLibraries: seq<string>,
    definitions: seq<Definition>,
    flags: seq<string>,
    bindgenLists: BindgenLists,
    bindingsFile: string)

  /** A hash map has each key once. */
  predicate DistinctNames(ds: seq<Definition>) {
    forall i, j :: 0 <= i < j < |ds| ==> ds[i].name != ds[j].name
  }

  /** The configuration as a well-formed map would give it. */
  predicate WellFormed(c: Config) {
    DistinctNames(c.definitions)
  }

  /** The map the listed definitions came from. */
  function DefinitionMap(ds: seq<Definition>): (m: map<string, string>)
    ensures forall d :: d in ds ==> d.name in m
    ensures forall k :: k in m ==> exists d :: d in ds && d.name == k
  {
    if |ds| == 0 then map[] else DefinitionMap(ds[..|ds| - 1])[ds[|ds| - 1].name := ds[|ds| - 1].value]
  }

  /** With distinct names the list and the map hold the same pairs. */
  lemma {:induction false} DefinitionMapAgrees(ds: seq<Definition>, k: string, v: string)
    requires DistinctNames(ds)
    ensures Definition(k, v) in ds <==> (k in DefinitionMap(ds) && DefinitionMap(ds)[k] == v)
  {
    if |ds| > 0 {
      var init := ds[..|ds| - 1];
      var last := ds[|ds| - 1];
      assert ds == init + [last];
      assert DistinctNames(init);
      DefinitionMapAgrees(init, k, v);
      if Definition(k, v) in init {
        var i :| 0 <= i < |init| && init[i] == Definition(k, v);
        assert ds[i].name != ds[|ds| - 1].name;
      }
    }
  }

  /** The core version, board variant and gcc version are relative, so the
      fixed directories stay below the package root. */
  predicate RelativeVersions(c: Config) {
    && !IsAbsolute(c.coreVersion)
    && !IsAbsolute(c.variant)
    && !IsAbsolute(c.avrGccVersion)
  }

  /** Every first-party library name is relative. */
  predicate RelativeFirstParty(c: Config) {
    forall i :: 0 <= i < |c.arduinoLibraries| ==> !IsAbsolute(c.arduinoLibraries[i])
  }

  /** Every external library name is relative. */
  predicate RelativeExternal(c: Config) {
    forall i :: 0 <= i < |c.externalLibraries| ==> !IsAbsolute(c.externalLibraries[i])
  }

  /** No segment of the derived layout replaces the path built so far: the
      version, variant and library names are all relative. */
  predicate RelativeNames(c: Config) {
    RelativeVersions(c) && RelativeFirstParty(c) && RelativeExternal(c)
  }

  /** `<arduino_home>/packages/arduino`, the home expanded once. */
  function ArduinoPackagePath(c: Config, expand: string -> string): (r: Path)
    ensures r == [expand(c.arduinoHome), "packages", "arduino"]
  {
    Join(Join([expand(c.arduinoHome)], "packages"), "arduino")
  }

  /** `<package>/hardware/avr/<core_version>`. */
  function CorePath(c: Config, expand: string -> string): (r: Path)
    ensures !IsAbsolute(c.coreVersion) ==>
              r == [expand(c.arduinoHome), "packages", "arduino", "hardware", "avr", c.coreVersion]
    ensures IsAbsolute(c.coreVersion) ==> r == [c.coreVersion]
  {
    var pkg := ArduinoPackagePath(c, expand);
    assert Join(Join(pkg, "hardware"), "avr") == pkg + ["hardware", "avr"];
    Join(Join(Join(pkg, "hardware"), "avr"), c.coreVersion)
  }

  /** `<package>/tools/avr-gcc/<avr_gcc_version>`. */
  function AvrGccHome(c: Config, expand: string -> string): (r: Path)
    ensures !IsAbsolute(c.avrGccVersion) ==>
              r == [expand(c.arduinoHome), "packages", "arduino", "tools", "avr-gcc", c.avrGccVersion]
    ensures IsAbsolute(c.avrGccVersion) ==> r == [c.avrGccVersion]
  {
    var pkg := ArduinoPackagePath(c, expand);
    assert Join(Join(pkg, "tools"), "avr-gcc") == pkg + ["tools", "avr-gcc"];
    Join(Join(Join(pkg, "tools"), "avr-gcc"), c.avrGccVersion)
  }

  /** The compiler executable, `<gcc home>/bin/avr-gcc` (`avg_gcc` in the source). */
  function AvrGcc(c: Config, expand: string -> string): (r: Path)
    ensures r == AvrGccHome(c, expand) + ["bin", "avr-gcc"]
    ensures |r| >= 3 && r[|r| - 1] == "avr-gcc"
  {
    Join(Join(AvrGccHome(c, expand), "bin"), "avr-gcc")
  }

  /** The core runtime sources, `<core>/cores/arduino`. */
  function ArduinoCorePath(c: Config, expand: string -> string): (r: Path)
    ensures r == CorePath(c, expand) + ["cores", "arduino"]
  {
    Join(Join(CorePath(c, expand), "cores"), "arduino")
  }

  /** The three fixed include directories: core sources, board variant and
      the toolchain's own headers, in that order. */
  function ArduinoIncludeDirs(c: Config, expand: string -> string): (r: seq<Path>)
    ensures |r| == 3
    ensures r[0] == CorePath(c, expand) + ["cores", "arduino"]
    ensures !IsAbsolute(c.variant) ==> r[1] == CorePath(c, expand) + ["variants", c.variant]
    ensures IsAbsolute(c.variant) ==> r[1] == [c.variant]
    ensures r[2] == AvrGccHome(c, expand) + ["avr", "include"]
  {
    var variantPath := Join(Join(CorePath(c, expand), "variants"), c.variant);
    var avrGccIncludePath := Join(Join(AvrGccHome(c, expand), "avr"), "include");
    [ArduinoCorePath(c, expand), variantPath, avrGccIncludePath]
  }

  /** `<root>/<name>/src`, the source directory of one library. */
  function SrcDir(root: Path, name: string): (r: Path)
    ensures !IsAbsolute(name) ==> r == root + [name, "src"]
    ensures IsAbsolute(name) ==> r == [name, "src"]
  {
    Join(Join(root, name), "src")
  }

  /** One source directory per library name, pushed in the order of the names. */
  function SrcDirs(root: Path, names: seq<string>): (r: seq<Path>)
    ensures |r| == |names|
    ensures forall i :: 0 <= i < |names| ==> r[i] == SrcDir(root, names[i])
  {
    if |names| == 0 then []
    else SrcDirs(root, names[..|names| - 1]) + [SrcDir(root, names[|names| - 1])]
  }

  /** First-party libraries live under `<core>/libraries`. */
  function ArduinoLibrariesPath(c: Config, expand: string -> string): (r: seq<Path>)
    ensures |r| == |c.arduinoLibraries|
    ensures forall i :: 0 <= i < |r| ==>
              r[i] == SrcDir(CorePath(c, expand) + ["libraries"], c.arduinoLibraries[i])
  {
    SrcDirs(Join(CorePath(c, expand), "libraries"), c.arduinoLibraries)
  }

  /** External libraries live directly under the expanded external home. */
  function ExternalLibrariesPath(c: Config, expand: string -> string): (r: seq<Path>)
    ensures |r| == |c.externalLibraries|
    ensures forall i :: 0 <= i < |r| ==>
              r[i] == SrcDir([expand(c.externalLibrariesHome)], c.externalLibraries[i])
  {
    SrcDirs([expand(c.externalLibrariesHome)], c.externalLibraries)
  }

  /** The include search path shared by both compiler passes and the binding generator. */
  function IncludeDirs(c: Config, expand: string -> string): (r: seq<Path>)
    ensures |r| == 3 + |c.arduinoLibraries| + |c.externalLibraries|
  {
    ArduinoIncludeDirs(c, expand) + ArduinoLibrariesPath(c, expand) + ExternalLibrariesPath(c, expand)
  }

  /** With relative names, first-party library `i` sits at `<core>/libraries/<name_i>/src`. */
  lemma ArduinoLibrariesLayout(c: Config, expand: string -> string)
    requires RelativeFirstParty(c)
    ensures forall i :: 0 <= i < |c.arduinoLibraries| ==>
              ArduinoLibrariesPath(c, expand)[i] == CorePath(c, expand) + ["libraries", c.arduinoLibraries[i], "src"]
  {
  }

  /** With relative names, external library `i` sits at `<external home>/<name_i>/src`. */
  lemma ExternalLibrariesLayout(c: Config, expand: string -> string)
    requires RelativeExternal(c)
    ensures forall i :: 0 <= i < |c.externalLibraries| ==>
              ExternalLibrariesPath(c, expand)[i] == [expand(c.externalLibrariesHome), c.externalLibraries[i], "src"]
  {
  }

  /** With relative names the three fixed include directories are the core
      sources, the board variant and the toolchain headers. */
  lemma FixedIncludeDirsLayout(c: Config, expand: string -> string)
    requires RelativeVersions(c)
    ensures var home := expand(c.arduinoHome);
            var core := [home, "packages", "arduino", "hardware", "avr", c.coreVersion];
            var r := IncludeDirs(c, expand);
            && r[0] == core + ["cores", "arduino"]
            && r[1] == core + ["variants", c.variant]
            && r[2] == [home, "packages", "arduino", "tools", "avr-gcc", c.avrGccVersion, "avr", "include"]
  {
    var r := IncludeDirs(c, expand);
    assert r[..3] == ArduinoIncludeDirs(c, expand);
  }

  /** After the three fixed entries the include path lists every first-party
      library's `src`, in configuration order. */
  lemma FirstPartyIncludeDirs(c: Config, expand: string -> string)
    requires RelativeFirstParty(c)
    ensures |IncludeDirs(c, expand)| >= 3 + |c.arduinoLibraries|
    ensures forall j :: 0 <= j < |c.arduinoLibraries| ==>
              IncludeDirs(c, expand)[3 + j] == CorePath(c, expand) + ["libraries", c.arduinoLibraries[j], "src"]
  {
    var r := IncludeDirs(c, expand);
    var a := ArduinoLibrariesPath(c, expand);
    assert r[3..3 + |a|] == a;
    ArduinoLibrariesLayout(c, expand);
    forall j | 0 <= j < |a|
      ensures r[3 + j] == CorePath(c, expand) + ["libraries", c.arduinoLibraries[j], "src"]
    {
      assert r[3 + j] == r[3..3 + |a|][j];
    }
  }

  /** The include path ends with every external library's `src`, in
      configuration order. */
  lemma ExternalIncludeDirs(c: Config, expand: string -> string)
    requires RelativeExternal(c)
    ensures |IncludeDirs(c, expand)| == 3 + |c.arduinoLibraries| + |c.externalLibraries|
    ensures forall j :: 0 <= j < |c.externalLibraries| ==>
              IncludeDirs(c, expand)[3 + |c.arduinoLibraries| + j] ==
                [expand(c.externalLibrariesHome), c.externalLibraries[j], "src"]
  {
    var r := IncludeDirs(c, expand);
    var e := ExternalLibrariesPath(c, expand);
    var k := 3 + |c.arduinoLibraries|;
    assert r[k..] == e;
    ExternalLibrariesLayout(c, expand);
    forall j | 0 <= j < |e|
      ensures r[k + j] == [expand(c.externalLibrariesHome), c.externalLibraries[j], "src"]
    {
      assert r[k + j] == r[k..][j];
    }
  }

  /** The include path is the three fixed directories (core sources, board
      variant, toolchain headers), then every first-party library's `src`,
      then every external library's `src`, each group in configuration order. */
  lemma IncludeDirsLayout(c: Config, expand: string -> string)
    requires RelativeNames(c)
    ensures var home := expand(c.arduinoHome);
            var core := [home, "packages", "arduino", "hardware", "avr", c.coreVersion];
            && |IncludeDirs(c, expand)| == 3 + |c.arduinoLibraries| + |c.externalLibraries|
            && IncludeDirs(c, expand)[0] == core + ["cores", "arduino"]
            && IncludeDirs(c, expand)[1] == core + ["variants", c.variant]
            && IncludeDirs(c, expand)[2] == [home, "packages", "arduino", "tools", "avr-gcc", c.avrGccVersion, "avr", "include"]
    ensures forall j :: 0 <= j < |c.arduinoLibraries| ==>
              IncludeDirs(c, expand)[3 + j] == CorePath(c, expand) + ["libraries", c.arduinoLibraries[j], "src"]
    ensures forall j :: 0 <= j < |c.externalLibraries| ==>
              IncludeDirs(c, expand)[3 + |c.arduinoLibraries| + j] ==
                [expand(c.externalLibrariesHome), c.externalLibraries[j], "src"]
  {
    FixedIncludeDirsLayout(c, expand);
    FirstPartyIncludeDirs(c, expand);
    ExternalIncludeDirs(c, expand);
  }
}
