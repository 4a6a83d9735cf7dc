# Arduino build script, modelled in Dafny

This project models the pure core of the Cargo build script `build.rs` of a
Rust firmware crate for AVR Arduino boards. The script reads `arduino.yaml`,
derives the Arduino SDK layout from it, discovers the core and library
sources, compiles them into two static archives (`libarduino_c++.a` and
`libarduino_c.a`), and either generates Rust bindings for the external
libraries or removes a stale bindings file.

The model is functional: paths are sequences of pushed segments, builders are
immutable records of what has been handed to them, and every foreign call is
a parameter.

| file | module | what it models |
|---|---|---|
| `results.dfy` | `Results` | the panics of the script as `Err(BuildError)` values |
| `paths.dfy` | `Paths` | `PathBuf::join`, `push`, `to_string_lossy`, `ends_with` on a Unix host |
| `manifest.dfy` | `Manifest` | the `Config` record and its path methods |
| `discovery.dfy` | `Discovery` | `files_in_folder`, `project_files`, `cpp_files`, `c_files`, `bindgen_headers` |
| `compiler.dfy` | `Compiler` | `configure_arduino`, `add_source_file`, `compile_arduino` |
| `bindgen.dfy` | `Bindgen` | `configure_arduino_bindgen` and the decision of `generate_bindings` |
| `orchestrator.dfy` | `Orchestrator` | `main` after the configuration has been read |

Modelling choices:

- **Paths.** A `Path` is the string it was created from, then one segment per `join`.
  - `Join` follows Unix `Path::join`: an absolute segment replaces the whole path.
  - `Render` is the text the script passes on (`to_string_lossy`). It follows the separator rule of `PathBuf::push`.
  - `EndsWith` compares whole components, so `foomain.cpp` does not end with `main.cpp`.
- **Foreign calls as parameters.** Each is a function-typed parameter:
  - `expand` stands for `envmnt::expand`;
  - `glob` stands for the `glob` crate: given the full pattern it rejects the pattern or yields readable or unreadable entries in visiting order. A found path is taken to be in normal form (`Paths.Components`: no empty or `.` segment, no separator inside a segment). A result such as `["dir/main.cpp"]` breaks that form: the model would keep it, while `Path::ends_with` would drop it;
  - `fileExists`, `compile`, `generate`, `write` and `remove` are bundled with these in `Orchestrator.Host`.
- **Definitions.** `definitions` is a `HashMap`, so it is a sequence of name/value pairs with distinct names, in the map's unspecified iteration order.
  - Every consumer iterates the same map, so all three invocations see the same order.
  - No property depends on which order the map yields. Where a contract states an order (the defines of `Configure`, `CppPass` and `CPass`), it is the one order every consumer shares.
- **Errors.** Every `unwrap`/`panic!` of the script aborts the build. It becomes an `Err` naming what failed, propagated with `:-`.

## Model

| member | source | states |
|---|---|---|
| Paths.Push | build.rs:39 | pushing an absolute segment gives that segment alone; otherwise the result starts with the text and ends with the segment, with exactly one `/` between them when the text is non-empty and does not end in `/`, and nothing between them otherwise |
| Paths.RenderJoin | build.rs:36-39 | the text of a joined path is the text of the path with the segment pushed, whether the segment is relative (appended after a separator) or absolute (replaces everything) |
| Paths.RenderLastComponent | build.rs:135 | for a path in component form, the text after the last separator of its rendered text is its last segment |
| Paths.EndsWithRendered | build.rs:135 | for a path in component form, comparing its last segment with a name agrees with comparing the last component of its rendered text, as `Path::ends_with` does |
| Paths.RenderSlashed | build.rs:104 | when every segment is non-empty, does not end in a separator and all but the first are relative, the text of a path is its segments with exactly one separator between neighbours, and it does not end in a separator |
| Manifest.DefinitionMap | build.rs:29 | every listed definition's name is a key of the map, and every key comes from a listed definition |
| Manifest.DefinitionMapAgrees | build.rs:29 | with distinct names, a pair is listed exactly when the map holds that key with that value (both directions) |
| Manifest.ArduinoPackagePath | build.rs:36-40 | the package root is the expanded home followed by `packages`, `arduino` |
| Manifest.CorePath | build.rs:42-47 | the core directory is `<home>/packages/arduino/hardware/avr/<core_version>`, or the version alone when it is absolute |
| Manifest.AvrGccHome | build.rs:49-54 | the gcc home is `<home>/packages/arduino/tools/avr-gcc/<avr_gcc_version>`, or the version alone when it is absolute |
| Manifest.AvrGcc | build.rs:56-58 | the compiler is the gcc home followed by `bin`, `avr-gcc`, and its last component is `avr-gcc` |
| Manifest.ArduinoCorePath | build.rs:60-62 | the core sources are the core directory followed by `cores`, `arduino` |
| Manifest.ArduinoIncludeDirs | build.rs:64-68 | exactly three directories: core sources, the board variant below the core directory (or the variant alone when absolute), and the toolchain's `avr/include` |
| Manifest.SrcDir | build.rs:74 | a library's source directory is `<root>/<name>/src`, or `<name>/src` when the name is absolute |
| Manifest.SrcDirs | build.rs:72-76 | one source directory per name, entry i belonging to name i |
| Manifest.ArduinoLibrariesPath | build.rs:70-77 | one entry per first-party library, in configuration order, each below `<core>/libraries` |
| Manifest.ArduinoLibrariesLayout | build.rs:70-77 | with relative first-party names, entry i is `<core>/libraries/<name_i>/src` |
| Manifest.ExternalLibrariesPath | build.rs:79-87 | one entry per external library, in configuration order, each below the expanded external home |
| Manifest.ExternalLibrariesLayout | build.rs:79-87 | with relative external names, entry i is `<external home>/<name_i>/src` |
| Manifest.IncludeDirs | build.rs:89-94 | the include path has 3 + first-party + external entries |
| Manifest.FixedIncludeDirsLayout | build.rs:64-68 | with relative version and variant names, the first three include directories are `<core>/cores/arduino`, `<core>/variants/<variant>` and `<gcc home>/avr/include`, spelled out from the home |
| Manifest.FirstPartyIncludeDirs | build.rs:89-91 | with relative first-party names, include entry 3 + j is `<core>/libraries/<name_j>/src` |
| Manifest.ExternalIncludeDirs | build.rs:89-93 | with relative external names, the include path ends with the external libraries' `src` directories, entry 3 + n + j being `<external home>/<name_j>/src` |
| Manifest.IncludeDirsLayout | build.rs:89-94 | the whole include path: its length, the three fixed directories, then first-party then external libraries, each in configuration order |
| Discovery.MatchedPaths | build.rs:133-134 | a fully readable iterator yields one path per entry, in order |
| Discovery.DropEntryPointsSpec | build.rs:135-137 | the entry-point exclusion keeps the other matches in order (a subsequence), each as often as it was matched, and no entry point; a path survives exactly when it was matched and is not an entry point |
| Discovery.DropEntryPointsOrder | build.rs:135-137 | the exclusion's result is a subsequence of the matches |
| Discovery.DropEntryPointsCounts | build.rs:135-137 | the exclusion keeps every non-entry-point path as often as it was matched and drops every entry point |
| Discovery.DropEntryPointsExcludes | build.rs:135-137 | no kept path ends with `main.cpp` |
| Discovery.DropEntryPointsSnoc | build.rs:133-138 | filtering the matches one more entry at a time agrees with filtering them all at once |
| Discovery.CollectMatches | build.rs:132-139 | the loop over the iterator succeeds exactly when every entry is readable; it then yields the matches without entry points; otherwise it fails naming the pattern |
| Discovery.FilesInFolder | build.rs:130-140 | a folder search never returns an entry-point file |
| Discovery.FilesInFolderSpec | build.rs:130-140 | a malformed pattern fails, an unreadable entry fails, and neither is an empty result; success happens exactly otherwise and yields the matches of `<folder>/<pattern>` minus entry points, in order |
| Discovery.FilesInFolders | build.rs:103-106 | searching folders in turn succeeds exactly when every folder's search does and joins their results in folder order; a failure is the first failing folder's error |
| Discovery.FilesInFoldersAppend | build.rs:99-106 | searching two groups of folders is searching each group and joining the results, the first group first (both directions of success) |
| Discovery.ProjectFiles | build.rs:96-109 | the sources are the pattern's matches in the core folder followed by the `**/` form's matches in every library folder; a core failure is the build's failure, and otherwise the first failing library folder's error is |
| Discovery.ProjectFilesOrder | build.rs:96-109 | the sources are core matches, then first-party libraries', then external libraries', each group in configuration order |
| Discovery.ProjectFilesNoEntryPoint | build.rs:96-109 | no discovered source is an entry-point file |
| Discovery.CppFiles | build.rs:111-113 | C++ discovery succeeds exactly when `*.cpp` in the core folder and `**/*.cpp` in every library folder can be searched, yields the core matches followed by every library's matches in folder order, and never an entry point; a failure is the one `project_files` reports for `*.cpp` |
| Discovery.CFiles | build.rs:115-117 | C discovery succeeds exactly when `*.c` in the core folder and `**/*.c` in every library folder can be searched, yields the core matches followed by every library's matches in folder order, and never an entry point; a failure is the one `project_files` reports for `*.c` |
| Discovery.BindgenHeaders | build.rs:119-127 | headers come only from the external libraries' `src` folders, matched by the non-recursive `*.h`, in library order, and none is an entry point; a failure is the first failing folder's error |
| Compiler.DefineAll | build.rs:151-153 | defining each pair appends the pairs in order and changes nothing else |
| Compiler.FlagAll | build.rs:154-156 | the configured flags are appended in order and nothing else changes |
| Compiler.IncludeAll | build.rs:165-167 | the include directories are appended in order and nothing else changes |
| Compiler.AddSourceFiles | build.rs:142-147 | the source files are appended in order and nothing else changes |
| Compiler.Configure | build.rs:149-169 | the configured definitions, the configured flags then `-Os -fno-exceptions -ffunction-sections -fdata-sections`, the compiler set to the given path, no C++ standard library, no sources, not in C++ mode, then the given include path |
| Compiler.ConfigureArduino | build.rs:149-169 | every configured definition and nothing else is defined, once each; flags are the configured ones then the baseline four; the compiler is set to `avr-gcc`; the includes are the include path in order |
| Compiler.DefinesMatchMap | build.rs:149-153 | with distinct names, `k` is defined as `v` exactly when the `definitions` map sends `k` to `v` |
| Compiler.CppPass | build.rs:172-177 | the C++ pass is a fresh configuration in C++ mode with `-std=gnu++11 -fpermissive -fno-threadsafe-statics` appended and the `*.cpp` sources added; it fails exactly when C++ discovery does |
| Compiler.CPass | build.rs:182-184 | the C pass is a fresh configuration with only `-std=gnu11` appended and the `*.c` sources added, not in C++ mode; it fails exactly when C discovery does |
| Compiler.NoFlagLeakage | build.rs:182-184 | a C++-only flag reaches the C pass exactly when the configuration itself lists it, and the C pass is never in C++ mode |
| Compiler.CompileArduino | build.rs:171-187 | both archives are built exactly when both passes are assembled and compiled; the C++ pass comes first and its failure stops the build before C discovery; after it, a C discovery error or a failed C archive is the reported error |
| Bindgen.ClangArgAll | build.rs:191-196 | clang arguments are appended in order and nothing else changes |
| Bindgen.ConfiguredBuilder | build.rs:189-220 | clang arguments are the definitions, the configured flags, GNU C++11 selection and the include path, in that order; `core` is used, `size_t` is `usize`, layout tests are off, cargo callbacks are on; the four lists are copied; no header yet |
| Bindgen.DefineArgsLayout | build.rs:191-193 | the clang arguments open with `-Dk=v` for definition i at position i |
| Bindgen.FlagArgsLayout | build.rs:194-199 | after the definitions come the configured flags unchanged, then `-x c++ -std=gnu++11` |
| Bindgen.IncludeArgsLayout | build.rs:218-220 | the clang arguments end with exactly one `-I<dir>` per include directory, in order |
| Bindgen.DefinitionArgs | build.rs:191-192 | every definition `(k, v)` reaches clang as the argument `-Dk=v` |
| Bindgen.ConfigureArduinoBindgen | build.rs:189-226 | the builder fails exactly when header discovery fails; otherwise it is the configured builder with the discovered headers' text as headers |
| Bindgen.BindingsPath | build.rs:229-231 | the bindings file is `<manifest dir>/src/<bindings_file>`, or the file alone when it is absolute |
| Bindgen.GenerateBindings | build.rs:228-248 | without external libraries the decision never fails, deletes exactly when the file exists and does nothing otherwise; with them it generates from the configured builder, failing exactly when that fails; it never generates without external libraries |
| Orchestrator.ApplyBindings | build.rs:233-247 | deleting fails exactly when removal fails; generating succeeds exactly when generation and writing succeed, a generation failure is reported as such and a write failure names the bindings file |
| Orchestrator.Run | build.rs:250-259 | the build succeeds exactly when compiling, deciding and carrying out the bindings step all succeed; compilation comes first, and the first failing step's error (compile, header discovery, cleanup, generation or write) is the build's error; a successful build reports the compiled passes and the bindings decision |
| Orchestrator.NoExternalLibrariesNoBackend | build.rs:233-240 | without external libraries the outcome does not depend on the binding backend, no builder is generated, and the bindings file is deleted exactly when it exists |
| Orchestrator.PassIncludes | build.rs:165-167 | both compiler passes of a successful build search the include path |
| Orchestrator.GeneratedArgs | build.rs:242-244 | a successful build generates from a builder whose clang arguments are those `configure_arduino_bindgen` assembles from the include path |
| Orchestrator.IncludePathsAgree | build.rs:218-220 | the generator's `-I` arguments list the compiler passes' include directories, same elements, same order |
| Orchestrator.DefinitionsReachEveryInvocation | build.rs:151-153 | every definition is defined for the C++ pass and the C pass and passed as `-Dk=v` to the binding generator |

## Left out

- Reading and parsing `arduino.yaml` (build.rs:251-255): file I/O and `serde_yaml`. A `Config` record is taken as given.
- The `cargo:` and `Loading files` lines the script prints: output for Cargo and the user, not behaviour.
- What `cc::Build::compile`, `bindgen::Builder::generate` and `write_to_file` do inside: these are foreign crates. Only the argument records handed to them and a pass/fail outcome are modelled.
- Glob matching itself, file existence, and environment expansion: these are I/O, supplied as parameters. `envmnt::expand` is called with no options and never fails, so no expansion error is modelled.
- Panic messages: an `Err` names the failing step and pattern or file, not the message text.
- `src/main.rs` is not part of this model. It is the firmware loop on the board.
- Non-Unix paths: `Join` and `Render` follow Unix separator rules. `to_string_lossy` is the identity because strings are already Unicode here.
- `Builder::default()`: its switches are assumed to start as `use_core` off, `size_t_is_usize` on, layout tests on and no callbacks. The script overwrites all four, so the assumption does not reach any stated property.
- Manifest.ArduinoLibrariesLayout, Manifest.FirstPartyIncludeDirs: stated only when every first-party library name is relative (`RelativeFirstParty`); an absolute name is covered by `SrcDir`.
- Manifest.ExternalLibrariesLayout, Manifest.ExternalIncludeDirs: stated only when every external library name is relative (`RelativeExternal`); an absolute name is covered by `SrcDir`.
- Manifest.FixedIncludeDirsLayout: stated only for relative version and variant names (`RelativeVersions`); absolute ones are covered by `CorePath`, `AvrGccHome` and `ArduinoIncludeDirs`.
- Manifest.IncludeDirsLayout: stated only when all of the above are relative (`RelativeNames`).

## Behaviour notes

- Header discovery for binding generation uses the non-recursive `*.h` pattern (build.rs:122).
- `envmnt::expand` never fails.
- The branch of `generate_bindings` is chosen by `external_libraries.is_empty()` (build.rs:233).
