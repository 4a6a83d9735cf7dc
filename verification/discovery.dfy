/** Source discovery (build.rs, `files_in_folder`, `project_files`,
    `cpp_files`, `c_files`, `bindgen_headers`). The file system is reached
    only through `glob`, a parameter standing for the `glob` crate: given the
    full pattern text it either rejects the pattern or yields its entries in
    the order it visits them. */
module Discovery {
  import opened Paths
  import opened Results
  import opened Manifest

  /** One item of the glob iterator. A found path is taken to be in
      component form (`Components`), as `glob` builds it from directory
      entries. */
  datatype GlobEntry = Found(path: Path) | Unreadable

  /** What `glob(pattern)` returns. */
  datatype GlobOutcome = PatternError | Matches(entries: seq<GlobEntry>)

  /** The file name that would clash with the host program's own entry point. */
  const EntryPoint: string := "main.cpp"

  /** The pattern text `files_in_folder` builds: `"{folder}/{pattern}"`. */
  function GlobPattern(folder: Path, pattern: string): string {
    Render(folder) + "/" + pattern
  }

  /** Every entry of the iterator could be read. */
  predicate AllReadable(entries: seq<GlobEntry>) {
    forall i :: 0 <= i < |entries| ==> entries[i].Found?
  }

  /** The paths of a fully readable iterator, in order. */
  function MatchedPaths(entries: seq<GlobEntry>): (r: seq<Path>)
    requires AllReadable(entries)
    ensures |r| == |entries|
    ensures forall i :: 0 <= i < |entries| ==> r[i] == entries[i].path
  {
    if |entries| == 0 then [] else MatchedPaths(entries[..|entries| - 1]) + [entries[|entries| - 1].path]
  }

  /** `a` is `b` with some elements left out, the rest kept in order. */
  predicate IsSubsequence<T(==)>(a: seq<T>, b: seq<T>)
    decreases |b|
  {
    if |a| == 0 then true
    else if |b| == 0 then false
    else if a[0] == b[0] then IsSubsequence(a[1..], b[1..])
    else IsSubsequence(a, b[1..])
  }

  /** Reference definition of the exclusion: the matches with every entry-point
      file dropped, read front to back. */
  function DropEntryPoints(ps: seq<Path>): seq<Path> {
    if |ps| == 0 then []
    else (if EndsWith(ps[0], EntryPoint) then [] else [ps[0]]) + DropEntryPoints(ps[1..])
  }

  /** The exclusion keeps exactly the matches that are not entry points, every
      one of them as often as it was matched, in their original order. */
  lemma DropEntryPointsSpec(ps: seq<Path>)
    ensures IsSubsequence(DropEntryPoints(ps), ps)
    ensures forall p :: multiset(DropEntryPoints(ps))[p] ==
                          (if EndsWith(p, EntryPoint) then 0 else multiset(ps)[p])
    ensures forall p :: p in DropEntryPoints(ps) <==> p in ps && !EndsWith(p, EntryPoint)
  {
    DropEntryPointsOrder(ps);
    DropEntryPointsCounts(ps);
    forall p
      ensures p in DropEntryPoints(ps) <==> p in ps && !EndsWith(p, EntryPoint)
    {
      assert p in DropEntryPoints(ps) <==> multiset(DropEntryPoints(ps))[p] > 0;
      assert p in ps <==> multiset(ps)[p] > 0;
    }
  }

  /** The exclusion keeps the surviving matches in their original order. */
  lemma {:induction false} DropEntryPointsOrder(ps: seq<Path>)
    ensures IsSubsequence(DropEntryPoints(ps), ps)
  {
    if |ps| > 0 {
      DropEntryPointsOrder(ps[1..]);
      var rest := DropEntryPoints(ps[1..]);
      if EndsWith(ps[0], EntryPoint) {
        assert DropEntryPoints(ps) == rest;
        SubsequenceOfTail(rest, ps);
      } else {
        assert DropEntryPoints(ps) == [ps[0]] + rest;
        assert ([ps[0]] + rest)[1..] == rest;
      }
    }
  }

  /** The exclusion keeps every non-entry-point match as often as it was
      matched and no entry point at all. */
  lemma {:induction false} DropEntryPointsCounts(ps: seq<Path>)
    ensures forall p :: multiset(DropEntryPoints(ps))[p] ==
                          (if EndsWith(p, EntryPoint) then 0 else multiset(ps)[p])
  {
    if |ps| > 0 {
      DropEntryPointsCounts(ps[1..]);
      assert ps == [ps[0]] + ps[1..];
      var head := if EndsWith(ps[0], EntryPoint) then [] else [ps[0]];
      assert DropEntryPoints(ps) == head + DropEntryPoints(ps[1..]);
      assert multiset(DropEntryPoints(ps)) == multiset(head) + multiset(DropEntryPoints(ps[1..]));
      assert multiset(ps) == multiset([ps[0]]) + multiset(ps[1..]);
    }
  }

  /** A subsequence of the tail of `b` is a subsequence of `b`. */
  lemma {:induction false} SubsequenceOfTail<T>(a: seq<T>, b: seq<T>)
    requires |b| > 0 && IsSubsequence(a, b[1..])
    ensures IsSubsequence(a, b)
    decreases |b|, 0
  {
    if |a| > 0 && a[0] == b[0] {
      SubsequenceDropHead(a, b[1..]);
    }
  }

  /** Leaving out the first element of a subsequence keeps it a subsequence. */
  lemma {:induction false} SubsequenceDropHead<T>(a: seq<T>, b: seq<T>)
    requires |a| > 0 && IsSubsequence(a, b)
    ensures IsSubsequence(a[1..], b)
    decreases |b|, 1
  {
    if a[0] == b[0] {
      SubsequenceOfTail(a[1..], b);
    } else {
      SubsequenceDropHead(a, b[1..]);
      SubsequenceOfTail(a[1..], b);
    }
  }

  /** No element of the exclusion's result is an entry point. */
  lemma {:induction false} DropEntryPointsExcludes(ps: seq<Path>)
    ensures forall i :: 0 <= i < |DropEntryPoints(ps)| ==> !EndsWith(DropEntryPoints(ps)[i], EntryPoint)
  {
    if |ps| > 0 {
      DropEntryPointsExcludes(ps[1..]);
      var head := if EndsWith(ps[0], EntryPoint) then [] else [ps[0]];
      var rest := DropEntryPoints(ps[1..]);
      var r := DropEntryPoints(ps);
      assert r == head + rest;
      forall i | 0 <= i < |r|
        ensures !EndsWith(r[i], EntryPoint)
      {
        if i < |head| {
          assert head == [ps[0]] && !EndsWith(ps[0], EntryPoint);
          assert r[i] == ps[0];
        } else {
          var j := i - |head|;
          assert 0 <= j < |rest|;
          assert !EndsWith(rest[j], EntryPoint);
          assert r[i] == rest[j];
        }
      }
    }
  }

  /** Dropping entry points distributes over appending one more match. */
  lemma {:induction false} DropEntryPointsSnoc(ps: seq<Path>, p: Path)
    ensures DropEntryPoints(ps + [p]) ==
            DropEntryPoints(ps) + (if EndsWith(p, EntryPoint) then [] else [p])
  {
    if |ps| == 0 {
      assert ps + [p] == [p];
    } else {
      assert (ps + [p])[1..] == ps[1..] + [p];
      DropEntryPointsSnoc(ps[1..], p);
    }
  }

  /** The loop of `files_in_folder` over the iterator: each entry is unwrapped
      (an unreadable one aborts) and kept unless it is an entry point. */
  function CollectMatches(entries: seq<GlobEntry>, pattern: string): (r: Result<seq<Path>>)
    ensures r.Ok? <==> AllReadable(entries)
    ensures r.Ok? ==> r.value == DropEntryPoints(MatchedPaths(entries))
    ensures r.Err? ==> r.error == UnreadableEntry(pattern)
  {
    if |entries| == 0 then Ok([])
    else
      var init := entries[..|entries| - 1];
      var kept :- CollectMatches(init, pattern);
      match entries[|entries| - 1]
      case Unreadable => Err(UnreadableEntry(pattern))
      case Found(p) =>
        assert MatchedPaths(entries) == MatchedPaths(init) + [p];
        DropEntryPointsSnoc(MatchedPaths(init), p);
        if EndsWith(p, EntryPoint) then Ok(kept) else Ok(kept + [p])
  }

  /** `files_in_folder(folder, pattern)`: the matches of `"{folder}/{pattern}"`
      without entry-point files (see `FilesInFolderSpec`). */
  function FilesInFolder(glob: string -> GlobOutcome, folder: Path, pattern: string): (r: Result<seq<Path>>)
    ensures r.Ok? ==> forall i :: 0 <= i < |r.value| ==> !EndsWith(r.value[i], EntryPoint)
  {
    var q := GlobPattern(folder, pattern);
    match glob(q)
    case PatternError => Err(MalformedPattern(q))
    case Matches(entries) =>
      var r := CollectMatches(entries, q);
      if r.Ok? then
        DropEntryPointsExcludes(MatchedPaths(entries));
        r
      else r
  }

  /** A folder search fails exactly when the pattern is malformed or an entry
      cannot be read, and a failure is never reported as an empty result;
      otherwise it yields the matches with the entry points dropped. */
  lemma FilesInFolderSpec(glob: string -> GlobOutcome, folder: Path, pattern: string)
    ensures var q := GlobPattern(folder, pattern);
            var r := FilesInFolder(glob, folder, pattern);
            && (glob(q).PatternError? ==> r == Err(MalformedPattern(q)))
            && (glob(q).Matches? && !AllReadable(glob(q).entries) ==> r == Err(UnreadableEntry(q)))
            && (r.Ok? <==> glob(q).Matches? && AllReadable(glob(q).entries))
            && (r.Ok? ==> r.value == DropEntryPoints(MatchedPaths(glob(q).entries)))
  {
    var q := GlobPattern(folder, pattern);
    if glob(q).Matches? {
      var r := CollectMatches(glob(q).entries, q);
      assert FilesInFolder(glob, folder, pattern) == r;
    }
  }

  /** The lists of several folders joined end to end, in folder order. */
  function Flatten(parts: seq<seq<Path>>): seq<Path> {
    if |parts| == 0 then [] else parts[0] + Flatten(parts[1..])
  }

  lemma {:induction false} FlattenSnoc(parts: seq<seq<Path>>, last: seq<Path>)
    ensures Flatten(parts + [last]) == Flatten(parts) + last
  {
    if |parts| == 0 {
      assert parts + [last] == [last];
    } else {
      assert (parts + [last])[1..] == parts[1..] + [last];
      FlattenSnoc(parts[1..], last);
    }
  }

  /** Every folder could be searched. */
  predicate AllFound(glob: string -> GlobOutcome, folders: seq<Path>, pattern: string) {
    forall i :: 0 <= i < |folders| ==> FilesInFolder(glob, folders[i], pattern).Ok?
  }

  /** The matches of each folder, one list per folder. */
  function PerFolder(glob: string -> GlobOutcome, folders: seq<Path>, pattern: string): (r: seq<seq<Path>>)
    requires AllFound(glob, folders, pattern)
    ensures |r| == |folders|
    ensures forall i :: 0 <= i < |folders| ==> r[i] == FilesInFolder(glob, folders[i], pattern).value
  {
    seq(|folders|, i requires 0 <= i < |folders| => FilesInFolder(glob, folders[i], pattern).value)
  }

  /** The `for library in ... { result.extend(files_in_folder(..)) }` loop:
      the folders are searched in order and the first failure aborts. */
  function FilesInFolders(glob: string -> GlobOutcome, folders: seq<Path>, pattern: string): (r: Result<seq<Path>>)
    ensures r.Ok? <==> AllFound(glob, folders, pattern)
    ensures r.Ok? ==> r.value == Flatten(PerFolder(glob, folders, pattern))
    ensures r.Err? ==> exists i :: 0 <= i < |folders|
                         && FilesInFolder(glob, folders[i], pattern).Err?
                         && r.error == FilesInFolder(glob, folders[i], pattern).error
                         && AllFound(glob, folders[..i], pattern)
  {
    if |folders| == 0 then Ok([])
    else
      var init := folders[..|folders| - 1];
      var last := folders[|folders| - 1];
      AllFoundSnoc(glob, folders, pattern);
      match FilesInFolders(glob, init, pattern)
      case Err(e) =>
        var i :| 0 <= i < |init| && FilesInFolder(glob, init[i], pattern).Err?
                 && e == FilesInFolder(glob, init[i], pattern).error && AllFound(glob, init[..i], pattern);
        assert folders[i] == init[i];
        assert folders[..i] == init[..i];
        Err(e)
      case Ok(before) =>
        match FilesInFolder(glob, last, pattern)
        case Err(e) =>
          assert folders[..|folders| - 1] == init;
          Err(e)
        case Ok(here) =>
          PerFolderSnoc(glob, folders, pattern);
          FlattenSnoc(PerFolder(glob, init, pattern), here);
          Ok(before + here)
  }

  /** All of `folders` were found exactly when all but the last were and the last was. */
  lemma AllFoundSnoc(glob: string -> GlobOutcome, folders: seq<Path>, pattern: string)
    requires |folders| > 0
    ensures AllFound(glob, folders, pattern) <==>
              AllFound(glob, folders[..|folders| - 1], pattern)
              && FilesInFolder(glob, folders[|folders| - 1], pattern).Ok?
  {
    var init := folders[..|folders| - 1];
    if AllFound(glob, init, pattern) && FilesInFolder(glob, folders[|folders| - 1], pattern).Ok? {
      forall i | 0 <= i < |folders|
        ensures FilesInFolder(glob, folders[i], pattern).Ok?
      {
        if i < |init| { assert folders[i] == init[i]; }
      }
    }
  }

  lemma PerFolderSnoc(glob: string -> GlobOutcome, folders: seq<Path>, pattern: string)
    requires |folders| > 0 && AllFound(glob, folders, pattern)
    ensures AllFound(glob, folders[..|folders| - 1], pattern)
    ensures PerFolder(glob, folders, pattern)
            == PerFolder(glob, folders[..|folders| - 1], pattern)
               + [FilesInFolder(glob, folders[|folders| - 1], pattern).value]
  {
    AllFoundSnoc(glob, folders, pattern);
  }

  lemma {:induction false} FlattenAppend(xs: seq<seq<Path>>, ys: seq<seq<Path>>)
    ensures Flatten(xs + ys) == Flatten(xs) + Flatten(ys)
  {
    if |xs| > 0 {
      assert (xs + ys)[1..] == xs[1..] + ys;
      FlattenAppend(xs[1..], ys);
    } else {
      assert xs + ys == ys;
    }
  }

  /** Searching two groups of folders one after the other is searching each
      group and joining the results, the first group first. */
  lemma FilesInFoldersAppend(glob: string -> GlobOutcome, xs: seq<Path>, ys: seq<Path>, pattern: string)
    ensures AllFound(glob, xs + ys, pattern) <==> AllFound(glob, xs, pattern) && AllFound(glob, ys, pattern)
    ensures AllFound(glob, xs + ys, pattern) ==>
              Flatten(PerFolder(glob, xs + ys, pattern))
              == Flatten(PerFolder(glob, xs, pattern)) + Flatten(PerFolder(glob, ys, pattern))
  {
    var zs := xs + ys;
    if AllFound(glob, xs, pattern) && AllFound(glob, ys, pattern) {
      forall i | 0 <= i < |zs|
        ensures FilesInFolder(glob, zs[i], pattern).Ok?
      {
        if i < |xs| { assert zs[i] == xs[i]; } else { assert zs[i] == ys[i - |xs|]; }
      }
    }
    if AllFound(glob, zs, pattern) {
      forall i | 0 <= i < |xs|
        ensures FilesInFolder(glob, xs[i], pattern).Ok?
      {
        assert zs[i] == xs[i];
      }
      forall i | 0 <= i < |ys|
        ensures FilesInFolder(glob, ys[i], pattern).Ok?
      {
        assert zs[|xs| + i] == ys[i];
      }
      assert PerFolder(glob, zs, pattern) == PerFolder(glob, xs, pattern) + PerFolder(glob, ys, pattern);
      FlattenAppend(PerFolder(glob, xs, pattern), PerFolder(glob, ys, pattern));
    }
  }

  /** The folders whose matches are compiled: first-party libraries, then external ones. */
  function LibraryFolders(c: Config, expand: string -> string): seq<Path> {
    ArduinoLibrariesPath(c, expand) + ExternalLibrariesPath(c, expand)
  }

  /** `project_files(pattern)`: `pattern` directly in the core folder, then
      the recursive `**` form of it in every library folder. */
  function ProjectFiles(c: Config, expand: string -> string, glob: string -> GlobOutcome, pattern: string)
    : (r: Result<seq<Path>>)
    ensures var core := FilesInFolder(glob, ArduinoCorePath(c, expand), pattern);
            var libs := LibraryFolders(c, expand);
            && (r.Ok? <==> core.Ok? && AllFound(glob, libs, "**/" + pattern))
            && (core.Err? ==> r == Err(core.error))
            && (r.Ok? ==> r.value == core.value + Flatten(PerFolder(glob, libs, "**/" + pattern)))
    ensures var core := FilesInFolder(glob, ArduinoCorePath(c, expand), pattern);
            var found := FilesInFolders(glob, LibraryFolders(c, expand), "**/" + pattern);
            core.Ok? && found.Err? ==> r == Err(found.error)
  {
    var core :- FilesInFolder(glob, ArduinoCorePath(c, expand), pattern);
    var libs :- FilesInFolders(glob, LibraryFolders(c, expand), "**/" + pattern);
    Ok(core + libs)
  }

  /** No compiled source is an entry-point file. */
  lemma ProjectFilesNoEntryPoint(c: Config, expand: string -> string, glob: string -> GlobOutcome, pattern: string)
    requires ProjectFiles(c, expand, glob, pattern).Ok?
    ensures forall i :: 0 <= i < |ProjectFiles(c, expand, glob, pattern).value| ==>
              !EndsWith(ProjectFiles(c, expand, glob, pattern).value[i], EntryPoint)
  {
    var core := FilesInFolder(glob, ArduinoCorePath(c, expand), pattern);
    var libs := LibraryFolders(c, expand);
    var deep := "**/" + pattern;
    assert core.Ok? && AllFound(glob, libs, deep);
    var found := Flatten(PerFolder(glob, libs, deep));
    assert ProjectFiles(c, expand, glob, pattern).value == core.value + found;
    assert forall i :: 0 <= i < |core.value| ==> !EndsWith(core.value[i], EntryPoint);
    FlattenKeepsNoEntryPoint(glob, libs, deep);
    assert forall i :: 0 <= i < |found| ==> !EndsWith(found[i], EntryPoint);
    NoEntryPointJoined(core.value, found);
  }

  /** Two lists without entry-point files joined have none either. */
  lemma NoEntryPointJoined(xs: seq<Path>, ys: seq<Path>)
    requires forall i :: 0 <= i < |xs| ==> !EndsWith(xs[i], EntryPoint)
    requires forall i :: 0 <= i < |ys| ==> !EndsWith(ys[i], EntryPoint)
    ensures forall i :: 0 <= i < |xs + ys| ==> !EndsWith((xs + ys)[i], EntryPoint)
  {
    forall i | 0 <= i < |xs + ys|
      ensures !EndsWith((xs + ys)[i], EntryPoint)
    {
      if i >= |xs| { assert (xs + ys)[i] == ys[i - |xs|]; }
    }
  }

  /** The order of the compiled sources: the core folder's matches, then each
      first-party library's, then each external library's, both groups in
      configuration order. A source is never an entry-point file. */
  lemma ProjectFilesOrder(c: Config, expand: string -> string, glob: string -> GlobOutcome, pattern: string)
    ensures var r := ProjectFiles(c, expand, glob, pattern);
            var core := FilesInFolder(glob, ArduinoCorePath(c, expand), pattern);
            var first := ArduinoLibrariesPath(c, expand);
            var external := ExternalLibrariesPath(c, expand);
            var deep := "**/" + pattern;
            && (r.Ok? <==> core.Ok? && AllFound(glob, first, deep) && AllFound(glob, external, deep))
            && (r.Ok? ==> r.value == core.value + Flatten(PerFolder(glob, first, deep))
                                                + Flatten(PerFolder(glob, external, deep)))
  {
    FilesInFoldersAppend(glob, ArduinoLibrariesPath(c, expand), ExternalLibrariesPath(c, expand), "**/" + pattern);
  }

  /** `cpp_files`: `*.cpp` in the core folder and `**` below every library
      folder; never an entry-point file. */
  function CppFiles(c: Config, expand: string -> string, glob: string -> GlobOutcome): (r: Result<seq<Path>>)
    ensures r.Ok? <==> FilesInFolder(glob, ArduinoCorePath(c, expand), "*.cpp").Ok?
                       && AllFound(glob, LibraryFolders(c, expand), "**/*.cpp")
    ensures r.Ok? ==> r.value == FilesInFolder(glob, ArduinoCorePath(c, expand), "*.cpp").value
                                 + Flatten(PerFolder(glob, LibraryFolders(c, expand), "**/*.cpp"))
    ensures r.Err? ==> r == ProjectFiles(c, expand, glob, "*.cpp")
    ensures r.Ok? ==> forall i :: 0 <= i < |r.value| ==> !EndsWith(r.value[i], EntryPoint)
  {
    assert "**/" + "*.cpp" == "**/*.cpp";
    var r := ProjectFiles(c, expand, glob, "*.cpp");
    if r.Ok? then
      ProjectFilesNoEntryPoint(c, expand, glob, "*.cpp");
      r
    else r
  }

  /** `c_files`: `*.c` in the core folder and `**` below every library
      folder. */
  function CFiles(c: Config, expand: string -> string, glob: string -> GlobOutcome): (r: Result<seq<Path>>)
    ensures r.Ok? <==> FilesInFolder(glob, ArduinoCorePath(c, expand), "*.c").Ok?
                       && AllFound(glob, LibraryFolders(c, expand), "**/*.c")
    ensures r.Ok? ==> r.value == FilesInFolder(glob, ArduinoCorePath(c, expand), "*.c").value
                                 + Flatten(PerFolder(glob, LibraryFolders(c, expand), "**/*.c"))
    ensures r.Err? ==> r == ProjectFiles(c, expand, glob, "*.c")
    ensures r.Ok? ==> forall i :: 0 <= i < |r.value| ==> !EndsWith(r.value[i], EntryPoint)
  {
    assert "**/" + "*.c" == "**/*.c";
    var r := ProjectFiles(c, expand, glob, "*.c");
    if r.Ok? then
      ProjectFilesNoEntryPoint(c, expand, glob, "*.c");
      r
    else r
  }

  /** `bindgen_headers`: the `*.h` files directly inside each external
      library's `src` folder (the pattern is not recursive), in library order.
      First-party libraries are not searched. */
  function BindgenHeaders(c: Config, expand: string -> string, glob: string -> GlobOutcome): (r: Result<seq<Path>>)
    ensures var ext := ExternalLibrariesPath(c, expand);
            && (r.Ok? <==> AllFound(glob, ext, "*.h"))
            && (r.Ok? ==> r.value == Flatten(PerFolder(glob, ext, "*.h")))
            && (r.Ok? ==> forall i :: 0 <= i < |r.value| ==> !EndsWith(r.value[i], EntryPoint))
    ensures r.Err? ==> r == FilesInFolders(glob, ExternalLibrariesPath(c, expand), "*.h")
  {
    var r := FilesInFolders(glob, ExternalLibrariesPath(c, expand), "*.h");
    if r.Ok? then
      FlattenKeepsNoEntryPoint(glob, ExternalLibrariesPath(c, expand), "*.h");
      r
    else r
  }

  /** Joining lists none of which holds an entry-point file gives a list without one. */
  lemma {:induction false} FlattenKeepsNoEntryPoint(glob: string -> GlobOutcome, folders: seq<Path>, pattern: string)
    requires AllFound(glob, folders, pattern)
    ensures forall i :: 0 <= i < |Flatten(PerFolder(glob, folders, pattern))| ==>
              !EndsWith(Flatten(PerFolder(glob, folders, pattern))[i], EntryPoint)
  {
    if |folders| > 0 {
      var rest := folders[1..];
      assert AllFound(glob, rest, pattern) by {
        forall i | 0 <= i < |rest|
          ensures FilesInFolder(glob, rest[i], pattern).Ok?
        {
          assert rest[i] == folders[i + 1];
        }
      }
      FlattenKeepsNoEntryPoint(glob, rest, pattern);
      var parts := PerFolder(glob, folders, pattern);
      assert parts[1..] == PerFolder(glob, rest, pattern);
      var all := Flatten(parts);
      assert all == parts[0] + Flatten(parts[1..]);
      var head := FilesInFolder(glob, folders[0], pattern);
      assert head.Ok? && parts[0] == head.value;
      forall i | 0 <= i < |all|
        ensures !EndsWith(all[i], EntryPoint)
      {
        if i < |parts[0]| {
          assert all[i] == head.value[i];
        } else {
          assert all[i] == Flatten(parts[1..])[i - |parts[0]|];
        }
      }
    }
  }
}
