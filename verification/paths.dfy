/** File-system paths as `PathBuf` builds them on a Unix host. */
module Paths {

  /** A path, as the sequence of segments it was built from: the string it was
      created from, then one segment per `join`. Paths produced by globbing are
      given as their sequence of components. */
  type Path = seq<string>

  /** A segment that starts at the root. */
  predicate IsAbsolute(s: string) {
    |s| > 0 && s[0] == '/'
  }

  /** `PathBuf::join`: an absolute segment replaces the whole path, any other
      segment is appended. */
  function Join(p: Path, s: string): Path {
    if IsAbsolute(s) then [s] else p + [s]
  }

  /** Text that is neither empty nor ends in a separator: pushing onto it
      inserts one. */
  predicate Plain(s: string) {
    |s| > 0 && s[|s| - 1] != '/'
  }

  /** One `PathBuf::push` on the rendered text: a separator is inserted only
      when the text so far is non-empty and does not already end in one. */
  function Push(text: string, s: string): (r: string)
    ensures IsAbsolute(s) ==> r == s
    ensures !IsAbsolute(s) ==> |r| == |text| + |s| + (if Plain(text) then 1 else 0)
    ensures !IsAbsolute(s) ==> text <= r && r[|r| - |s|..] == s
    ensures !IsAbsolute(s) && Plain(text) ==> r[|text|] == '/'
  {
    if IsAbsolute(s) then s
    else if Plain(text) then text + "/" + s
    else text + s
  }

  /** The text of a path (`to_string_lossy`): its segments pushed in order. */
  function Render(p: Path): string {
    if |p| == 0 then "" else Push(Render(p[..|p| - 1]), p[|p| - 1])
  }

  /** `Path::ends_with` for a single-component argument: whole components
      are compared, so `foomain.cpp` does not end with `main.cpp`. */
  predicate EndsWith(p: Path, name: string) {
    |p| > 0 && p[|p| - 1] == name
  }

  /** A normal path component, as `Path::components` yields it: not empty,
      not `.`, and free of separators. */
  predicate Component(s: string) {
    s != "" && s != "." && '/' !in s
  }

  /** A path given component by component, an optional leading root `/`
      aside. Paths that come back from globbing are of this form. */
  predicate Components(p: Path) {
    forall i :: 0 <= i < |p| ==> Component(p[i]) || (i == 0 && p[i] == "/")
  }

  /** The text after the last separator: the final component of a rendered
      path as `Path::ends_with` sees it. */
  function LastComponent(t: string): (r: string)
    ensures |r| <= |t| && '/' !in r
    ensures r == t[|t| - |r|..]
    ensures |r| < |t| ==> t[|t| - |r| - 1] == '/'
  {
    if |t| == 0 || t[|t| - 1] == '/' then ""
    else LastComponent(t[..|t| - 1]) + [t[|t| - 1]]
  }

  /** Text ending at a separator (or empty) followed by one component has
      that component as its last. */
  lemma {:induction false} LastComponentAfter(t: string, s: string)
    requires |t| == 0 || t[|t| - 1] == '/'
    requires '/' !in s
    ensures LastComponent(t + s) == s
  {
    if |s| == 0 {
      assert t + s == t;
    } else {
      var u := s[..|s| - 1];
      assert (t + s)[..|t + s| - 1] == t + u;
      LastComponentAfter(t, u);
      assert u + [s[|s| - 1]] == s;
    }
  }

  /** For a path given by its components, comparing the last segment is the
      same as comparing the last component of its rendered text. */
  lemma RenderLastComponent(p: Path)
    requires Components(p) && |p| > 0 && Component(p[|p| - 1])
    ensures LastComponent(Render(p)) == p[|p| - 1]
  {
    var text := Render(p[..|p| - 1]);
    var last := p[|p| - 1];
    if Plain(text) {
      assert Render(p) == (text + "/") + last;
      LastComponentAfter(text + "/", last);
    } else {
      assert Render(p) == text + last;
      LastComponentAfter(text, last);
    }
  }

  /** `EndsWith` on a component path agrees with `Path::ends_with` on its
      text, for a single-component argument. */
  lemma EndsWithRendered(p: Path, name: string)
    requires Components(p) && |p| > 0 && Component(p[|p| - 1])
    ensures EndsWith(p, name) <==> LastComponent(Render(p)) == name
  {
    RenderLastComponent(p);
  }

  /** Rendering a joined path is the same as pushing the new segment onto the
      rendered text, whether the segment is relative or absolute. */
  lemma RenderJoin(p: Path, s: string)
    ensures Render(Join(p, s)) == Push(Render(p), s)
  {
    if IsAbsolute(s) {
      assert Render([s]) == Push(Render([]), s);
    } else {
      assert (p + [s])[..|p|] == p;
    }
  }

  /** The segments written out with one separator between neighbours. */
  function Slashed(p: Path): string
    requires |p| > 0
  {
    if |p| == 1 then p[0] else Slashed(p[..|p| - 1]) + "/" + p[|p| - 1]
  }

  /** For plain segments after a plain start, rendering puts exactly one
      separator between neighbouring segments: none is doubled, none is missing. */
  lemma {:induction false} RenderSlashed(p: Path)
    requires |p| > 0
    requires forall i :: 0 <= i < |p| ==> Plain(p[i])
    requires forall i :: 1 <= i < |p| ==> !IsAbsolute(p[i])
    ensures Render(p) == Slashed(p)
    ensures Plain(Render(p))
  {
    if |p| == 1 {
      assert p[..0] == [];
    } else {
      var init := p[..|p| - 1];
      var last := p[|p| - 1];
      assert forall i :: 0 <= i < |init| ==> init[i] == p[i];
      RenderSlashed(init);
      assert !IsAbsolute(last);
      var text := Render(init) + "/" + last;
      assert Render(p) == text;
      assert text[|text| - 1] == last[|last| - 1];
    }
  }
}
