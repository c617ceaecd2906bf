/**
 * Absolute, normalised POSIX paths, kept as their segments, with the operations of Node's
 * `path` module that the hooks use.
 */
module Paths {
  import opened Common
  import opened Strings

  /** `[]` is `/`; `["home", "u"]` is `/home/u`. */
  type Path = seq<string>

  predicate ValidSegment(s: string)
  {
    s != "" && s != "." && s != ".." && '/' !in s
  }

  predicate ValidPath(p: Path)
  {
    forall i :: 0 <= i < |p| ==> ValidSegment(p[i])
  }

  /** The path as Node prints it. */
  function Render(p: Path): (s: string)
    ensures s != [] && s[0] == '/'
  {
    "/" + Join(p, "/")
  }

  /** `path.dirname`; the root is its own parent. */
  function Dirname(p: Path): (d: Path)
    ensures d <= p
    ensures p != [] ==> |d| == |p| - 1
  {
    if p == [] then [] else p[..|p| - 1]
  }

  /** `path.basename`. */
  function Basename(p: Path): string
  {
    if p == [] then "" else p[|p| - 1]
  }

  /** The number of leading segments two paths share. */
  function CommonPrefixLength(a: Path, b: Path): (k: nat)
    ensures k <= |a| && k <= |b| && a[..k] == b[..k]
    ensures k < |a| && k < |b| ==> a[k] != b[k]
  {
    if a != [] && b != [] && a[0] == b[0] then
      var k := 1 + CommonPrefixLength(a[1..], b[1..]);
      assert a[..k] == [a[0]] + a[1..][..k - 1];
      assert b[..k] == [b[0]] + b[1..][..k - 1];
      k
    else 0
  }

  /** `path.relative(from, to)`. */
  function Relative(from: Path, to: Path): string
  {
    var k := CommonPrefixLength(from, to);
    Join(Repeat("..", |from| - k) + to[k..], "/")
  }

  /** `path.join(base, rel)`: `.` and empty segments vanish, `..` climbs, never above `/`. */
  function JoinRelative(base: Path, rel: string): (p: Path)
    requires ValidPath(base)
    ensures ValidPath(p)
  {
    Resolve(base, Split(rel, '/'))
  }

  function Resolve(base: Path, segments: seq<string>): (p: Path)
    requires ValidPath(base)
    requires forall i :: 0 <= i < |segments| ==> '/' !in segments[i]
    ensures ValidPath(p)
    decreases |segments|
  {
    if segments == [] then base
    else
      var s := segments[0];
      var next := if s == "" || s == "." then base else if s == ".." then Dirname(base) else base + [s];
      Resolve(next, segments[1..])
  }

  /** `path.resolve(s)` from the working directory `cwd`: an absolute `s` ignores `cwd`. */
  function ResolvePath(cwd: Path, s: string): (p: Path)
    requires ValidPath(cwd)
    ensures ValidPath(p)
  {
    JoinRelative(if s != [] && s[0] == '/' then [] else cwd, s)
  }

  /** Rendering a path below `p` extends the rendering of `p`. */
  lemma RenderBelow(p: Path, rest: Path)
    requires rest != []
    ensures Render(p + rest) == Render(p) + (if p == [] then "" else "/") + Join(rest, "/")
  {
    if p != [] {
      JoinAppend(p, rest, "/");
    } else {
      assert p + rest == rest;
    }
  }

  /** A path below `p` is named relative to `p` by the remaining segments. */
  lemma RelativeBelow(p: Path, rest: Path)
    requires ValidPath(rest)
    ensures Relative(p, p + rest) == Join(rest, "/")
  {
    var k := CommonPrefixLength(p, p + rest);
    assert (p + rest)[..|p|] == p;
    assert k == |p|;
    assert (p + rest)[k..] == rest;
    assert Repeat("..", |p| - k) + rest == rest;
  }

  /** `path.join(base, name)` for a single plain name appends that name. */
  lemma JoinSegment(base: Path, name: string)
    requires ValidPath(base) && ValidSegment(name)
    ensures JoinRelative(base, name) == base + [name]
  {
    assert Split(name, '/') == [name];
    assert [name][1..] == [];
    assert Resolve(base, [name]) == Resolve(base + [name], []);
  }

  /** Resolving plain segments appends them. */
  lemma {:induction false} ResolvePlain(base: Path, segments: Path)
    requires ValidPath(base) && ValidPath(segments)
    ensures Resolve(base, segments) == base + segments
    decreases |segments|
  {
    if segments != [] {
      ResolvePlain(base + [segments[0]], segments[1..]);
      assert base + [segments[0]] + segments[1..] == base + segments;
    }
  }

  /** A rendered path resolves back to itself, from any working directory. */
  lemma ResolveRendered(cwd: Path, p: Path)
    requires ValidPath(cwd) && ValidPath(p)
    ensures ResolvePath(cwd, Render(p)) == p
  {
    if p == [] {
      assert Split("/", '/') == ["", ""];
      assert Resolve([], ["", ""]) == Resolve([], [""]);
    } else {
      SplitJoin(p, '/');
      SplitCons([], '/', Join(p, "/"));
      assert [] + ['/'] + Join(p, "/") == Render(p);
      assert Split(Render(p), '/') == [""] + p;
      assert ([""] + p)[1..] == p;
      ResolvePlain([], p);
    }
  }
}
