/**
 * The CLAUDE.md manager, a PostToolUse hook: which edits make it hand the edited directory to a
 * background writer of that directory's CLAUDE.md, what it tells the writer about the directory
 * (its file types, its sub-directories, a target length), and the parent CLAUDE.md files the
 * writer is shown. The directory facts, the target length and the parent walk are shared with
 * the session-end variant of the hook.
 */
module ClaudeMdManager {
  import opened Common
  import opened Strings
  import opened JsonValues
  import opened Paths
  import opened Files

  const ClaudeMd := "CLAUDE.md"

  // ---------------------------------------------------------------- what a directory holds

  /** What `statSync(...)` reports for a directory entry; `Unreadable` when it throws. */
  datatype Kind = RegularFile | Directory | OtherKind | Unreadable

  /** One name `readdirSync` returned, with what `statSync` said of it. */
  datatype Entry = Entry(name: string, kind: Kind)

  /** `name.split('.').pop()`. */
  function Extension(name: string): (ext: string)
  {
    var parts := Split(name, '.');
    parts[|parts| - 1]
  }

  /** The extension holds no `.`, and a name without one is its own extension. */
  lemma ExtensionPlain(name: string)
    ensures '.' !in Extension(name)
    ensures '.' !in name ==> Extension(name) == name
  {
  }

  /** A name with a `.` ends with its last `.` and the extension after it. */
  lemma ExtensionAfterDot(name: string)
    requires '.' in name
    ensures EndsWith(name, "." + Extension(name))
  {
    var parts := Split(name, '.');
    var n := |parts|;
    assert n >= 2;
    var init := parts[..n - 1];
    var last := parts[n - 1];
    assert parts == init + [last];
    JoinAppend(init, [last], ['.']);
    assert Join([last], ['.']) == last;
    JoinSplit(name, '.');
    AppendAssoc(Join(init, ['.']), ['.'], last);
    EndsWithTail(Join(init, ['.']), ['.'] + last);
  }

  /** `ext && ext.length < 10`. */
  predicate ListedType(ext: string)
  {
    0 < |ext| < 10
  }

  /** The file types: the listed extension of each regular file, in directory order. */
  function FileTypes(entries: seq<Entry>): (types: seq<string>)
    ensures |types| <= |entries|
    ensures forall t :: t in types <==>
      exists e :: e in entries && e.kind == RegularFile && ListedType(Extension(e.name)) && t == Extension(e.name)
  {
    if entries == [] then []
    else
      var e := entries[0];
      var rest := FileTypes(entries[1..]);
      assert forall x :: x in entries <==> x == e || x in entries[1..];
      (if e.kind == RegularFile && ListedType(Extension(e.name)) then [Extension(e.name)] else []) + rest
  }

  /** The sub-directories: every directory entry whose name does not start with `.`. */
  function Subdirs(entries: seq<Entry>): (names: seq<string>)
    ensures |names| <= |entries|
    ensures forall n :: n in names <==> Entry(n, Directory) in entries && !("." <= n)
  {
    if entries == [] then []
    else
      var e := entries[0];
      var rest := Subdirs(entries[1..]);
      assert forall x :: x in entries <==> x == e || x in entries[1..];
      (if e.kind == Directory && !("." <= e.name) then [e.name] else []) + rest
  }

  // ---------------------------------------------------------------- the target length

  /** The length the writer is asked to aim for: `<25`, `~50`, `~100` or `~150` lines. */
  datatype Target = Under25 | About50 | About100 | About150

  function TargetText(t: Target): string
  {
    match t
    case Under25 => "<25"
    case About50 => "~50"
    case About100 => "~100"
    case About150 => "~150"
  }

  /**
   * The target for a directory: the working directory itself gets the longest; a directory
   * with more than 20 file types or more than 8 sub-directories the next; one with fewer than
   * 5 and fewer than 3 the shortest; any other `~50`.
   */
  function TargetLines(isRoot: bool, files: nat, subdirs: nat): (t: Target)
    ensures t == About150 <==> isRoot
    ensures t == About100 <==> !isRoot && (files > 20 || subdirs > 8)
    ensures t == Under25 <==> !isRoot && files < 5 && subdirs < 3
  {
    if isRoot then About150
    else if files > 20 || subdirs > 8 then About100
    else if files < 5 && subdirs < 3 then Under25
    else About50
  }

  /** The order of the targets by length. */
  function Rank(t: Target): nat
  {
    match t
    case Under25 => 0
    case About50 => 1
    case About100 => 2
    case About150 => 3
  }

  /** Below the working directory, more files or more sub-directories never ask for less. */
  lemma TargetMonotone(files: nat, subdirs: nat, files': nat, subdirs': nat)
    requires files <= files' && subdirs <= subdirs'
    ensures Rank(TargetLines(false, files, subdirs)) <= Rank(TargetLines(false, files', subdirs'))
    ensures Rank(TargetLines(false, files', subdirs')) <= Rank(TargetLines(true, files, subdirs))
  {
  }

  // ---------------------------------------------------------------- lists in the prompt

  const ListLimit := 10

  /** `names.slice(0, 10).join(', ')`. */
  function Listing(names: seq<string>): string
  {
    Join(Take(names, ListLimit), ", ")
  }

  /** The sub-directory line: `none` when there are none. */
  function SubdirListing(subdirs: seq<string>): (text: string)
    ensures subdirs == [] ==> text == "none"
  {
    if subdirs == [] then "none" else Listing(subdirs)
  }

  /** Names after the tenth never reach the prompt; ten or fewer are all listed. */
  lemma ListingLimit(names: seq<string>, more: seq<string>)
    ensures |names| >= ListLimit ==> Listing(names + more) == Listing(names) && SubdirListing(names + more) == SubdirListing(names)
    ensures |names| <= ListLimit ==> Listing(names) == Join(names, ", ")
  {
    if |names| >= ListLimit {
      assert Take(names + more, ListLimit) == names[..ListLimit];
      assert Take(names, ListLimit) == names[..ListLimit];
    }
  }

  // ---------------------------------------------------------------- rendered paths

  /** A path's rendering begins with the rendering of each of its ancestors. */
  lemma RenderPrefix(a: Path, b: Path)
    requires a <= b
    ensures Render(a) <= Render(b)
  {
    if |a| < |b| {
      assert a + b[|a|..] == b;
      RenderBelow(a, b[|a|..]);
    } else {
      assert a == b;
    }
  }

  /** A path's rendering is longer than its parent's. */
  lemma RenderParentShorter(p: Path)
    requires ValidPath(p) && p != []
    ensures |Render(Dirname(p))| < |Render(p)|
  {
    assert Dirname(p) + [p[|p| - 1]] == p;
    RenderBelow(Dirname(p), [p[|p| - 1]]);
  }

  /** The rendering of a non-root path is something, a `/`, then its last segment. */
  lemma RenderLast(p: Path)
    requires p != []
    ensures Render(p) == (if |p| == 1 then "" else Render(Dirname(p))) + "/" + p[|p| - 1]
  {
    assert Dirname(p) + [p[|p| - 1]] == p;
    RenderBelow(Dirname(p), [p[|p| - 1]]);
  }

  /** A sequence ends with `c` and a `c`-free `name` exactly when its `c`-free tail after a `c` is `name`. */
  lemma SeparatedSuffix<T>(pre: seq<T>, c: T, x: seq<T>, name: seq<T>)
    requires c !in x && c !in name
    ensures EndsWith(pre + [c] + x, [c] + name) <==> x == name
  {
    var s := pre + [c] + x;
    var t := [c] + name;
    assert s[|s| - |x| - 1] == c;
    assert forall i :: |s| - |x| <= i < |s| ==> s[i] != c by {
      forall i | |s| - |x| <= i < |s| ensures s[i] != c {
        assert s[i] == x[i - (|s| - |x|)];
      }
    }
    assert forall i :: 1 <= i < |t| ==> t[i] != c by {
      forall i | 1 <= i < |t| ensures t[i] != c {
        assert t[i] == name[i - 1];
      }
    }
    if EndsWith(s, t) {
      var j := |s| - |t|;
      assert s[j..] == t;
      assert s[j] == c;
      assert |x| <= |name|;
      assert t[|t| - |x| - 1] == s[|s| - |x| - 1];
      assert |x| == |name|;
      assert x == s[|s| - |x|..] == t[1..] == name;
    }
    if x == name {
      assert s[|s| - |t|..] == t;
    }
  }

  /** On a normalised path, ending in `/CLAUDE.md` and being named CLAUDE.md are the same test. */
  lemma RuleFileTests(file: Path)
    requires ValidPath(file) && file != []
    ensures EndsWith(Render(file), "/" + ClaudeMd) <==> Basename(file) == ClaudeMd
  {
    RenderLast(file);
    var pre := if |file| == 1 then "" else Render(Dirname(file));
    assert Render(file) == pre + ['/'] + file[|file| - 1];
    SeparatedSuffix(pre, '/', file[|file| - 1], ClaudeMd);
  }

  // ---------------------------------------------------------------- .claude directories

  const ClaudeDirMarker := "/" + ".claude"

  /** `fileDir.includes("/.claude/") || fileDir.includes("/.claude") || fileDir.endsWith("/.claude")`. */
  predicate InClaudeDir(dirText: string)
  {
    Contains(dirText, ClaudeDirMarker + "/") || Contains(dirText, ClaudeDirMarker) || EndsWith(dirText, ClaudeDirMarker)
  }

  /** The three tests come down to the middle one. */
  lemma ClaudeDirTest(dirText: string)
    ensures InClaudeDir(dirText) <==> Contains(dirText, ClaudeDirMarker)
  {
    if Contains(dirText, ClaudeDirMarker + "/") {
      ContainsShorter(dirText, ClaudeDirMarker, "/");
    }
    if EndsWith(dirText, ClaudeDirMarker) {
      EndsWithContains(dirText, ClaudeDirMarker);
    }
  }

  /** Containing `p + q` means containing `p`. */
  lemma ContainsShorter<T>(s: seq<T>, p: seq<T>, q: seq<T>)
    requires Contains(s, p + q)
    ensures Contains(s, p)
  {
    var i :| 0 <= i <= |s| - |p + q| && OccursAt(s, p + q, i);
    OccursPrefix(s, p, q, i);
  }

  /** Ending with `p` means containing `p`. */
  lemma EndsWithContains<T>(s: seq<T>, p: seq<T>)
    requires EndsWith(s, p)
    ensures Contains(s, p)
  {
    var i := |s| - |p|;
    assert s[i..i + |p|] == s[i..];
    assert OccursAt(s, p, i);
  }

  /** Any directory with a segment that starts with `.claude` is skipped, `.claude-old` included. */
  lemma ClaudeSegmentSkipped(d: Path, i: nat)
    requires i < |d| && ".claude" <= d[i]
    ensures InClaudeDir(Render(d))
  {
    var pre := if i == 0 then "" else Render(d[..i]);
    var rest := Join(d[i..], "/");
    if i == 0 {
      assert d[0..] == d;
    } else {
      assert d[..i] + d[i..] == d;
      RenderBelow(d[..i], d[i..]);
    }
    assert Render(d) == pre + "/" + rest;
    JoinStarts(d[i..], "/");
    assert ".claude" <= rest;
    var s := Render(d);
    assert s[|pre|..|pre| + |ClaudeDirMarker|] == ClaudeDirMarker;
    assert OccursAt(s, ClaudeDirMarker, |pre|);
  }

  // ---------------------------------------------------------------- relative paths

  /** `path.relative` gives the empty string exactly for the directory itself. */
  lemma RelativeEmpty(cwd: Path, d: Path)
    requires ValidPath(cwd) && ValidPath(d)
    ensures Relative(cwd, d) == "" <==> d == cwd
  {
    var k := CommonPrefixLength(cwd, d);
    var parts := Repeat("..", |cwd| - k) + d[k..];
    if parts != [] {
      assert parts[0] == (if |cwd| > k then ".." else d[k]);
      JoinStarts(parts, "/");
    } else {
      assert cwd == cwd[..k] && d == d[..k];
    }
  }

  /** Outside `cwd` the relative path starts by climbing out of it. */
  lemma RelativeOutside(cwd: Path, d: Path)
    requires !(cwd <= d)
    ensures ".." <= Relative(cwd, d)
  {
    var k := CommonPrefixLength(cwd, d);
    assert cwd[..k] == d[..k];
    assert k < |cwd|;
    var parts := Repeat("..", |cwd| - k) + d[k..];
    assert parts[0] == "..";
    JoinStarts(parts, "/");
  }

  // ---------------------------------------------------------------- the parent walk

  /** A parent CLAUDE.md shown to the writer: its path relative to `cwd`, its text and its line count. */
  datatype ParentRule = ParentRule(path: string, content: string, lineCount: nat)

  /** What the walk records at `dir`: its CLAUDE.md, unless `dir` is where the walk started. */
  function RuleAt(texts: map<Path, string>, dir: Path, start: Path, cwd: Path): seq<ParentRule>
  {
    var p := dir + [ClaudeMd];
    if p in texts && dir != start then [ParentRule(Relative(cwd, p), texts[p], LineCount(texts[p]))] else []
  }

  /**
   * The walk from `dir` upward while the directory's text starts with that of `cwd`, stopping
   * at the root; each record is put in front of the earlier ones, so the result is root-first.
   */
  function ParentRules(texts: map<Path, string>, dir: Path, start: Path, cwd: Path): seq<ParentRule>
    decreases |dir|
  {
    if !(Render(cwd) <= Render(dir)) then []
    else if dir == [] then RuleAt(texts, dir, start, cwd)
    else ParentRules(texts, Dirname(dir), start, cwd) + RuleAt(texts, dir, start, cwd)
  }

  /** The CLAUDE.md files of the directories from `cwd` down to, not including, `fileDir[..j]`, root-first. */
  function Lineage(texts: map<Path, string>, fileDir: Path, cwd: Path, j: nat): seq<ParentRule>
    requires j <= |fileDir|
    decreases j
  {
    if j <= |cwd| then [] else Lineage(texts, fileDir, cwd, j - 1) + RuleAt(texts, fileDir[..j - 1], fileDir, cwd)
  }

  /**
   * Below the working directory the walk sees exactly the directories from `cwd` down to the
   * start, in that order: it never leaves `cwd`, and the start's own CLAUDE.md is left out.
   */
  lemma {:induction false} WalkLineage(texts: map<Path, string>, fileDir: Path, cwd: Path, j: nat)
    requires ValidPath(fileDir) && ValidPath(cwd) && cwd <= fileDir && |cwd| <= j <= |fileDir|
    ensures ParentRules(texts, fileDir[..j], fileDir, cwd) == Lineage(texts, fileDir, cwd, j) + RuleAt(texts, fileDir[..j], fileDir, cwd)
    decreases j
  {
    var dir := fileDir[..j];
    assert cwd <= dir;
    RenderPrefix(cwd, dir);
    if j == |cwd| {
      assert dir == cwd;
      if dir != [] {
        RenderParentShorter(dir);
      }
    } else {
      WalkLineage(texts, fileDir, cwd, j - 1);
      assert Dirname(dir) == fileDir[..j - 1];
    }
  }

  /** The walk started at the edited file's directory, when that lies in `cwd`. */
  lemma ParentRulesBelow(texts: map<Path, string>, fileDir: Path, cwd: Path)
    requires ValidPath(fileDir) && ValidPath(cwd) && cwd <= fileDir
    ensures ParentRules(texts, fileDir, fileDir, cwd) == Lineage(texts, fileDir, cwd, |fileDir|)
  {
    WalkLineage(texts, fileDir, cwd, |fileDir|);
    assert fileDir[..|fileDir|] == fileDir;
  }

  /** `getClaudeMdHierarchy`: the upward walk, each CLAUDE.md found put in front with `unshift`. */
  method GetClaudeMdHierarchy(fs: FileSystem, fileDir: Path, cwd: Path) returns (hierarchy: seq<ParentRule>)
    ensures hierarchy == ParentRules(fs.texts, fileDir, fileDir, cwd)
  {
    hierarchy := [];
    var current := fileDir;
    while Render(cwd) <= Render(current)
      invariant ParentRules(fs.texts, fileDir, fileDir, cwd) == ParentRules(fs.texts, current, fileDir, cwd) + hierarchy
      decreases |current|
    {
      var potential := current + [ClaudeMd];
      ghost var here := RuleAt(fs.texts, current, fileDir, cwd);
      ghost var rest := hierarchy;
      if potential in fs.texts && current != fileDir {
        var content := fs.texts[potential];
        hierarchy := [ParentRule(Relative(cwd, potential), content, LineCount(content))] + hierarchy;
      }
      assert hierarchy == here + rest;
      var parent := Dirname(current);
      if parent == current {
        AppendAssoc(ParentRules(fs.texts, parent, fileDir, cwd), here, rest);
        break;
      }
      AppendAssoc(ParentRules(fs.texts, parent, fileDir, cwd), here, rest);
      current := parent;
    }
  }

  // ---------------------------------------------------------------- the hook

  /** Only writes and edits are looked at. */
  predicate ManagedTool(toolName: Json)
  {
    toolName == JStr("Write") || toolName == JStr("Edit") || toolName == JStr("MultiEdit")
  }

  /** `tool_input?.file_path` when it is a non-empty string; another truthy value makes `dirname` throw. */
  function EditedFile(toolInput: Json): Option<string>
  {
    match Field(toolInput, "file_path")
    case JStr(s) => if s != "" then Some(s) else None
    case _ => None
  }

  /** What the hook hands the background writer. */
  datatype Payload = Payload(
    relativePath: string,
    claudeMdPath: Path,
    hasClaudeMd: bool,
    existingClaudeMd: string,
    fileTypes: seq<string>,
    subdirs: seq<string>,
    filePath: Path,
    cwd: Path)

  /**
   * The hook: the payload it spawns the writer with, or `None` when it exits first. `listings`
   * are the directories `readdirSync` can read, with `statSync`'s verdict on each entry; the
   * input's `cwd` is given as the absolute path it names.
   */
  function Plan(input: Json, texts: map<Path, string>, listings: map<Path, seq<Entry>>, cwd: Path, processCwd: Path): (r: Option<Payload>)
    requires ValidPath(cwd) && ValidPath(processCwd)
    ensures r.Some? ==> ValidPath(r.value.filePath) && r.value.cwd == cwd
    ensures r.Some? ==> r.value.relativePath != "" && r.value.relativePath == Relative(cwd, Dirname(r.value.filePath))
    ensures r.Some? ==> (r.value.claudeMdPath == Dirname(r.value.filePath) + [ClaudeMd]
      && (r.value.hasClaudeMd <==> r.value.claudeMdPath in texts)
      && r.value.existingClaudeMd == (if r.value.hasClaudeMd then texts[r.value.claudeMdPath] else ""))
    ensures r.Some? ==> (Dirname(r.value.filePath) in listings
      && r.value.fileTypes == FileTypes(listings[Dirname(r.value.filePath)])
      && r.value.subdirs == Subdirs(listings[Dirname(r.value.filePath)]))
  {
    if !ManagedTool(Field(input, "tool_name")) then None
    else
      match EditedFile(Field(input, "tool_input"))
      case None => None
      case Some(s) =>
        var file := ResolvePath(processCwd, s);
        var fileDir := Dirname(file);
        var claudeMdPath := fileDir + [ClaudeMd];
        if Basename(file) == ClaudeMd then None
        else if InClaudeDir(Render(fileDir)) then None
        else if EndsWith(Render(file), "/" + ClaudeMd) then None
        else if fileDir !in listings then None
        else
          var entries := listings[fileDir];
          var relativePath := Relative(cwd, fileDir);
          if relativePath == "" then None
          else
            var hasClaudeMd := claudeMdPath in texts;
            Some(Payload(relativePath, claudeMdPath, hasClaudeMd, if hasClaudeMd then texts[claudeMdPath] else "",
                         FileTypes(entries), Subdirs(entries), file, cwd))
  }

  /**
   * The writer is started exactly for a write or edit of a file not named CLAUDE.md, outside
   * any `/.claude` directory, in a readable directory other than `cwd` itself.
   */
  lemma PlanSpawns(input: Json, texts: map<Path, string>, listings: map<Path, seq<Entry>>, cwd: Path, processCwd: Path)
    requires ValidPath(cwd) && ValidPath(processCwd)
    ensures Plan(input, texts, listings, cwd, processCwd).Some? <==>
      ManagedTool(Field(input, "tool_name")) && EditedFile(Field(input, "tool_input")).Some? &&
      var file := ResolvePath(processCwd, EditedFile(Field(input, "tool_input")).value);
      Basename(file) != ClaudeMd && !Contains(Render(Dirname(file)), ClaudeDirMarker) &&
      Dirname(file) in listings && Dirname(file) != cwd
  {
    if ManagedTool(Field(input, "tool_name")) && EditedFile(Field(input, "tool_input")).Some? {
      var file := ResolvePath(processCwd, EditedFile(Field(input, "tool_input")).value);
      ClaudeDirTest(Render(Dirname(file)));
      RelativeEmpty(cwd, Dirname(file));
      if file != [] {
        RuleFileTests(file);
      }
    }
  }

  // ---------------------------------------------------------------- the background writer

  /** What the writer's query is made of. */
  datatype Request = Request(
    hierarchy: seq<ParentRule>,
    target: Target,
    fileTypesListed: string,
    subdirsListed: string,
    editedName: string)

  datatype WorkerOutcome = ReferenceError | Query(request: Request)

  /**
   * The writer as written: its first step reads `fileDir`, a name bound only in the hook's
   * main function, so it throws before it builds any query.
   */
  function WorkerAsWritten(p: Payload): WorkerOutcome
  {
    ReferenceError
  }

  /** The writer with `fileDir` taken as the edited file's directory, as the hook computed it. */
  function Worker(texts: map<Path, string>, p: Payload): (o: WorkerOutcome)
    ensures o.Query? && o.request.fileTypesListed == Listing(p.fileTypes) && o.request.subdirsListed == SubdirListing(p.subdirs)
    ensures o.Query? && o.request.hierarchy == ParentRules(texts, Dirname(p.filePath), Dirname(p.filePath), p.cwd)
  {
    var fileDir := Dirname(p.filePath);
    var isRoot := Relative(p.cwd, fileDir) == "";
    Query(Request(ParentRules(texts, fileDir, fileDir, p.cwd),
                  TargetLines(isRoot, |p.fileTypes|, |p.subdirs|),
                  Listing(p.fileTypes), SubdirListing(p.subdirs), Basename(p.filePath)))
  }

  /** For every payload the hook can send, the writer as written never reaches its query. */
  lemma UnboundDirectory(input: Json, texts: map<Path, string>, listings: map<Path, seq<Entry>>, cwd: Path, processCwd: Path)
    requires ValidPath(cwd) && ValidPath(processCwd)
    requires Plan(input, texts, listings, cwd, processCwd).Some?
    ensures WorkerAsWritten(Plan(input, texts, listings, cwd, processCwd).value).ReferenceError?
    ensures Worker(texts, Plan(input, texts, listings, cwd, processCwd).value).Query?
  {
  }

  /**
   * A directory the hook hands over is never `cwd`, so the writer is never asked for the
   * root-length `~150`; when it lies in `cwd` it is shown the CLAUDE.md files from `cwd` down.
   */
  lemma WorkerRequest(input: Json, texts: map<Path, string>, listings: map<Path, seq<Entry>>, cwd: Path, processCwd: Path)
    requires ValidPath(cwd) && ValidPath(processCwd)
    requires Plan(input, texts, listings, cwd, processCwd).Some?
    ensures var p := Plan(input, texts, listings, cwd, processCwd).value;
      Worker(texts, p).request.target != About150
    ensures var p := Plan(input, texts, listings, cwd, processCwd).value;
      cwd <= Dirname(p.filePath) ==>
        Worker(texts, p).request.hierarchy == Lineage(texts, Dirname(p.filePath), cwd, |Dirname(p.filePath)|)
  {
    var p := Plan(input, texts, listings, cwd, processCwd).value;
    if cwd <= Dirname(p.filePath) {
      ParentRulesBelow(texts, Dirname(p.filePath), cwd);
    }
  }
}
