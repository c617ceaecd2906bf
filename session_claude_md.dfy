/**
 * The session-end variant of the CLAUDE.md manager: when a session ends it takes the files git
 * reports as changed, groups them by directory, and for each directory prepares a request to a
 * writer that creates or updates the directory's CLAUDE.md.
 */
module SessionClaudeMd {
  import opened Common
  import opened Strings
  import opened JsonValues
  import opened Paths
  import opened Files
  import opened ClaudeMdManager

  // ---------------------------------------------------------------- the entry point

  /** What the hook starts its worker with. */
  datatype Launch = Launch(sessionId: Json, cwd: Json)

  /**
   * The entry point starts a worker for a `SessionEnd` whose reason is not `other` and that
   * carries a session id; the worker's `cwd` is the input's, or the process's when that is falsy.
   */
  function Gate(input: Json, processCwd: string): (r: Option<Launch>)
    ensures r.Some? <==> Field(input, "hook_event_name") == JStr("SessionEnd")
                         && Field(input, "reason") != JStr("other")
                         && Truthy(Field(input, "session_id"))
    ensures r.Some? ==> r.value.sessionId == Field(input, "session_id") && Truthy(r.value.sessionId)
    ensures r.Some? && processCwd != "" ==> Truthy(r.value.cwd)
  {
    if Field(input, "hook_event_name") != JStr("SessionEnd") then None
    else if Field(input, "reason") == JStr("other") then None
    else
      var sessionId := Field(input, "session_id");
      var cwd := if Truthy(Field(input, "cwd")) then Field(input, "cwd") else JStr(processCwd);
      if !Truthy(sessionId) then None else Some(Launch(sessionId, cwd))
  }

  // ---------------------------------------------------------------- changed files

  /** `lines.filter(Boolean)`. */
  function NonEmpty(lines: seq<string>): (kept: seq<string>)
    ensures |kept| <= |lines|
    ensures forall x :: x in kept <==> x in lines && x != ""
  {
    if lines == [] then []
    else
      var rest := NonEmpty(lines[1..]);
      assert forall x :: x in lines <==> x == lines[0] || x in lines[1..];
      (if lines[0] != "" then [lines[0]] else []) + rest
  }

  /** `gitOutput.trim().split('\n').filter(Boolean)`. */
  function ChangedFiles(gitOutput: string): seq<string>
  {
    NonEmpty(Split(Trim(gitOutput), '\n'))
  }

  /** The changed files are the non-empty lines of the trimmed output; no name is empty. */
  lemma ChangedFileLines(gitOutput: string)
    ensures forall f :: f in ChangedFiles(gitOutput) <==> f in Split(Trim(gitOutput), '\n') && f != ""
    ensures Trim(gitOutput) == "" ==> ChangedFiles(gitOutput) == []
  {
    if Trim(gitOutput) == "" {
      assert Split(Trim(gitOutput), '\n') == [""];
    }
  }

  // ---------------------------------------------------------------- grouping by directory

  /** `relative(cwd, dir) || '.'`. */
  function ShownPath(cwd: Path, dir: Path): (s: string)
    ensures s != ""
  {
    var rel := Relative(cwd, dir);
    if rel == "" then "." else rel
  }

  /** A changed file is grouped unless its directory mentions `.claude`, it is a CLAUDE.md, or it lies outside `cwd`. */
  predicate Eligible(cwd: Path, file: string)
    requires ValidPath(cwd)
  {
    var path := JoinRelative(cwd, file);
    var rel := ShownPath(cwd, Dirname(path));
    !Contains(rel, ".claude") && Basename(path) != ClaudeMd && !(".." <= rel)
  }

  /** The `directoriesWithChanges` map: its keys in insertion order, and the names filed under each. */
  datatype Groups = Groups(order: seq<Path>, names: map<Path, seq<string>>)

  /** One turn of the grouping loop. */
  function AddFile(g: Groups, cwd: Path, file: string): Groups
    requires ValidPath(cwd)
  {
    if !Eligible(cwd, file) then g
    else
      var path := JoinRelative(cwd, file);
      var dir := Dirname(path);
      if dir in g.names then Groups(g.order, g.names[dir := g.names[dir] + [Basename(path)]])
      else Groups(g.order + [dir], g.names[dir := [Basename(path)]])
  }

  /** The map after the loop has seen `files`. */
  function Grouped(cwd: Path, files: seq<string>): Groups
    requires ValidPath(cwd)
    decreases |files|
  {
    if files == [] then Groups([], map[])
    else AddFile(Grouped(cwd, files[..|files| - 1]), cwd, files[|files| - 1])
  }

  /** The names of the eligible files of `files` that lie in `dir`, in input order. */
  function NamesIn(cwd: Path, files: seq<string>, dir: Path): seq<string>
    requires ValidPath(cwd)
    decreases |files|
  {
    if files == [] then []
    else
      var f := files[|files| - 1];
      var path := JoinRelative(cwd, f);
      NamesIn(cwd, files[..|files| - 1], dir) + (if Eligible(cwd, f) && Dirname(path) == dir then [Basename(path)] else [])
  }

  /** Under each directory filed are the names of exactly its eligible changed files, in input order. */
  lemma {:induction false} GroupedNames(cwd: Path, files: seq<string>)
    requires ValidPath(cwd)
    ensures var g := Grouped(cwd, files);
      forall d :: (d in g.names <==> NamesIn(cwd, files, d) != []) && (d in g.names ==> g.names[d] == NamesIn(cwd, files, d))
    decreases |files|
  {
    if files != [] {
      var init := files[..|files| - 1];
      var f := files[|files| - 1];
      GroupedNames(cwd, init);
      var g0 := Grouped(cwd, init);
      var g := Grouped(cwd, files);
      assert g == AddFile(g0, cwd, f);
      var path := JoinRelative(cwd, f);
      forall d
        ensures (d in g.names <==> NamesIn(cwd, files, d) != []) && (d in g.names ==> g.names[d] == NamesIn(cwd, files, d))
      {
        assert NamesIn(cwd, files, d) == NamesIn(cwd, init, d) + (if Eligible(cwd, f) && Dirname(path) == d then [Basename(path)] else []);
      }
    }
  }

  /** Each directory is filed once, in the order its first eligible changed file came. */
  lemma {:induction false} GroupedOrder(cwd: Path, files: seq<string>)
    requires ValidPath(cwd)
    ensures var g := Grouped(cwd, files);
      (forall d :: d in g.names <==> d in g.order) &&
      (forall i, j :: 0 <= i < j < |g.order| ==> g.order[i] != g.order[j])
    decreases |files|
  {
    if files != [] {
      var init := files[..|files| - 1];
      GroupedOrder(cwd, init);
      assert Grouped(cwd, files) == AddFile(Grouped(cwd, init), cwd, files[|files| - 1]);
    }
  }

  /** A turn of the loop files a new directory exactly when the file is eligible and nothing was filed. */
  lemma AddFileOrder(g: Groups, cwd: Path, file: string)
    requires ValidPath(cwd)
    requires forall d :: d in g.names <==> d in g.order
    ensures AddFile(g, cwd, file).order == [] <==> g.order == [] && !Eligible(cwd, file)
  {
  }

  /** No directory is filed exactly when none of the changed files is eligible. */
  lemma {:induction false} GroupedEmpty(cwd: Path, files: seq<string>)
    requires ValidPath(cwd)
    ensures Grouped(cwd, files).order == [] <==> forall f :: f in files ==> !Eligible(cwd, f)
    decreases |files|
  {
    if files != [] {
      var init := files[..|files| - 1];
      var last := files[|files| - 1];
      GroupedEmpty(cwd, init);
      var g0 := Grouped(cwd, init);
      assert Grouped(cwd, files) == AddFile(g0, cwd, last);
      GroupedOrder(cwd, init);
      AddFileOrder(g0, cwd, last);
      assert forall f :: f in files <==> f in init || f == last;
    }
  }

  /** A directory whose rendering relative to `cwd` does not climb out lies in `cwd`. */
  lemma ShownInside(cwd: Path, dir: Path)
    ensures !(".." <= ShownPath(cwd, dir)) ==> cwd <= dir
  {
    if !(cwd <= dir) {
      RelativeOutside(cwd, dir);
    }
  }

  /** Every directory filed is a normalised path in `cwd`. */
  lemma {:induction false} GroupedInside(cwd: Path, files: seq<string>)
    requires ValidPath(cwd)
    ensures forall d :: d in Grouped(cwd, files).order ==> cwd <= d && ValidPath(d)
    decreases |files|
  {
    if files != [] {
      var f := files[|files| - 1];
      GroupedInside(cwd, files[..|files| - 1]);
      ShownInside(cwd, Dirname(JoinRelative(cwd, f)));
    }
  }

  /** The grouping loop. */
  method GroupChangedFiles(cwd: Path, files: seq<string>) returns (order: seq<Path>, names: map<Path, seq<string>>)
    requires ValidPath(cwd)
    ensures Groups(order, names) == Grouped(cwd, files)
  {
    order := [];
    names := map[];
    for i := 0 to |files|
      invariant Groups(order, names) == Grouped(cwd, files[..i])
    {
      var file := files[i];
      assert files[..i + 1][..i] == files[..i];
      ghost var next := AddFile(Groups(order, names), cwd, file);
      assert Grouped(cwd, files[..i + 1]) == next;
      var filePath := JoinRelative(cwd, file);
      var fileDir := Dirname(filePath);
      var relativePath := ShownPath(cwd, fileDir);
      if Contains(relativePath, ".claude") || Basename(filePath) == ClaudeMd || ".." <= relativePath {
        assert !Eligible(cwd, file);
        continue;
      }
      assert Eligible(cwd, file);
      if fileDir in names {
        names := names[fileDir := names[fileDir] + [Basename(filePath)]];
      } else {
        order := order + [fileDir];
        names := names[fileDir := [Basename(filePath)]];
      }
    }
    assert files[..|files|] == files;
  }

  // ---------------------------------------------------------------- one directory

  /** What `getDirectoryInfo` reports. */
  datatype DirectoryInfo = DirectoryInfo(fileTypes: seq<string>, subdirs: seq<string>, relativeDirPath: string, isRoot: bool, target: Target)

  /** Some entry of the listing could not be stat'ed. */
  predicate HasUnreadable(entries: seq<Entry>)
  {
    exists e :: e in entries && e.kind == Unreadable
  }

  /**
   * `getDirectoryInfo`: `None` when `readdirSync` or a `statSync` throws, which ends the
   * worker; the directory counts as the root exactly when it is `cwd`.
   */
  function GetDirectoryInfo(listings: map<Path, seq<Entry>>, dir: Path, cwd: Path): (r: Option<DirectoryInfo>)
    requires ValidPath(dir) && ValidPath(cwd)
    ensures r.None? <==> dir !in listings || HasUnreadable(listings[dir])
    ensures r.Some? ==> (r.value.isRoot <==> dir == cwd)
    ensures r.Some? ==> r.value.target == TargetLines(dir == cwd, |r.value.fileTypes|, |r.value.subdirs|)
    ensures r.Some? ==> r.value.fileTypes == FileTypes(listings[dir]) && r.value.subdirs == Subdirs(listings[dir])
  {
    if dir !in listings || HasUnreadable(listings[dir]) then None
    else
      var entries := listings[dir];
      var fileTypes := FileTypes(entries);
      var subdirs := Subdirs(entries);
      var relativeDirPath := Relative(cwd, dir);
      var isRoot := relativeDirPath == "";
      RelativeEmpty(cwd, dir);
      Some(DirectoryInfo(fileTypes, subdirs, relativeDirPath, isRoot, TargetLines(isRoot, |fileTypes|, |subdirs|)))
  }

  /** `relative(cwd, dir) || '.'` is `.` exactly for `cwd` itself. */
  lemma ShownDot(cwd: Path, dir: Path)
    requires ValidPath(cwd) && ValidPath(dir)
    ensures ShownPath(cwd, dir) == "." <==> dir == cwd
  {
    RelativeEmpty(cwd, dir);
    var k := CommonPrefixLength(cwd, dir);
    var parts := Repeat("..", |cwd| - k) + dir[k..];
    if parts != [] {
      assert parts[0] == (if |cwd| > k then ".." else dir[k]);
      JoinStarts(parts, "/");
      assert parts[0] != "" && parts[0] != ".";
    }
  }

  // ---------------------------------------------------------------- the worker

  /** The request prepared for one directory. */
  datatype Job = Job(
    relativePath: string,
    claudeMdPath: Path,
    existingClaudeMd: Option<string>,
    info: DirectoryInfo,
    hierarchy: seq<ParentRule>,
    changed: seq<string>)

  /**
   * How the worker ends: git failed or reported nothing, no directory was eligible, or the
   * requests for the directories in order, `complete` false when a directory listing threw.
   */
  datatype WorkerRun = GitFailed | NoChanges | NothingEligible | Processed(jobs: seq<Job>, complete: bool)

  /** The request for one directory, `None` when listing it throws. */
  function JobFor(texts: map<Path, string>, listings: map<Path, seq<Entry>>, cwd: Path, g: Groups, dir: Path): (j: Option<Job>)
    requires ValidPath(cwd) && ValidPath(dir)
    ensures j.None? <==> GetDirectoryInfo(listings, dir, cwd).None?
  {
    var claudeMdPath := dir + [ClaudeMd];
    var existing := if claudeMdPath in texts then Some(texts[claudeMdPath]) else None;
    match GetDirectoryInfo(listings, dir, cwd)
    case None => None
    case Some(info) =>
      var changed := if dir in g.names then g.names[dir] else [];
      Some(Job(ShownPath(cwd, dir), claudeMdPath, existing, info, ParentRules(texts, dir, dir, cwd), changed))
  }

  /**
   * The results of a sequence of steps up to the first that fails, where the worker dies, and
   * whether none failed.
   */
  function UntilFailure<T>(attempts: seq<Option<T>>): (r: (seq<T>, bool))
    ensures |r.0| <= |attempts| && (r.1 <==> |r.0| == |attempts|)
    ensures forall i :: 0 <= i < |r.0| ==> attempts[i] == Some(r.0[i])
    ensures !r.1 ==> attempts[|r.0|].None?
  {
    if attempts == [] then ([], true)
    else
      match attempts[0]
      case None => ([], false)
      case Some(x) =>
        var rest := UntilFailure(attempts[1..]);
        assert forall i :: 1 <= i < 1 + |rest.0| ==> ([x] + rest.0)[i] == rest.0[i - 1];
        ([x] + rest.0, rest.1)
  }

  /** The request attempted for each grouped directory, in order. */
  function Attempts(texts: map<Path, string>, listings: map<Path, seq<Entry>>, cwd: Path, g: Groups): (a: seq<Option<Job>>)
    requires ValidPath(cwd)
    requires forall d :: d in g.order ==> ValidPath(d)
    ensures |a| == |g.order|
  {
    seq(|g.order|, i requires 0 <= i < |g.order| => assert g.order[i] in g.order; JobFor(texts, listings, cwd, g, g.order[i]))
  }

  /** The worker, given what `git diff --name-only HEAD` printed (`None` when it failed). */
  function Worker(git: Option<string>, texts: map<Path, string>, listings: map<Path, seq<Entry>>, cwd: Path): (r: WorkerRun)
    requires ValidPath(cwd)
    ensures r.GitFailed? <==> git.None?
    ensures r.NoChanges? <==> git.Some? && ChangedFiles(git.value) == []
    ensures r.NothingEligible? <==>
      git.Some? && ChangedFiles(git.value) != [] && forall f :: f in ChangedFiles(git.value) ==> !Eligible(cwd, f)
  {
    match git
    case None => GitFailed
    case Some(output) =>
      var files := ChangedFiles(output);
      if files == [] then NoChanges
      else
        var g := Grouped(cwd, files);
        GroupedInside(cwd, files);
        GroupedEmpty(cwd, files);
        if g.order == [] then NothingEligible
        else
          var r := UntilFailure(Attempts(texts, listings, cwd, g));
          Processed(r.0, r.1)
  }

  /** When the worker gets to its requests, they are those for the grouped directories in order. */
  lemma WorkerIsJobs(git: Option<string>, texts: map<Path, string>, listings: map<Path, seq<Entry>>, cwd: Path)
    requires ValidPath(cwd)
    requires Worker(git, texts, listings, cwd).Processed?
    ensures git.Some?
    ensures var g := Grouped(cwd, ChangedFiles(git.value));
      (forall d :: d in g.order ==> cwd <= d && ValidPath(d)) &&
      var r := UntilFailure(Attempts(texts, listings, cwd, g));
      Worker(git, texts, listings, cwd) == Processed(r.0, r.1)
  {
    GroupedInside(cwd, ChangedFiles(git.value));
  }

  /** Whether a directory can be listed: it exists and none of its entries fails to stat. */
  predicate Listable(listings: map<Path, seq<Entry>>, dir: Path) {
    dir in listings && !HasUnreadable(listings[dir])
  }

  /**
   * The worker covers every grouped directory unless one cannot be listed; then it stops at the
   * first such directory, with the requests for the directories before it.
   */
  lemma WorkerCompletes(git: Option<string>, texts: map<Path, string>, listings: map<Path, seq<Entry>>, cwd: Path)
    requires ValidPath(cwd)
    requires Worker(git, texts, listings, cwd).Processed?
    ensures git.Some?
    ensures var g := Grouped(cwd, ChangedFiles(git.value));
      var run := Worker(git, texts, listings, cwd);
      var n := |run.jobs|;
      n <= |g.order| && (run.complete <==> n == |g.order|) &&
      (forall k :: 0 <= k < n ==> Listable(listings, g.order[k])) &&
      (!run.complete ==> !Listable(listings, g.order[n]))
  {
    WorkerIsJobs(git, texts, listings, cwd);
    var g := Grouped(cwd, ChangedFiles(git.value));
    var a := Attempts(texts, listings, cwd, g);
    var run := Worker(git, texts, listings, cwd);
    forall k | 0 <= k < |run.jobs|
      ensures Listable(listings, g.order[k])
    {
      assert g.order[k] in g.order;
      assert a[k] == Some(run.jobs[k]);
    }
    if !run.complete {
      assert g.order[|run.jobs|] in g.order;
      assert a[|run.jobs|].None?;
    }
  }

  /**
   * Each request is for a directory in `cwd`, the directories in the order they first appear
   * among the changed files, each once; it names `.` and counts as the root exactly for `cwd`.
   */
  lemma WorkerJobDirectory(git: Option<string>, texts: map<Path, string>, listings: map<Path, seq<Entry>>, cwd: Path, i: nat)
    requires ValidPath(cwd)
    requires Worker(git, texts, listings, cwd).Processed? && i < |Worker(git, texts, listings, cwd).jobs|
    ensures git.Some?
    ensures var g := Grouped(cwd, ChangedFiles(git.value));
      var job := Worker(git, texts, listings, cwd).jobs[i];
      i < |g.order| && cwd <= g.order[i] &&
      (job.relativePath == "." <==> g.order[i] == cwd) &&
      (job.info.isRoot <==> g.order[i] == cwd)
  {
    WorkerIsJobs(git, texts, listings, cwd);
    var g := Grouped(cwd, ChangedFiles(git.value));
    assert g.order[i] in g.order;
    ShownDot(cwd, g.order[i]);
  }

  /** Each request lists its directory's eligible changed files, in order, and there is at least one. */
  lemma WorkerJobChanged(git: Option<string>, texts: map<Path, string>, listings: map<Path, seq<Entry>>, cwd: Path, i: nat)
    requires ValidPath(cwd)
    requires Worker(git, texts, listings, cwd).Processed? && i < |Worker(git, texts, listings, cwd).jobs|
    ensures git.Some?
    ensures var files := ChangedFiles(git.value);
      var g := Grouped(cwd, files);
      var job := Worker(git, texts, listings, cwd).jobs[i];
      i < |g.order| && job.changed == NamesIn(cwd, files, g.order[i]) && job.changed != []
  {
    WorkerIsJobs(git, texts, listings, cwd);
    var files := ChangedFiles(git.value);
    var g := Grouped(cwd, files);
    GroupedNames(cwd, files);
    GroupedOrder(cwd, files);
    assert g.order[i] in g.order;
  }

  /** Each request shows the CLAUDE.md files from `cwd` down to, not including, its directory, root-first. */
  lemma WorkerJobHierarchy(git: Option<string>, texts: map<Path, string>, listings: map<Path, seq<Entry>>, cwd: Path, i: nat)
    requires ValidPath(cwd)
    requires Worker(git, texts, listings, cwd).Processed? && i < |Worker(git, texts, listings, cwd).jobs|
    ensures git.Some?
    ensures var g := Grouped(cwd, ChangedFiles(git.value));
      var job := Worker(git, texts, listings, cwd).jobs[i];
      i < |g.order| && job.hierarchy == Lineage(texts, g.order[i], cwd, |g.order[i]|)
  {
    WorkerIsJobs(git, texts, listings, cwd);
    var g := Grouped(cwd, ChangedFiles(git.value));
    assert g.order[i] in g.order;
    ParentRulesBelow(texts, g.order[i], cwd);
  }
}
