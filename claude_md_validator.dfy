/**
 * The CLAUDE.md validator, a PostToolUse hook: which tool uses it hands to a background
 * validator, the CLAUDE.md rules it collects for them (from the edited file's directory up to
 * the working directory, then the user's global file), and how the validator's one-line
 * verdict is read.
 */
module ClaudeMdValidator {
  import opened Common
  import opened Strings
  import opened JsonValues
  import opened Paths
  import opened Files

  const ClaudeMd := "CLAUDE.md"

  // ---------------------------------------------------------------- the start directory

  /** `toolInput?.file_path` when it is a non-empty string. */
  function FilePathOf(toolInput: Json): Option<string>
  {
    match Field(toolInput, "file_path")
    case JStr(s) => if s != "" then Some(s) else None
    case _ => None
  }

  /** `toolInput?.edits`, when it is a non-empty array. */
  function FirstEdit(toolInput: Json): Option<Json>
  {
    var edits := Field(toolInput, "edits");
    if edits.JArr? && |edits.items| > 0 then Some(edits.items[0]) else None
  }

  /**
   * The directory the walk starts from: the edited file's directory, else that of the first
   * edit, else `cwd`. `None` when the first edit has no string `file_path`, on which
   * `path.resolve` throws and the hook dies.
   */
  function StartDir(toolInput: Json, cwd: Path, processCwd: Path): (r: Option<Path>)
    requires ValidPath(cwd) && ValidPath(processCwd)
    ensures r.Some? ==> ValidPath(r.value)
    ensures FilePathOf(toolInput).Some? ==> r.Some? && r.value <= ResolvePath(processCwd, FilePathOf(toolInput).value)
    ensures FilePathOf(toolInput).None? && FirstEdit(toolInput).None? ==> r == Some(cwd)
    ensures r.None? <==> FilePathOf(toolInput).None? && FirstEdit(toolInput).Some? && !Field(FirstEdit(toolInput).value, "file_path").JStr?
  {
    match FilePathOf(toolInput)
    case Some(p) => Some(Dirname(ResolvePath(processCwd, p)))
    case None =>
      match FirstEdit(toolInput)
      case Some(edit) =>
        (match Field(edit, "file_path")
         case JStr(p) => Some(Dirname(ResolvePath(processCwd, p)))
         case _ => None)
      case None => Some(cwd)
  }

  // ---------------------------------------------------------------- the walk

  /**
   * The directories the walk visits from `dir`: `dir` and its ancestors, most specific first,
   * up to and including `cwd`, or up to the root when `cwd` is not an ancestor of `dir`.
   */
  function WalkDirs(dir: Path, cwd: Path): (ds: seq<Path>)
    ensures |ds| == |dir| + 1 - (if cwd <= dir then |cwd| else 0)
    ensures forall i :: 0 <= i < |ds| ==> ds[i] == dir[..|dir| - i]
    decreases |dir|
  {
    if dir == cwd || dir == [] then [dir]
    else
      var parent := Dirname(dir);
      assert cwd <= dir <==> cwd <= parent by {
        if cwd <= dir {
          assert |cwd| < |dir|;
          assert cwd == dir[..|cwd|] == parent[..|cwd|];
        }
      }
      var rest := WalkDirs(parent, cwd);
      forall i | 0 < i <= |rest| ensures ([dir] + rest)[i] == dir[..|dir| - i] {
        assert rest[i - 1] == parent[..|parent| - (i - 1)];
      }
      [dir] + rest
  }

  /**
   * The walk visits `cwd` last when `cwd` is an ancestor of the start, and never before; when
   * it is not, the walk ends at the root.
   */
  lemma WalkEnds(dir: Path, cwd: Path)
    ensures var ds := WalkDirs(dir, cwd);
      (cwd <= dir ==> ds[|ds| - 1] == cwd) && (!(cwd <= dir) ==> ds[|ds| - 1] == [] && cwd !in ds)
    ensures var ds := WalkDirs(dir, cwd);
      forall i :: 0 <= i < |ds| - 1 ==> ds[i] != cwd
  {
    var ds := WalkDirs(dir, cwd);
    if cwd <= dir {
      assert ds[|ds| - 1] == dir[..|cwd|] == cwd;
    } else {
      assert ds[|ds| - 1] == dir[..0];
      forall i | 0 <= i < |ds| ensures ds[i] != cwd {
        assert ds[i] <= dir;
      }
    }
    forall i | 0 <= i < |ds| - 1 ensures ds[i] != cwd {
      assert |ds[i]| == |dir| - i;
    }
  }

  /** A CLAUDE.md the hook read: its path, its text and the directory named in its heading. */
  datatype RuleFile = RuleFile(path: Path, content: string, source: Path)

  /** The CLAUDE.md files present in the given directories, in their order. */
  function Found(texts: map<Path, string>, dirs: seq<Path>): (r: seq<RuleFile>)
    ensures forall f :: f in r <==>
      f.source in dirs && f.path == f.source + [ClaudeMd] && f.path in texts && f.content == texts[f.path]
    ensures (forall i, j :: 0 <= i < j < |dirs| ==> |dirs[j]| < |dirs[i]|) ==>
      forall i, j :: 0 <= i < j < |r| ==> |r[j].source| < |r[i].source|
  {
    if dirs == [] then []
    else
      var p := dirs[0] + [ClaudeMd];
      var rest := Found(texts, dirs[1..]);
      var r := (if p in texts then [RuleFile(p, texts[p], dirs[0])] else []) + rest;
      assert forall f :: f in rest ==> f.source in dirs[1..];
      r
  }

  /** `join(homeDir, '.claude', 'CLAUDE.md')`. */
  function GlobalPath(home: Path): Path
  {
    home + [".claude", ClaudeMd]
  }

  /** Some file of `files` has path `p`. */
  predicate Mentions(files: seq<RuleFile>, p: Path)
  {
    exists f :: f in files && f.path == p
  }

  /** The files the hook collects: the walk's, then the global file unless the walk already had it. */
  function Collected(texts: map<Path, string>, start: Path, cwd: Path, home: Path): seq<RuleFile>
  {
    var walk := Found(texts, WalkDirs(start, cwd));
    var global := GlobalPath(home);
    if !Mentions(walk, global) && global in texts then
      walk + [RuleFile(global, texts[global], home + [".claude"])]
    else walk
  }

  /** No file is collected twice; in particular the global CLAUDE.md appears at most once. */
  lemma CollectedDistinct(texts: map<Path, string>, start: Path, cwd: Path, home: Path)
    ensures var r := Collected(texts, start, cwd, home);
      forall i, j :: 0 <= i < j < |r| ==> r[i].path != r[j].path
  {
    var ds := WalkDirs(start, cwd);
    assert forall i, j :: 0 <= i < j < |ds| ==> |ds[j]| < |ds[i]|;
    var walk := Found(texts, ds);
    assert forall i, j :: 0 <= i < j < |walk| ==> walk[i].path != walk[j].path by {
      forall i, j | 0 <= i < j < |walk| ensures walk[i].path != walk[j].path {
        assert walk[i] in walk && walk[j] in walk;
        assert |walk[i].path| == |walk[i].source| + 1;
      }
    }
    var r := Collected(texts, start, cwd, home);
    forall i, j | 0 <= i < j < |r| ensures r[i].path != r[j].path {
      if j == |walk| {
        assert walk[i] in walk;
      }
    }
  }

  /**
   * Every collected file exists with the text read, the walk's come first and most specific
   * first, and the global file is included whenever it exists.
   */
  lemma CollectedContents(texts: map<Path, string>, start: Path, cwd: Path, home: Path)
    ensures var r := Collected(texts, start, cwd, home);
      forall f :: f in r ==> f.path in texts && f.content == texts[f.path]
    ensures var r := Collected(texts, start, cwd, home);
      forall d :: d in WalkDirs(start, cwd) && d + [ClaudeMd] in texts ==> RuleFile(d + [ClaudeMd], texts[d + [ClaudeMd]], d) in r
    ensures GlobalPath(home) in texts ==>
      exists f :: f in Collected(texts, start, cwd, home) && f.path == GlobalPath(home)
  {
    var ds := WalkDirs(start, cwd);
    var walk := Found(texts, ds);
    var r := Collected(texts, start, cwd, home);
    var global := GlobalPath(home);
    assert r == walk || r == walk + [RuleFile(global, texts[global], home + [".claude"])];
    forall f | f in r ensures f.path in texts && f.content == texts[f.path] {
      if f !in walk {
        assert f == RuleFile(global, texts[global], home + [".claude"]);
      }
    }
    forall d | d in ds && d + [ClaudeMd] in texts ensures RuleFile(d + [ClaudeMd], texts[d + [ClaudeMd]], d) in r {
      assert RuleFile(d + [ClaudeMd], texts[d + [ClaudeMd]], d) in walk;
    }
    if global in texts && Mentions(walk, global) {
      var f :| f in walk && f.path == global;
      assert f in r;
    }
  }

  // ---------------------------------------------------------------- merging

  const SectionBreak := "\n\n---\n\n"

  /** `# Rules from: <source>`, a blank line, then the file's text. */
  function Section(f: RuleFile): (s: string)
    ensures s != ""
  {
    "# Rules from: " + Render(f.source) + "\n\n" + f.content
  }

  function Sections(files: seq<RuleFile>): (ss: seq<string>)
    ensures |ss| == |files| && forall i :: 0 <= i < |files| ==> ss[i] == Section(files[i])
  {
    seq(|files|, i requires 0 <= i < |files| => Section(files[i]))
  }

  /** The rules text handed to the validator: the sections joined by `---` lines, or `""`. */
  function Merge(files: seq<RuleFile>): (text: string)
  {
    if files == [] then "" else Join(Sections(files), SectionBreak)
  }

  /**
   * The rules text is empty exactly when no file was found, and each further file adds one
   * break and its own section at the end.
   */
  lemma MergeShape(files: seq<RuleFile>, f: RuleFile)
    ensures Merge(files) == "" <==> files == []
    ensures Merge(files + [f]) == (if files == [] then Section(f) else Merge(files) + SectionBreak + Section(f))
  {
    if files != [] {
      JoinStarts(Sections(files), SectionBreak);
      assert Sections(files + [f]) == Sections(files) + [Section(f)];
      JoinAppend(Sections(files), [Section(f)], SectionBreak);
    } else {
      assert Sections([f]) == [Section(f)];
    }
  }

  /** The rule file a directory contributes: its CLAUDE.md when present. */
  function Here(texts: map<Path, string>, dir: Path): seq<RuleFile>
  {
    var p := dir + [ClaudeMd];
    if p in texts then [RuleFile(p, texts[p], dir)] else []
  }

  /** A step of the walk below `cwd` and the root contributes its own file, then its parent's walk. */
  lemma FoundStep(texts: map<Path, string>, dir: Path, cwd: Path)
    requires dir != cwd && dir != []
    ensures Found(texts, WalkDirs(dir, cwd)) == Here(texts, dir) + Found(texts, WalkDirs(Dirname(dir), cwd))
  {
    var ds := WalkDirs(dir, cwd);
    assert ds[0] == dir && ds[1..] == WalkDirs(Dirname(dir), cwd);
  }

  /** The walk's last step, at `cwd` or at the root, contributes its own file only. */
  lemma FoundLast(texts: map<Path, string>, dir: Path, cwd: Path)
    requires dir == cwd || dir == []
    ensures Found(texts, WalkDirs(dir, cwd)) == Here(texts, dir)
  {
    var ds := WalkDirs(dir, cwd);
    assert ds == [dir] && ds[1..] == [];
  }

  /**
   * `collectClaudeMdFiles`: walks from the start directory upward collecting each CLAUDE.md,
   * adds the global one, and merges them. `None` when the start directory cannot be resolved.
   */
  method CollectClaudeMdFiles(fs: FileSystem, toolInput: Json, cwd: Path, home: Path, processCwd: Path)
    returns (content: Option<string>)
    requires ValidPath(cwd) && ValidPath(processCwd)
    ensures content == match StartDir(toolInput, cwd, processCwd)
      case None => None
      case Some(start) => Some(Merge(Collected(fs.texts, start, cwd, home)))
  {
    var startDir := StartDir(toolInput, cwd, processCwd);
    if startDir.None? {
      return None;
    }
    ghost var walk := Found(fs.texts, WalkDirs(startDir.value, cwd));
    var files: seq<RuleFile> := [];
    var current := startDir.value;
    while true
      invariant walk == files + Found(fs.texts, WalkDirs(current, cwd))
      decreases |current|
    {
      var claudeMdPath := current + [ClaudeMd];
      var here: seq<RuleFile> := [];
      if claudeMdPath in fs.texts {
        here := [RuleFile(claudeMdPath, fs.texts[claudeMdPath], current)];
      }
      assert here == Here(fs.texts, current);
      var parent := Dirname(current);
      if current == cwd || parent == current {
        FoundLast(fs.texts, current, cwd);
        files := files + here;
        break;
      }
      FoundStep(fs.texts, current, cwd);
      AppendAssoc(files, here, Found(fs.texts, WalkDirs(parent, cwd)));
      files := files + here;
      current := parent;
    }
    assert files == walk;
    var global := GlobalPath(home);
    var alreadyIncluded := Mentions(files, global);
    ghost var collected := Collected(fs.texts, startDir.value, cwd, home);
    if !alreadyIncluded && global in fs.texts {
      files := files + [RuleFile(global, fs.texts[global], home + [".claude"])];
      assert files == collected;
    } else {
      assert files == collected;
    }
    content := Some(Merge(files));
  }

  // ---------------------------------------------------------------- which uses are validated

  /** A line of ignored-bash.txt that names a safe prefix: neither blank nor a `#` comment. */
  predicate SafeLine(line: string)
  {
    Trim(line) != "" && Trim(line)[0] != '#'
  }

  /** The trimmed safe lines, in order. */
  function SafePrefixes(lines: seq<string>): (r: seq<string>)
    ensures forall s :: s in r <==> exists line :: line in lines && SafeLine(line) && s == Trim(line)
  {
    if lines == [] then []
    else
      var rest := SafePrefixes(lines[1..]);
      assert forall line :: line in lines <==> line == lines[0] || line in lines[1..];
      (if SafeLine(lines[0]) then [Trim(lines[0])] else []) + rest
  }

  /** The safe-command prefixes of an ignored-bash.txt, none when the file is missing. */
  function SafeCommands(ignoredFile: Option<string>): seq<string>
  {
    if ignoredFile.Some? then SafePrefixes(Split(ignoredFile.value, '\n')) else []
  }

  /** `safeCommands.some(safe => cmd.startsWith(safe))` on the trimmed command. */
  predicate Ignored(command: string, ignoredFile: Option<string>)
  {
    exists safe :: safe in SafeCommands(ignoredFile) && safe <= Trim(command)
  }

  /**
   * A command is skipped exactly when the trimmed text of some line of the file, not blank and
   * not a comment, begins the trimmed command.
   */
  lemma IgnoredByLine(command: string, ignoredFile: Option<string>)
    ensures Ignored(command, ignoredFile) <==>
      ignoredFile.Some? &&
      exists line :: line in Split(ignoredFile.value, '\n') && SafeLine(line) && Trim(line) <= Trim(command)
  {
    if ignoredFile.Some? {
      var lines := Split(ignoredFile.value, '\n');
      if Ignored(command, ignoredFile) {
        var safe :| safe in SafePrefixes(lines) && safe <= Trim(command);
        var line :| line in lines && SafeLine(line) && safe == Trim(line);
      }
      if exists line :: line in lines && SafeLine(line) && Trim(line) <= Trim(command) {
        var line :| line in lines && SafeLine(line) && Trim(line) <= Trim(command);
        var safe := Trim(line);
        assert safe in SafeCommands(ignoredFile) && safe <= Trim(command);
      }
    }
  }

  /**
   * Whether the hook goes on to collect rules and start the validator: not when it runs inside
   * the validator itself, not for TodoWrite, and not for a Bash command the ignored-bash list
   * covers.
   */
  predicate Validates(validatorActive: Option<string>, toolName: Json, toolInput: Json, ignoredFile: Option<string>)
  {
    validatorActive != Some("1")
    && toolName != JStr("TodoWrite")
    && !(toolName == JStr("Bash") && Field(toolInput, "command").JStr? && Field(toolInput, "command").s != ""
         && Ignored(Field(toolInput, "command").s, ignoredFile))
  }

  /**
   * The hook: the rules text it hands to the background validator, or `None` when it exits
   * without starting one. `validatorActive` is `CLAUDE_VALIDATOR_ACTIVE`; the input's `cwd` is
   * given as the absolute path it names.
   */
  method Hook(fs: FileSystem, input: Json, cwd: Path, validatorActive: Option<string>, home: Path, processCwd: Path)
    returns (handedOver: Option<string>)
    requires ValidPath(cwd) && ValidPath(processCwd)
    ensures var toolInput := Field(input, "tool_input");
      var ignored := fs.ReadText(cwd + [".claude", "ignored-bash.txt"]);
      handedOver.Some? <==> Validates(validatorActive, Field(input, "tool_name"), toolInput, ignored)
                            && StartDir(toolInput, cwd, processCwd).Some?
    ensures handedOver.Some? ==>
      handedOver.value == Merge(Collected(fs.texts, StartDir(Field(input, "tool_input"), cwd, processCwd).value, cwd, home))
  {
    if validatorActive == Some("1") {
      return None;
    }
    var toolName := Field(input, "tool_name");
    var toolInput := Field(input, "tool_input");
    if toolName == JStr("TodoWrite") {
      return None;
    }
    var command := Field(toolInput, "command");
    if toolName == JStr("Bash") && command.JStr? && command.s != "" {
      var ignored := fs.ReadText(cwd + [".claude", "ignored-bash.txt"]);
      if Ignored(command.s, ignored) {
        return None;
      }
    }
    handedOver := CollectClaudeMdFiles(fs, toolInput, cwd, home, processCwd);
  }

  // ---------------------------------------------------------------- the background validator

  /** A Bash command as it is logged: at most 60 characters, then `...` when it was longer. */
  function ShownCommand(command: string): (shown: string)
    ensures |shown| <= 63
    ensures |command| <= 60 ==> shown == command
    ensures |command| > 60 ==> shown == command[..60] + "..."
  {
    if |command| > 60 then command[..60] + "..." else command
  }

  /** The log line announcing a validation: the tool, then the (shortened) command or the file. */
  function LogDetail(toolName: Json, toolInput: Json): (line: string)
    ensures "Validating " + ToJsString(toolName) <= line
  {
    var command := Field(toolInput, "command");
    var filePath := Field(toolInput, "file_path");
    "Validating " + ToJsString(toolName) +
      if toolName == JStr("Bash") && Truthy(command) then ": " + ShownCommand(ToJsString(command))
      else if Truthy(filePath) then ": " + ToJsString(filePath)
      else ""
  }

  /** How the trimmed verdict of the validator is read. */
  datatype Verdict = Violation | AutoFixed | Passed | Unexpected

  function Classify(result: string): Verdict
  {
    if "FAIL" <= result then Violation
    else if "FIXED" <= result then AutoFixed
    else if result == "PASS" then Passed
    else Unexpected
  }

  /** `FAIL: <summary>` reads as a violation, whatever white space surrounds it. */
  lemma FailVerdict(summary: string)
    ensures Classify(Trim("FAIL: " + summary)) == Violation
  {
    TrimKeepsPrefix("FAIL: ", summary, 4);
    ClassifyFail(Trim("FAIL: " + summary));
  }

  /** `FIXED: <description>` reads as an automatic fix. */
  lemma FixedVerdict(description: string)
    ensures Classify(Trim("FIXED: " + description)) == AutoFixed
  {
    TrimKeepsPrefix("FIXED: ", description, 5);
    ClassifyFixed(Trim("FIXED: " + description));
  }

  /**
   * `SKIP: <command>`, the verdict the validator is told to give after adding a command to
   * ignored-bash.txt, is logged as unexpected.
   */
  lemma SkipVerdict(command: string)
    ensures Classify(Trim("SKIP: " + command)) == Unexpected
  {
    TrimKeepsPrefix("SKIP: ", command, 1);
    ClassifySkip(Trim("SKIP: " + command));
  }

  /** Only the exact word `PASS` is a pass: anything after it makes the verdict unexpected. */
  lemma PassVerdict(rest: string)
    ensures Classify("PASS" + rest) == Passed <==> rest == ""
    ensures Classify("PASS" + rest) != Violation && Classify("PASS" + rest) != AutoFixed
  {
    var v := "PASS" + rest;
    assert v[0] == 'P';
    if rest != "" {
      assert |v| > 4;
    }
  }

  lemma ClassifyFail(result: string)
    requires 4 <= |result| && result[..4] == "FAIL: "[..4]
    ensures Classify(result) == Violation
  {
  }

  lemma ClassifyFixed(result: string)
    requires 5 <= |result| && result[..5] == "FIXED: "[..5]
    ensures Classify(result) == AutoFixed
  {
    assert result[1] == 'I';
  }

  lemma ClassifySkip(result: string)
    requires 1 <= |result| && result[..1] == "SKIP: "[..1]
    ensures Classify(result) == Unexpected
  {
    assert result[0] == 'S';
  }
}
