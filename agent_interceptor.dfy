/**
 * `agent-interceptor.js`: the PreToolUse hook that turns every `Task` call into a background
 * agent run. It writes the run's log and runner script under `~/.claude/agent-responses`,
 * records the runner's pid in the registry there, and denies the call with a message naming
 * the log.
 */
module AgentInterceptor {
  import opened Common
  import opened Strings
  import opened JsonValues
  import opened Paths
  import opened Files
  import opened LogHeader
  import opened HookOutput
  import opened Frontmatter
  import opened RegistryManager

  // ---------------------------------------------------------------- gate

  /** The hook goes on only for non-blank input that parses to a call of the `Task` tool. */
  predicate Proceeds(input: HookInput)
  {
    !Blank(input) && input.parsed.Some? && Get(input.parsed.value, "tool_name") == Some(JStr("Task"))
  }

  // ---------------------------------------------------------------- agent id

  const AgentIdPrefix: string := "agent_"

  /**
   * The agent id for the draw `Math.floor(Math.random() * 1000000)`: `agent_` and the draw,
   * zero-padded to six digits.
   */
  function AgentId(draw: nat): (id: string)
    requires draw < 1000000
    ensures |id| == 12 && id[..6] == AgentIdPrefix
    ensures AllDigits(id[6..]) && DigitsValue(id[6..]) == draw
  {
    NatToStringLength(draw, 6);
    PadStartValue(NatToString(draw), 6);
    var digits := PadStart(NatToString(draw), 6, '0');
    var id := AgentIdPrefix + digits;
    assert id[6..] == digits;
    id
  }

  /** Different draws name different agents. */
  lemma AgentIdInjective(a: nat, b: nat)
    requires a < 1000000 && b < 1000000 && a != b
    ensures AgentId(a) != AgentId(b)
  {
    assert DigitsValue(AgentId(a)[6..]) != DigitsValue(AgentId(b)[6..]);
  }

  /** An agent id contains neither `/` nor a line break, so it names one file. */
  lemma AgentIdPlain(draw: nat)
    requires draw < 1000000
    ensures '/' !in AgentId(draw) && '\n' !in AgentId(draw)
    ensures ValidSegment(AgentId(draw) + ".md") && ValidSegment(AgentId(draw) + "_runner.mjs")
  {
    var id := AgentId(draw);
    assert id == id[..6] + id[6..];
    forall i | 0 <= i < |id| ensures id[i] != '/' && id[i] != '\n' {
      if i >= 6 {
        assert id[i] == id[6..][i - 6];
      } else {
        assert id[i] == AgentIdPrefix[i];
      }
    }
    assert (id + ".md")[0] == 'a';
    assert (id + "_runner.mjs")[0] == 'a';
  }

  // ---------------------------------------------------------------- inputs

  /** The `tool_input` fields the hook uses, defaults applied. */
  datatype TaskInput = TaskInput(description: string, prompt: Json, subagentType: string)

  /** `x || fallback` for a field that is then used as text. */
  function TextOr(x: Json, fallback: string): string
  {
    if Truthy(x) then ToJsString(x) else fallback
  }

  /**
   * The description, prompt and subagent type of the call: a missing or falsy field falls back
   * to `Unnamed task`, `''` and `general-purpose`.
   */
  function ReadTaskInput(hook: Json): (t: TaskInput)
    ensures var input := Field(hook, "tool_input");
      && t.description == (if Truthy(Field(input, "description")) then ToJsString(Field(input, "description")) else "Unnamed task")
      && t.prompt == (if Truthy(Field(input, "prompt")) then Field(input, "prompt") else JStr(""))
      && t.subagentType == (if Truthy(Field(input, "subagent_type")) then ToJsString(Field(input, "subagent_type")) else "general-purpose")
  {
    var input := Field(hook, "tool_input");
    var prompt := Field(input, "prompt");
    TaskInput(
      TextOr(Field(input, "description"), "Unnamed task"),
      if Truthy(prompt) then prompt else JStr(""),
      TextOr(Field(input, "subagent_type"), "general-purpose"))
  }

  /** A call that gives no `tool_input` gets all three defaults. */
  lemma DefaultsWithoutToolInput(hook: Json)
    requires Get(hook, "tool_input").None?
    ensures ReadTaskInput(hook) == TaskInput("Unnamed task", JStr(""), "general-purpose")
  {
  }

  // ---------------------------------------------------------------- output style

  /**
   * The output style read from the subagent's definition file: the trimmed body after its
   * frontmatter, or the whole trimmed file when it has none; `None` when there is no file.
   */
  function OutputStyle(agentFile: Option<string>): (style: Option<string>)
    ensures style.Some? <==> agentFile.Some?
    ensures style.Some? ==> Contains(agentFile.value, style.value)
  {
    match agentFile
    case None => None
    case Some(text) =>
      match SplitFrontmatter(text)
      case Some(x) =>
        ContainsAfter(Open + x.frontmatter + Close, x.body, Trim(x.body));
        Some(Trim(x.body))
      case None => Some(Trim(text))
  }

  /** A definition file with frontmatter contributes the trimmed body only. */
  lemma StyleOfDefinition(x: Sections)
    requires EndsAtFirstClose(x.frontmatter)
    ensures OutputStyle(Some(Compose(x))) == Some(Trim(x.body))
  {
    SplitCompose(x);
  }

  /** A definition file that does not open with `---` contributes all of its trimmed text. */
  lemma StyleWithoutFrontmatter(text: string)
    requires !(Open <= text)
    ensures OutputStyle(Some(text)) == Some(Trim(text))
  {
  }

  // ---------------------------------------------------------------- files

  const DotClaude: string := ".claude"
  const ResponsesDirName: string := "agent-responses"
  const AgentsDefinitionsDirName: string := "agents"
  const RegistryName: string := ".active-pids.json"

  datatype InterceptorFiles = InterceptorFiles(agentsDir: Path, logPath: Path, scriptPath: Path, registryPath: Path)

  lemma FixedNamesAreSegments()
    ensures ValidSegment(DotClaude) && ValidSegment(ResponsesDirName)
    ensures ValidSegment(AgentsDefinitionsDirName) && ValidSegment(RegistryName)
  {
    assert forall i | 0 <= i < |DotClaude| :: DotClaude[i] != '/';
    assert forall i | 0 <= i < |ResponsesDirName| :: ResponsesDirName[i] != '/';
    assert forall i | 0 <= i < |AgentsDefinitionsDirName| :: AgentsDefinitionsDirName[i] != '/';
    assert forall i | 0 <= i < |RegistryName| :: RegistryName[i] != '/';
  }

  /**
   * Where a run's files go: all of them in `<home>/.claude/agent-responses`, the log as
   * `<id>.md`, the runner as `<id>_runner.mjs`, the registry as `.active-pids.json`.
   */
  function FilesOf(home: Path, agentId: string): (f: InterceptorFiles)
    requires ValidPath(home)
    ensures f.agentsDir == home + [DotClaude, ResponsesDirName] && ValidPath(f.agentsDir)
    ensures ValidSegment(agentId + ".md") ==> f.logPath == f.agentsDir + [agentId + ".md"]
    ensures ValidSegment(agentId + "_runner.mjs") ==> f.scriptPath == f.agentsDir + [agentId + "_runner.mjs"]
    ensures f.registryPath == f.agentsDir + [RegistryName]
  {
    FixedNamesAreSegments();
    var dir := home + [DotClaude, ResponsesDirName];
    JoinPlain(dir, agentId + ".md");
    JoinPlain(dir, agentId + "_runner.mjs");
    JoinSegment(dir, RegistryName);
    InterceptorFiles(dir, JoinRelative(dir, agentId + ".md"), JoinRelative(dir, agentId + "_runner.mjs"),
      JoinRelative(dir, RegistryName))
  }

  lemma JoinPlain(dir: Path, name: string)
    requires ValidPath(dir)
    ensures ValidSegment(name) ==> JoinRelative(dir, name) == dir + [name]
  {
    if ValidSegment(name) {
      JoinSegment(dir, name);
    }
  }

  /** `<home>/.claude/agents/<subagentType>.md`, the subagent's definition file. */
  function DefinitionPath(home: Path, subagentType: string): Path
    requires ValidPath(home)
  {
    FixedNamesAreSegments();
    JoinRelative(home + [DotClaude, AgentsDefinitionsDirName], subagentType + ".md")
  }

  // ---------------------------------------------------------------- log

  /** The initial log: the header block with Task, Instructions, Started and the in-progress status. */
  function InterceptorLog(task: TaskInput, startedAt: string): string
  {
    Join(HeaderLines(task.description, ToJsString(task.prompt), startedAt, []), "\n")
  }

  /** The initial log is read as in progress, and its status line is the one runners rewrite. */
  lemma InterceptorLogInProgress(task: TaskInput, startedAt: string)
    requires !Contains(task.description, StatusPrefix) && !Contains(ToJsString(task.prompt), StatusPrefix)
    requires !Contains(startedAt, StatusPrefix)
    ensures var log := InterceptorLog(task, startedAt);
      HeaderAt(log, |Opening(task.description, ToJsString(task.prompt), startedAt)|)
      && StatusToken(log) == Some(InProgress)
  {
    HeaderInProgress(task.description, ToJsString(task.prompt), startedAt, []);
  }

  /** With single-line inputs the log has exactly the eight header lines. */
  lemma InterceptorLogLines(task: TaskInput, startedAt: string)
    requires '\n' !in task.description && '\n' !in ToJsString(task.prompt) && '\n' !in startedAt
    ensures Split(InterceptorLog(task, startedAt), '\n')
      == ["---", "Task: " + task.description, "Instructions: " + ToJsString(task.prompt),
          "Started: " + startedAt, InProgressLine, "---", "", ""]
  {
    HeaderShape(task.description, ToJsString(task.prompt), startedAt, []);
  }

  // ---------------------------------------------------------------- registry

  /**
   * The registry written after `registry[agentId] = pid`, or `None` when the assignment
   * throws (a `null` registry). A missing pid is `undefined`, which `JSON.stringify` drops;
   * on an array or a primitive the assignment leaves no trace in the written JSON.
   */
  function RegistryAfterInsert(file: Option<Doc>, agentId: string, pid: Option<int>): (r: Option<Json>)
    ensures r.None? <==> LoadRegistry(file).JNull?
    ensures r.Some? && LoadRegistry(file).JObj? ==>
      && r.value.JObj?
      && Get(r.value, agentId) == (if pid.Some? then Some(JNum(pid.value)) else None)
      && forall k :: k != agentId ==> Get(r.value, k) == Get(LoadRegistry(file), k)
    ensures r.Some? && !LoadRegistry(file).JObj? ==> r.value == LoadRegistry(file)
  {
    var registry := LoadRegistry(file);
    if registry.JNull? then None
    else if registry.JObj? then
      Some(JObj(if pid.Some? then Upsert(registry.members, agentId, JNum(pid.value)) else Delete(registry.members, agentId)))
    else Some(registry)
  }

  /** An unreadable registry restarts from `{}`: afterwards it holds the new agent alone. */
  lemma FreshRegistry(agentId: string, pid: int)
    ensures RegistryAfterInsert(None, agentId, Some(pid)) == Some(JObj([Member(agentId, JNum(pid))]))
    ensures RegistryAfterInsert(Some(Garbled), agentId, Some(pid)) == Some(JObj([Member(agentId, JNum(pid))]))
  {
  }

  // ---------------------------------------------------------------- reply

  /** The reason the hook gives for denying the call. */
  function InterceptReason(displayPath: string, agentId: string): string
  {
    "Delegated to agent. Response logged to: @" + displayPath
      + "\n\nA hook will alert when complete. To wait: `./wait-for-agent.sh " + agentId
      + "` (or `--watch` for first update)."
  }

  /** The reply: always a denial, naming the log relative to the caller's working directory. */
  function InterceptReply(cwd: Path, logPath: Path, agentId: string): (reply: Json)
    ensures DecisionOf(reply) == Some(JStr("deny"))
    ensures ReasonOf(reply) == Some(JStr(InterceptReason(Relative(cwd, logPath), agentId)))
  {
    ReadReply("deny", InterceptReason(Relative(cwd, logPath), agentId));
    PreToolUseReply("deny", InterceptReason(Relative(cwd, logPath), agentId))
  }

  /** Called from the home directory, the reply names `.claude/agent-responses/<id>.md`. */
  lemma ReplyFromHome(home: Path, agentId: string)
    requires ValidPath(home) && ValidSegment(agentId + ".md")
    ensures Relative(home, FilesOf(home, agentId).logPath)
      == DotClaude + "/" + (ResponsesDirName + "/" + (agentId + ".md"))
  {
    FixedNamesAreSegments();
    var name := agentId + ".md";
    var tail := [ResponsesDirName, name];
    var rest := [DotClaude] + tail;
    assert (home + [DotClaude, ResponsesDirName]) + [name] == home + rest;
    RelativeBelow(home, rest);
    assert rest[1..] == tail && tail[1..] == [name];
    assert Join(tail, "/") == ResponsesDirName + "/" + name;
    assert Join(rest, "/") == DotClaude + "/" + Join(tail, "/");
  }

  /** The caller's `cwd` field resolved as a path; `path.relative` throws on anything but a string. */
  function CwdOf(hook: Json, processCwd: Path): (cwd: Option<Path>)
    requires ValidPath(processCwd)
    ensures cwd.Some? <==> Field(hook, "cwd").JStr?
  {
    var c := Field(hook, "cwd");
    if c.JStr? then Some(ResolvePath(processCwd, c.s)) else None
  }

  // ---------------------------------------------------------------- the hook

  /**
   * One run of the hook on `input`. `draw` is the random agent number, `startedAt` the clock,
   * `pid` the pid the spawn returned (`None` for `undefined`), `processCwd` the hook's own
   * working directory. The result is the reply printed, `None` when nothing is printed.
   */
  method Intercept(fs: FileSystem, home: Path, processCwd: Path, input: HookInput, draw: nat, startedAt: string, pid: Option<int>)
    returns (reply: Option<Json>)
    requires ValidPath(home) && ValidPath(processCwd) && draw < 1000000
    modifies fs
    ensures !Proceeds(input) ==>
      reply.None? && fs.texts == old(fs.texts) && fs.docs == old(fs.docs) && fs.programs == old(fs.programs)
    ensures Proceeds(input) ==> RunStarted(old(fs.texts), old(fs.docs), old(fs.programs), fs.texts, fs.docs, fs.programs,
      reply, home, processCwd, input.parsed.value, AgentId(draw), startedAt, pid)
  {
    reply := None;
    if Blank(input) || input.parsed.None? {
      return;
    }
    var hook := input.parsed.value;
    if Get(hook, "tool_name") != Some(JStr("Task")) {
      return;
    }
    reply := StartRun(fs, home, processCwd, hook, AgentId(draw), startedAt, pid);
  }

  /**
   * What a run that passed the gate leaves behind: the initial log, the runner script, the
   * registry with the new pid (unless the assignment threw), and the reply (unless a throw
   * came first).
   */
  predicate RunStarted(
    texts: map<Path, string>, docs: map<Path, Doc>, programs: map<Path, Program>,
    texts': map<Path, string>, docs': map<Path, Doc>, programs': map<Path, Program>,
    reply: Option<Json>, home: Path, processCwd: Path, hook: Json, id: string, startedAt: string, pid: Option<int>)
    requires ValidPath(home) && ValidPath(processCwd)
  {
    && RunFilesWritten(texts, programs, texts', programs', home, hook, id, startedAt)
    && var files := FilesOf(home, id);
       PidRecorded(docs, docs', reply, files.registryPath, files.logPath, CwdOf(hook, processCwd), id, pid)
  }

  /** The initial log and the runner script are written; the style comes from the old files. */
  predicate RunFilesWritten(
    texts: map<Path, string>, programs: map<Path, Program>,
    texts': map<Path, string>, programs': map<Path, Program>,
    home: Path, hook: Json, id: string, startedAt: string)
    requires ValidPath(home)
  {
    var files := FilesOf(home, id);
    var task := ReadTaskInput(hook);
    var definitionPath := DefinitionPath(home, task.subagentType);
    var style := OutputStyle(if definitionPath in texts then Some(texts[definitionPath]) else None);
    && texts' == texts[files.logPath := InterceptorLog(task, startedAt)]
    && programs' == programs[files.scriptPath := EmbeddedRunner(files.logPath, task.prompt, Field(hook, "cwd"), style, files.scriptPath)]
  }

  /** The registry gets the pid unless the assignment throws; the reply follows unless `cwd` is unusable. */
  predicate PidRecorded(
    docs: map<Path, Doc>, docs': map<Path, Doc>, reply: Option<Json>,
    registryPath: Path, logPath: Path, cwd: Option<Path>, id: string, pid: Option<int>)
  {
    var registry := RegistryAfterInsert(if registryPath in docs then Some(docs[registryPath]) else None, id, pid);
    && docs' == (if registry.Some? then docs[registryPath := Parsed(registry.value)] else docs)
    && reply == (if registry.Some? && cwd.Some? then Some(InterceptReply(cwd.value, logPath, id)) else None)
  }

  /** The hook's work once the call passed the gate. */
  method StartRun(fs: FileSystem, home: Path, processCwd: Path, hook: Json, id: string, startedAt: string, pid: Option<int>)
    returns (reply: Option<Json>)
    requires ValidPath(home) && ValidPath(processCwd)
    modifies fs
    ensures RunStarted(old(fs.texts), old(fs.docs), old(fs.programs), fs.texts, fs.docs, fs.programs,
      reply, home, processCwd, hook, id, startedAt, pid)
  {
    WriteRunFiles(fs, home, hook, id, startedAt);
    var files := FilesOf(home, id);
    reply := RecordPid(fs, files.registryPath, files.logPath, CwdOf(hook, processCwd), id, pid);
  }

  /** Writing the initial log and the runner script. */
  method WriteRunFiles(fs: FileSystem, home: Path, hook: Json, id: string, startedAt: string)
    requires ValidPath(home)
    modifies fs
    ensures RunFilesWritten(old(fs.texts), old(fs.programs), fs.texts, fs.programs, home, hook, id, startedAt)
    ensures fs.docs == old(fs.docs)
  {
    var files := FilesOf(home, id);
    var task := ReadTaskInput(hook);
    var style := OutputStyle(fs.ReadText(DefinitionPath(home, task.subagentType)));
    fs.WriteText(files.logPath, InterceptorLog(task, startedAt));
    fs.WriteProgram(files.scriptPath, EmbeddedRunner(files.logPath, task.prompt, Field(hook, "cwd"), style, files.scriptPath));
  }

  /** `registry[agentId] = pid`, the registry write, and the reply. */
  method RecordPid(fs: FileSystem, registryPath: Path, logPath: Path, cwd: Option<Path>, id: string, pid: Option<int>)
    returns (reply: Option<Json>)
    modifies fs
    ensures PidRecorded(old(fs.docs), fs.docs, reply, registryPath, logPath, cwd, id, pid)
    ensures fs.texts == old(fs.texts) && fs.programs == old(fs.programs)
  {
    reply := None;
    var registry := RegistryAfterInsert(fs.ReadDoc(registryPath), id, pid);
    if registry.Some? {
      fs.WriteDoc(registryPath, registry.value);
      if cwd.Some? {
        reply := Some(InterceptReply(cwd.value, logPath, id));
      }
    }
  }
}
