/**
 * The helpers that prepare an agent run: choosing the runner for a model, the files of the
 * run, the initial log, the reply that blocks the Task tool, and what each runner is given
 * when it is started.
 */
module SpawnHelpers {
  import opened Common
  import opened Strings
  import opened JsonValues
  import opened Paths
  import opened Files
  import opened LogHeader
  import opened HookOutput

  // ---------------------------------------------------------------- model choice

  /** The Claude runner is chosen for no model, or for a name of the Sonnet, Opus, Haiku or Claude families. */
  predicate IsAnthropicModel(model: Option<string>)
  {
    model.None? || model.value == "" ||
    var m := ToLower(model.value);
    "sonnet" <= m || "opus" <= m || "haiku" <= m || Contains(m, "claude")
  }

  lemma LowerCharIdempotent(c: char)
    ensures LowerChar(LowerChar(c)) == LowerChar(c)
  {
  }

  /** The choice of runner does not depend on the case of the model name. */
  lemma AnthropicModelIgnoresCase(name: string)
    ensures IsAnthropicModel(Some(ToLower(name))) == IsAnthropicModel(Some(name))
  {
    forall i | 0 <= i < |name| ensures ToLower(ToLower(name))[i] == ToLower(name)[i] {
      LowerCharIdempotent(name[i]);
    }
    assert ToLower(ToLower(name)) == ToLower(name);
  }

  /** A few names and the runner they select. */
  lemma AnthropicModelExamples()
    ensures IsAnthropicModel(None) && IsAnthropicModel(Some(""))
    ensures IsAnthropicModel(Some("Opus")) && IsAnthropicModel(Some("my-claude-model"))
    ensures !IsAnthropicModel(Some("gpt-5"))
  {
    assert ToLower("Opus") == "opus";
    var m := ToLower("my-claude-model");
    assert m == "my-claude-model";
    assert OccursAt(m, "claude", 3);
    var g := ToLower("gpt-5");
    assert g == "gpt-5";
    assert g[0] == 'g';
    assert !("sonnet" <= g) && !("opus" <= g) && !("haiku" <= g);
    assert !Contains(g, "claude");
  }

  // ---------------------------------------------------------------- files of a run

  datatype AgentFiles = AgentFiles(agentsDir: Path, logPath: Path, registryPath: Path)

  const AgentsDirName: string := "agent-responses"
  const RegistryFileName: string := ".active-pids.json"

  lemma FixedNamesAreSegments()
    ensures ValidSegment(AgentsDirName) && ValidSegment(RegistryFileName)
  {
    assert '/' !in AgentsDirName by {
      forall i | 0 <= i < |AgentsDirName| ensures AgentsDirName[i] != '/' {}
    }
    assert '/' !in RegistryFileName by {
      forall i | 0 <= i < |RegistryFileName| ensures RegistryFileName[i] != '/' {}
    }
  }

  /** `setupAgentEnvironment`'s paths: `<cwd>/agent-responses/<agentId>.md` and `.active-pids.json`. */
  function AgentPaths(cwd: Path, agentId: string): (f: AgentFiles)
    requires ValidPath(cwd)
    ensures f.agentsDir == cwd + [AgentsDirName]
    ensures f.registryPath == f.agentsDir + [RegistryFileName]
    ensures ValidSegment(agentId + ".md") ==> f.logPath == f.agentsDir + [agentId + ".md"]
  {
    FixedNamesAreSegments();
    JoinSegment(cwd, AgentsDirName);
    var dir := cwd + [AgentsDirName];
    JoinSegment(dir, RegistryFileName);
    assert ValidSegment(agentId + ".md") ==> JoinRelative(dir, agentId + ".md") == dir + [agentId + ".md"] by {
      if ValidSegment(agentId + ".md") {
        JoinSegment(dir, agentId + ".md");
      }
    }
    AgentFiles(dir, JoinRelative(dir, agentId + ".md"), JoinRelative(dir, RegistryFileName))
  }

  /**
   * `setupAgentEnvironment`: the paths of the run, and the `await` script copied from
   * `~/.claude/await` into the agents directory when it exists (a failed copy is ignored).
   */
  method SetupAgentEnvironment(fs: FileSystem, home: Path, cwd: Path, agentId: string) returns (f: AgentFiles)
    requires ValidPath(cwd)
    modifies fs
    ensures f == AgentPaths(cwd, agentId)
    ensures var source := home + [".claude", "await"];
      fs.programs == if source in old(fs.programs)
        then old(fs.programs)[f.agentsDir + ["await"] := old(fs.programs)[source]]
        else old(fs.programs)
    ensures fs.texts == old(fs.texts) && fs.docs == old(fs.docs)
  {
    f := AgentPaths(cwd, agentId);
    var source := home + [".claude", "await"];
    if source in fs.programs {
      fs.WriteProgram(f.agentsDir + ["await"], fs.programs[source]);
    }
  }

  // ---------------------------------------------------------------- the initial log

  /** `parentAgentId || 'root'`. */
  function ParentLabel(parent: Option<string>): (name: string)
    ensures parent.None? || parent.value == "" ==> name == "root"
    ensures parent.Some? && parent.value != "" ==> name == parent.value
  {
    if parent.None? || parent.value == "" then "root" else parent.value
  }

  /** The lines of `writeInitialLog`'s text: the header with its Depth and ParentAgent lines. */
  function InitialLogLines(description: string, prompt: string, startedAt: string, depth: int, parent: Option<string>): seq<string>
  {
    HeaderLines(description, prompt, startedAt, ["Depth: " + IntToString(depth), "ParentAgent: " + ParentLabel(parent)])
  }

  /** `writeInitialLog`'s text. */
  function InitialLog(description: string, prompt: string, startedAt: string, depth: int, parent: Option<string>): string
  {
    Join(InitialLogLines(description, prompt, startedAt, depth, parent), "\n")
  }

  /**
   * The initial log is the `---` block of Task, Instructions, Started, Status, Depth and
   * ParentAgent lines, a closing `---` and a blank line: split at its newlines it gives back
   * these ten lines, when the texts put into it are single lines.
   */
  lemma InitialLogShape(description: string, prompt: string, startedAt: string, depth: int, parent: Option<string>)
    requires '\n' !in description && '\n' !in prompt && '\n' !in startedAt
    requires parent.Some? ==> '\n' !in parent.value
    ensures Split(InitialLog(description, prompt, startedAt, depth, parent), '\n')
         == InitialLogLines(description, prompt, startedAt, depth, parent)
  {
    var d := IntToString(depth);
    assert '\n' !in d by {
      forall i | 0 <= i < |d| ensures d[i] != '\n' {
        assert d[i] == '-' || IsDigit(d[i]);
      }
    }
    var extra := ["Depth: " + d, "ParentAgent: " + ParentLabel(parent)];
    assert '\n' !in extra[0] && '\n' !in extra[1];
    HeaderShape(description, prompt, startedAt, extra);
  }

  /**
   * When the task's texts do not mention `Status: `, the monitor reads the initial log as
   * `in-progress`, and the runners' rewrite applies to its header line.
   */
  lemma InitialLogInProgress(description: string, prompt: string, startedAt: string, depth: int, parent: Option<string>)
    requires !Contains(description, StatusPrefix) && !Contains(prompt, StatusPrefix)
    requires !Contains(startedAt, StatusPrefix)
    ensures HeaderAt(InitialLog(description, prompt, startedAt, depth, parent), |Opening(description, prompt, startedAt)|)
    ensures StatusToken(InitialLog(description, prompt, startedAt, depth, parent)) == Some(InProgress)
  {
    HeaderInProgress(description, prompt, startedAt, ["Depth: " + IntToString(depth), "ParentAgent: " + ParentLabel(parent)]);
  }

  // ---------------------------------------------------------------- the reply

  /** The first line of `createDelegationMessage`'s reason. */
  function DelegationHeadline(relativePath: string): string
  {
    "Delegated to an agent. Response logged to @" + relativePath + " in real time."
  }

  /** `createDelegationMessage`'s reason, for the log named `relativePath` from the working directory. */
  function DelegationReason(relativePath: string, agentId: string): string
  {
    DelegationHeadline(relativePath) + "\n\n"
      + "A hook will alert you (not the user) on updates and when complete. To sleep until completion you must run `./agent-responses/await "
      + agentId + "`. *The user cannot monitor progress or see updates themselves\U{2014}you must either await this task _or_ perform other work until the agent is complete.* "
      + "If this task is not-blocking, do not await it\U{2014}perform other work until the agent is complete. Don't worry\U{2014}you'll receive updates as it completes."
  }

  /** `createDelegationMessage`: the Task call is always denied, and the reason names the log. */
  function CreateDelegationMessage(cwd: Path, logPath: Path, agentId: string): (reply: Json)
    ensures DecisionOf(reply) == Some(JStr("deny"))
    ensures ReasonOf(reply) == Some(JStr(DelegationReason(Relative(cwd, logPath), agentId)))
  {
    ReadReply("deny", DelegationReason(Relative(cwd, logPath), agentId));
    PreToolUseReply("deny", DelegationReason(Relative(cwd, logPath), agentId))
  }

  /** Seen from the working directory, the log of a run is `agent-responses/<agentId>.md`. */
  lemma LogRelativeToCwd(cwd: Path, agentId: string)
    requires ValidPath(cwd) && ValidSegment(agentId + ".md")
    ensures Relative(cwd, AgentPaths(cwd, agentId).logPath) == AgentsDirName + "/" + (agentId + ".md")
  {
    FixedNamesAreSegments();
    var name := agentId + ".md";
    var rest := [AgentsDirName, name];
    assert (cwd + [AgentsDirName]) + [name] == cwd + rest;
    RelativeBelow(cwd, rest);
    JoinFrom(rest, 0, "/");
    assert rest[0..] == rest && rest[1..] == [agentId + ".md"];
  }

  // ---------------------------------------------------------------- starting the runners

  /** A JSON-valued variable: the text `'null'`, or the text `JSON.stringify` gives for a value. */
  datatype JsonEnv = NullLiteral | Stringified(value: Json)

  /** `x === null ? 'null' : JSON.stringify(x)`. */
  function JsonOrNull(x: Option<Json>): JsonEnv
  {
    if x.None? then NullLiteral else Stringified(x.value)
  }

  /**
   * How the agent script reads such a variable: a missing or empty variable stands for
   * `'null'`, the text `'null'` is `null`, anything else is parsed.
   */
  function ReadJsonEnv(v: Option<JsonEnv>): (r: Option<Json>)
    ensures r.Some? ==> r.value != JNull
  {
    match v
    case None => None
    case Some(NullLiteral) => None
    case Some(Stringified(j)) => if j == JNull then None else Some(j)
  }

  /** An allow-list crosses the environment unchanged: a list stays a list, however short, and null stays null. */
  lemma AllowListRoundTrip(allowed: Option<seq<Json>>)
    ensures ReadJsonEnv(Some(JsonOrNull(if allowed.None? then None else Some(JArr(allowed.value)))))
         == if allowed.None? then None else Some(JArr(allowed.value))
  {
  }

  /** What `spawnClaudeAgent` puts into the Claude runner's environment. */
  datatype ClaudeLaunch = ClaudeLaunch(
    agentId: string,
    agentDepth: string,
    parentPid: string,
    logPath: Path,
    registryPath: Path,
    workingDirectory: Path,
    scriptPath: Path,
    childDepth: string,
    prompt: string,
    outputStyle: string,
    allowedAgents: JsonEnv,
    mcpServers: JsonEnv)

  /** `spawnClaudeAgent`'s environment: both depth variables hold `currentDepth + 1`. */
  function ClaudeRunnerLaunch(
    agentId: string, currentDepth: int, parentPid: int, cwd: Path, logPath: Path, registryPath: Path,
    scriptPath: Path, prompt: string, outputStyle: Option<string>,
    allowedAgents: Option<seq<Json>>, mcpServers: Option<Json>): (l: ClaudeLaunch)
    ensures ParseInt(l.childDepth) == Some(currentDepth + 1) && l.agentDepth == l.childDepth
    ensures ReadJsonEnv(Some(l.allowedAgents)) == if allowedAgents.None? then None else Some(JArr(allowedAgents.value))
    ensures l.outputStyle == if outputStyle.None? then "" else outputStyle.value
  {
    ParseIntToString(currentDepth + 1);
    ClaudeLaunch(agentId, IntToString(currentDepth + 1), IntToString(parentPid), logPath, registryPath, cwd,
      scriptPath, IntToString(currentDepth + 1), prompt, outputStyle.GetOr(""),
      JsonOrNull(if allowedAgents.None? then None else Some(JArr(allowedAgents.value))),
      JsonOrNull(mcpServers))
  }

  /** `outputStyleContent ? style + '\n\n' + prompt : prompt`. */
  function CursorPrompt(outputStyle: Option<string>, prompt: string): (p: string)
    ensures EndsWith(p, prompt)
    ensures outputStyle.Some? && outputStyle.value != "" ==> outputStyle.value + "\n\n" <= p
  {
    if outputStyle.Some? && outputStyle.value != "" then outputStyle.value + "\n\n" + prompt else prompt
  }

  /** `modelName || 'auto'`. */
  function ModelOrAuto(modelName: Option<string>): (m: string)
    ensures m != ""
    ensures modelName.Some? && modelName.value != "" ==> m == modelName.value
  {
    if modelName.Some? && modelName.value != "" then modelName.value else "auto"
  }

  const FixedCursorFlags: seq<string> :=
    ["--print", "--output-format", "stream-json", "--stream-partial-output", "--force", "--model"]

  /**
   * `spawnCursorAgent`'s argument list: the fixed flags and the model, `--api-key` with the
   * trimmed key only when that is not empty, and the prompt last.
   */
  method BuildCursorArgs(modelName: Option<string>, apiKey: Option<string>, prompt: string, outputStyle: Option<string>)
    returns (args: seq<string>)
    ensures var withKey := apiKey.Some? && Trim(apiKey.value) != "";
      |args| == (if withKey then 10 else 8) &&
      args[..6] == FixedCursorFlags && args[6] == ModelOrAuto(modelName) &&
      (withKey ==> args[7] == "--api-key" && args[8] == Trim(apiKey.value)) &&
      args[|args| - 1] == CursorPrompt(outputStyle, prompt)
  {
    args := FixedCursorFlags + [ModelOrAuto(modelName)];
    if apiKey.Some? {
      var key := Trim(apiKey.value);
      if key != "" {
        args := args + ["--api-key", key];
      }
    }
    args := args + [CursorPrompt(outputStyle, prompt)];
  }

  /** `agentLogPath.replace(/\.md$/, '.cursor.ndjson')`. */
  function RawStreamPath(logPath: Path): (p: Path)
    ensures |p| == |logPath| && Dirname(p) == Dirname(logPath)
  {
    if logPath != [] && EndsWith(logPath[|logPath| - 1], ".md") then
      var name := logPath[|logPath| - 1];
      logPath[..|logPath| - 1] + [name[..|name| - 3] + ".cursor.ndjson"]
    else logPath
  }

  /** The raw stream of `<id>.md` is `<id>.cursor.ndjson` beside it. */
  lemma RawStreamOfLog(dir: Path, agentId: string)
    ensures RawStreamPath(dir + [agentId + ".md"]) == dir + [agentId + ".cursor.ndjson"]
  {
    var name := agentId + ".md";
    assert (dir + [name])[|dir|] == name;
    assert name[..|name| - 3] == agentId;
    assert (dir + [name])[..|dir|] == dir;
  }

  /** What `spawnCursorAgent` puts into the Cursor runner's environment. */
  datatype CursorLaunch = CursorLaunch(
    agentId: string,
    agentDepth: string,
    parentPid: string,
    logPath: Path,
    registryPath: Path,
    workingDirectory: Path,
    cursorArgs: seq<string>,
    childDepth: string)

  /**
   * `spawnCursorAgent`: builds the argument list, removes a raw stream left by an earlier
   * run, and returns what the runner is started with.
   */
  method SpawnCursorAgent(
    fs: FileSystem, agentId: string, currentDepth: int, parentPid: int, cwd: Path, logPath: Path,
    registryPath: Path, modelName: Option<string>, apiKey: Option<string>, prompt: string,
    outputStyle: Option<string>) returns (l: CursorLaunch)
    modifies fs
    ensures ParseInt(l.childDepth) == Some(currentDepth + 1) && l.agentDepth == l.childDepth
    ensures |l.cursorArgs| >= 8 && l.cursorArgs[|l.cursorArgs| - 1] == CursorPrompt(outputStyle, prompt)
    ensures l.logPath == logPath && l.registryPath == registryPath && l.workingDirectory == cwd
    ensures var raw := RawStreamPath(logPath);
      fs.texts == old(fs.texts) - {raw} && fs.docs == old(fs.docs) - {raw} && fs.programs == old(fs.programs) - {raw}
  {
    var args := BuildCursorArgs(modelName, apiKey, prompt, outputStyle);
    fs.Unlink(RawStreamPath(logPath));
    ParseIntToString(currentDepth + 1);
    l := CursorLaunch(agentId, IntToString(currentDepth + 1), IntToString(parentPid), logPath, registryPath, cwd,
      args, IntToString(currentDepth + 1));
  }
}
