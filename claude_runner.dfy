/**
 * `claude-runner.js`: the detached process that starts the agent script with `node`, records
 * its pid, finalises the log header when it ends and deletes the script afterwards.
 */
module ClaudeRunner {
  import opened Common
  import opened Strings
  import opened JsonValues
  import opened Paths
  import opened Files
  import opened RunnerCore
  import opened SpawnHelpers

  /** The runner's environment: the shared variables and `CLAUDE_RUNNER_SCRIPT_PATH`. */
  datatype ClaudeEnv = ClaudeEnv(core: RunnerEnv, scriptPath: Option<string>)

  datatype ClaudeConfig = ClaudeConfig(core: RunnerConfig, scriptPath: Path)

  /** The configuration, or `None` (exit code 1, nothing written) when a variable is missing. */
  function ReadClaudeConfig(env: ClaudeEnv, processCwd: Path): (c: Option<ClaudeConfig>)
    requires ValidPath(processCwd)
    ensures c.Some? <==> ReadConfig(env.core, processCwd).Some? && Given(env.scriptPath)
    ensures c.Some? ==>
      c.value.core == ReadConfig(env.core, processCwd).value
      && c.value.scriptPath == ResolvePath(processCwd, env.scriptPath.value)
  {
    match ReadConfig(env.core, processCwd)
    case Some(core) =>
      if Given(env.scriptPath) then Some(ClaudeConfig(core, ResolvePath(processCwd, env.scriptPath.value))) else None
    case None => None
  }

  /** How the agent script is started: `node <script>` in the working directory, with its id and depth. */
  datatype NodeSpawn = NodeSpawn(script: Path, cwd: Path, agentId: string, agentDepth: string)

  function SpawnOf(c: ClaudeConfig): NodeSpawn
  {
    NodeSpawn(c.scriptPath, c.core.workingDirectory, c.core.agentId, IntToString(c.core.childDepth))
  }

  /** The variables a launch sets, as the runner finds them: every path is passed as its text. */
  function EnvOfLaunch(l: ClaudeLaunch): ClaudeEnv
  {
    ClaudeEnv(
      RunnerEnv(Some(l.agentId), Some(Render(l.logPath)), Some(Render(l.registryPath)),
        Some(Render(l.workingDirectory)), Some(l.childDepth)),
      Some(Render(l.scriptPath)))
  }

  /**
   * What `spawnClaudeAgent` hands over is what the runner reads back, from whatever directory
   * it runs in: the same id and files, and the agent script is started at the depth the
   * spawner computed.
   */
  lemma LaunchReadBack(
    agentId: string, currentDepth: int, parentPid: int, cwd: Path, logPath: Path, registryPath: Path,
    scriptPath: Path, prompt: string, outputStyle: Option<string>,
    allowedAgents: Option<seq<Json>>, mcpServers: Option<Json>, processCwd: Path)
    requires agentId != "" && currentDepth + 1 != 0
    requires ValidPath(cwd) && ValidPath(logPath) && ValidPath(registryPath) && ValidPath(scriptPath)
    requires ValidPath(processCwd)
    ensures var l := ClaudeRunnerLaunch(agentId, currentDepth, parentPid, cwd, logPath, registryPath,
                                        scriptPath, prompt, outputStyle, allowedAgents, mcpServers);
      var c := ReadClaudeConfig(EnvOfLaunch(l), processCwd);
      c == Some(ClaudeConfig(RunnerConfig(agentId, logPath, registryPath, cwd, currentDepth + 1), scriptPath))
      && SpawnOf(c.value) == NodeSpawn(scriptPath, cwd, agentId, l.agentDepth)
  {
    var l := ClaudeRunnerLaunch(agentId, currentDepth, parentPid, cwd, logPath, registryPath,
                                scriptPath, prompt, outputStyle, allowedAgents, mcpServers);
    assert l.agentId == agentId && l.logPath == logPath && l.registryPath == registryPath;
    assert l.workingDirectory == cwd && l.scriptPath == scriptPath;
    assert l.childDepth == IntToString(currentDepth + 1);
    var env := EnvOfLaunch(l);
    ReadRenderedConfig(agentId, logPath, registryPath, cwd, l.childDepth, currentDepth + 1, processCwd);
    ResolveRendered(processCwd, scriptPath);
    var core := RunnerConfig(agentId, logPath, registryPath, cwd, currentDepth + 1);
    assert ReadConfig(env.core, processCwd) == Some(core);
    assert ReadClaudeConfig(env, processCwd) == Some(ClaudeConfig(core, scriptPath));
  }

  /** A configured runner: the shared supervisor and the script it deletes. */
  class Runner {
    const sup: Supervisor
    const scriptPath: Path

    constructor(fs: FileSystem, c: ClaudeConfig)
      ensures sup.fs == fs && sup.agentId == c.core.agentId && sup.logPath == c.core.logPath
      ensures sup.registryPath == c.core.registryPath && sup.pidKey == "nodePid" && sup.launcher == "node"
      ensures !sup.processExited && scriptPath == c.scriptPath
      ensures fresh(sup)
    {
      sup := new Supervisor(fs, c.core.agentId, c.core.logPath, c.core.registryPath, "nodePid", "node");
      scriptPath := c.scriptPath;
    }

    /**
     * The child's `exit` event: the shared finalisation, then the script is deleted, unless
     * reading a missing log threw and cut the handler short.
     */
    method OnExit(code: Option<int>, signal: Option<string>, endTime: string, crash: string) returns (threw: bool)
      modifies sup, sup.fs
      ensures sup.processExited
      ensures var e := ExitEffect(old(sup.processExited), old(sup.fs.ReadText(sup.logPath)), code, signal, endTime, crash);
        var texts := Applied(old(sup.fs.texts), sup.logPath, e);
        threw == e.threw
        && sup.fs.texts == (if threw then texts else texts - {scriptPath})
        && sup.fs.docs == (if threw then old(sup.fs.docs) else old(sup.fs.docs) - {scriptPath})
        && sup.fs.programs == (if threw then old(sup.fs.programs) else old(sup.fs.programs) - {scriptPath})
      ensures !threw ==> scriptPath !in sup.fs.programs
    {
      threw := sup.OnExit(code, signal, endTime, crash);
      if !threw {
        sup.fs.Unlink(scriptPath);
      }
    }

    /** The child's `close` event: the shared one, the script is left alone. */
    method OnClose(code: Option<int>, signal: Option<string>, endTime: string, crash: string) returns (threw: bool)
      modifies sup, sup.fs
      ensures var e := if code != Some(0) then FailureEffect(old(sup.processExited), old(sup.fs.ReadText(sup.logPath)), code, signal, endTime, crash)
                       else Effect(old(sup.fs.ReadText(sup.logPath)), false);
        sup.fs.texts == Applied(old(sup.fs.texts), sup.logPath, e) && threw == e.threw
      ensures sup.fs.docs == old(sup.fs.docs) && sup.fs.programs == old(sup.fs.programs)
    {
      threw := sup.OnClose(code, signal, endTime, crash);
    }
  }

  /**
   * The runner up to the point where it waits for its child: exit 1 with nothing written when
   * the configuration is incomplete; otherwise a runner for it whose spawn, described by
   * `SpawnOf`, ended as `spawn`, with the supervisor's launch handling applied.
   */
  method Start(fs: FileSystem, env: ClaudeEnv, processCwd: Path, spawn: SpawnResult, endTime: string)
    returns (runner: Runner?, exitCode: Option<int>)
    requires ValidPath(processCwd)
    modifies fs
    ensures ReadClaudeConfig(env, processCwd).None? ==>
      runner == null && exitCode == Some(1)
      && fs.texts == old(fs.texts) && fs.docs == old(fs.docs) && fs.programs == old(fs.programs)
    ensures ReadClaudeConfig(env, processCwd).Some? ==>
      var c := ReadClaudeConfig(env, processCwd).value;
      runner != null && fresh(runner) && fresh(runner.sup)
      && runner.sup.fs == fs && runner.sup.agentId == c.core.agentId && runner.sup.logPath == c.core.logPath
      && runner.sup.registryPath == c.core.registryPath && runner.scriptPath == c.scriptPath
      && runner.sup.pidKey == "nodePid" && runner.sup.launcher == "node" && !runner.sup.processExited
      && (exitCode.Some? <==> !spawn.Spawned?)
      && (exitCode.Some? ==> exitCode.value == 1)
      && (!spawn.Spawned? ==>
        var message := if spawn.SpawnThrew? then "Error spawning " + "node" + ": " + spawn.message
                       else "Failed to spawn " + "node" + ": no PID returned.";
        fs.texts == old(fs.texts)[c.core.logPath := LogHeader.UpdateFrontmatter(
          old(fs.ReadText(c.core.logPath)).GetOr("") + ErrorSection(message), "failed", endTime)]
        && fs.docs == old(fs.docs))
      && (spawn.Spawned? ==>
        var r := RegistryAfterRunnerPid(old(fs.ReadDoc(c.core.registryPath)), c.core.agentId, spawn.pid, "nodePid");
        fs.texts == old(fs.texts)
        && fs.docs == if r.Some? then old(fs.docs)[c.core.registryPath := Parsed(r.value)] else old(fs.docs))
      && fs.programs == old(fs.programs)
  {
    var config := ReadClaudeConfig(env, processCwd);
    if config.None? {
      return null, Some(1);
    }
    runner := new Runner(fs, config.value);
    exitCode := runner.sup.Launched(spawn, endTime);
  }
}
