/**
 * What `claude-runner.js` and `cursor-runner.js` share, line for line: reading their
 * configuration from the environment, recording the child's pid in the registry, and the
 * state machine that finalises the log header once the child ends.
 */
module RunnerCore {
  import opened Common
  import opened Strings
  import opened JsonValues
  import opened Paths
  import opened Files
  import opened LogHeader
  import opened RegistryManager

  // ---------------------------------------------------------------- configuration

  /** An environment variable that is set and not empty. */
  predicate Given(v: Option<string>)
  {
    v.Some? && v.value != ""
  }

  /**
   * `parseInt(env || '1', 10) || 1`: the depth handed to the child. An unset, empty,
   * unparsable or zero value gives 1.
   */
  function RunnerChildDepth(env: Option<string>): (d: int)
    ensures d != 0
    ensures Given(env) && ParseInt(env.value).Some? && ParseInt(env.value).value != 0 ==> d == ParseInt(env.value).value
    ensures !(Given(env) && ParseInt(env.value).Some? && ParseInt(env.value).value != 0) ==> d == 1
  {
    var text := if Given(env) then env.value else "1";
    ParseOne();
    match ParseInt(text)
    case Some(n) => if n != 0 then n else 1
    case None => 1
  }

  lemma ParseOne()
    ensures ParseInt("1") == Some(1)
  {
    ParseIntToString(1);
    assert IntToString(1) == "1";
  }

  /** A depth printed by the spawner is read back unchanged, unless it is 0. */
  lemma RunnerDepthRoundTrip(depth: int)
    requires depth != 0
    ensures RunnerChildDepth(Some(IntToString(depth))) == depth
  {
    ParseIntToString(depth);
  }

  /** The variables both runners require, as read from the environment. */
  datatype RunnerEnv = RunnerEnv(
    agentId: Option<string>, logPath: Option<string>, registryPath: Option<string>,
    workingDirectory: Option<string>, childDepth: Option<string>)

  datatype RunnerConfig = RunnerConfig(
    agentId: string, logPath: Path, registryPath: Path, workingDirectory: Path, childDepth: int)

  /**
   * The configuration, or `None` when the agent id or one of the three paths is unset or
   * empty (the runner then exits with code 1). Paths are resolved from the process's own
   * working directory, as the file functions do.
   */
  function ReadConfig(env: RunnerEnv, processCwd: Path): (c: Option<RunnerConfig>)
    requires ValidPath(processCwd)
    ensures c.Some? <==> Given(env.agentId) && Given(env.logPath) && Given(env.registryPath) && Given(env.workingDirectory)
    ensures c.Some? ==>
      && c.value.agentId == env.agentId.value
      && c.value.logPath == ResolvePath(processCwd, env.logPath.value)
      && c.value.registryPath == ResolvePath(processCwd, env.registryPath.value)
      && c.value.workingDirectory == ResolvePath(processCwd, env.workingDirectory.value)
      && c.value.childDepth == RunnerChildDepth(env.childDepth)
  {
    if Given(env.agentId) && Given(env.logPath) && Given(env.registryPath) && Given(env.workingDirectory) then
      Some(RunnerConfig(
        env.agentId.value, ResolvePath(processCwd, env.logPath.value),
        ResolvePath(processCwd, env.registryPath.value), ResolvePath(processCwd, env.workingDirectory.value),
        RunnerChildDepth(env.childDepth)))
    else
      None
  }

  /** The variables a spawner sets from absolute paths and a non-zero depth read back as those paths and that depth. */
  lemma ReadRenderedConfig(agentId: string, logPath: Path, registryPath: Path, cwd: Path, depthText: string, depth: int, processCwd: Path)
    requires agentId != "" && ParseInt(depthText) == Some(depth) && depth != 0
    requires ValidPath(logPath) && ValidPath(registryPath) && ValidPath(cwd) && ValidPath(processCwd)
    ensures ReadConfig(RunnerEnv(Some(agentId), Some(Render(logPath)), Some(Render(registryPath)),
                                 Some(Render(cwd)), Some(depthText)), processCwd)
         == Some(RunnerConfig(agentId, logPath, registryPath, cwd, depth))
  {
    ResolveRendered(processCwd, logPath);
    ResolveRendered(processCwd, registryPath);
    ResolveRendered(processCwd, cwd);
  }

  // ---------------------------------------------------------------- registry

  /** `Object.keys`-style members `"0"`, `"1"`, ... holding the items, as a spread copies them. */
  function Indexed(items: seq<Json>): (ms: seq<Member>)
    ensures |ms| == |items| && forall i :: 0 <= i < |ms| ==> ms[i] == Member(NatToString(i), items[i])
  {
    seq(|items|, i requires 0 <= i < |items| => Member(NatToString(i), items[i]))
  }

  /** The members `{...x}` copies from a value that is not an object. */
  function SpreadOf(x: Json): seq<Member>
  {
    match x
    case JObj(ms) => ms
    case JArr(items) => Indexed(items)
    case JStr(s) => Indexed(seq(|s|, i requires 0 <= i < |s| => JStr([s[i]])))
    case _ => []
  }

  /**
   * The agent's record after `if (!r[id]) r[id] = {}; r[id].pid = pid; r[id] = {...r[id], ...extra}`
   * with `extra = {[pidKey]: pid}`. A falsy record restarts from `{}`. An object or an array
   * takes `pid`; on a string, a number or `true` the assignment is silently lost. The spread
   * then turns the record into an object holding `pidKey`.
   */
  function EntryAfterPid(entry: Json, pid: int, pidKey: string): (e: Json)
    ensures e.JObj? && Get(e, pidKey) == Some(JNum(pid))
    ensures !Truthy(entry) || entry.JObj? || entry.JArr? ==> Get(e, "pid") == Some(JNum(pid))
    ensures entry.JObj? ==> forall f :: f != "pid" && f != pidKey ==> Get(e, f) == Get(entry, f)
    ensures !Truthy(entry) ==> forall f :: f != "pid" && f != pidKey ==> Get(e, f).None?
  {
    var p := JNum(pid);
    if !Truthy(entry) then JObj(Upsert(Upsert([], "pid", p), pidKey, p))
    else match entry
      case JObj(ms) => JObj(Upsert(Upsert(ms, "pid", p), pidKey, p))
      case JArr(items) => JObj(Upsert(Upsert(Indexed(items), "pid", p), pidKey, p))
      case _ => JObj(Upsert(SpreadOf(entry), pidKey, p))
  }

  /**
   * The registry `updateRegistryPid(pid, {[pidKey]: pid})` writes, or `None` when it throws
   * and nothing is written: on a `null` or primitive registry `r[id].pid` dereferences
   * `undefined`. An array registry is written back unchanged (the record lands on a
   * property `JSON.stringify` skips).
   */
  function RegistryAfterRunnerPid(file: Option<Doc>, agentId: string, pid: int, pidKey: string): (r: Option<Json>)
    ensures r.Some? <==> LoadRegistry(file).JObj? || LoadRegistry(file).JArr?
    ensures r.Some? && LoadRegistry(file).JObj? ==>
      && r.value.JObj?
      && Get(r.value, agentId) == Some(EntryAfterPid(Field(LoadRegistry(file), agentId), pid, pidKey))
      && forall k :: k != agentId ==> Get(r.value, k) == Get(LoadRegistry(file), k)
    ensures r.Some? && LoadRegistry(file).JArr? ==> r.value == LoadRegistry(file)
  {
    var registry := LoadRegistry(file);
    match registry
    case JObj(ms) => Some(JObj(Upsert(ms, agentId, EntryAfterPid(Lookup(ms, agentId).GetOr(JNull), pid, pidKey))))
    case JArr(_) => Some(registry)
    case _ => None
  }

  /** A missing or unreadable registry becomes one holding only this agent, with both pids. */
  lemma FreshRunnerRegistry(agentId: string, pid: int, pidKey: string)
    requires pidKey != "pid"
    ensures RegistryAfterRunnerPid(None, agentId, pid, pidKey)
         == Some(JObj([Member(agentId, JObj([Member("pid", JNum(pid)), Member(pidKey, JNum(pid))]))]))
  {
    var p := JNum(pid);
    assert Upsert([], "pid", p) == [Member("pid", p)];
    assert Upsert([Member("pid", p)], pidKey, p) == [Member("pid", p)] + Upsert([], pidKey, p);
    var e := JObj([Member("pid", p), Member(pidKey, p)]);
    assert EntryAfterPid(JNull, pid, pidKey) == e;
    assert Upsert([], agentId, e) == [Member(agentId, e)];
  }

  // ---------------------------------------------------------------- log texts

  /** `appendError(message)`. */
  function ErrorSection(message: string): string
  {
    "\n\n## Error\n\n" + message + "\n"
  }

  /** The trailer `\n\nProcess exited with code <code ?? 'null'>[ (signal: <signal>)]\n`. */
  function ExitTrailer(code: Option<int>, signal: Option<string>): string
  {
    "\n\nProcess exited with code " + (if code.Some? then IntToString(code.value) else "null")
      + (if Given(signal) then " (signal: " + signal.value + ")" else "") + "\n"
  }

  /** The log after a failed exit: unless already terminal, the header fails and the trailer follows. */
  function AfterFailure(log: string, code: Option<int>, signal: Option<string>, endTime: string): (r: string)
    ensures IsTerminal(log) ==> r == log
    ensures !IsTerminal(log) ==> EndsWith(r, ExitTrailer(code, signal))
  {
    if IsTerminal(log) then log else LogHeader.UpdateFrontmatter(log, "failed", endTime) + ExitTrailer(code, signal)
  }

  /** The log after a clean exit: unless already terminal, the header is done; nothing is appended. */
  function AfterSuccess(log: string, endTime: string): string
  {
    if IsTerminal(log) then log else LogHeader.UpdateFrontmatter(log, "done", endTime)
  }

  /**
   * What the `uncaughtException` handler leaves when reading a missing log throws: the error
   * section creates the file, then the header rewrite runs on it.
   */
  function AfterCrash(log: Option<string>, message: string, endTime: string): string
  {
    LogHeader.UpdateFrontmatter(log.GetOr("") + ErrorSection("Uncaught exception: " + message), "failed", endTime)
  }

  lemma FailedIsWord()
    ensures "failed" != [] && forall k :: 0 <= k < |"failed"| ==> !IsSpace("failed"[k])
    ensures "done" != [] && forall k :: 0 <= k < |"done"| ==> !IsSpace("done"[k])
  {
  }

  /**
   * A failed exit on a log still in progress leaves a terminal log that reads as `failed` and
   * ends with the exit trailer.
   */
  lemma FailureIsFinal(log: string, i: nat, code: Option<int>, signal: Option<string>, endTime: string)
    requires HeaderAt(log, i) && !IsTerminal(log)
    ensures var r := AfterFailure(log, code, signal, endTime);
      IsTerminal(r) && StatusToken(r) == Some("failed") && EndsWith(r, ExitTrailer(code, signal))
  {
    FailedIsWord();
    FinalIsTerminal(log, i, "failed", endTime);
    var u := LogHeader.UpdateFrontmatter(log, "failed", endTime);
    if Contains(u, StatusPrefix + "done") {
      ContainsBefore(u, ExitTrailer(code, signal), StatusPrefix + "done");
    } else {
      ContainsBefore(u, ExitTrailer(code, signal), StatusPrefix + "failed");
    }
    FinalStatus(log, i, "failed", endTime, ExitTrailer(code, signal));
  }

  /** A clean exit on a log still in progress leaves a terminal log that reads as `done`. */
  lemma SuccessIsFinal(log: string, i: nat, endTime: string)
    requires HeaderAt(log, i) && !IsTerminal(log)
    ensures IsTerminal(AfterSuccess(log, endTime)) && StatusToken(AfterSuccess(log, endTime)) == Some("done")
  {
    FailedIsWord();
    FinalIsTerminal(log, i, "done", endTime);
    FinalStatus(log, i, "done", endTime, "");
    assert LogHeader.UpdateFrontmatter(log, "done", endTime) + "" == LogHeader.UpdateFrontmatter(log, "done", endTime);
  }

  /** Finalising twice is finalising once: the first pass leaves a terminal log. */
  lemma FinalizeIdempotent(log: string, i: nat, code: Option<int>, signal: Option<string>, code': Option<int>, signal': Option<string>, endTime: string, endTime': string)
    requires HeaderAt(log, i)
    ensures AfterFailure(AfterFailure(log, code, signal, endTime), code', signal', endTime') == AfterFailure(log, code, signal, endTime)
    ensures AfterSuccess(AfterSuccess(log, endTime), endTime') == AfterSuccess(log, endTime)
  {
    if !IsTerminal(log) {
      FailureIsFinal(log, i, code, signal, endTime);
      SuccessIsFinal(log, i, endTime);
    }
  }

  // ---------------------------------------------------------------- finalisation

  /** The log after a handler ran (`None` when it still does not exist), and whether it threw. */
  datatype Effect = Effect(log: Option<string>, threw: bool)

  /**
   * `finalizeFailure(code, signal)` on a log `log`, with `exited` the flag before the call:
   * nothing once the flag is set; otherwise the failure rewrite, or the uncaught-exception
   * path when the log cannot be read.
   */
  function FailureEffect(exited: bool, log: Option<string>, code: Option<int>, signal: Option<string>, endTime: string, crash: string): (e: Effect)
    ensures exited ==> e == Effect(log, false)
    ensures !exited && log.Some? ==> e == Effect(Some(AfterFailure(log.value, code, signal, endTime)), false)
    ensures e.threw <==> !exited && log.None?
  {
    if exited then Effect(log, false)
    else if log.None? then Effect(Some(AfterCrash(log, crash, endTime)), true)
    else Effect(Some(AfterFailure(log.value, code, signal, endTime)), false)
  }

  /**
   * The `exit` handler: a code other than 0 (`null` included) goes to `finalizeFailure`; a 0
   * finalises as done, once.
   */
  function ExitEffect(exited: bool, log: Option<string>, code: Option<int>, signal: Option<string>, endTime: string, crash: string): (e: Effect)
    ensures exited ==> e == Effect(log, false)
    ensures code != Some(0) ==> e == FailureEffect(exited, log, code, signal, endTime, crash)
    ensures code == Some(0) && !exited && log.Some? ==> e == Effect(Some(AfterSuccess(log.value, endTime)), false)
  {
    if code != Some(0) then FailureEffect(exited, log, code, signal, endTime, crash)
    else if exited then Effect(log, false)
    else if log.None? then Effect(Some(AfterCrash(log, crash, endTime)), true)
    else Effect(Some(AfterSuccess(log.value, endTime)), false)
  }

  /**
   * The first `exit` on a log still in progress leaves it terminal, reading `done` for code 0
   * and `failed` for any other code, and nothing throws.
   */
  lemma ExitIsFinal(log: string, i: nat, code: Option<int>, signal: Option<string>, endTime: string, crash: string)
    requires HeaderAt(log, i) && !IsTerminal(log)
    ensures var e := ExitEffect(false, Some(log), code, signal, endTime, crash);
      !e.threw && e.log.Some? && IsTerminal(e.log.value)
      && StatusToken(e.log.value) == Some(if code == Some(0) then "done" else "failed")
  {
    if code == Some(0) {
      SuccessIsFinal(log, i, endTime);
    } else {
      FailureIsFinal(log, i, code, signal, endTime);
    }
  }

  /** The text files after an effect on the log at `p`. */
  function Applied(texts: map<Path, string>, p: Path, e: Effect): map<Path, string>
  {
    if e.log.Some? then texts[p := e.log.value] else texts
  }

  /** Whether the spawn threw, returned no pid, or started a child with a pid. */
  datatype SpawnResult = SpawnThrew(message: string) | NoPid | Spawned(pid: int)

  /**
   * The runner's state once configured: the files it works on and the `processExited` flag
   * that makes finalisation happen at most once.
   */
  class Supervisor {
    const fs: FileSystem
    const agentId: string
    const logPath: Path
    const registryPath: Path
    /** The name of the extra pid member: `nodePid` or `cursorPid`. */
    const pidKey: string
    /** The child program's name in error messages: `node` or `cursor-agent`. */
    const launcher: string
    var processExited: bool

    constructor(fs: FileSystem, agentId: string, logPath: Path, registryPath: Path, pidKey: string, launcher: string)
      ensures this.fs == fs && this.agentId == agentId && this.logPath == logPath
      ensures this.registryPath == registryPath && this.pidKey == pidKey && this.launcher == launcher
      ensures !processExited
    {
      this.fs := fs;
      this.agentId := agentId;
      this.logPath := logPath;
      this.registryPath := registryPath;
      this.pidKey := pidKey;
      this.launcher := launcher;
      processExited := false;
    }

    /** `updateFrontmatter(status)`: a missing log is ignored. */
    method UpdateFrontmatter(status: string, endTime: string)
      modifies fs
      ensures fs.texts == if logPath in old(fs.texts)
        then old(fs.texts)[logPath := LogHeader.UpdateFrontmatter(old(fs.texts)[logPath], status, endTime)]
        else old(fs.texts)
      ensures fs.docs == old(fs.docs) && fs.programs == old(fs.programs)
    {
      var content := fs.ReadText(logPath);
      if content.Some? {
        fs.WriteText(logPath, LogHeader.UpdateFrontmatter(content.value, status, endTime));
      }
    }

    /** `updateRegistryPid(pid, {[pidKey]: pid})`; a throw inside is swallowed and writes nothing. */
    method UpdateRegistryPid(pid: int)
      modifies fs
      ensures var r := RegistryAfterRunnerPid(old(fs.ReadDoc(registryPath)), agentId, pid, pidKey);
        fs.docs == if r.Some? then old(fs.docs)[registryPath := Parsed(r.value)] else old(fs.docs)
      ensures fs.texts == old(fs.texts) && fs.programs == old(fs.programs)
    {
      var r := RegistryAfterRunnerPid(fs.ReadDoc(registryPath), agentId, pid, pidKey);
      if r.Some? {
        fs.WriteDoc(registryPath, r.value);
      }
    }

    /** `appendError(message)`. */
    method AppendError(message: string)
      modifies fs
      ensures fs.texts == old(fs.texts)[logPath := old(fs.ReadText(logPath)).GetOr("") + ErrorSection(message)]
      ensures fs.docs == old(fs.docs) && fs.programs == old(fs.programs)
    {
      fs.AppendText(logPath, ErrorSection(message));
    }

    /** The `uncaughtException` handler, and the child's `error` handler with its own prefix. */
    method Crash(message: string, endTime: string)
      modifies fs
      ensures fs.texts == old(fs.texts)[logPath := AfterCrash(old(fs.ReadText(logPath)), message, endTime)]
      ensures fs.docs == old(fs.docs) && fs.programs == old(fs.programs)
    {
      AppendError("Uncaught exception: " + message);
      UpdateFrontmatter("failed", endTime);
    }

    /**
     * What follows the spawn: an error and a failed header when it threw or gave no pid (the
     * runner then exits with 1), the pid recorded otherwise.
     */
    method Launched(spawn: SpawnResult, endTime: string) returns (exitCode: Option<int>)
      modifies fs
      ensures exitCode.Some? <==> !spawn.Spawned?
      ensures exitCode.Some? ==> exitCode.value == 1
      ensures !spawn.Spawned? ==>
        var message := if spawn.SpawnThrew? then "Error spawning " + launcher + ": " + spawn.message
                       else "Failed to spawn " + launcher + ": no PID returned.";
        fs.texts == old(fs.texts)[logPath := LogHeader.UpdateFrontmatter(old(fs.ReadText(logPath)).GetOr("") + ErrorSection(message), "failed", endTime)]
        && fs.docs == old(fs.docs)
      ensures spawn.Spawned? ==>
        var r := RegistryAfterRunnerPid(old(fs.ReadDoc(registryPath)), agentId, spawn.pid, pidKey);
        fs.texts == old(fs.texts)
        && fs.docs == if r.Some? then old(fs.docs)[registryPath := Parsed(r.value)] else old(fs.docs)
      ensures fs.programs == old(fs.programs)
    {
      if spawn.Spawned? {
        UpdateRegistryPid(spawn.pid);
        exitCode := None;
      } else {
        var message := if spawn.SpawnThrew? then "Error spawning " + launcher + ": " + spawn.message
                       else "Failed to spawn " + launcher + ": no PID returned.";
        AppendError(message);
        UpdateFrontmatter("failed", endTime);
        exitCode := Some(1);
      }
    }

    /** The child's `error` event: an error section and a failed header. */
    method OnChildError(message: string, endTime: string)
      modifies fs
      ensures fs.texts == old(fs.texts)[logPath := LogHeader.UpdateFrontmatter(
        old(fs.ReadText(logPath)).GetOr("") + ErrorSection("Error spawning " + launcher + ": " + message), "failed", endTime)]
      ensures fs.docs == old(fs.docs) && fs.programs == old(fs.programs)
    {
      AppendError("Error spawning " + launcher + ": " + message);
      UpdateFrontmatter("failed", endTime);
    }

    /**
     * `finalizeFailure(code, signal)`. `crash` is the message of the exception reading a
     * missing log raises; `threw` says the calling handler was cut short by it.
     */
    method FinalizeFailure(code: Option<int>, signal: Option<string>, endTime: string, crash: string) returns (threw: bool)
      modifies this, fs
      ensures processExited
      ensures var e := FailureEffect(old(processExited), old(fs.ReadText(logPath)), code, signal, endTime, crash);
        fs.texts == Applied(old(fs.texts), logPath, e) && threw == e.threw
      ensures fs.docs == old(fs.docs) && fs.programs == old(fs.programs)
    {
      threw := false;
      if processExited {
        return;
      }
      processExited := true;
      var content := fs.ReadText(logPath);
      if content.None? {
        Crash(crash, endTime);
        threw := true;
        return;
      }
      if !IsTerminal(content.value) {
        UpdateFrontmatter("failed", endTime);
        ghost var rewritten := LogHeader.UpdateFrontmatter(content.value, "failed", endTime);
        assert fs.ReadText(logPath) == Some(rewritten);
        fs.AppendText(logPath, ExitTrailer(code, signal));
        assert fs.texts == old(fs.texts)[logPath := rewritten + ExitTrailer(code, signal)];
      }
    }

    /** The child's `exit` event (the claude runner then also deletes its script). */
    method OnExit(code: Option<int>, signal: Option<string>, endTime: string, crash: string) returns (threw: bool)
      modifies this, fs
      ensures processExited
      ensures var e := ExitEffect(old(processExited), old(fs.ReadText(logPath)), code, signal, endTime, crash);
        fs.texts == Applied(old(fs.texts), logPath, e) && threw == e.threw
      ensures fs.docs == old(fs.docs) && fs.programs == old(fs.programs)
    {
      if code != Some(0) {
        threw := FinalizeFailure(code, signal, endTime, crash);
        return;
      }
      threw := false;
      if processExited {
        return;
      }
      processExited := true;
      var content := fs.ReadText(logPath);
      if content.None? {
        Crash(crash, endTime);
        threw := true;
        return;
      }
      if !IsTerminal(content.value) {
        UpdateFrontmatter("done", endTime);
      }
    }

    /** The child's `close` event: only a code other than 0 finalises. */
    method OnClose(code: Option<int>, signal: Option<string>, endTime: string, crash: string) returns (threw: bool)
      modifies this, fs
      ensures code != Some(0) ==> processExited
      ensures var e := if code != Some(0) then FailureEffect(old(processExited), old(fs.ReadText(logPath)), code, signal, endTime, crash)
                       else Effect(old(fs.ReadText(logPath)), false);
        fs.texts == Applied(old(fs.texts), logPath, e) && threw == e.threw
      ensures code == Some(0) ==> processExited == old(processExited)
      ensures fs.docs == old(fs.docs) && fs.programs == old(fs.programs)
    {
      threw := false;
      if code != Some(0) {
        threw := FinalizeFailure(code, signal, endTime, crash);
      }
    }
  }
}
