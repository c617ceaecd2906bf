# Agent hooks: a Dafny model

This project models the hooks that a coding assistant runs around its tool calls and sessions.
It concentrates on the subsystem that delegates work to background agents, together with the
text and transcript utilities the other hooks share.

- **Interception.** A PreToolUse hook turns every `Task` call into a background agent run. It
  writes the agent's log with a `Status: in-progress` header and a runner script, records the
  run in the agent registry (`.active-pids.json`) and denies the call with a message that names
  the log. The interceptor keeps these files under `~/.claude/agent-responses`.
- **Spawning.** The spawn helpers choose a runner for the model (Claude or Cursor). They build
  the run's files, its environment and, for Cursor, its argument list. Each child gets the
  current depth plus one.
- **Runners.** The Claude runner and the Cursor runner start the agent and record its pid. When
  the child ends, exactly once, they rewrite the first `Status: in-progress` into `done` or
  `failed`. The Cursor runner also turns the JSON events it reads, one per line, into log text.
- **Agent script.** The agent script streams the SDK's messages into the log block by block. It
  appends suffixes, suppresses echoes and restates rewritten text. It also guards the Task tool
  with the allow-list it was given.
- **Monitor.** The monitor compares each agent log with its saved state and reports completed,
  interrupted and `📝` progress lines, each once. It keeps each log's whole content and reports
  the marked lines that are new at their index.
- **Utilities.** These cover the history file tool (`logHistoryEntry`, with its 250-line cap),
  the CLAUDE.md validator and the two CLAUDE.md managers, the feature validator, the session
  history logger and the activity tracker.

Each source file has its own module, and shared notions have modules of their own:

- `Strings` holds the ECMAScript string methods the hooks use.
- `JsonValues` holds parsed JSON, with objects that keep their insertion order.
- `Paths` holds normalised POSIX paths.
- `Files` holds the file system as maps from path to text, JSON document or runner script.
- `Transcripts` holds transcript lines.
- `LogHeader` holds the log header and its status rewrite.
- `Frontmatter` holds `---` blocks.
- `RunnerCore` holds what the two runners share.

Code that changes state step by step is modelled as classes and methods with loop invariants,
proved against functions that specify them. Pure logic is modelled as functions and lemmas.

## Model

| member | source | states |
|---|---|---|
| RegistryManager.ReadRegistry | hooks/pre-tool-use/agent-system/registry-manager.js:8-18 | the registry read is always truthy: `{}` when the file is missing, does not parse or parses to a falsy value, and otherwise exactly the parsed value |
| RegistryManager.LoadRegistry | hooks/pre-tool-use/agent-interceptor.js:133-140 | the interceptor's own read: `{}` for a missing or unparsable file, otherwise the parsed value, falsy or not |
| RegistryManager.ReadWrittenRegistry | hooks/pre-tool-use/agent-system/registry-manager.js:8-27 | a truthy registry that was written is read back unchanged |
| RegistryManager.CreateAgentRegistryEntry | hooks/pre-tool-use/agent-system/registry-manager.js:40-58 | the new entry has no pid and the caller's depth, parent and type; each allow-list is present exactly when the argument is an array, and is then a copy of it; the missing-servers list is a copy |
| RegistryManager.DecodeEntryJson | hooks/pre-tool-use/agent-system/registry-manager.js:49-57 | every entry is read back from its stored JSON unchanged |
| RegistryManager.EntryScalarFields | hooks/pre-tool-use/agent-system/registry-manager.js:49-53 | the stored `pid`, `depth`, `parentId` and `agentType` members hold the entry's fields, `null` for an absent pid or parent |
| RegistryManager.EntryListFields | hooks/pre-tool-use/agent-system/registry-manager.js:54-56 | the stored allow-lists are the arrays or `null`, and `missingMcpServers` is always an array |
| RegistryManager.EmptyAndNullAllowListsDiffer | hooks/pre-tool-use/agent-system/registry-manager.js:54-55 | an empty allow-list is stored as `[]` and a missing one as `null`, for both lists |
| RegistryManager.AfterPidUpdate | hooks/pre-tool-use/agent-system/registry-manager.js:66-72 | there is a write exactly when the entry exists and is truthy; every other key keeps its value, and in an object entry only `pid` changes, to the new pid |
| RegistryManager.UpdateAgentPid | hooks/pre-tool-use/agent-system/registry-manager.js:66-72 | the registry file becomes the updated registry when there is one and is untouched otherwise; no other file changes |
| RegistryManager.WriteRegistry | hooks/pre-tool-use/agent-system/registry-manager.js:25-27 | the registry file holds the given registry and nothing else changes |
| LogHeader.UpdateFrontmatter | hooks/pre-tool-use/claude-runner.js:17-26 | a log without `Status: in-progress` is left exactly as it is |
| LogHeader.Ending | hooks/pre-tool-use/claude-runner.js:21 | what follows the new status word starts with white space (the line break before `Ended:`), so the status word ends there |
| LogHeader.UpdateAtHeader | hooks/pre-tool-use/claude-runner.js:21 | when the header line is the first `Status: ` of the log, the rewrite replaces exactly that line's `in-progress` by the status and the `Ended:` line, keeping everything before and after |
| LogHeader.FinalStatus | hooks/pre-tool-use/claude-runner.js:17-26 | after the header is finalised with a status word, the monitor's status regex reads that word, whatever is appended to the log later |
| LogHeader.FinalIsTerminal | hooks/pre-tool-use/claude-runner.js:112-118 | finalising the header with `done` or `failed` makes the log terminal for the runners' `includes` test |
| LogHeader.NonSpaceRun | hooks/lifecycle/agent-monitor.mjs:50 | `\S+`: the result is a prefix without white space, and it stops only at white space or the end |
| LogHeader.StatusToken | hooks/lifecycle/agent-monitor.mjs:50-51 | a status token that is found is never empty |
| LogHeader.StatusTokenSkip | hooks/lifecycle/agent-monitor.mjs:50 | the regex finds the leftmost `Status: `: a text with none before `b` has the token of `b` |
| LogHeader.StatusTokenAt | hooks/lifecycle/agent-monitor.mjs:50-51 | the word right after `Status: `, ended by white space or the end of the text, is the token |
| LogHeader.StatusOfHeader | hooks/lifecycle/agent-monitor.mjs:50-51 | a log whose in-progress header line is its first status line reports `in-progress` |
| LogHeader.HeaderText | hooks/pre-tool-use/agent-system/spawn-helpers.js:55-64 | the header text is the `---`, Task, Instructions and Started lines, the in-progress status line, the extra lines, a closing `---` and a blank line |
| LogHeader.HeaderShape | hooks/pre-tool-use/agent-system/spawn-helpers.js:55-64 | split at its newlines, a header whose texts are single lines gives back exactly its lines |
| LogHeader.HeaderAfterOpening | hooks/pre-tool-use/agent-system/spawn-helpers.js:55-59 | when the task texts do not mention `Status: `, the in-progress line is the first status line of the header |
| LogHeader.HeaderInProgress | hooks/pre-tool-use/agent-system/spawn-helpers.js:55-64 | a fresh header is in progress for both the runners' rewrite and the monitor's status regex |
| HookOutput.ReadReply | hooks/pre-tool-use/agent-interceptor.js:152-160 | a PreToolUse reply is read back as the decision and the reason it was built from |
| Frontmatter.SplitFrontmatter | hooks/lifecycle/history-mcp.mjs:48-60 | the match succeeds exactly when the text starts with `---\n` and has a later `\n---\n`; the frontmatter then ends at the first such delimiter, and frontmatter and body compose back to the text |
| Frontmatter.SplitCompose | hooks/lifecycle/history-mcp.mjs:48-60 | composing a frontmatter that ends at its first delimiter with any body, then matching, gives both back |
| Frontmatter.TwoLinesEnd | hooks/lifecycle/history-mcp.mjs:37-42 | a two-line frontmatter whose second line does not start with a dash (the created/last_updated template) ends at its first delimiter |
| Transcripts.TextsInKept | hooks/lifecycle/session-history-logger.mjs:51-55 | every text block contributes its `text`, and every text comes from a text block |
| Transcripts.TextsAppend | hooks/feature-validator.mjs:94-107 | the texts of two block lists one after the other are the texts of each, in order |
| SpawnHelpers.AnthropicModelIgnoresCase | hooks/pre-tool-use/agent-system/spawn-helpers.js:13-17 | the model name is lower-cased before the family tests, so the choice of runner does not depend on case |
| SpawnHelpers.AnthropicModelExamples | hooks/pre-tool-use/agent-system/spawn-helpers.js:11-18 | no model or an empty one selects Claude, as do `Opus` and a name containing `claude`; `gpt-5` does not |
| SpawnHelpers.AgentPaths | hooks/pre-tool-use/agent-system/spawn-helpers.js:26-44 | the agents directory is `<cwd>/agent-responses`, the log `<agentId>.md` and the registry `.active-pids.json` inside it |
| SpawnHelpers.SetupAgentEnvironment | hooks/pre-tool-use/agent-system/spawn-helpers.js:26-44 | returns those paths; the `await` script is copied into the agents directory exactly when `~/.claude/await` exists, and nothing else changes |
| SpawnHelpers.ParentLabel | hooks/pre-tool-use/agent-system/spawn-helpers.js:61 | `root` when the parent is missing or empty, otherwise the parent id |
| SpawnHelpers.InitialLogShape | hooks/pre-tool-use/agent-system/spawn-helpers.js:54-66 | split at newlines, the initial log is exactly the `---`, Task, Instructions, Started, `Status: in-progress`, Depth and ParentAgent lines, the closing `---` and a blank line |
| SpawnHelpers.InitialLogInProgress | hooks/pre-tool-use/agent-system/spawn-helpers.js:54-66 | the monitor reads the initial log as `in-progress`, and the runners' rewrite applies to its header line |
| SpawnHelpers.CreateDelegationMessage | hooks/pre-tool-use/agent-system/spawn-helpers.js:75-86 | the reply always denies the Task call, and its reason names the log by its path relative to the working directory |
| SpawnHelpers.LogRelativeToCwd | hooks/pre-tool-use/agent-system/spawn-helpers.js:76 | seen from the working directory, the log is `agent-responses/<agentId>.md` |
| SpawnHelpers.ReadJsonEnv | hooks/pre-tool-use/agent-system/agent-script.mjs:13-15 | the value read from a JSON environment variable is never `null`: a missing or `'null'` variable reads as no value |
| SpawnHelpers.AllowListRoundTrip | hooks/pre-tool-use/agent-system/spawn-helpers.js:106-108 | an allow-list crosses the environment unchanged, an empty list stays a list and `null` stays `null` |
| SpawnHelpers.ClaudeRunnerLaunch | hooks/pre-tool-use/agent-system/spawn-helpers.js:105-137 | both depth variables parse back to `currentDepth + 1`, the allow-list reads back as given, and a missing output style is the empty text |
| SpawnHelpers.CursorPrompt | hooks/pre-tool-use/agent-system/spawn-helpers.js:156-158 | the prompt always ends the text, and a non-empty style followed by a blank line starts it |
| SpawnHelpers.ModelOrAuto | hooks/pre-tool-use/agent-system/spawn-helpers.js:165 | never empty; a given non-empty model name is kept |
| SpawnHelpers.BuildCursorArgs | hooks/pre-tool-use/agent-system/spawn-helpers.js:156-173 | the six fixed flags, then the model; `--api-key` and the trimmed key only when that key is not empty; the prompt last; 8 or 10 arguments in all |
| SpawnHelpers.RawStreamPath | hooks/pre-tool-use/agent-system/spawn-helpers.js:188 | the raw stream sits in the same directory as the log |
| SpawnHelpers.RawStreamOfLog | hooks/pre-tool-use/agent-system/spawn-helpers.js:188 | the raw stream of `<id>.md` is `<id>.cursor.ndjson` beside it |
| SpawnHelpers.SpawnCursorAgent | hooks/pre-tool-use/agent-system/spawn-helpers.js:144-201 | both depth variables parse back to `currentDepth + 1`, the prompt is the last argument, the runner gets the log, registry and working directory, and only the raw stream file is removed |
| AgentInterceptor.AgentId | hooks/pre-tool-use/agent-interceptor.js:25 | the id is `agent_` followed by exactly six digits whose value is the draw |
| AgentInterceptor.AgentIdInjective | hooks/pre-tool-use/agent-interceptor.js:25 | different draws give different agent ids |
| AgentInterceptor.AgentIdPlain | hooks/pre-tool-use/agent-interceptor.js:25-31 | an agent id holds no `/` and no line break, so the log and runner names are single file names |
| AgentInterceptor.ReadTaskInput | hooks/pre-tool-use/agent-interceptor.js:34-37 | each of description, prompt and subagent type is the given field when it is truthy, and otherwise `Unnamed task`, `''` and `general-purpose` |
| AgentInterceptor.DefaultsWithoutToolInput | hooks/pre-tool-use/agent-interceptor.js:34-37 | a call with no `tool_input` gets all three defaults |
| AgentInterceptor.OutputStyle | hooks/pre-tool-use/agent-interceptor.js:40-54 | there is a style exactly when the definition file exists, and it is always a piece of that file |
| AgentInterceptor.StyleOfDefinition | hooks/pre-tool-use/agent-interceptor.js:45-47 | a definition file with frontmatter contributes exactly its trimmed body |
| AgentInterceptor.StyleWithoutFrontmatter | hooks/pre-tool-use/agent-interceptor.js:48-50 | a definition file that does not open with `---` contributes all of its trimmed text |
| AgentInterceptor.FilesOf | hooks/pre-tool-use/agent-interceptor.js:28-31 | all of a run's files are in `<home>/.claude/agent-responses`: the log `<id>.md`, the runner `<id>_runner.mjs` and the registry `.active-pids.json` |
| AgentInterceptor.InterceptorLogInProgress | hooks/pre-tool-use/agent-interceptor.js:56-65 | the monitor reads the initial log as `in-progress`, and the runners' rewrite applies to its status line |
| AgentInterceptor.InterceptorLogLines | hooks/pre-tool-use/agent-interceptor.js:56-63 | split at newlines, the initial log is exactly `---`, Task, Instructions, Started, `Status: in-progress`, `---` and two empty lines |
| AgentInterceptor.RegistryAfterInsert | hooks/pre-tool-use/agent-interceptor.js:132-142 | the write is skipped exactly when the registry is `null` (the assignment throws); on an object the new key holds the pid (absent for `undefined`) and every other key is unchanged |
| AgentInterceptor.FreshRegistry | hooks/pre-tool-use/agent-interceptor.js:133-141 | a missing or unparsable registry restarts from `{}` and then holds the new agent alone |
| AgentInterceptor.InterceptReply | hooks/pre-tool-use/agent-interceptor.js:146-160 | the reply always denies the call and names the log relative to the caller's working directory |
| AgentInterceptor.ReplyFromHome | hooks/pre-tool-use/agent-interceptor.js:148-149 | called from the home directory, the reply names `.claude/agent-responses/<id>.md` |
| AgentInterceptor.CwdOf | hooks/pre-tool-use/agent-interceptor.js:148 | `path.relative` gets a directory exactly when the caller's `cwd` is a string |
| AgentInterceptor.Intercept | hooks/pre-tool-use/agent-interceptor.js:7-166 | blank input, input that does not parse or a tool other than `Task` leaves every file alone and prints nothing; otherwise the run's files, registry and reply are as `RunStarted` states |
| AgentInterceptor.StartRun | hooks/pre-tool-use/agent-interceptor.js:25-163 | writes the initial log and the runner script, records the pid, and replies, as `RunStarted` states |
| AgentInterceptor.WriteRunFiles | hooks/pre-tool-use/agent-interceptor.js:56-123 | the initial log and the runner script (log path, prompt, cwd and style as embedded) are written; the registry is untouched |
| AgentInterceptor.RecordPid | hooks/pre-tool-use/agent-interceptor.js:132-160 | the registry gets the pid unless the assignment throws, and the reply follows unless the caller's `cwd` is unusable |
| RunnerCore.RunnerChildDepth | hooks/pre-tool-use/claude-runner.js:11 | the child's depth is the parsed variable when it is set, parses and is not 0, and 1 otherwise; it is never 0 |
| RunnerCore.RunnerDepthRoundTrip | hooks/pre-tool-use/claude-runner.js:11 | a non-zero depth printed in decimal is read back unchanged |
| RunnerCore.ReadConfig | hooks/pre-tool-use/claude-runner.js:6-15 | there is a configuration exactly when the agent id and the three paths are set and not empty; it holds them resolved from the runner's directory, and the child depth |
| RunnerCore.ReadRenderedConfig | hooks/pre-tool-use/claude-runner.js:6-15 | the variables a spawner writes from absolute paths and a non-zero depth read back as exactly those paths and that depth |
| RunnerCore.Indexed | hooks/pre-tool-use/claude-runner.js:42 | spreading an array copies item `i` to the member named by the decimal `i`, in order |
| RunnerCore.EntryAfterPid | hooks/pre-tool-use/claude-runner.js:38-42 | the record always ends as an object holding the extra pid; it holds `pid` when it was falsy, an object or an array; an object keeps its other members, a falsy record has no others |
| RunnerCore.RegistryAfterRunnerPid | hooks/pre-tool-use/claude-runner.js:28-47 | the registry is written exactly when it loads as an object or an array; an object gets the agent's new record and keeps every other key; an array is written back unchanged |
| RunnerCore.FreshRunnerRegistry | hooks/pre-tool-use/claude-runner.js:30-43 | a missing or unreadable registry becomes one holding only this agent with `pid` and the extra pid |
| RunnerCore.AfterFailure | hooks/pre-tool-use/claude-runner.js:98-107 | a log already done or failed is left as it is; otherwise it ends with the exit trailer |
| RunnerCore.FailureIsFinal | hooks/pre-tool-use/claude-runner.js:98-107 | a failed exit on a log in progress leaves it terminal, reading `failed`, and ending with the exit trailer |
| RunnerCore.SuccessIsFinal | hooks/pre-tool-use/claude-runner.js:112-117 | a clean exit on a log in progress leaves it terminal, reading `done` |
| RunnerCore.FinalizeIdempotent | hooks/pre-tool-use/claude-runner.js:98-117 | finalising a log twice, with any codes and times, is finalising it once |
| RunnerCore.FailureEffect | hooks/pre-tool-use/claude-runner.js:98-107 | once the flag is set nothing happens; otherwise a readable log gets the failure rewrite, and the handler throws exactly when the log is missing |
| RunnerCore.ExitEffect | hooks/pre-tool-use/claude-runner.js:109-119 | any code other than 0, `null` included, is a failure; code 0 finalises as done at most once |
| RunnerCore.ExitIsFinal | hooks/pre-tool-use/claude-runner.js:109-119 | the first exit on a log in progress leaves it terminal, reading `done` for code 0 and `failed` otherwise, and nothing throws |
| RunnerCore.Supervisor.UpdateFrontmatter | hooks/pre-tool-use/claude-runner.js:17-26 | the log's status line is rewritten when the log exists; a missing log leaves every file alone |
| RunnerCore.Supervisor.UpdateRegistryPid | hooks/pre-tool-use/claude-runner.js:28-47 | the registry becomes `RegistryAfterRunnerPid` or, when that throws, is left alone; the texts are untouched |
| RunnerCore.Supervisor.AppendError | hooks/pre-tool-use/claude-runner.js:49-51 | the log, created when missing, gets the error section appended |
| RunnerCore.Supervisor.Crash | hooks/pre-tool-use/claude-runner.js:53-57 | the uncaught-exception handler appends the error and then fails the header |
| RunnerCore.Supervisor.Launched | hooks/pre-tool-use/claude-runner.js:79-91 | a spawn that throws or gives no pid appends the matching error, fails the header and exits with 1; a child with a pid is recorded in the registry and the run goes on |
| RunnerCore.Supervisor.OnChildError | hooks/pre-tool-use/claude-runner.js:93-96 | the child's error event appends the error and fails the header |
| RunnerCore.Supervisor.FinalizeFailure | hooks/pre-tool-use/claude-runner.js:98-107 | the flag is set and the log becomes what `FailureEffect` says |
| RunnerCore.Supervisor.OnExit | hooks/pre-tool-use/claude-runner.js:109-119 | the flag is set and the log becomes what `ExitEffect` says |
| RunnerCore.Supervisor.OnClose | hooks/pre-tool-use/claude-runner.js:128-132 | only a code other than 0 finalises; code 0 changes neither the log nor the flag |
| ClaudeRunner.ReadClaudeConfig | hooks/pre-tool-use/claude-runner.js:6-15 | the shared configuration plus the script path, and nothing when any of the five variables is unset or empty |
| ClaudeRunner.LaunchReadBack | hooks/pre-tool-use/claude-runner.js:6-11 | what the spawner hands over is read back as the same id and files, and the agent script is started at the depth the spawner computed |
| ClaudeRunner.Runner.constructor | hooks/pre-tool-use/claude-runner.js:65 | a runner for the configuration whose flag is not set |
| ClaudeRunner.Runner.OnExit | hooks/pre-tool-use/claude-runner.js:109-126 | the shared exit handling, then the agent script is deleted, unless reading a missing log threw first |
| ClaudeRunner.Runner.OnClose | hooks/pre-tool-use/claude-runner.js:128-132 | the shared close handling; the script is left alone |
| ClaudeRunner.Start | hooks/pre-tool-use/claude-runner.js:11-91 | exit 1 with nothing written when the configuration is incomplete; otherwise a runner for `node` whose spawn outcome is handled as `Launched` states |
| CursorRunner.ReadCursorConfig | hooks/pre-tool-use/cursor-runner.js:7-22 | there is a configuration exactly when the shared variables are set and the arguments parse as a non-empty array; weaker than the source on some malformed inputs (see ## Left out) |
| CursorRunner.CursorLaunchReadBack | hooks/pre-tool-use/cursor-runner.js:7-22 | what the spawner hands over is read back as the same id, files, arguments and depth |
| CursorRunner.Collect | hooks/pre-tool-use/cursor-runner.js:60-103 | every chunk is a non-empty string held inside the value; nothing is collected below level 5 |
| CursorRunner.CollectItems | hooks/pre-tool-use/cursor-runner.js:75-79 | every chunk of an array is a non-empty string held by one of its items |
| CursorRunner.MemberChunks | hooks/pre-tool-use/cursor-runner.js:84-98 | every chunk of one member is a non-empty string held by its value |
| CursorRunner.CollectMembers | hooks/pre-tool-use/cursor-runner.js:83-99 | every chunk of an object is a non-empty string held by one of its members |
| CursorRunner.DeltaTwice | hooks/pre-tool-use/cursor-runner.js:90-98 | an object under `delta` is searched twice, so its text is collected twice |
| CursorRunner.Concat | hooks/pre-tool-use/cursor-runner.js:180 | joined non-empty chunks are empty exactly when there are none |
| CursorRunner.Reconcile | hooks/pre-tool-use/cursor-runner.js:198-208 | nothing is appended exactly when the message repeats the remembered text; a message extending it appends only the rest; any other message is appended whole, after a line break once something was written |
| CursorRunner.ReconcileKeepsTail | hooks/pre-tool-use/cursor-runner.js:198-215 | a log that ended with the remembered text ends with the message afterwards |
| CursorRunner.TakeDelta | hooks/pre-tool-use/cursor-runner.js:179-186 | delta text extends the remembered text and marks text as written when it is not empty |
| CursorRunner.TakeMessage | hooks/pre-tool-use/cursor-runner.js:195-217 | a non-empty message becomes the remembered text; an empty one changes nothing; written records whether anything was appended |
| CursorRunner.Absorb | hooks/pre-tool-use/cursor-runner.js:173-217 | an assistant event never changes the status; with no message text, exactly the delta is appended and remembered |
| CursorRunner.AbsorbKeepsTail | hooks/pre-tool-use/cursor-runner.js:173-217 | after an assistant event the log still ends with the remembered text |
| CursorRunner.MessageKeepsTail | hooks/pre-tool-use/cursor-runner.js:195-217 | after a message the log still ends with the remembered text |
| CursorRunner.ResultText | hooks/pre-tool-use/cursor-runner.js:221-224 | result text is appended exactly when nothing was written yet and the result is a string that is not blank |
| CursorRunner.ResultOutcome | hooks/pre-tool-use/cursor-runner.js:218-227 | a result event sets its status, appends nothing once text was written, and clears the remembered text |
| CursorRunner.ErrorMessage | hooks/pre-tool-use/cursor-runner.js:232 | the error message is always truthy |
| CursorRunner.EventOutcome | hooks/pre-tool-use/cursor-runner.js:156-240 | written never goes back to false; a status clears the remembered text; only error and result events fail the run; an event of no known kind changes nothing |
| CursorRunner.Written | hooks/pre-tool-use/cursor-runner.js:24-33 | only the log changes; it exists afterwards exactly when it existed or text was appended; no text and no status leave the files alone |
| CursorRunner.WrittenTwice | hooks/pre-tool-use/cursor-runner.js:182-211 | two appends are one append of both texts |
| CursorRunner.Stream.constructor | hooks/pre-tool-use/cursor-runner.js:117-119 | the stream starts with no remembered text and nothing written |
| CursorRunner.Stream.Append | hooks/pre-tool-use/cursor-runner.js:182 | the log, created when missing, gets the text appended |
| CursorRunner.Stream.AbsorbDelta | hooks/pre-tool-use/cursor-runner.js:174-186 | the memory and the log become what `TakeDelta` and `Written` say |
| CursorRunner.Stream.AbsorbMessage | hooks/pre-tool-use/cursor-runner.js:188-217 | the memory and the log become what `TakeMessage` and `Written` say |
| CursorRunner.Stream.Absorbing | hooks/pre-tool-use/cursor-runner.js:173-217 | the memory and the log become what `Absorb` says |
| CursorRunner.Stream.Emit | hooks/pre-tool-use/cursor-runner.js:218-236 | the text is appended and the header takes the status |
| CursorRunner.Stream.OnResult | hooks/pre-tool-use/cursor-runner.js:218-227 | the memory and the log become what `ResultOutcome` says |
| CursorRunner.Stream.OnLine | hooks/pre-tool-use/cursor-runner.js:156-240 | an empty line or one that does not parse changes nothing; any other line has the effect `EventOutcome` gives |
| CursorRunner.Stream.OnStderrLine | hooks/pre-tool-use/cursor-runner.js:247-249 | the line is appended to the log, marked as standard error |
| CursorRunner.Start | hooks/pre-tool-use/cursor-runner.js:11-144 | exit 1 with nothing written when the configuration is incomplete; otherwise a stream with empty memory over a supervisor for `cursor-agent`, whose spawn outcome is handled as `Launched` states |
| RunnerCore.Supervisor.constructor | hooks/pre-tool-use/claude-runner.js:65 | a supervisor over the configured files whose flag is not set |
| AgentScript.ScriptDepth | hooks/pre-tool-use/agent-system/agent-script.mjs:14 | an unset or empty depth reads as 1 |
| AgentScript.ScriptDepthRoundTrip | hooks/pre-tool-use/agent-system/agent-script.mjs:14 | the depth the runner passes on in decimal is the depth the script reads |
| AgentScript.FirstTruthy | hooks/pre-tool-use/agent-system/agent-script.mjs:29-39 | the pick is the first truthy value, and there is none exactly when no value is truthy |
| AgentScript.MessageId | hooks/pre-tool-use/agent-system/agent-script.mjs:28-40 | a message id is always truthy |
| AgentScript.MessageIdFallback | hooks/pre-tool-use/agent-system/agent-script.mjs:37-38 | a message naming no id of its own is keyed by the agent's id when it is set, and by `message` otherwise |
| AgentScript.FirstTruthyLast | hooks/pre-tool-use/agent-system/agent-script.mjs:29-39 | when only the last candidate may be truthy, it is picked exactly when it is truthy |
| AgentScript.ArrayIndex | hooks/pre-tool-use/agent-system/agent-script.mjs:44-50 | a key that names an array position is the decimal text of that position |
| AgentScript.ArrayIndexNames | hooks/pre-tool-use/agent-system/agent-script.mjs:44-50 | a key names position `n` exactly when its text (`String(index)`) is the decimal text of `n`, so `"00"` and `"-1"` name nothing |
| AgentScript.StringIndexSelects | hooks/pre-tool-use/agent-system/agent-script.mjs:44-50 | `content["2"]` selects the same block as `content[2]` |
| AgentScript.BlockKey | hooks/pre-tool-use/agent-system/agent-script.mjs:42-71 | a block key always starts with the message id and a colon; the block is looked up by `index` as JavaScript does, a string index included |
| AgentScript.PositionsKeepBlocksApart | hooks/pre-tool-use/agent-system/agent-script.mjs:63-70 | two content blocks of one message without ids, and without a numeric message index, get different keys |
| AgentScript.FullText | hooks/pre-tool-use/agent-system/agent-script.mjs:73-117 | a repeated text changes nothing; otherwise the block takes the text; an echo of another block writes nothing; a new text writes just the new suffix when it extends the previous one and the whole text on a new line otherwise |
| AgentScript.GrowingWritesFinal | hooks/pre-tool-use/agent-system/agent-script.mjs:73-117 | streaming ever longer versions of one block, none held by another block, writes exactly the final text beyond what the block held, and the block ends holding it |
| AgentScript.GrowingTail | hooks/pre-tool-use/agent-system/agent-script.mjs:73-117 | a chain of extending texts is growing from its first text on |
| AgentScript.ChainStep | hooks/pre-tool-use/agent-system/agent-script.mjs:91-116 | a version extending the block's text that no other block holds is written as the new part only; other blocks are unchanged |
| AgentScript.DeltaText | hooks/pre-tool-use/agent-system/agent-script.mjs:119-130 | after a delta the block holds its previous text followed by the delta; every other block keeps its text, and no block appears or disappears |
| AgentScript.DeltasThenEcho | hooks/pre-tool-use/agent-system/agent-script.mjs:119-130 | a block streamed as deltas holds exactly what was written for it, so the assistant message repeating that text under another key writes nothing |
| AgentScript.DeltasWritten | hooks/pre-tool-use/agent-system/agent-script.mjs:119-130 | after a run of deltas the block holds its old text followed by everything written |
| AgentScript.Guard | hooks/pre-tool-use/agent-system/agent-script.mjs:143-160 | the hook answers anything but `{}` exactly for a `Task` call, with an allow-list, whose requested subagent is missing or not listed, and that answer denies the call |
| AgentScript.AllowListEnforced | hooks/pre-tool-use/agent-system/agent-script.mjs:16 | through the environment, the allow-list a spawner passes is the one enforced: without one every subagent may be spawned; with one, exactly the listed names |
| AgentScript.CatchLeavesHeader | hooks/pre-tool-use/agent-system/agent-script.mjs:213-215 | the `catch` as written keeps the log as a prefix and leaves an in-progress header in progress, so the monitor still reads `in-progress` |
| AgentScript.HeaderAtAppend | hooks/pre-tool-use/agent-system/agent-script.mjs:213-215 | appending to a log keeps its header where it was |
| AgentScript.FailedRunEndsDone | hooks/pre-tool-use/agent-system/agent-script.mjs:213-215 | as written, a run whose query fails still ends `done` once the runner's exit handler runs |
| AgentScript.FailedRunEndsFailed | hooks/pre-tool-use/agent-system/agent-script.mjs:213-215 | with the header marked in the `catch`, the runner's exit handler keeps it `failed` |
| AgentScript.FullTextStepEffect | hooks/pre-tool-use/agent-system/agent-script.mjs:73-117 | a block that is not a text block changes nothing; a text block's key ends up holding its text, other keys are unchanged and the log is kept or extended |
| AgentScript.FullTextHolds | hooks/pre-tool-use/agent-system/agent-script.mjs:73-117 | after `appendFullText` the block holds the text and every other block is unchanged |
| AgentScript.AppendedExtends | hooks/pre-tool-use/agent-system/agent-script.mjs:21-26 | appending leaves the log alone or extends it |
| AgentScript.BlockStartStep | hooks/pre-tool-use/agent-system/agent-script.mjs:185-193 | a block start never writes to the log and never changes an open block |
| AgentScript.DeltaStep | hooks/pre-tool-use/agent-system/agent-script.mjs:194-201 | a `text_delta` goes to the log verbatim and extends the text of its block; anything else changes nothing |
| AgentScript.ResultStatus | hooks/pre-tool-use/agent-system/agent-script.mjs:203 | the status is `done` exactly for subtype `success`, and `failed` otherwise |
| AgentScript.ResultIsFinal | hooks/pre-tool-use/agent-system/agent-script.mjs:202-211 | after the result of an in-progress run its header reads the result's status, and the runner's exit handler leaves the log as it is |
| AgentScript.MessageStep | hooks/pre-tool-use/agent-system/agent-script.mjs:178-212 | handling a message throws only for a `result` when the log is missing |
| AgentScript.BlocksOnlyGrow | hooks/pre-tool-use/agent-system/agent-script.mjs:178-212 | no message ever forgets a block: a key, once opened, stays |
| AgentScript.MessageKeepsKeys | hooks/pre-tool-use/agent-system/agent-script.mjs:178-212 | one message keeps every open key |
| AgentScript.ContentKeepsKeys | hooks/pre-tool-use/agent-system/agent-script.mjs:180-184 | the content blocks of a message keep every open key |
| AgentScript.NewPart | hooks/pre-tool-use/agent-system/agent-script.mjs:95-111 | the text written for a changed block is never empty: the new suffix when the text extends the previous one, otherwise the whole text on a new line |
| AgentScript.HeldByAny | hooks/pre-tool-use/agent-system/agent-script.mjs:83-88 | the scan finds a block exactly when some block already holds the text |
| AgentScript.Script.constructor | hooks/pre-tool-use/agent-system/agent-script.mjs:19 | a script with no blocks over its log |
| AgentScript.Script.AppendToLog | hooks/pre-tool-use/agent-system/agent-script.mjs:21-26 | the log becomes `Appended`; no other file changes |
| AgentScript.Script.AppendFullText | hooks/pre-tool-use/agent-system/agent-script.mjs:73-117 | the state becomes `FullTextStep`; no other file changes |
| AgentScript.Script.Record | hooks/pre-tool-use/agent-system/agent-script.mjs:79-116 | the blocks and the log become what `FullText` says |
| AgentScript.Script.AppendContent | hooks/pre-tool-use/agent-system/agent-script.mjs:180-184 | the state becomes the content blocks fed in order with their positions |
| AgentScript.Script.AppendDeltaText | hooks/pre-tool-use/agent-system/agent-script.mjs:119-130 | the state becomes `DeltaStep` |
| AgentScript.Script.OnResult | hooks/pre-tool-use/agent-system/agent-script.mjs:202-211 | the state becomes `ResultStep`, and the call throws exactly when that fails |
| AgentScript.Script.OnMessage | hooks/pre-tool-use/agent-system/agent-script.mjs:178-212 | the state becomes `MessageStep`, and the call throws exactly when that fails |
| AgentScript.Script.Run | hooks/pre-tool-use/agent-system/agent-script.mjs:132-216 | the state becomes `RunSteps`: the stream up to the first message that throws, then the corrected `catch` |
| AgentScript.Script.Fail | hooks/pre-tool-use/agent-system/agent-script.mjs:213-215 | the corrected `catch`: the failure note appended and the header marked `failed` |
| AgentScript.StreamStopped | hooks/pre-tool-use/agent-system/agent-script.mjs:178-212 | once a message has thrown, the later ones are not looked at |
| AgentMonitor.LoadState | hooks/lifecycle/agent-monitor.mjs:6-15 | a missing or unparsable state file is `{}`; a parsed object or array is used as it is; weaker than the source on some malformed inputs (see ## Left out) |
| AgentMonitor.RegistryWithout | hooks/lifecycle/agent-monitor.mjs:21-33 | the agent's entry is deleted and every other entry kept; a missing, unreadable or `null` registry is not written |
| AgentMonitor.RemovePidFromRegistry | hooks/lifecycle/agent-monitor.mjs:21-33 | the registry becomes `RegistryWithout`; no other file changes |
| AgentMonitor.AgentLogs | hooks/lifecycle/agent-monitor.mjs:35-43 | exactly the entries named `agent_*.md` are kept, in directory order |
| AgentMonitor.AgentIdOf | hooks/lifecycle/agent-monitor.mjs:135 | the id followed by `.md` is the file name; a name without that extension is its own id |
| AgentMonitor.StatusOf | hooks/lifecycle/agent-monitor.mjs:45-59 | the status is the first `Status:` token when there is one, and `unknown` otherwise |
| AgentMonitor.StatusSeen | hooks/lifecycle/agent-monitor.mjs:50-51 | the monitor reads `in-progress` from a log at its initial header, and the final status once a runner or the agent script rewrote it, whatever was appended after |
| AgentMonitor.RelativeOfLog | hooks/lifecycle/agent-monitor.mjs:82-88 | a log in the project's agent directory is named `@agent-responses/<name>` |
| AgentMonitor.RelativeNameAfter | hooks/lifecycle/agent-monitor.mjs:84-85 | a path starting with the working directory's text is named by the rest, one leading `/` dropped |
| AgentMonitor.LineUpdate | hooks/lifecycle/agent-monitor.mjs:70-75 | corrected marker skip (see ## Findings): a line reports a text only when it carries the marker, and that text is never empty |
| AgentMonitor.MarkerTextReported | hooks/lifecycle/agent-monitor.mjs:72-75 | corrected marker skip (see ## Findings): a marked line reports exactly the trimmed text after its first marker, and nothing when that is blank |
| AgentMonitor.ReportedAreNewLines | hooks/lifecycle/agent-monitor.mjs:66-77 | corrected marker skip (see ## Findings): every text reported comes from a line that is new at its index, and every new line with a text is reported |
| AgentMonitor.UpdatesAreNewLines | hooks/lifecycle/agent-monitor.mjs:61-80 | corrected marker skip (see ## Findings): the progress texts are exactly those of the marked lines that are new at their index |
| AgentMonitor.NothingNewNothingReported | hooks/lifecycle/agent-monitor.mjs:68-77 | lines that all stand where they stood before report nothing |
| AgentMonitor.UnchangedReportsNothing | hooks/lifecycle/agent-monitor.mjs:61-80 | a text that has not changed line for line reports no progress |
| AgentMonitor.TextAfterMarker | hooks/lifecycle/agent-monitor.mjs:72 | corrected marker skip (see ## Findings): the trimmed text after the first marker, which is the line's progress text when not empty |
| AgentMonitor.ExtractUpdateContent | hooks/lifecycle/agent-monitor.mjs:61-80 | corrected marker skip (see ## Findings): the progress texts of the new marked lines, one per line |
| AgentMonitor.CollectUpdates | hooks/lifecycle/agent-monitor.mjs:67-77 | corrected marker skip (see ## Findings): the loop collects the progress texts of the new lines, in order |
| AgentMonitor.Unmarked | hooks/lifecycle/agent-monitor.mjs:70 | a line without the marker reports nothing |
| AgentMonitor.UpdateStep | hooks/lifecycle/agent-monitor.mjs:69-76 | one more line appends its text exactly when it is new and has one |
| AgentMonitor.CharUnits | hooks/lifecycle/agent-monitor.mjs:72 | a character is one or two UTF-16 code units |
| AgentMonitor.AsWrittenKeepsLowHalf | hooks/lifecycle/agent-monitor.mjs:72 | as written, every marked line reports a text starting with the marker's low surrogate |
| AgentMonitor.MarkerAloneReported | hooks/lifecycle/agent-monitor.mjs:72-75 | the line holding only the marker is reported as a lone low surrogate as written, and not at all as intended |
| AgentMonitor.MarkerEncoding | hooks/lifecycle/agent-monitor.mjs:72 | the marker is the surrogate pair D83D DCDD |
| AgentMonitor.Decide | hooks/lifecycle/agent-monitor.mjs:127-156 | files of 100 bytes or less are never reported; a file completes exactly when its status is newly `done` or `failed` and it was not reported; it is interrupted exactly when newly `interrupted` and not reported; progress only for a file seen before; `notified` is set exactly for the first two; weaker than the source for a saved non-string `content` (see ## Left out) |
| AgentMonitor.EntryFields | hooks/lifecycle/agent-monitor.mjs:160-166 | the entry records the file's mtime and status, and `notified` exactly when it is set |
| AgentMonitor.SmallFileRecorded | hooks/lifecycle/agent-monitor.mjs:127 | a file of 100 bytes or less is never reported and the registry is untouched, but its entry is recorded |
| AgentMonitor.NewRunningFileQuiet | hooks/lifecycle/agent-monitor.mjs:148 | a file seen for the first time that is still running is recorded without a notification |
| AgentMonitor.ReportedOnce | hooks/lifecycle/agent-monitor.mjs:129-146 | once an entry records a status, a later version with the same status is neither completed nor interrupted again |
| AgentMonitor.VisitMakesCurrent | hooks/lifecycle/agent-monitor.mjs:122-167 | visiting a file leaves its entry current and every other entry as it was |
| AgentMonitor.IdsDistinct | hooks/lifecycle/agent-monitor.mjs:119 | different names in one directory are different ids |
| AgentMonitor.VisitKeepsCurrent | hooks/lifecycle/agent-monitor.mjs:160-166 | visiting one file leaves another file's current entry current |
| AgentMonitor.ScanMakesCurrent | hooks/lifecycle/agent-monitor.mjs:117-168 | after a scan every file scanned has a current entry |
| AgentMonitor.CurrentAfter | hooks/lifecycle/agent-monitor.mjs:117-168 | a file's entry is current from its own visit on |
| AgentMonitor.CurrentScanQuiet | hooks/lifecycle/agent-monitor.mjs:117-168 | scanning files whose entries are all current changes nothing and reports nothing |
| AgentMonitor.VisitCurrent | hooks/lifecycle/agent-monitor.mjs:122 | visiting a file whose entry is current changes nothing |
| AgentMonitor.RerunQuiet | hooks/lifecycle/agent-monitor.mjs:117-174 | running the monitor again over files whose mtimes have not changed emits nothing and leaves the state and the registry as they are |
| AgentMonitor.Reply | hooks/lifecycle/agent-monitor.mjs:177-196 | there is output exactly when there are notifications |
| AgentMonitor.VisitFile | hooks/lifecycle/agent-monitor.mjs:118-167 | the state, notifications and registry become what `Visit` says; no other file changes |
| AgentMonitor.NotifyFile | hooks/lifecycle/agent-monitor.mjs:127-157 | the notification is `Decide`'s, and the registry loses the agent exactly when the file completes or is interrupted; weaker than the source for a saved non-string `content` (see ## Left out) |
| AgentMonitor.VisitChanged | hooks/lifecycle/agent-monitor.mjs:122-167 | a changed file's visit records its entry, appends the decided notification and updates the registry as decided |
| AgentMonitor.ScanFiles | hooks/lifecycle/agent-monitor.mjs:117-168 | the loop's state, notifications and registry are `ScanSteps` over all agent files |
| AgentMonitor.StateNotRegistry | hooks/lifecycle/agent-monitor.mjs:107-108 | the state file and the registry are different files |
| AgentMonitor.Monitor | hooks/lifecycle/agent-monitor.mjs:90-201 | corrected marker skip (see ## Findings): blank input, input that does not parse or a `cwd` that is not a string changes nothing and prints nothing; otherwise all agent logs are scanned in directory order, the registry and state are written and the reply carries the notifications; weaker than the source on some malformed inputs (see ## Left out) |
| HistoryMcp.TemplateParses | hooks/lifecycle/history-mcp.mjs:37-42 | a fresh history file parses: its frontmatter holds the two stamps and its body is one empty line |
| HistoryMcp.StampLines | hooks/lifecycle/history-mcp.mjs:65-70 | the rewrite keeps the number of lines |
| HistoryMcp.TimestampLines | hooks/lifecycle/history-mcp.mjs:62-72 | the rewrite keeps the number and order of the lines: a line starting with `last_updated:` becomes `last_updated: <now>`, every other line stays |
| HistoryMcp.TimestampIdempotent | hooks/lifecycle/history-mcp.mjs:62-72 | stamping again with the same time changes nothing |
| HistoryMcp.SubLines | hooks/lifecycle/history-mcp.mjs:83-85 | one line per sub-bullet |
| HistoryMcp.ClosedAppend | hooks/lifecycle/history-mcp.mjs:78-89 | closing two runs of lines is closing each in turn |
| HistoryMcp.FormatEntry | hooks/lifecycle/history-mcp.mjs:74-91 | the entry is the heading, a blank line, each bullet followed by its sub-bullets, and a blank line |
| HistoryMcp.SplitClosed | hooks/lifecycle/history-mcp.mjs:108 | split at newlines, closed lines in front of more text give those lines, then the text's lines |
| HistoryMcp.EntryLines | hooks/lifecycle/history-mcp.mjs:74-91 | split at newlines, the entry is the heading, an empty line, one line per bullet and per sub-bullet in order, and two empty lines |
| HistoryMcp.FirstLinesPrefix | hooks/lifecycle/history-mcp.mjs:123-124 | taking the first lines of a text keeps a prefix of it |
| HistoryMcp.JoinTakePrefix | hooks/lifecycle/history-mcp.mjs:124 | joining the first `n` parts gives a prefix of joining them all |
| HistoryMcp.FirstLinesCount | hooks/lifecycle/history-mcp.mjs:123-124 | the first `n` lines of a text with more lines count `n` lines |
| HistoryMcp.Capped | hooks/lifecycle/history-mcp.mjs:104-127 | the kept body is always a prefix of the old one; all of it is kept when the file stays within 250 lines; otherwise the file is cut to at most 250 lines when there is room, and the body is dropped when there is none |
| HistoryMcp.CutLines | hooks/lifecycle/history-mcp.mjs:111-126 | when the body is cut, the file has exactly 248 lines, because the three line counts overlap |
| HistoryMcp.NewestFirst | hooks/lifecycle/history-mcp.mjs:93-135 | the written file is the refreshed frontmatter, the new entry, then a prefix of the old body; read back, its body starts with the entry |
| HistoryMcp.LogHistoryEntry | hooks/lifecycle/history-mcp.mjs:93-135 | a missing history file is created from the template; the file is then rewritten as `NewHistory` says, and the call fails, leaving the template or old text, when it has no frontmatter |
| HistoryMcp.RewriteHistory | hooks/lifecycle/history-mcp.mjs:97-129 | the new text is `NewHistory`: parsed, restamped, the entry first and the body capped; none when the parse throws |
| HistoryMcp.TrimBody | hooks/lifecycle/history-mcp.mjs:104-127 | the cap keeps what `KeptBody` says |
| HistoryMcp.BulletsError | hooks/lifecycle/history-mcp.mjs:209-216 | there is no problem exactly when no bullet has one, and a reported problem is some bullet's |
| HistoryMcp.CheckCall | hooks/lifecycle/history-mcp.mjs:195-235 | a tool other than `logHistoryEntry` is unknown; the call is accepted exactly when the title is a non-empty string, the bullets a non-empty array and each bullet valid; a bad title fails with its message; an accepted call carries the title and one bullet per element |
| HistoryMcp.CheckedTexts | hooks/lifecycle/history-mcp.mjs:209-212 | a checked bullet's text is never empty |
| HistoryMcp.HandleCall | hooks/lifecycle/history-mcp.mjs:190-236 | a rejected call changes nothing and fails with the validation message; an accepted one logs the entry and replies with the title and the history file's path, or fails with the frontmatter error; the path in the reply is resolved, which differs from the source for a relative project directory (see ## Left out) |
| ClaudeMdValidator.StartDir | hooks/claude-md-validator.mjs:13-24 | the walk starts in a directory containing the edited file; with no file named it starts at `cwd`; it fails exactly when the first edit names no string path; weaker than the source on some malformed inputs (see ## Left out) |
| ClaudeMdValidator.WalkDirs | hooks/claude-md-validator.mjs:29-53 | the walk visits the start directory and each parent in turn, most specific first, down to `cwd` when that is an ancestor and to the root otherwise |
| ClaudeMdValidator.WalkEnds | hooks/claude-md-validator.mjs:41-50 | the walk visits `cwd` last when it is an ancestor of the start and never before; otherwise it ends at the root without visiting it |
| ClaudeMdValidator.Found | hooks/claude-md-validator.mjs:32-39 | exactly the CLAUDE.md files present in the visited directories are found, with their text, more specific first |
| ClaudeMdValidator.CollectedDistinct | hooks/claude-md-validator.mjs:55-65 | no file is collected twice; the global CLAUDE.md appears at most once |
| ClaudeMdValidator.CollectedContents | hooks/claude-md-validator.mjs:29-65 | every collected file exists with the text read; every CLAUDE.md on the walk is collected; the global file is collected whenever it exists |
| ClaudeMdValidator.Section | hooks/claude-md-validator.mjs:73 | a section is never empty |
| ClaudeMdValidator.Sections | hooks/claude-md-validator.mjs:72-73 | one section per file, in order |
| ClaudeMdValidator.MergeShape | hooks/claude-md-validator.mjs:67-74 | the rules text is empty exactly when no file was found; each further file adds one break and its section at the end |
| ClaudeMdValidator.FoundStep | hooks/claude-md-validator.mjs:30-52 | a step below `cwd` and the root contributes its own file, then its parent's walk |
| ClaudeMdValidator.FoundLast | hooks/claude-md-validator.mjs:41-50 | the walk's last step, at `cwd` or the root, contributes its own file only |
| ClaudeMdValidator.CollectClaudeMdFiles | hooks/claude-md-validator.mjs:10-75 | the merged rules of the collected files, or none when the start directory cannot be resolved |
| ClaudeMdValidator.SafePrefixes | hooks/claude-md-validator.mjs:266-269 | the safe prefixes are exactly the trimmed lines that are neither blank nor comments |
| ClaudeMdValidator.IgnoredByLine | hooks/claude-md-validator.mjs:259-276 | a command is skipped exactly when the trimmed text of some safe line of `ignored-bash.txt` begins the trimmed command |
| ClaudeMdValidator.Hook | hooks/claude-md-validator.mjs:235-309 | rules are handed to the validator exactly when it is not the validator's own call, not `TodoWrite`, not an ignored Bash command, and the start directory resolves; they are the merged collected rules; weaker than the source on some malformed inputs (see ## Left out) |
| ClaudeMdValidator.ShownCommand | hooks/claude-md-validator.mjs:103-107 | a command is logged whole up to 60 characters, and as its first 60 followed by `...` beyond |
| ClaudeMdValidator.LogDetail | hooks/claude-md-validator.mjs:101-110 | the log line starts with `Validating <tool>` |
| ClaudeMdValidator.FailVerdict | hooks/claude-md-validator.mjs:212-217 | `FAIL: <summary>` reads as a violation whatever white space surrounds it |
| ClaudeMdValidator.FixedVerdict | hooks/claude-md-validator.mjs:212-219 | `FIXED: <description>` reads as an automatic fix |
| ClaudeMdValidator.SkipVerdict | hooks/claude-md-validator.mjs:177-224 | `SKIP: <command>`, a verdict the prompt allows, is logged as unexpected |
| ClaudeMdValidator.PassVerdict | hooks/claude-md-validator.mjs:220-221 | only the exact word `PASS` is a pass, and text starting with `PASS` is never a violation or a fix |
| ClaudeMdValidator.ClassifyFail | hooks/claude-md-validator.mjs:215 | any result starting with `FAIL` is a violation |
| ClaudeMdValidator.ClassifyFixed | hooks/claude-md-validator.mjs:218 | any result starting with `FIXED` is an automatic fix |
| ClaudeMdValidator.ClassifySkip | hooks/claude-md-validator.mjs:222-224 | a result starting with `S` is unexpected |
| ClaudeMdManager.ExtensionPlain | hooks/claude-md-manager.mjs:310 | an extension holds no `.`, and a name without one is its own extension |
| ClaudeMdManager.ExtensionAfterDot | hooks/claude-md-manager.mjs:310 | a name with a `.` ends with a `.` and its extension |
| ClaudeMdManager.FileTypes | hooks/claude-md-manager.mjs:301-311 | the types are exactly the extensions of 1 to 9 characters of the regular files, in directory order |
| ClaudeMdManager.Subdirs | hooks/claude-md-manager.mjs:313-320 | the sub-directories are exactly the directory entries whose names do not start with `.` |
| ClaudeMdManager.TargetLines | hooks/claude-md-manager.mjs:67-82 | `~150` exactly for the working directory; `~100` exactly below it with more than 20 file types or more than 8 sub-directories; `<25` exactly with fewer than 5 and fewer than 3; `~50` otherwise |
| ClaudeMdManager.TargetMonotone | hooks/claude-md-manager.mjs:67-82 | below the working directory more files or sub-directories never ask for less, and never for more than the working directory gets |
| ClaudeMdManager.SubdirListing | hooks/claude-md-manager.mjs:139 | no sub-directories are listed as `none` |
| ClaudeMdManager.ListingLimit | hooks/claude-md-manager.mjs:138-139 | names after the tenth never reach the prompt; ten or fewer are all listed |
| ClaudeMdManager.RuleFileTests | hooks/claude-md-manager.mjs:268-283 | on a normalised path, ending in `/CLAUDE.md` and being named CLAUDE.md are the same test |
| ClaudeMdManager.ClaudeDirTest | hooks/claude-md-manager.mjs:274 | the three `.claude` tests come down to containing `/.claude` |
| ClaudeMdManager.ClaudeSegmentSkipped | hooks/claude-md-manager.mjs:273-277 | a directory with any segment starting with `.claude`, `.claude-old` included, is skipped |
| ClaudeMdManager.RelativeEmpty | hooks/claude-md-manager.mjs:322-326 | the relative path is empty exactly for the working directory itself |
| ClaudeMdManager.RelativeOutside | hooks/claude-md-manager.mjs:322 | outside the working directory the relative path starts with `..` |
| ClaudeMdManager.WalkLineage | hooks/claude-md-manager.mjs:41-63 | below the working directory the walk sees the directories from `cwd` down to the start, in that order, never leaves `cwd`, and leaves out the start's own CLAUDE.md |
| ClaudeMdManager.ParentRulesBelow | hooks/claude-md-manager.mjs:41-63 | started in a directory inside `cwd`, the hierarchy is the CLAUDE.md files from `cwd` down, root first |
| ClaudeMdManager.GetClaudeMdHierarchy | hooks/claude-md-manager.mjs:41-63 | the loop's hierarchy is `ParentRules`: each file found is put in front |
| ClaudeMdManager.Plan | hooks/claude-md-manager.mjs:214-361 | the payload names the edited file, the relative directory (never empty), the directory's CLAUDE.md (with its text when it exists) and the directory's file types and sub-directories; weaker than the source on some malformed inputs (see ## Left out) |
| ClaudeMdManager.PlanSpawns | hooks/claude-md-manager.mjs:249-326 | the writer is started exactly for a write or edit of a file not named CLAUDE.md, outside any `/.claude` directory, in a readable directory other than `cwd`; weaker than the source on some malformed inputs (see ## Left out) |
| ClaudeMdManager.Worker | hooks/claude-md-manager.mjs:41-188 | with `fileDir` as the edited file's directory, the query lists the first ten types and sub-directories and shows the parent hierarchy |
| ClaudeMdManager.WorkerAsWritten | hooks/claude-md-manager.mjs:42-43 | the writer as written throws a ReferenceError on its first read of `fileDir`; it has no contract of its own, and UnboundDirectory states that this happens for every payload the hook sends |
| ClaudeMdManager.UnboundDirectory | hooks/claude-md-manager.mjs:42-43 | for every payload the hook can send, the writer as written never reaches its query, while the corrected writer does |
| ClaudeMdManager.WorkerRequest | hooks/claude-md-manager.mjs:67-82 | a directory the hook hands over is never `cwd`, so `~150` is never asked for; inside `cwd` the writer is shown the CLAUDE.md files from `cwd` down |
| SessionClaudeMd.Gate | hooks/lifecycle/claude-md-manager.mjs:292-339 | a worker starts exactly for a `SessionEnd` whose reason is not `other` and that carries a truthy session id; it gets that id, and a truthy `cwd` whenever the process has one |
| SessionClaudeMd.NonEmpty | hooks/lifecycle/claude-md-manager.mjs:101 | exactly the non-empty lines are kept, never more than there were |
| SessionClaudeMd.ChangedFileLines | hooks/lifecycle/claude-md-manager.mjs:100-101 | the changed files are the non-empty lines of the trimmed git output; blank output gives none |
| SessionClaudeMd.ShownPath | hooks/lifecycle/claude-md-manager.mjs:118 | the shown path is never empty |
| SessionClaudeMd.GroupedNames | hooks/lifecycle/claude-md-manager.mjs:112-133 | under each directory filed are the names of exactly its eligible changed files, in input order, and only directories with such files are filed |
| SessionClaudeMd.GroupedOrder | hooks/lifecycle/claude-md-manager.mjs:129-131 | each directory is filed once, in the order its first eligible file came |
| SessionClaudeMd.ShownInside | hooks/lifecycle/claude-md-manager.mjs:127 | a directory whose relative path does not start with `..` lies in `cwd` |
| SessionClaudeMd.GroupedInside | hooks/lifecycle/claude-md-manager.mjs:115-133 | every directory filed is a normalised path in `cwd` |
| SessionClaudeMd.GroupChangedFiles | hooks/lifecycle/claude-md-manager.mjs:112-133 | the loop builds the map `Grouped` describes |
| SessionClaudeMd.GetDirectoryInfo | hooks/lifecycle/claude-md-manager.mjs:26-57 | listing fails exactly when the directory cannot be read or an entry cannot be stat'ed; otherwise it holds the file types and sub-directories, is the root exactly for `cwd`, and gets the target for those counts |
| SessionClaudeMd.ShownDot | hooks/lifecycle/claude-md-manager.mjs:118 | the shown path is `.` exactly for `cwd` itself |
| SessionClaudeMd.JobFor | hooks/lifecycle/claude-md-manager.mjs:143-150 | a directory's request fails exactly when listing it fails |
| SessionClaudeMd.UntilFailure | hooks/lifecycle/claude-md-manager.mjs:143-150 | the results are those of the steps before the first failure, and the run completes exactly when none failed |
| SessionClaudeMd.Attempts | hooks/lifecycle/claude-md-manager.mjs:143 | one attempt per grouped directory |
| SessionClaudeMd.AddFileOrder | hooks/lifecycle/claude-md-manager.mjs:115-133 | one turn of the grouping loop files its first directory exactly when nothing was filed and the file is eligible |
| SessionClaudeMd.GroupedEmpty | hooks/lifecycle/claude-md-manager.mjs:113-138 | no directory is filed exactly when no changed file is eligible |
| SessionClaudeMd.Worker | hooks/lifecycle/claude-md-manager.mjs:88-150 | the worker ends without a query exactly when git fails, git reports no file, or no reported file is eligible; its requests are described by WorkerIsJobs, WorkerCompletes and the WorkerJob lemmas; every request is computed from the files as they stood when the worker started (see ## Left out) |
| SessionClaudeMd.WorkerIsJobs | hooks/lifecycle/claude-md-manager.mjs:88-287 | once git reported files, the worker's requests are those for the grouped directories in order, up to the first that fails; every request is computed from the files as they stood when the worker started (see ## Left out) |
| SessionClaudeMd.WorkerCompletes | hooks/lifecycle/claude-md-manager.mjs:143-150 | the worker covers every grouped directory unless one cannot be listed; then it stops at the first such directory |
| SessionClaudeMd.WorkerJobDirectory | hooks/lifecycle/claude-md-manager.mjs:143-150 | each request is for a directory in `cwd`, in order of first appearance, named `.` and counted as the root exactly for `cwd` |
| SessionClaudeMd.WorkerJobChanged | hooks/lifecycle/claude-md-manager.mjs:143-247 | each request lists its directory's eligible changed files, in order, and at least one |
| SessionClaudeMd.WorkerJobHierarchy | hooks/lifecycle/claude-md-manager.mjs:62-83 | each request shows the CLAUDE.md files from `cwd` down to, not including, its directory, root first, as they stood when the worker started (see ## Left out) |
| FeatureValidator.Messages | hooks/feature-validator.mjs:41-48 | never more entries than lines |
| FeatureValidator.MessagesKept | hooks/feature-validator.mjs:41-48 | an entry is kept exactly when its line parses to a truthy value |
| FeatureValidator.AssistantsBetween | hooks/feature-validator.mjs:61-65 | a range yields no more entries than it holds |
| FeatureValidator.AssistantsKept | hooks/feature-validator.mjs:61-65 | the entries kept from a range are exactly its entries of type `assistant` |
| FeatureValidator.RecentUpTo | hooks/feature-validator.mjs:50-65 | the latest turn has no more entries than were read |
| FeatureValidator.RecentAfterLastUser | hooks/feature-validator.mjs:50-65 | with `u` the last user entry (or none), the latest turn is the assistant entries after `u` |
| FeatureValidator.RecentAssistants | hooks/feature-validator.mjs:59-65 | the latest turn holds only assistant entries of the transcript |
| FeatureValidator.RecentWithoutUser | hooks/feature-validator.mjs:51-65 | without a user entry the latest turn is every assistant entry |
| FeatureValidator.RecentAssistantMessages | hooks/feature-validator.mjs:36-68 | a missing transcript gives nothing; otherwise the backward and forward scans give `Recent` |
| FeatureValidator.Content | hooks/feature-validator.mjs:77 | the content read is truthy, or the empty array |
| FeatureValidator.Blocks | hooks/feature-validator.mjs:77-78 | the blocks visited are never `null`; an array without `null` is visited whole |
| FeatureValidator.AllBlocksDefined | hooks/feature-validator.mjs:76-86 | walking the blocks fails exactly when one message's blocks cannot be read |
| FeatureValidator.AllBlocksStep | hooks/feature-validator.mjs:76-86 | one more readable message adds its blocks at the end |
| FeatureValidator.AllBlocksStuck | hooks/feature-validator.mjs:76-86 | a message whose blocks cannot be read makes the whole walk fail |
| FeatureValidator.CallsIn | hooks/feature-validator.mjs:78-85 | no more calls than blocks |
| FeatureValidator.CallsInKept | hooks/feature-validator.mjs:78-85 | every `tool_use` block gives a call, and every call comes from one |
| FeatureValidator.CallsStep | hooks/feature-validator.mjs:78-85 | one more block adds its call exactly when it is a `tool_use` |
| FeatureValidator.CallsAppend | hooks/feature-validator.mjs:76-86 | the calls of two block lists are the calls of each in turn |
| FeatureValidator.ArrayCalls | hooks/feature-validator.mjs:78-85 | the inner loop throws exactly on a `null` block, and otherwise gives `CallsIn` |
| FeatureValidator.ToolCalls | hooks/feature-validator.mjs:73-89 | the calls of every message's `tool_use` blocks in order, failing exactly when some message's blocks cannot be read |
| FeatureValidator.ArrayTexts | hooks/feature-validator.mjs:99-103 | the inner loop throws exactly on a `null` block, and otherwise gives the texts of the text blocks |
| FeatureValidator.AssistantText | hooks/feature-validator.mjs:94-107 | the texts of every message's text blocks in order, joined with a blank line, failing exactly when some message's blocks cannot be read |
| FeatureValidator.RequiresValidation | hooks/feature-validator.mjs:112-119 | validation is needed exactly when some call is a Write, Edit, MultiEdit or NotebookEdit |
| FeatureValidator.SomeOrThrow | hooks/feature-validator.mjs:314-317 | the test answers false exactly when it answers false for every element; otherwise its answer is that of the first element that does not answer false |
| FeatureValidator.WritesReport | hooks/feature-validator.mjs:314-317 | a call writes the report exactly when it is a Write or Edit whose string `file_path` ends in `/validation.md`; the test throws exactly for a Write or Edit whose `file_path` is present and not a string |
| FeatureValidator.SomeOrThrowFalse | hooks/feature-validator.mjs:314-317 | the test answers false for the list exactly when it answers false for each element |
| FeatureValidator.NearestProject | hooks/feature-validator.mjs:323-332 | the walk settles on the first marked directory on the way up, the root excluded, or on the start when there is none |
| FeatureValidator.FindProjectDir | hooks/feature-validator.mjs:323-332 | the loop returns `NearestProject` |
| FeatureValidator.Hook | hooks/feature-validator.mjs:289-395 | input that is not JSON, and only that, ends the hook with exit 1; a validation starts only for a Stop event outside a stop hook, with a non-empty latest turn and the hook's working directory; HookSpawns and HookJob state the exact condition and job |
| FeatureValidator.HookSpawns | hooks/feature-validator.mjs:289-395 | a validation starts exactly for a Stop event outside a stop hook whose latest turn can be read, changed code, and did not write the report |
| FeatureValidator.HookJob | hooks/feature-validator.mjs:334-374 | the job carries the latest turn, which is not empty, the working directory and its project directory |
| FeatureValidator.ReportContent | hooks/feature-validator.mjs:217-257 | a report is written exactly when the result lacks the pass marker; it ends with the new entry, keeps the trimmed old text in front, or starts with the title in a fresh or blank file |
| FeatureValidator.ReportKeepsTitle | hooks/feature-validator.mjs:248-251 | a report file starting with the title keeps it when another report is added |
| FeatureValidator.RunValidation | hooks/feature-validator.mjs:217-262 | a result with issues is written to the project's report file as `ReportContent` says; a passing one changes nothing; weaker than the source on some malformed inputs (see ## Left out) |
| SessionHistoryLogger.Hook | hooks/lifecycle/session-history-logger.mjs:202-253 | the hook throws exactly for input that is not JSON or is `null`; a started worker receives the input's transcript path and session id, both truthy; HookSpawns states the exact start condition |
| SessionHistoryLogger.HookSpawns | hooks/lifecycle/session-history-logger.mjs:202-253 | the worker is started exactly for a `SessionEnd` whose reason is not `other` and that has a transcript path and a session id; it receives both unchanged and a non-empty directory, the input's own `cwd` when that is set |
| SessionHistoryLogger.NonBlank | hooks/lifecycle/session-history-logger.mjs:45-46 | a line contributes a message exactly when its text has a character that is not white space; the message is trimmed and occurs in the text |
| SessionHistoryLogger.LineOf | hooks/lifecycle/session-history-logger.mjs:36-67 | a line gives a user message only from a `user` entry and an assistant message only from an `assistant` entry, each trimmed and not empty; UserLineShape and AssistantLineShape add where the text comes from |
| SessionHistoryLogger.UserLineShape | hooks/lifecycle/session-history-logger.mjs:40-47 | a user message comes from a `user` entry with string content and is that content trimmed; array content from the user gives nothing |
| SessionHistoryLogger.AssistantLineShape | hooks/lifecycle/session-history-logger.mjs:48-62 | an assistant message comes from an `assistant` entry and is trimmed and not empty |
| SessionHistoryLogger.UsersKept | hooks/lifecycle/session-history-logger.mjs:36-47 | a text is among the user messages exactly when some line gives it as a user message |
| SessionHistoryLogger.AssistantsKept | hooks/lifecycle/session-history-logger.mjs:36-62 | a text is among the assistant messages exactly when some line gives it as an assistant message |
| SessionHistoryLogger.MessagesOfLines | hooks/lifecycle/session-history-logger.mjs:27-71 | the messages of a transcript are exactly the texts its lines give, user and assistant kept apart |
| SessionHistoryLogger.MessagesTrimmed | hooks/lifecycle/session-history-logger.mjs:45-61 | every message read from a transcript is trimmed and not empty |
| SessionHistoryLogger.ParseTranscript | hooks/lifecycle/session-history-logger.mjs:27-71 | a missing transcript gives no messages; otherwise the loop yields exactly the user and assistant messages of its lines, in order |
| SessionHistoryLogger.Truncated | hooks/lifecycle/session-history-logger.mjs:123-125 | a message of at most 500 characters is kept as it is; a longer one keeps its first 500 characters and ends with `...` |
| SessionHistoryLogger.RoundsLength | hooks/lifecycle/session-history-logger.mjs:118-128 | the interleaving has two entries per round while both lists last and one per round after that |
| SessionHistoryLogger.RoundsGrow | hooks/lifecycle/session-history-logger.mjs:118-128 | later rounds only append to the conversation built so far |
| SessionHistoryLogger.RoundEntries | hooks/lifecycle/session-history-logger.mjs:118-128 | the entries of one round land at positions `2i` and `2i+1` while both lists last, and at `m+i` after that |
| SessionHistoryLogger.RoundsLayout | hooks/lifecycle/session-history-logger.mjs:118-128 | user and assistant messages alternate, user first, while both lists last; the longer list's remaining messages follow in order |
| SessionHistoryLogger.Interleaved | hooks/lifecycle/session-history-logger.mjs:118-128 | the complete interleaving holds every entry of both lists and nothing more |
| SessionHistoryLogger.BuildConversation | hooks/lifecycle/session-history-logger.mjs:110-128 | the loop builds exactly the user-first interleaving of the recent user and assistant messages |
| SessionHistoryLogger.Worker | hooks/lifecycle/session-history-logger.mjs:76-128 | the worker stops with no changes exactly when git succeeded and both outputs are blank; it stops with no messages exactly when the transcript gives none; otherwise it summarizes the interleaving of the last ten messages of each kind |
| SessionHistoryLogger.SummaryHoldsRecent | hooks/lifecycle/session-history-logger.mjs:111-128 | the conversation handed over has one entry per recent message, at most twenty, and holds each of the last ten user and assistant messages |
| ActivityTracker.ReverseAppend | hooks/state-tracking/activity-tracker.js:98 | reversing a concatenation reverses and swaps its parts |
| ActivityTracker.ReverseReverse | hooks/state-tracking/activity-tracker.js:98 | reversing twice gives back the original order |
| ActivityTracker.FlattenMembers | hooks/state-tracking/activity-tracker.js:54-90 | an entry is among those collected from the lines exactly when one line adds it |
| ActivityTracker.GatheredNext | hooks/state-tracking/activity-tracker.js:54-90 | below six entries the backward scan takes the next older line's entry |
| ActivityTracker.GatheredStays | hooks/state-tracking/activity-tracker.js:54 | once six entries are held the scan collects nothing more |
| ActivityTracker.GatheredNewest | hooks/state-tracking/activity-tracker.js:46-90 | the scan holds the prompt followed by the newest transcript entries, newest first, as many as fit under six |
| ActivityTracker.Chronological | hooks/state-tracking/activity-tracker.js:54-98 | reversing the finished scan gives the newest entries that fit in file order, followed by what came first |
| ActivityTracker.ClippedShape | hooks/state-tracking/activity-tracker.js:77-83 | assistant text of at most 800 characters is kept whole; longer text keeps its first and last 400 characters around a `\n...\n` line |
| ActivityTracker.DotKept | hooks/state-tracking/activity-tracker.js:79-84 | a shortened assistant text is never blank |
| ActivityTracker.UserLineTurn | hooks/state-tracking/activity-tracker.js:58-62 | a user line with string content adds that content unless it is empty or holds `<user-prompt-submit-hook>`; every user entry comes from such a line |
| ActivityTracker.AssistantLineTurn | hooks/state-tracking/activity-tracker.js:63-85 | an assistant entry comes from an `assistant` line, is not blank and is at most 805 characters long |
| ActivityTracker.PartsAt | hooks/state-tracking/activity-tracker.js:54-90 | what the collection reads at a line is what that line adds |
| ActivityTracker.PartsAtMostOne | hooks/state-tracking/activity-tracker.js:55-89 | each line adds at most one entry |
| ActivityTracker.TurnsFromLines | hooks/state-tracking/activity-tracker.js:54-90 | an entry is among the transcript's entries exactly when some line adds it |
| ActivityTracker.NoHookOutput | hooks/state-tracking/activity-tracker.js:58-62 | no user entry taken from the transcript holds the hook marker |
| ActivityTracker.HistoryIsRecent | hooks/state-tracking/activity-tracker.js:46-98 | the reversed scan is the newest transcript entries that fit, in file order, then the current prompt |
| ActivityTracker.TurnAt | hooks/state-tracking/activity-tracker.js:55-89 | one pass of the loop body yields exactly the entry the line adds |
| ActivityTracker.CollectNewestFirst | hooks/state-tracking/activity-tracker.js:46-90 | the loop collects the prompt first, then entries from the last line backwards, stopping at six |
| ActivityTracker.ScanNewestFirst | hooks/state-tracking/activity-tracker.js:54-90 | the backward loop ends holding what the scan specification gathers over every line |
| ActivityTracker.CollectHistory | hooks/state-tracking/activity-tracker.js:46-98 | the history is the newest transcript entries that fit, in file order, followed by the current prompt |
| ActivityTracker.HistoryBounds | hooks/state-tracking/activity-tracker.js:54-95 | the history holds at most six entries and is empty exactly when there is no prompt and no transcript entry |
| ActivityTracker.Collect | hooks/state-tracking/activity-tracker.js:10-98 | the hook asks for a classification exactly for a `UserPromptSubmit` with a prompt or transcript entries, and hands over the collected history |
| ActivityTracker.InjectionRule | hooks/state-tracking/activity-tracker.js:255-323 | a protocol is pointed at exactly when confidence is at least 0.8, effort reaches the activity's threshold and the activity has a protocol; testing and other never get one; otherwise the answer is reported |
| ActivityTracker.EffortBounds | hooks/state-tracking/activity-tracker.js:256-271 | a confident answer with effort 7 or more always gets its protocol, effort below 3 never does |

## Left out

- Calls to language models and the agent SDK (`query`, `generateObject`) are not modelled. Their
  results are inputs to the model: the validators' verdict text, the classifier's answer and
  the SDK's message stream.
- Prompt texts and the wording of log messages are not modelled. The model keeps only the exact
  header, status, notification and report strings that other code reads back.
- Starting processes is not modelled: `spawn`, `detached`, `unref`, piping stdin, signals and
  `process.exit`. A spawn is an outcome given as a parameter, with a pid or without one, and
  the payload a hook hands to its worker is its result.
- Concurrency between processes is not modelled, so neither are last-writer-wins races on the
  registry or on the logs. Each hook and handler runs to completion in sequence.
- The clock (`new Date()`, `toISOString`, `toLocaleDateString`) and `Math.random` are
  parameters. The date formats themselves are not modelled.
- JSON text is not modelled. A document is either `Garbled` or the value `JSON.parse` gives, and
  a standard input that does not parse is read as `None`. `JSON.stringify` is modelled only by
  the values it carries.
- JavaScript moves integer-like keys to the front of an object's key order. The model does not;
  object members keep their insertion order.
- Numbers are integers. Floating point is not modelled, nor is the `Math.round(confidence * 100)`
  percentage in the activity tracker's report line. The confidence is a `real`.
- `HOME` and `os.homedir()` are a given path.
- Strings are sequences of characters, and lengths, slices and `indexOf` count characters. The
  one exception is the monitor's `📝` marker, which is modelled on UTF-16 code units because
  the defect below depends on them. Elsewhere, text with characters outside the Basic
  Multilingual Plane may measure longer in JavaScript than in the model.
- `toLowerCase` is modelled by `Strings.ToLower`, which folds only the ASCII letters. JavaScript
  folds all of Unicode, so a model name with non-ASCII capitals may be classified differently.
- A JSON field of an unexpected type that would make the JavaScript throw is read as absent
  where the surrounding code catches the error. Where it does not, the model ends the hook
  without output, except for the members listed by name below, whose contracts are weaker than
  the source on those inputs.
- ReadCursorConfig: treats every parsed `CURSOR_RUNNER_CURSOR_ARGS` that is not an array as a
  missing configuration, exit 1 with nothing written. The source exits only when
  `cursorArgs.length === 0`: `null` throws at `.length`, before any handler exists, so it also
  exits 1 with nothing written; an object, a string or a number is handed on to `spawn`, and
  those paths are not modelled.
- LoadState: reads a state file that parses to `null` or to a string, number or boolean as `{}`.
  In the source, `null` makes `state[fileId]` throw for the first agent log, and a primitive
  makes the assignment `state[fileId] = …` throw in strict mode after that log's notification
  and registry removal. Either way the hook then ends without a reply or a saved state, unless
  there is no agent log.
- Monitor: inherits the LoadState gap and the Decide gap. It also takes `cwd` as the absolute
  path it names, while the source joins the raw text. A relative or empty `cwd` therefore gives
  different file ids, state keys and relative paths in the source than in the model.
- Decide: reads a saved state entry whose `content` is truthy but not a string (a number, a
  boolean, an array or an object) as having no previous content. In the source,
  `previousContent.split` throws for such a value when a file seen before is updated while
  still in progress, and `main().catch` ends the hook with no reply and no saved state. The
  model reports the update and saves the state.
- NotifyFile: carries the Decide gap: for such a saved `content` it records a progress
  notification where the source throws.
- StartDir: returns a start directory for every input. In the source, a truthy `file_path` that
  is not a string, or an `edits` string whose first character has no string `file_path`, makes
  `resolve` throw, and the hook dies without output.
- Hook: the ClaudeMdValidator member inherits the StartDir gap. It also reads a Bash `command` that is
  not a string as absent, while the source's `.trim()` throws and the hook dies without output.
  Without a file path, it starts the walk at `cwd` as the normalised absolute path it names. The
  source starts at the raw `cwd` text and stops only at `resolve(cwd)`. A `cwd` that is not
  already in that form, such as `/p/` with a trailing slash, never equals it, so the source
  walks on to the file system root and also merges a `/CLAUDE.md`; the model stops at `cwd`.
- HandleCall: replies with the history file's path resolved against the process's directory.
  The source prints `join(CLAUDE_PROJECT_DIR, '.claude/memory/history.md')` unresolved, so for
  a relative project directory such as `proj` its reply names
  `proj/.claude/memory/history.md`, while the model names the absolute path. The file written
  is the same.
- Worker: the SessionClaudeMd member computes every directory's request from the files as they
  stood when the worker started. In the source, each directory's writer query runs to
  completion, with the Write tool allowed, before the next directory's CLAUDE.md, listing and
  parent hierarchy are read. A CLAUDE.md that an earlier writer created or changed is therefore
  shown to later requests in the source but not in the model. The writers' file writes are
  not modelled.
- WorkerIsJobs: carries the Worker gap; the requests it describes are those computed from the
  starting files.
- WorkerJobHierarchy: carries the Worker gap; the hierarchy it describes is taken from the
  starting files, so a parent CLAUDE.md that an earlier writer created is missing from it.
- Plan: resolves the edited path before its `.claude` and `CLAUDE.md` tests, while the source
  tests the raw `dirname` text. A path that passes through `.claude` without being normalised,
  such as `/p/.claude/../src/a.ts`, is skipped by the source and handed to the writer by the
  model.
- PlanSpawns: states the spawn condition over the resolved path, so it carries the Plan gap.
- RunValidation: writes the report even when a `tool_use` block has no `input`. In the source,
  `JSON.stringify(undefined).substring` throws while the prompt is built, so no validation runs
  and no report is written.
- The activity tracker's `reverse()` works in place on its array. It is modelled as a function
  on the collected sequence.
- Transcripts and other files are looked up by the text of their path, as the hooks pass it to
  `readFileSync`.
- The MCP server wiring of the history tool is not modelled: the server object, the stdio
  transport, `tools/list` and its `log` helper.
- Debug logs and log files written only for people are not modelled. This covers the
  `hooks.log` entries, the activity tracker's log, the validators' logs, the runners'
  `console` output, and writes whose failure is ignored. One exception: the text of the CLAUDE.md
  validator's `Validating <tool>` log line is modelled by LogDetail, because it applies the
  60-character command shortening; writing it to the log file is not modelled.
- The activity tracker's `conversation-state/<session>.json` record is not modelled. Its write
  is ignored on failure and nothing in the model reads it.
- The runners' `unhandledRejection` handlers are not modelled, because neither runner creates a
  promise that could reach them. Their `uncaughtException` handlers are modelled. A hook's
  `main().catch` is modelled only as the exit it causes.

## Findings

| source | as written | input that shows it | evidently intended | confidence | as-written member | corrected member |
|---|---|---|---|---|---|---|
| hooks/lifecycle/agent-monitor.mjs:72 | `line.substring(line.indexOf('📝') + 1)` skips one UTF-16 code unit, but `📝` is two code units | a log line consisting of `📝` alone reports the lone low surrogate `\uDCDD` instead of nothing | skip the whole marker (`+ 2`, that is, `'📝'.length`) | not executed | AgentMonitor.AsWrittenKeepsLowHalf, AgentMonitor.MarkerAloneReported | AgentMonitor.LineUpdate, AgentMonitor.ExtractUpdateContent |
| hooks/claude-md-manager.mjs:43 | `backgroundWorker` reads `fileDir`, which is bound only in `main`, so the worker throws a `ReferenceError` before its query | any payload the hook sends, for example an `Edit` of `/p/src/a.ts` with `cwd` `/p` | the worker derives the directory from the payload, `dirname(filePath)` | not executed | ClaudeMdManager.UnboundDirectory | ClaudeMdManager.Worker, ClaudeMdManager.WorkerRequest |
| hooks/pre-tool-use/agent-system/agent-script.mjs:213-215 | the `catch` appends `## Status: Failed` and leaves the header at `Status: in-progress`, and the script then exits with code 0 | a query that throws, after which the runner's exit handler sees code 0 and writes `Status: done` | the header is rewritten to `failed` in the `catch` | not executed | AgentScript.CatchAsWritten, AgentScript.CatchLeavesHeader, AgentScript.FailedRunEndsDone | AgentScript.FailedRunEndsFailed, AgentScript.Script.Fail |
