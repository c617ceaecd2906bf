/**
 * `cursor-runner.js`: the process that runs `cursor-agent`, turns the JSON events it prints,
 * one per line, into text in the agent's log, and finalises the header like the Claude runner.
 */
module CursorRunner {
  import opened Common
  import opened Strings
  import opened JsonValues
  import opened Paths
  import opened Files
  import opened LogHeader
  import opened RunnerCore
  import opened SpawnHelpers

  // ---------------------------------------------------------------- configuration

  /**
   * The runner's environment: the shared variables and what `JSON.parse` makes of
   * `CURSOR_RUNNER_CURSOR_ARGS || '[]'` (`None` when it throws, which stands for `[]`).
   */
  datatype CursorEnv = CursorEnv(core: RunnerEnv, cursorArgs: Option<Json>)

  datatype CursorConfig = CursorConfig(core: RunnerConfig, args: seq<Json>)

  /** The configuration, or `None` (exit code 1, nothing written) when a variable is missing or no argument is given. */
  function ReadCursorConfig(env: CursorEnv, processCwd: Path): (c: Option<CursorConfig>)
    requires ValidPath(processCwd)
    ensures c.Some? <==>
      ReadConfig(env.core, processCwd).Some?
      && env.cursorArgs.Some? && env.cursorArgs.value.JArr? && env.cursorArgs.value.items != []
    ensures c.Some? ==>
      c.value.core == ReadConfig(env.core, processCwd).value && JArr(c.value.args) == env.cursorArgs.value
  {
    match ReadConfig(env.core, processCwd)
    case Some(core) =>
      if env.cursorArgs.Some? && env.cursorArgs.value.JArr? && env.cursorArgs.value.items != [] then
        Some(CursorConfig(core, env.cursorArgs.value.items))
      else None
    case None => None
  }

  /** The argument list as `JSON.stringify` writes it and `JSON.parse` reads it back. */
  function StringArgs(args: seq<string>): (js: seq<Json>)
    ensures |js| == |args| && forall i :: 0 <= i < |args| ==> js[i] == JStr(args[i])
  {
    seq(|args|, i requires 0 <= i < |args| => JStr(args[i]))
  }

  /** The variables a launch sets, as the runner finds them. */
  function EnvOfCursorLaunch(l: CursorLaunch): CursorEnv
  {
    CursorEnv(
      RunnerEnv(Some(l.agentId), Some(Render(l.logPath)), Some(Render(l.registryPath)),
        Some(Render(l.workingDirectory)), Some(l.childDepth)),
      Some(JArr(StringArgs(l.cursorArgs))))
  }

  /**
   * What `spawnCursorAgent` hands over is what the runner reads back: the same id, files and
   * arguments, and the depth the spawner computed.
   */
  lemma CursorLaunchReadBack(l: CursorLaunch, depth: int, processCwd: Path)
    requires l.agentId != "" && l.cursorArgs != []
    requires ParseInt(l.childDepth) == Some(depth) && depth != 0
    requires ValidPath(l.logPath) && ValidPath(l.registryPath) && ValidPath(l.workingDirectory)
    requires ValidPath(processCwd)
    ensures ReadCursorConfig(EnvOfCursorLaunch(l), processCwd)
         == Some(CursorConfig(RunnerConfig(l.agentId, l.logPath, l.registryPath, l.workingDirectory, depth), StringArgs(l.cursorArgs)))
  {
    ReadRenderedConfig(l.agentId, l.logPath, l.registryPath, l.workingDirectory, l.childDepth, depth, processCwd);
    var env := EnvOfCursorLaunch(l);
    assert env.cursorArgs == Some(JArr(StringArgs(l.cursorArgs)));
  }

  // ---------------------------------------------------------------- text chunks

  /** Members whose non-empty string value is itself a chunk. */
  const TextKeys: set<string> := {"text", "content", "delta", "value", "result", "output_text"}

  /** Members whose object or array value is searched further. */
  const NestedKeys: set<string> :=
    {"content", "delta", "message", "value", "parts", "messages", "choices", "data", "output_text"}

  /** `s` is one of the strings held somewhere inside `v`. */
  predicate Within(s: string, v: Json)
  {
    match v
    case JStr(t) => s == t
    case JArr(items) => WithinItems(s, items)
    case JObj(ms) => WithinMembers(s, ms)
    case _ => false
  }

  predicate WithinItems(s: string, items: seq<Json>)
  {
    exists i :: 0 <= i < |items| && Within(s, items[i])
  }

  predicate WithinMembers(s: string, ms: seq<Member>)
  {
    exists i :: 0 <= i < |ms| && Within(s, ms[i].value)
  }

  /** Every chunk is non-empty. */
  predicate Chunks(chunks: seq<string>)
  {
    forall k :: 0 <= k < |chunks| ==> chunks[k] != ""
  }

  /**
   * `collectTextChunks(value, depth)`: the non-empty strings found in `value`, in order,
   * searching no deeper than level 5. Every chunk is a string `value` holds.
   */
  function Collect(v: Json, depth: int): (chunks: seq<string>)
    ensures Chunks(chunks)
    ensures forall k :: 0 <= k < |chunks| ==> Within(chunks[k], v)
    ensures depth > 5 ==> chunks == []
    decreases v, 0
  {
    if v.JNull? || depth > 5 then []
    else match v
      case JStr(s) => if s != "" then [s] else []
      case JArr(items) => CollectItems(items, depth + 1)
      case JObj(ms) => CollectMembers(ms, depth)
      case _ => []
  }

  /** The chunks of each item in turn. */
  function CollectItems(items: seq<Json>, depth: int): (chunks: seq<string>)
    ensures Chunks(chunks)
    ensures forall k :: 0 <= k < |chunks| ==> WithinItems(chunks[k], items)
    decreases items
  {
    if items == [] then []
    else
      var head := Collect(items[0], depth);
      var tail := CollectItems(items[1..], depth);
      WithinItemsCons(items, head, tail);
      head + tail
  }

  lemma WithinItemsCons(items: seq<Json>, head: seq<string>, tail: seq<string>)
    requires items != []
    requires forall k :: 0 <= k < |head| ==> Within(head[k], items[0])
    requires forall k :: 0 <= k < |tail| ==> WithinItems(tail[k], items[1..])
    ensures forall k :: 0 <= k < |head + tail| ==> WithinItems((head + tail)[k], items)
  {
    forall k | 0 <= k < |head + tail| ensures WithinItems((head + tail)[k], items) {
      if k < |head| {
        assert Within((head + tail)[k], items[0]);
      } else {
        var i :| 0 <= i < |items[1..]| && Within(tail[k - |head|], items[1..][i]);
        assert Within((head + tail)[k], items[i + 1]);
      }
    }
  }

  /**
   * The chunks of one member: a text key with a non-empty string; else an array under
   * `content`, item by item; else an object or array under a nested key. (A fourth case, a
   * string under `delta`, is already the first.) An object or array under `delta` is then
   * searched a second time.
   */
  function MemberChunks(key: string, nested: Json, depth: int): (chunks: seq<string>)
    ensures Chunks(chunks)
    ensures forall k :: 0 <= k < |chunks| ==> Within(chunks[k], nested)
    decreases nested, 1
  {
    var first :=
      if key in TextKeys && nested.JStr? && nested.s != "" then [nested.s]
      else if nested.JArr? && key == "content" then CollectItems(nested.items, depth + 1)
      else if (nested.JObj? || nested.JArr?) && key in NestedKeys then Collect(nested, depth + 1)
      else [];
    var again := if key == "delta" && (nested.JNull? || nested.JObj? || nested.JArr?) then Collect(nested, depth + 1) else [];
    first + again
  }

  /** The chunks of each member in turn, as `Object.entries` lists them. */
  function CollectMembers(ms: seq<Member>, depth: int): (chunks: seq<string>)
    ensures Chunks(chunks)
    ensures forall k :: 0 <= k < |chunks| ==> WithinMembers(chunks[k], ms)
    decreases ms
  {
    if ms == [] then []
    else
      var head := MemberChunks(ms[0].key, ms[0].value, depth);
      var tail := CollectMembers(ms[1..], depth);
      WithinMembersCons(ms, head, tail);
      head + tail
  }

  lemma WithinMembersCons(ms: seq<Member>, head: seq<string>, tail: seq<string>)
    requires ms != []
    requires forall k :: 0 <= k < |head| ==> Within(head[k], ms[0].value)
    requires forall k :: 0 <= k < |tail| ==> WithinMembers(tail[k], ms[1..])
    ensures forall k :: 0 <= k < |head + tail| ==> WithinMembers((head + tail)[k], ms)
  {
    forall k | 0 <= k < |head + tail| ensures WithinMembers((head + tail)[k], ms) {
      if k < |head| {
        assert Within((head + tail)[k], ms[0].value);
      } else {
        var i :| 0 <= i < |ms[1..]| && Within(tail[k - |head|], ms[1..][i].value);
        assert Within((head + tail)[k], ms[i + 1].value);
      }
    }
  }

  /** An object under `delta` is searched twice, so its text is collected twice. */
  lemma DeltaTwice(inner: seq<Member>, depth: int)
    requires depth <= 5
    ensures var c := Collect(JObj(inner), depth + 1);
      Collect(JObj([Member("delta", JObj(inner))]), depth) == c + c
  {
    var ms := [Member("delta", JObj(inner))];
    assert ms[1..] == [];
    assert CollectMembers(ms, depth) == MemberChunks("delta", JObj(inner), depth) + [];
  }

  /** `chunks.join('')`. */
  function Concat(chunks: seq<string>): (text: string)
    ensures Chunks(chunks) ==> (text == "" <==> chunks == [])
  {
    if chunks == [] then "" else chunks[0] + Concat(chunks[1..])
  }

  // ---------------------------------------------------------------- events

  /** `typeof event.type === 'string' ? event.type.toLowerCase() : ''`. */
  function EventType(event: Json): string
  {
    match Get(event, "type")
    case Some(JStr(t)) => ToLower(t)
    case _ => ""
  }

  /** Whether an event carries assistant text: by its type, its `role` or its message's `role`. */
  predicate IsAssistantEvent(event: Json)
  {
    var t := EventType(event);
    (t != "" && (t == "assistant" || t == "assistant_delta" || Contains(t, "assistant")
                 || Contains(t, "output_text") || Contains(t, "delta")))
    || Get(event, "role") == Some(JStr("assistant"))
    || Get(Field(event, "message"), "role") == Some(JStr("assistant"))
  }

  predicate IsResultEvent(event: Json)
  {
    var t := EventType(event);
    t == "result" || (t != "" && EndsWith(t, ".result"))
  }

  /** The test on the raw type adds nothing: lowercasing leaves `done` and `complete` as they are. */
  predicate IsDoneEvent(event: Json)
  {
    var t := EventType(event);
    t == "done" || t == "complete"
  }

  predicate IsErrorEvent(event: Json)
  {
    Get(event, "type") == Some(JStr("error")) || Truthy(Field(event, "error"))
  }

  /** The stream's memory: the assistant text last seen, and whether any text was written. */
  datatype Cursor = Cursor(last: string, written: bool)

  /** What one event does: the new memory, the text appended to the log, and the status the header then takes. */
  datatype Outcome = Outcome(cursor: Cursor, appended: string, status: Option<string>)

  /**
   * The text to append for a complete assistant message `msg` after `last` was seen: all of
   * it the first time, nothing when it repeats, only the new part when it extends `last`, and
   * otherwise all of it on a new line once something was written.
   */
  function Reconcile(last: string, msg: string, written: bool): (append: string)
    requires msg != ""
    ensures append == "" <==> last == msg
    ensures last <= msg ==> last + append == msg
    ensures !(last <= msg) ==> EndsWith(append, msg) && (append == msg || written)
  {
    if last == "" then msg
    else if msg == last then ""
    else if last <= msg then msg[|last|..]
    else (if written then "\n" else "") + msg
  }

  /** Whatever is appended, a log that ended with `last` ends with the message. */
  lemma ReconcileKeepsTail(log: string, last: string, msg: string, written: bool)
    requires msg != "" && EndsWith(log, last)
    ensures EndsWith(log + Reconcile(last, msg, written), msg)
  {
    var a := Reconcile(last, msg, written);
    if last <= msg {
      assert (log + a)[|log + a| - |msg|..] == log[|log| - |last|..] + a;
    } else {
      assert (log + a)[|log + a| - |msg|..] == a[|a| - |msg|..];
    }
  }

  /** The text of the message parts of an assistant event: `message` (when truthy), then `content`, then `text`. */
  function MessageText(event: Json): string
  {
    var message := Field(event, "message");
    Concat((if Truthy(message) then Collect(message, 0) else []) + Collect(Field(event, "content"), 0)
           + Collect(Field(event, "text"), 0))
  }

  /** The text of an assistant event's `delta`. */
  function DeltaText(event: Json): string
  {
    Concat(Collect(Field(event, "delta"), 0))
  }

  /** Delta text is appended and extends the remembered text. */
  function TakeDelta(c: Cursor, deltaText: string): (c': Cursor)
    ensures c'.last == c.last + deltaText
    ensures c'.written == (c.written || deltaText != "")
  {
    if deltaText != "" then Cursor(c.last + deltaText, true) else c
  }

  /** A complete message is reconciled with the remembered text and becomes the remembered text. */
  function TakeMessage(c: Cursor, msg: string): (o: Outcome)
    ensures o.status.None?
    ensures msg != "" ==> o.cursor.last == msg
    ensures msg == "" ==> o == Outcome(c, "", None)
    ensures o.cursor.written == (c.written || o.appended != "")
  {
    if msg == "" then Outcome(c, "", None)
    else
      var t := Reconcile(c.last, msg, c.written);
      Outcome(Cursor(msg, c.written || t != ""), t, None)
  }

  /**
   * An assistant event with delta text `deltaText` and message text `msg`: first the delta,
   * then the message.
   */
  function Absorb(c: Cursor, deltaText: string, msg: string): (o: Outcome)
    ensures o.status.None?
    ensures c.written ==> o.cursor.written
    ensures o.appended != "" ==> o.cursor.written
    ensures msg != "" ==> o.cursor.last == msg
    ensures msg == "" ==> o.cursor.last == c.last + deltaText && o.appended == deltaText
  {
    var m := TakeMessage(TakeDelta(c, deltaText), msg);
    Outcome(m.cursor, deltaText + m.appended, None)
  }

  /** Appending to a log and to its tail keeps the tail. */
  lemma ExtendTail(log: string, last: string, more: string)
    requires EndsWith(log, last)
    ensures EndsWith(log + more, last + more)
  {
    assert (log + more)[|log + more| - |last + more|..] == log[|log| - |last|..] + more;
  }

  /** An assistant event keeps a log that ended with the remembered text ending with it. */
  lemma AbsorbKeepsTail(log: string, c: Cursor, deltaText: string, msg: string)
    requires EndsWith(log, c.last)
    ensures var o := Absorb(c, deltaText, msg); EndsWith(log + o.appended, o.cursor.last)
  {
    var c1 := TakeDelta(c, deltaText);
    var log1 := log + deltaText;
    ExtendTail(log, c.last, deltaText);
    var m := TakeMessage(c1, msg);
    MessageKeepsTail(log1, c1, msg);
    AppendAssoc(log, deltaText, m.appended);
  }

  lemma MessageKeepsTail(log: string, c: Cursor, msg: string)
    requires EndsWith(log, c.last)
    ensures var m := TakeMessage(c, msg); EndsWith(log + m.appended, m.cursor.last)
  {
    if msg != "" {
      ReconcileKeepsTail(log, c.last, msg, c.written);
    } else {
      assert log + "" == log;
    }
  }

  function AssistantOutcome(c: Cursor, event: Json): Outcome
  {
    Absorb(c, DeltaText(event), MessageText(event))
  }

  /** `${result.trim()}\n` when nothing was written yet and the result is a string that is not blank. */
  function ResultText(written: bool, result: Json): (text: string)
    ensures written || !result.JStr? ==> text == ""
    ensures text != "" <==> !written && result.JStr? && Trim(result.s) != ""
  {
    if !written && result.JStr? && Trim(result.s) != "" then Trim(result.s) + "\n" else ""
  }

  /** `failure` fails the run; any other subtype completes it. */
  function ResultStatus(event: Json): string
  {
    if Field(event, "subtype") == JStr("failure") then "failed" else "done"
  }

  /**
   * A result event: its status, and its result text appended only if no text was written
   * before. The remembered text is cleared.
   */
  function ResultOutcome(c: Cursor, event: Json): (o: Outcome)
    ensures o.status == Some(ResultStatus(event))
    ensures c.written ==> o.appended == ""
    ensures o.cursor == Cursor("", c.written || o.appended != "")
  {
    var text := ResultText(c.written, Field(event, "result"));
    Outcome(Cursor("", c.written || text != ""), text, Some(ResultStatus(event)))
  }

  /** `event.error || event.message || 'Unknown error'`. */
  function ErrorMessage(event: Json): (m: Json)
    ensures Truthy(m)
  {
    if Truthy(Field(event, "error")) then Field(event, "error")
    else if Truthy(Field(event, "message")) then Field(event, "message")
    else JStr("Unknown error")
  }

  /**
   * One event from the child's standard output. Events of no known kind, and lines that do
   * not parse (which never get here), change nothing.
   */
  function EventOutcome(c: Cursor, event: Json): (o: Outcome)
    ensures c.written ==> o.cursor.written
    ensures o.status.Some? ==> o.cursor.last == ""
    ensures o.status == Some("failed") ==> IsErrorEvent(event) || IsResultEvent(event)
    ensures !IsAssistantEvent(event) && !IsResultEvent(event) && !IsDoneEvent(event) && !IsErrorEvent(event) ==> o == Outcome(c, "", None)
  {
    if IsAssistantEvent(event) then AssistantOutcome(c, event)
    else if IsResultEvent(event) then ResultOutcome(c, event)
    else if IsDoneEvent(event) then Outcome(Cursor("", c.written), "", Some("done"))
    else if IsErrorEvent(event) then
      Outcome(Cursor("", c.written), ErrorSection(ToJsString(ErrorMessage(event))), Some("failed"))
    else Outcome(c, "", None)
  }

  /**
   * The text files after an event's outcome on the log at `p`: the text is appended (which
   * creates a missing log), then the header of the log, if there is one, takes the status.
   */
  function Written(texts: map<Path, string>, p: Path, appended: string, status: Option<string>, endTime: string): (t: map<Path, string>)
    ensures forall q :: q != p ==> (q in t <==> q in texts) && (q in t ==> t[q] == texts[q])
    ensures p in t <==> p in texts || appended != ""
    ensures appended == "" && status.None? ==> t == texts
  {
    var t1 := if appended == "" then texts else texts[p := (if p in texts then texts[p] else "") + appended];
    if status.Some? && p in t1 then t1[p := LogHeader.UpdateFrontmatter(t1[p], status.value, endTime)] else t1
  }

  /** Two appends are one append of both texts. */
  lemma WrittenTwice(texts: map<Path, string>, p: Path, a: string, b: string)
    ensures Written(Written(texts, p, a, None, ""), p, b, None, "") == Written(texts, p, a + b, None, "")
  {
    var base := if p in texts then texts[p] else "";
    if a != "" && b != "" {
      assert base + a + b == base + (a + b);
    } else if a == "" {
      assert a + b == b;
    } else {
      assert a + b == a;
    }
  }

  /** `\n[STDERR]: <line>\n`. */
  function StderrLine(line: string): string
  {
    "\n[STDERR]: " + line + "\n"
  }

  // ---------------------------------------------------------------- the running stream

  /** The runner once its child is running: the supervisor and the memory of the output stream. */
  class Stream {
    const sup: Supervisor
    var lastAssistantText: string
    var assistantContentWritten: bool

    constructor(sup: Supervisor)
      ensures this.sup == sup && lastAssistantText == "" && !assistantContentWritten
    {
      this.sup := sup;
      lastAssistantText := "";
      assistantContentWritten := false;
    }

    /** The memory as a value. */
    function Memory(): Cursor
      reads this
    {
      Cursor(lastAssistantText, assistantContentWritten)
    }

    /** `appendFileSync` on the log with text that is not empty. */
    method Append(text: string)
      requires text != ""
      modifies sup.fs
      ensures sup.fs.texts == old(sup.fs.texts)[sup.logPath := old(sup.fs.ReadText(sup.logPath)).GetOr("") + text]
      ensures sup.fs.docs == old(sup.fs.docs) && sup.fs.programs == old(sup.fs.programs)
    {
      sup.fs.AppendText(sup.logPath, text);
    }

    /** An assistant event's delta text. */
    method AbsorbDelta(deltaText: string)
      modifies this, sup.fs
      ensures Memory() == TakeDelta(old(Memory()), deltaText)
      ensures sup.fs.texts == Written(old(sup.fs.texts), sup.logPath, deltaText, None, "")
      ensures sup.fs.docs == old(sup.fs.docs) && sup.fs.programs == old(sup.fs.programs)
    {
      if deltaText != "" {
        Append(deltaText);
        lastAssistantText := lastAssistantText + deltaText;
        assistantContentWritten := true;
      }
    }

    /** An assistant event's message text. */
    method AbsorbMessage(messageText: string)
      modifies this, sup.fs
      ensures var o := TakeMessage(old(Memory()), messageText);
        Memory() == o.cursor && sup.fs.texts == Written(old(sup.fs.texts), sup.logPath, o.appended, None, "")
      ensures sup.fs.docs == old(sup.fs.docs) && sup.fs.programs == old(sup.fs.programs)
    {
      if messageText != "" {
        var textToAppend := Reconcile(lastAssistantText, messageText, assistantContentWritten);
        if textToAppend != "" {
          Append(textToAppend);
          assistantContentWritten := true;
        }
        lastAssistantText := messageText;
      }
    }

    /** An assistant event whose delta text is `deltaText` and whose message text is `messageText`. */
    method Absorbing(deltaText: string, messageText: string)
      modifies this, sup.fs
      ensures var o := Absorb(old(Memory()), deltaText, messageText);
        Memory() == o.cursor && sup.fs.texts == Written(old(sup.fs.texts), sup.logPath, o.appended, None, "")
      ensures sup.fs.docs == old(sup.fs.docs) && sup.fs.programs == old(sup.fs.programs)
    {
      AbsorbDelta(deltaText);
      ghost var mid := sup.fs.texts;
      AbsorbMessage(messageText);
      WrittenTwice(old(sup.fs.texts), sup.logPath, deltaText, TakeMessage(TakeDelta(old(Memory()), deltaText), messageText).appended);
    }

    /** The text and header changes of an event that is not an assistant event. */
    method Emit(text: string, status: string, endTime: string)
      modifies sup.fs
      ensures sup.fs.texts == Written(old(sup.fs.texts), sup.logPath, text, Some(status), endTime)
      ensures sup.fs.docs == old(sup.fs.docs) && sup.fs.programs == old(sup.fs.programs)
    {
      if text != "" {
        Append(text);
      }
      sup.UpdateFrontmatter(status, endTime);
    }

    /** A result event. */
    method OnResult(event: Json, endTime: string)
      modifies this, sup.fs
      ensures var o := ResultOutcome(old(Memory()), event);
        Memory() == o.cursor && sup.fs.texts == Written(old(sup.fs.texts), sup.logPath, o.appended, o.status, endTime)
      ensures sup.fs.docs == old(sup.fs.docs) && sup.fs.programs == old(sup.fs.programs)
    {
      var status := ResultStatus(event);
      var text := ResultText(assistantContentWritten, Field(event, "result"));
      if text != "" {
        assistantContentWritten := true;
      }
      Emit(text, status, endTime);
      lastAssistantText := "";
    }

    /**
     * A line of the child's standard output, with what `JSON.parse` made of it (`None` when it
     * threw, which the handler ignores).
     */
    method OnLine(line: string, parsed: Option<Json>, endTime: string)
      modifies this, sup.fs
      ensures line == "" || parsed.None? ==>
        Memory() == old(Memory()) && sup.fs.texts == old(sup.fs.texts)
      ensures line != "" && parsed.Some? ==>
        var o := EventOutcome(old(Memory()), parsed.value);
        Memory() == o.cursor && sup.fs.texts == Written(old(sup.fs.texts), sup.logPath, o.appended, o.status, endTime)
      ensures sup.fs.docs == old(sup.fs.docs) && sup.fs.programs == old(sup.fs.programs)
    {
      if line == "" || parsed.None? {
        return;
      }
      var event := parsed.value;
      if IsAssistantEvent(event) {
        Absorbing(DeltaText(event), MessageText(event));
      } else if IsResultEvent(event) {
        OnResult(event, endTime);
      } else if IsDoneEvent(event) {
        Emit("", "done", endTime);
        lastAssistantText := "";
      } else if IsErrorEvent(event) {
        Emit(ErrorSection(ToJsString(ErrorMessage(event))), "failed", endTime);
        lastAssistantText := "";
      }
    }

    /** A line of the child's standard error, appended as it is. */
    method OnStderrLine(line: string)
      modifies sup.fs
      ensures sup.fs.texts == old(sup.fs.texts)[sup.logPath := old(sup.fs.ReadText(sup.logPath)).GetOr("") + StderrLine(line)]
      ensures sup.fs.docs == old(sup.fs.docs) && sup.fs.programs == old(sup.fs.programs)
    {
      Append(StderrLine(line));
    }
  }

  /**
   * The runner up to the point where it reads its child's output: exit 1 with nothing written
   * when the configuration is incomplete; otherwise a stream over a fresh supervisor whose
   * spawn of `cursor-agent` ended as `spawn`, with the launch handling applied.
   */
  method Start(fs: FileSystem, env: CursorEnv, processCwd: Path, spawn: SpawnResult, endTime: string)
    returns (stream: Stream?, exitCode: Option<int>)
    requires ValidPath(processCwd)
    modifies fs
    ensures ReadCursorConfig(env, processCwd).None? ==>
      stream == null && exitCode == Some(1)
      && fs.texts == old(fs.texts) && fs.docs == old(fs.docs) && fs.programs == old(fs.programs)
    ensures ReadCursorConfig(env, processCwd).Some? ==>
      var c := ReadCursorConfig(env, processCwd).value;
      stream != null && fresh(stream) && fresh(stream.sup)
      && stream.sup.fs == fs && stream.sup.agentId == c.core.agentId && stream.sup.logPath == c.core.logPath
      && stream.sup.registryPath == c.core.registryPath
      && stream.sup.pidKey == "cursorPid" && stream.sup.launcher == "cursor-agent" && !stream.sup.processExited
      && stream.Memory() == Cursor("", false)
      && (exitCode.Some? <==> !spawn.Spawned?)
      && (exitCode.Some? ==> exitCode.value == 1)
      && (!spawn.Spawned? ==>
        var message := if spawn.SpawnThrew? then "Error spawning " + "cursor-agent" + ": " + spawn.message
                       else "Failed to spawn " + "cursor-agent" + ": no PID returned.";
        fs.texts == old(fs.texts)[c.core.logPath := LogHeader.UpdateFrontmatter(
          old(fs.ReadText(c.core.logPath)).GetOr("") + ErrorSection(message), "failed", endTime)]
        && fs.docs == old(fs.docs))
      && (spawn.Spawned? ==>
        var r := RegistryAfterRunnerPid(old(fs.ReadDoc(c.core.registryPath)), c.core.agentId, spawn.pid, "cursorPid");
        fs.texts == old(fs.texts)
        && fs.docs == if r.Some? then old(fs.docs)[c.core.registryPath := Parsed(r.value)] else old(fs.docs))
      && fs.programs == old(fs.programs)
  {
    var config := ReadCursorConfig(env, processCwd);
    if config.None? {
      return null, Some(1);
    }
    var c := config.value;
    var sup := new Supervisor(fs, c.core.agentId, c.core.logPath, c.core.registryPath, "cursorPid", "cursor-agent");
    exitCode := sup.Launched(spawn, endTime);
    stream := new Stream(sup);
  }
}
