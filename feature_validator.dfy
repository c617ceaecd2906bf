/**
 * The Stop hook that has recent work checked by a background validation agent
 * (hooks/feature-validator.mjs): which transcript entries count as the latest turn, the tool
 * calls and text they carry, when validation is wanted, the project directory, and how a
 * report is added to `.claude/validation.md`.
 */
module FeatureValidator {
  import opened Common
  import opened Strings
  import opened JsonValues
  import opened Paths
  import opened Files
  import opened Transcripts

  // ---------------------------------------------------------------- the transcript

  /** The entries the hook works on: the lines that parse to a truthy value, in order. */
  function Messages(lines: Transcript): (ms: seq<Json>)
    ensures |ms| <= |lines|
  {
    if lines == [] then []
    else
      var rest := Messages(lines[1..]);
      match lines[0]
      case Parsed(v) => if Truthy(v) then [v] + rest else rest
      case Garbled => rest
  }

  /** An entry is kept exactly when its line parses to a truthy value. */
  lemma {:induction false} MessagesKept(lines: Transcript)
    ensures forall m :: m in Messages(lines) <==> Parsed(m) in lines && Truthy(m)
  {
    if lines != [] {
      MessagesKept(lines[1..]);
      assert lines == [lines[0]] + lines[1..];
    }
  }

  /** The assistant entries among `ms[lo..hi]`, in order. */
  function AssistantsBetween(ms: seq<Json>, lo: nat, hi: nat): (r: seq<Json>)
    requires hi <= |ms|
    ensures lo <= hi ==> |r| <= hi - lo
    decreases hi
  {
    if hi <= lo then []
    else AssistantsBetween(ms, lo, hi - 1) + if HasType(ms[hi - 1], "assistant") then [ms[hi - 1]] else []
  }

  /** The assistant entries of a range are its entries whose type is `assistant`. */
  lemma {:induction false} AssistantsKept(ms: seq<Json>, lo: nat, hi: nat)
    requires hi <= |ms|
    ensures forall m :: m in AssistantsBetween(ms, lo, hi) <==>
      exists j :: lo <= j < hi && ms[j] == m && HasType(m, "assistant")
    decreases hi
  {
    if lo < hi {
      AssistantsKept(ms, lo, hi - 1);
    }
  }

  /**
   * The latest turn among the first `n` entries, read from the end: the assistant entries
   * after the last user entry, or all of them when there is no user entry.
   */
  function RecentUpTo(ms: seq<Json>, n: nat): (r: seq<Json>)
    requires n <= |ms|
    ensures |r| <= n
  {
    if n == 0 || HasType(ms[n - 1], "user") then []
    else RecentUpTo(ms, n - 1) + if HasType(ms[n - 1], "assistant") then [ms[n - 1]] else []
  }

  /** The latest turn of a whole transcript. */
  function Recent(ms: seq<Json>): (r: seq<Json>)
  {
    RecentUpTo(ms, |ms|)
  }

  /** With `u` the last user entry (-1 for none), the latest turn is the assistant entries after `u`. */
  lemma {:induction false} RecentAfterLastUser(ms: seq<Json>, u: int, n: nat)
    requires -1 <= u < n <= |ms| && (u == -1 || HasType(ms[u], "user"))
    requires forall j :: u < j < n ==> !HasType(ms[j], "user")
    ensures RecentUpTo(ms, n) == AssistantsBetween(ms, u + 1, n)
  {
    if u + 1 < n {
      RecentAfterLastUser(ms, u, n - 1);
    }
  }

  /** The latest turn holds only assistant entries of the transcript. */
  lemma RecentAssistants(ms: seq<Json>)
    ensures forall m :: m in Recent(ms) ==> m in ms && HasType(m, "assistant")
  {
    var u := |ms| - 1;
    while u >= 0 && !HasType(ms[u], "user")
      invariant -1 <= u < |ms|
      invariant forall j :: u < j < |ms| ==> !HasType(ms[j], "user")
    {
      u := u - 1;
    }
    if u + 1 < |ms| {
      RecentAfterLastUser(ms, u, |ms|);
      AssistantsKept(ms, u + 1, |ms|);
    }
  }

  /** Without a user entry the latest turn is every assistant entry. */
  lemma RecentWithoutUser(ms: seq<Json>)
    requires forall j :: 0 <= j < |ms| ==> !HasType(ms[j], "user")
    ensures Recent(ms) == AssistantsBetween(ms, 0, |ms|)
  {
    if ms != [] {
      RecentAfterLastUser(ms, -1, |ms|);
    }
  }

  /**
   * `getRecentAssistantMessages`: a missing transcript gives nothing; otherwise a backward
   * scan finds the last user entry and a forward scan collects the assistant entries after it.
   */
  method RecentAssistantMessages(transcript: Option<Transcript>) returns (recent: seq<Json>)
    ensures transcript.None? ==> recent == []
    ensures transcript.Some? ==> recent == Recent(Messages(transcript.value))
  {
    if transcript.None? {
      return [];
    }
    var messages := Messages(transcript.value);
    var i := |messages| - 1;
    while i >= 0 && !HasType(messages[i], "user")
      invariant -1 <= i < |messages|
      invariant forall j :: i < j < |messages| ==> !HasType(messages[j], "user")
    {
      i := i - 1;
    }
    var lastUser := i;
    recent := [];
    var k := lastUser + 1;
    while k < |messages|
      invariant lastUser + 1 <= k <= |messages|
      invariant recent == AssistantsBetween(messages, lastUser + 1, k)
    {
      if HasType(messages[k], "assistant") {
        recent := recent + [messages[k]];
      }
      k := k + 1;
    }
    if lastUser + 1 < |messages| {
      RecentAfterLastUser(messages, lastUser, |messages|);
    }
  }

  // ---------------------------------------------------------------- content blocks

  /** `msg.message?.content || msg.content || []`. */
  function Content(msg: Json): (c: Json)
    ensures Truthy(c) || c == JArr([])
  {
    var inner := Field(Field(msg, "message"), "content");
    if Truthy(inner) then inner
    else if Truthy(Field(msg, "content")) then Field(msg, "content")
    else JArr([])
  }

  /**
   * The blocks `for (const block of content)` visits, `None` when the loop throws: the content
   * is not iterable, or a block is `null` and reading its `type` fails. A string is iterated
   * character by character, and a character has no `type`, so it contributes no block.
   */
  function Blocks(msg: Json): (r: Option<seq<Json>>)
    ensures r.Some? ==> JNull !in r.value
    ensures Content(msg).JArr? && JNull !in Content(msg).items ==> r == Some(Content(msg).items)
  {
    match Content(msg)
    case JArr(items) => if JNull in items then None else Some(items)
    case JStr(_) => Some([])
    case _ => None
  }

  /** The blocks of all the messages in order, `None` when reading some message's blocks throws. */
  function AllBlocks(msgs: seq<Json>): (r: Option<seq<Json>>)
  {
    if msgs == [] then Some([])
    else
      match (AllBlocks(msgs[..|msgs| - 1]), Blocks(msgs[|msgs| - 1]))
      case (Some(a), Some(b)) => Some(a + b)
      case _ => None
  }

  /** Walking the blocks fails exactly when one message's blocks cannot be read. */
  lemma {:induction false} AllBlocksDefined(msgs: seq<Json>)
    ensures AllBlocks(msgs).Some? <==> forall m :: m in msgs ==> Blocks(m).Some?
  {
    if msgs != [] {
      var init := msgs[..|msgs| - 1];
      AllBlocksDefined(init);
      assert msgs == init + [msgs[|msgs| - 1]];
    }
  }

  /** One more message whose blocks can be read. */
  lemma AllBlocksStep(msgs: seq<Json>, i: nat, done: seq<Json>, blocks: seq<Json>)
    requires i < |msgs| && AllBlocks(msgs[..i]) == Some(done) && Blocks(msgs[i]) == Some(blocks)
    ensures AllBlocks(msgs[..i + 1]) == Some(done + blocks)
  {
    assert msgs[..i + 1][..i] == msgs[..i];
  }

  /** A message whose blocks cannot be read makes the whole walk fail. */
  lemma AllBlocksStuck(msgs: seq<Json>, i: nat)
    requires i < |msgs| && Blocks(msgs[i]).None?
    ensures AllBlocks(msgs).None?
  {
    assert msgs[i] in msgs;
    AllBlocksDefined(msgs);
  }

  /** A `tool_use` block as `getToolCalls` records it. */
  datatype ToolCall = ToolCall(tool: Json, input: Json)

  function CallOf(block: Json): ToolCall
  {
    ToolCall(Field(block, "name"), Field(block, "input"))
  }

  /** The calls of the `tool_use` blocks, in order. */
  function CallsIn(blocks: seq<Json>): (calls: seq<ToolCall>)
    ensures |calls| <= |blocks|
  {
    if blocks == [] then []
    else
      var last := blocks[|blocks| - 1];
      CallsIn(blocks[..|blocks| - 1]) + if HasType(last, "tool_use") then [CallOf(last)] else []
  }

  /** Every `tool_use` block gives a call, and every call comes from one. */
  lemma {:induction false} CallsInKept(blocks: seq<Json>)
    ensures forall b :: b in blocks && HasType(b, "tool_use") ==> CallOf(b) in CallsIn(blocks)
    ensures forall c :: c in CallsIn(blocks) ==> exists b :: b in blocks && HasType(b, "tool_use") && c == CallOf(b)
  {
    if blocks != [] {
      var init := blocks[..|blocks| - 1];
      CallsInKept(init);
      assert blocks == init + [blocks[|blocks| - 1]];
    }
  }

  lemma CallsStep(blocks: seq<Json>, b: Json)
    ensures CallsIn(blocks + [b]) == CallsIn(blocks) + if HasType(b, "tool_use") then [CallOf(b)] else []
  {
    Snoc(blocks, b);
  }

  /** Calls of a concatenation of block lists. */
  lemma {:induction false} CallsAppend(a: seq<Json>, b: seq<Json>)
    ensures CallsIn(a + b) == CallsIn(a) + CallsIn(b)
    decreases |b|
  {
    if b != [] {
      var init := b[..|b| - 1];
      var last := b[|b| - 1];
      CallsAppend(a, init);
      assert a + b == (a + init) + [last];
      CallsStep(a + init, last);
      assert b == init + [last];
      CallsStep(init, last);
      var t := if HasType(last, "tool_use") then [CallOf(last)] else [];
      AppendAssoc(CallsIn(a), CallsIn(init), t);
    } else {
      assert a + b == a;
    }
  }

  /** The inner loop of `getToolCalls` over a content array; `None` when it meets a `null` block. */
  method ArrayCalls(items: seq<Json>) returns (r: Option<seq<ToolCall>>)
    ensures r.None? <==> JNull in items
    ensures r.Some? ==> r.value == CallsIn(items)
  {
    var calls: seq<ToolCall> := [];
    var j := 0;
    while j < |items|
      invariant 0 <= j <= |items|
      invariant forall k :: 0 <= k < j ==> !items[k].JNull?
      invariant calls == CallsIn(items[..j])
    {
      var block := items[j];
      if block.JNull? {
        return None;
      }
      PrefixStep(items, j);
      CallsStep(items[..j], block);
      if HasType(block, "tool_use") {
        calls := calls + [CallOf(block)];
      }
      j := j + 1;
    }
    assert items[..j] == items;
    return Some(calls);
  }

  /** `getToolCalls`: the calls of the `tool_use` blocks of every message in order; `None` when it throws. */
  method ToolCalls(msgs: seq<Json>) returns (calls: Option<seq<ToolCall>>)
    ensures calls.None? <==> AllBlocks(msgs).None?
    ensures calls.Some? ==> calls.value == CallsIn(AllBlocks(msgs).value)
  {
    var acc: seq<ToolCall> := [];
    ghost var done: seq<Json> := [];
    var i := 0;
    while i < |msgs|
      invariant 0 <= i <= |msgs|
      invariant AllBlocks(msgs[..i]) == Some(done)
      invariant acc == CallsIn(done)
    {
      var content := Content(msgs[i]);
      if content.JArr? {
        var found := ArrayCalls(content.items);
        if found.None? {
          AllBlocksStuck(msgs, i);
          return None;
        }
        AllBlocksStep(msgs, i, done, content.items);
        CallsAppend(done, content.items);
        acc := acc + found.value;
        done := done + content.items;
      } else if content.JStr? {
        AllBlocksStep(msgs, i, done, []);
        assert done + [] == done;
      } else {
        AllBlocksStuck(msgs, i);
        return None;
      }
      i := i + 1;
    }
    assert msgs[..i] == msgs;
    calls := Some(acc);
  }

  /** The inner loop of `getAssistantText` over a content array; `None` when it meets a `null` block. */
  method ArrayTexts(items: seq<Json>) returns (r: Option<seq<Json>>)
    ensures r.None? <==> JNull in items
    ensures r.Some? ==> r.value == TextsIn(items)
  {
    var texts: seq<Json> := [];
    var j := 0;
    while j < |items|
      invariant 0 <= j <= |items|
      invariant JNull !in items[..j]
      invariant texts == TextsIn(items[..j])
    {
      var block := items[j];
      if block.JNull? {
        return None;
      }
      PrefixStep(items, j);
      TextsStep(items[..j], block);
      if HasType(block, "text") {
        texts := texts + [TextOf(block)];
      }
      j := j + 1;
    }
    Whole(items);
    return Some(texts);
  }

  /**
   * `getAssistantText`: the texts of the text blocks of every message, in order, joined with a
   * blank line; `None` when it throws.
   */
  method AssistantText(msgs: seq<Json>) returns (text: Option<string>)
    ensures text.None? <==> AllBlocks(msgs).None?
    ensures text.Some? ==> text.value == JoinValues(TextsIn(AllBlocks(msgs).value), "\n\n")
  {
    var texts: seq<Json> := [];
    ghost var done: seq<Json> := [];
    var i := 0;
    while i < |msgs|
      invariant 0 <= i <= |msgs|
      invariant AllBlocks(msgs[..i]) == Some(done)
      invariant texts == TextsIn(done)
    {
      var content := Content(msgs[i]);
      if content.JArr? {
        var found := ArrayTexts(content.items);
        if found.None? {
          AllBlocksStuck(msgs, i);
          return None;
        }
        AllBlocksStep(msgs, i, done, content.items);
        TextsAppend(done, content.items);
        texts := texts + found.value;
        done := done + content.items;
      } else if content.JStr? {
        AllBlocksStep(msgs, i, done, []);
        assert done + [] == done;
      } else {
        AllBlocksStuck(msgs, i);
        return None;
      }
      i := i + 1;
    }
    assert msgs[..i] == msgs;
    text := Some(JoinValues(texts, "\n\n"));
  }

  // ---------------------------------------------------------------- deciding to validate

  /** A call of one of the tools that change code. */
  predicate EditsCode(c: ToolCall)
  {
    c.tool in [JStr("Write"), JStr("Edit"), JStr("MultiEdit"), JStr("NotebookEdit")]
  }

  /** `requiresValidation`: some call changed code. */
  function RequiresValidation(calls: seq<ToolCall>): (b: bool)
    ensures b <==> exists c :: c in calls && EditsCode(c)
  {
    if calls == [] then false
    else
      assert calls == [calls[0]] + calls[1..];
      EditsCode(calls[0]) || RequiresValidation(calls[1..])
  }

  /**
   * Whether a call writes the validation report itself: a Write or Edit whose `file_path` ends
   * in `/validation.md`; `None` when `endsWith` is read on a `file_path` that is not a string.
   */
  function WritesReport(c: ToolCall): (r: Option<bool>)
    ensures r == Some(true) <==>
      (c.tool == JStr("Write") || c.tool == JStr("Edit"))
      && Field(c.input, "file_path").JStr? && EndsWith(Field(c.input, "file_path").s, "/validation.md")
    ensures r.None? <==>
      (c.tool == JStr("Write") || c.tool == JStr("Edit"))
      && !Field(c.input, "file_path").JNull? && !Field(c.input, "file_path").JStr?
  {
    if c.tool != JStr("Write") && c.tool != JStr("Edit") then Some(false)
    else
      match Field(c.input, "file_path")
      case JNull => Some(false)
      case JStr(s) => Some(EndsWith(s, "/validation.md"))
      case _ => None
  }

  /**
   * `xs.some(test)` where the test may throw: the outcome of the first element whose test does
   * not answer false, or false when there is none.
   */
  function SomeOrThrow<T>(xs: seq<T>, test: T -> Option<bool>): (r: Option<bool>)
    ensures r == Some(false) <==> forall i :: 0 <= i < |xs| ==> test(xs[i]) == Some(false)
    ensures r != Some(false) ==>
      exists i :: 0 <= i < |xs| && r == test(xs[i]) && forall j :: 0 <= j < i ==> test(xs[j]) == Some(false)
  {
    if xs == [] then Some(false)
    else if test(xs[0]) != Some(false) then test(xs[0])
    else
      var r := SomeOrThrow(xs[1..], test);
      assert forall i :: 1 <= i < |xs| ==> xs[i] == xs[1..][i - 1];
      assert r != Some(false) ==>
        exists i :: 0 <= i < |xs| && r == test(xs[i]) && forall j :: 0 <= j < i ==> test(xs[j]) == Some(false)
      by {
        if r != Some(false) {
          var i :| 0 <= i < |xs[1..]| && r == test(xs[1..][i]) && forall j :: 0 <= j < i ==> test(xs[1..][j]) == Some(false);
          assert r == test(xs[i + 1]) && forall j :: 0 <= j < i + 1 ==> test(xs[j]) == Some(false);
        }
      }
      r
  }

  /** The test answers false for the whole list exactly when it answers false for each element. */
  lemma SomeOrThrowFalse<T>(xs: seq<T>, test: T -> Option<bool>)
    ensures SomeOrThrow(xs, test) == Some(false) <==> forall x :: x in xs ==> test(x) == Some(false)
  {
    assert forall x :: x in xs <==> exists i :: 0 <= i < |xs| && xs[i] == x;
  }

  /** Whether `dir` holds a `.claude` entry or a `package.json`. */
  predicate Marked(present: set<Path>, dir: Path)
  {
    dir + [".claude"] in present || dir + ["package.json"] in present
  }

  /**
   * The directory the walk from `start` settles on, having reached `dir`: the first marked
   * directory on the way up, the root excluded, or `start` when there is none.
   */
  function NearestProject(present: set<Path>, dir: Path, start: Path): (r: Path)
    requires dir <= start
    ensures (r == start && forall k :: 0 < k <= |dir| ==> !Marked(present, start[..k]))
      || (0 < |r| <= |dir| && r == start[..|r|] && Marked(present, r)
          && forall k :: |r| < k <= |dir| ==> !Marked(present, start[..k]))
    decreases |dir|
  {
    if dir == [] then start
    else if Marked(present, dir) then
      assert dir == start[..|dir|];
      dir
    else
      assert dir == start[..|dir|];
      NearestProject(present, Dirname(dir), start)
  }

  /**
   * `findProjectDir`: walks up from `start` until the root, returning the first directory that
   * is marked, or `start`.
   */
  method FindProjectDir(present: set<Path>, start: Path) returns (dir: Path)
    ensures dir == NearestProject(present, start, start)
  {
    dir := start;
    while dir != Dirname(dir)
      invariant dir <= start
      invariant NearestProject(present, dir, start) == NearestProject(present, start, start)
      decreases |dir|
    {
      if Marked(present, dir) {
        return dir;
      }
      dir := Dirname(dir);
    }
    return start;
  }

  /** What the detached worker receives. */
  datatype Validation = Validation(assistantMessages: seq<Json>, cwd: Path, projectDir: Path)

  /**
   * How the hook ends: the input is not JSON (exit 1), it stops early, it throws, or it starts
   * the background validation.
   */
  datatype StopRun = InvalidInput | Skipped | Crashed | Spawned(job: Validation)

  /** The latest turn of the transcript the input names; nothing when there is no such file. */
  function LatestTurn(input: Json, transcripts: map<string, Transcript>): seq<Json>
  {
    var path := Field(input, "transcript_path");
    if path.JStr? && path.s in transcripts then Recent(Messages(transcripts[path.s])) else []
  }

  /**
   * The hook on its input, the transcripts by the path text, the paths that exist, and the
   * working directory (`input.cwd`, or the process's own when absent).
   */
  function Hook(input: Doc, transcripts: map<string, Transcript>, present: set<Path>, cwd: Path): (r: StopRun)
    ensures r.InvalidInput? <==> input.Garbled?
    ensures r.Spawned? ==>
      input.Parsed? && Field(input.value, "hook_event_name") == JStr("Stop")
      && !Truthy(Field(input.value, "stop_hook_active"))
      && r.job.cwd == cwd && r.job.assistantMessages != []
  {
    match input
    case Garbled => InvalidInput
    case Parsed(j) =>
      if j.JNull? then Crashed
      else if Field(j, "hook_event_name") != JStr("Stop") || Truthy(Field(j, "stop_hook_active")) then Skipped
      else
        var recent := LatestTurn(j, transcripts);
        match AllBlocks(recent)
        case None => Crashed
        case Some(blocks) =>
          var calls := CallsIn(blocks);
          match SomeOrThrow(calls, WritesReport)
          case None => Crashed
          case Some(true) => Skipped
          case Some(false) =>
            if recent == [] || !RequiresValidation(calls) then Skipped
            else Spawned(Validation(recent, cwd, NearestProject(present, cwd, cwd)))
  }

  /**
   * The hook starts a validation exactly for a Stop event outside a stop hook whose latest turn
   * could be read, changed code, and did not write the report.
   */
  lemma HookSpawns(input: Doc, transcripts: map<string, Transcript>, present: set<Path>, cwd: Path)
    ensures Hook(input, transcripts, present, cwd).Spawned? <==>
      input.Parsed? && Field(input.value, "hook_event_name") == JStr("Stop")
      && !Truthy(Field(input.value, "stop_hook_active"))
      && var recent := LatestTurn(input.value, transcripts);
        AllBlocks(recent).Some?
        && (forall c :: c in CallsIn(AllBlocks(recent).value) ==> WritesReport(c) == Some(false))
        && exists c :: c in CallsIn(AllBlocks(recent).value) && EditsCode(c)
  {
    if input.Parsed? && !input.value.JNull? {
      var recent := LatestTurn(input.value, transcripts);
      if AllBlocks(recent).Some? {
        SomeOrThrowFalse(CallsIn(AllBlocks(recent).value), WritesReport);
      }
    }
  }

  /** The job carries the latest turn, which is not empty, the working directory and its project directory. */
  lemma HookJob(input: Doc, transcripts: map<string, Transcript>, present: set<Path>, cwd: Path)
    requires Hook(input, transcripts, present, cwd).Spawned?
    ensures input.Parsed?
    ensures var job := Hook(input, transcripts, present, cwd).job;
      job.assistantMessages == LatestTurn(input.value, transcripts) && job.assistantMessages != []
      && job.cwd == cwd && job.projectDir == NearestProject(present, cwd, cwd)
  {
  }

  // ---------------------------------------------------------------- the report

  /** What a passing validation says; a result without it has issues. */
  const PassMarker := "✅ Validation passed"

  /** The first line of a report file the hook creates. */
  const ReportsTitle := "# Validation Reports"

  /** One report, headed by the time it was written. */
  function ReportEntry(timestamp: string, result: string): string
  {
    "\n## Validation Report - " + timestamp + "\n\n" + result + "\n\n---\n"
  }

  /** `<projectDir>/.claude/validation.md`. */
  function ReportPath(projectDir: Path): Path
  {
    projectDir + [".claude", "validation.md"]
  }

  /**
   * The new content of the report file for a result, or `None` when the result passed and the
   * file is left alone: the trimmed existing text, a newline and the entry, or a fresh file
   * when there was none or it was blank.
   */
  function ReportContent(existing: Option<string>, timestamp: string, result: string): (r: Option<string>)
    ensures r.Some? <==> !Contains(result, PassMarker)
    ensures r.Some? ==> EndsWith(r.value, ReportEntry(timestamp, result))
    ensures r.Some? && existing.Some? && Trim(existing.value) != "" ==> Trim(existing.value) <= r.value
    ensures r.Some? && (existing.None? || Trim(existing.value) == "") ==> ReportsTitle <= r.value
  {
    if Contains(result, PassMarker) then None
    else
      var kept := if existing.Some? then Trim(existing.value) else "";
      var entry := ReportEntry(timestamp, result);
      if kept != "" then
        PrefixOfAppend(kept, "\n", entry);
        EndsWithTail(kept + "\n", entry);
        Some(kept + "\n" + entry)
      else
        PrefixOfAppend(ReportsTitle, "\n\n", entry);
        EndsWithTail(ReportsTitle + "\n\n", entry);
        Some(ReportsTitle + "\n\n" + entry)
  }

  /** A report file that starts with the title keeps it when another report is added. */
  lemma ReportKeepsTitle(existing: string, timestamp: string, result: string)
    requires ReportsTitle <= existing
    requires !Contains(result, PassMarker)
    ensures ReportContent(Some(existing), timestamp, result).Some?
    ensures ReportsTitle <= ReportContent(Some(existing), timestamp, result).value
  {
    var n := |ReportsTitle|;
    assert existing == ReportsTitle + existing[n..];
    TrimKeepsPrefix(ReportsTitle, existing[n..], n);
    assert ReportsTitle[..n] == ReportsTitle;
  }

  /**
   * The background worker once the agent has answered with `result` at `timestamp`: a result
   * with issues is added to the project's report file; a passing one changes nothing.
   */
  method RunValidation(fs: FileSystem, job: Validation, timestamp: string, result: string)
    modifies fs
    ensures fs.docs == old(fs.docs) && fs.programs == old(fs.programs)
    ensures var path := ReportPath(job.projectDir);
      match ReportContent(old(fs.ReadText(path)), timestamp, result)
      case None => fs.texts == old(fs.texts)
      case Some(content) => fs.texts == old(fs.texts)[path := content]
  {
    var path := ReportPath(job.projectDir);
    var hasIssues := !Contains(result, PassMarker);
    if hasIssues {
      var existing := "";
      if path in fs.texts {
        existing := Trim(fs.texts[path]);
      }
      var entry := ReportEntry(timestamp, result);
      var content := if existing != "" then existing + "\n" + entry else ReportsTitle + "\n\n" + entry;
      fs.WriteText(path, content);
    }
  }
}
