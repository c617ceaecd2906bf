/**
 * `agent-script.mjs`: the script the Claude runner starts. It streams the SDK's messages into
 * the agent's log, one text block at a time, and guards the Task tool with the allow-list it
 * was given.
 */
module AgentScript {
  import opened Common
  import opened Strings
  import opened JsonValues
  import opened Paths
  import opened Files
  import opened LogHeader
  import opened HookOutput
  import opened RunnerCore
  import opened SpawnHelpers

  // ---------------------------------------------------------------- configuration

  /** `parseInt(CLAUDE_AGENT_DEPTH || '1', 10)`, `None` for `NaN`. */
  function ScriptDepth(env: Option<string>): (d: Option<int>)
    ensures !Given(env) ==> d == Some(1)
  {
    ParseOne();
    ParseInt(if Given(env) then env.value else "1")
  }

  /** The depth the runner passes on is the depth the script reads. */
  lemma ScriptDepthRoundTrip(depth: int)
    ensures ScriptDepth(Some(IntToString(depth))) == Some(depth)
  {
    ParseIntToString(depth);
  }

  // ---------------------------------------------------------------- block keys

  /** The index of the first truthy value, as a chain of `||` picks it. */
  function FirstTruthy(xs: seq<Json>): (r: Option<nat>)
    ensures r.Some? ==> r.value < |xs| && Truthy(xs[r.value]) && forall j :: 0 <= j < r.value ==> !Truthy(xs[j])
    ensures r.None? ==> forall j :: 0 <= j < |xs| ==> !Truthy(xs[j])
  {
    if xs == [] then None
    else if Truthy(xs[0]) then Some(0)
    else match FirstTruthy(xs[1..])
      case Some(i) => Some(i + 1)
      case None => None
  }

  /** The places a message id is looked for, in order, ending with the agent's own id. */
  function IdCandidates(message: Json, agentId: Option<string>): seq<Json>
  {
    var inner := Field(message, "message");
    [Field(message, "message_id"), Field(message, "messageId"), Field(message, "id"),
     Field(inner, "id"), Field(inner, "message_id"), Field(inner, "uuid"), Field(message, "uuid"),
     if agentId.Some? then JStr(agentId.value) else JNull]
  }

  /** `resolveMessageId`: the first truthy candidate, else `'message'`. */
  function MessageId(message: Json, agentId: Option<string>): (id: Json)
    ensures Truthy(id)
  {
    var cs := IdCandidates(message, agentId);
    match FirstTruthy(cs)
    case Some(i) => cs[i]
    case None => JStr("message")
  }

  /** A message that names no id of its own is keyed by the agent's id, or by `message`. */
  lemma MessageIdFallback(message: Json, agentId: Option<string>)
    requires forall j :: 0 <= j < 7 ==> !Truthy(IdCandidates(message, agentId)[j])
    ensures agentId.Some? && agentId.value != "" ==> MessageId(message, agentId) == JStr(agentId.value)
    ensures !(agentId.Some? && agentId.value != "") ==> MessageId(message, agentId) == JStr("message")
  {
    var cs := IdCandidates(message, agentId);
    assert |cs| == 8 && cs[7] == if agentId.Some? then JStr(agentId.value) else JNull;
    FirstTruthyLast(cs);
  }

  /** When only the last candidate may be truthy, it is chosen exactly when it is. */
  lemma FirstTruthyLast(xs: seq<Json>)
    requires xs != [] && forall j :: 0 <= j < |xs| - 1 ==> !Truthy(xs[j])
    ensures FirstTruthy(xs) == if Truthy(xs[|xs| - 1]) then Some(|xs| - 1) else None
  {
  }

  /**
   * The array position a property key names. A number names itself; any other value is first
   * turned into its key text (`String(index)`), which names a position only when it is the
   * canonical decimal text of a non-negative integer: `"0"` names 0, `"00"` and `"-1"` nothing.
   */
  function ArrayIndex(index: Json): (r: Option<nat>)
    ensures r.Some? ==> IntToString(r.value) == ToJsString(index)
  {
    match index
    case JNum(n) => if n >= 0 then Some(n) else None
    case _ =>
      var key := ToJsString(index);
      match ParseInt(key)
      case Some(n) => if n >= 0 && IntToString(n) == key then Some(n) else None
      case None => None
  }

  /** A key names position `n` exactly when its text is the decimal text of `n`. */
  lemma ArrayIndexNames(index: Json, n: nat)
    ensures ArrayIndex(index) == Some(n) <==> IntToString(n) == ToJsString(index)
  {
    ParseIntToString(n);
    if index.JNum? {
      ParseIntToString(index.n);
    }
  }

  /** `items[index]`, `undefined` (here `null`) when the key names no position inside the array. */
  function ElementAt(items: seq<Json>, index: Json): Json
  {
    match ArrayIndex(index)
    case Some(k) => if k < |items| then items[k] else JNull
    case None => JNull
  }

  /** As in JavaScript, the string `"2"` selects the same item as the number 2. */
  lemma StringIndexSelects(items: seq<Json>, n: nat)
    ensures ElementAt(items, JStr(IntToString(n))) == ElementAt(items, JNum(n))
    ensures n < |items| ==> ElementAt(items, JStr(IntToString(n))) == items[n]
  {
    ArrayIndexNames(JStr(IntToString(n)), n);
  }

  /** The block a message is about: its own block field, else the `index`-th item of its content. */
  function BlockOf(message: Json, index: Json): Json
  {
    var cs := [Field(message, "content_block"), Field(message, "contentBlock"), Field(message, "block")];
    match FirstTruthy(cs)
    case Some(i) => cs[i]
    case None =>
      var content := Field(Field(message, "message"), "content");
      if content.JArr? then ElementAt(content.items, index) else JNull
  }

  /** The places a block id is looked for, in order. */
  function BlockIdCandidates(message: Json, index: Json): seq<Json>
  {
    var block := BlockOf(message, index);
    [Field(block, "id"), Field(block, "block_id"), Field(block, "blockId"), Field(message, "block_id"), Field(message, "blockId")]
  }

  /** The index that names a block without an id: a numeric `message.index` first, then `index`, then 0. */
  function DerivedIndex(message: Json, index: Json): int
  {
    match Get(message, "index")
    case Some(JNum(n)) => n
    case _ => if index.JNum? then index.n else 0
  }

  /** `getBlockKey(message, index)`: `<messageId>:<blockId>`, or `<messageId>:<index>` without a block id. */
  function BlockKey(message: Json, index: Json, agentId: Option<string>): (key: string)
    ensures ToJsString(MessageId(message, agentId)) + ":" <= key
  {
    var cs := BlockIdCandidates(message, index);
    var rest := match FirstTruthy(cs)
      case Some(i) => ToJsString(cs[i])
      case None => IntToString(DerivedIndex(message, index));
    ToJsString(MessageId(message, agentId)) + ":" + rest
  }

  /** `message.index ?? 0`. */
  function IndexOrZero(message: Json): Json
  {
    match Get(message, "index")
    case Some(JNull) => JNum(0)
    case Some(v) => v
    case None => JNum(0)
  }

  /**
   * Two content blocks of one message, neither with an id and the message without a numeric
   * `index`, are kept apart by their positions.
   */
  lemma PositionsKeepBlocksApart(message: Json, i: nat, j: nat, agentId: Option<string>)
    requires i != j
    requires !Get(message, "index").Some? || !Get(message, "index").value.JNum?
    requires FirstTruthy(BlockIdCandidates(message, JNum(i))).None?
    requires FirstTruthy(BlockIdCandidates(message, JNum(j))).None?
    ensures BlockKey(message, JNum(i), agentId) != BlockKey(message, JNum(j), agentId)
  {
    var prefix := ToJsString(MessageId(message, agentId)) + ":";
    assert DerivedIndex(message, JNum(i)) == i;
    assert DerivedIndex(message, JNum(j)) == j;
    var ki := BlockKey(message, JNum(i), agentId);
    var kj := BlockKey(message, JNum(j), agentId);
    assert ki == prefix + IntToString(i);
    assert kj == prefix + IntToString(j);
    if ki == kj {
      assert ki[|prefix|..] == IntToString(i);
      assert kj[|prefix|..] == IntToString(j);
      ParseIntToString(i);
      ParseIntToString(j);
    }
  }

  // ---------------------------------------------------------------- block texts

  /** `blockStates.get(key) || ''`. */
  function Previous(blocks: map<string, string>, key: string): string
  {
    if key in blocks then blocks[key] else ""
  }

  /** Some block already holds `text`. */
  predicate Stored(blocks: map<string, string>, text: string)
  {
    exists k :: k in blocks && blocks[k] == text
  }

  /**
   * `appendFullText` for a text block whose key is `key`: the new block states and the text
   * appended. A text that another block already holds is an echo: it is recorded and nothing
   * is written. A text equal to the previous one writes nothing. A text extending the
   * previous one writes the new suffix; any other text is written whole on a new line.
   */
  function FullText(blocks: map<string, string>, key: string, next: string): (r: (map<string, string>, string))
    ensures next == Previous(blocks, key) ==> r == (blocks, "")
    ensures next != Previous(blocks, key) ==> r.0 == blocks[key := next]
    ensures next != Previous(blocks, key) && Stored(blocks, next) ==> r.1 == ""
    ensures next != Previous(blocks, key) && !Stored(blocks, next) ==>
      r.1 != "" && (Previous(blocks, key) <= next ==> Previous(blocks, key) + r.1 == next)
      && (!(Previous(blocks, key) <= next) ==> r.1 == "\n" + next)
  {
    var previous := Previous(blocks, key);
    if previous != next && Stored(blocks, next) then (blocks[key := next], "")
    else if next == previous then (blocks, "")
    else if previous <= next then (blocks[key := next], next[|previous|..])
    else (blocks[key := next], "\n" + next)
  }

  /** Feeding one block a sequence of texts: the states and everything written. */
  function FeedBlock(blocks: map<string, string>, key: string, texts: seq<string>): (r: (map<string, string>, string))
    decreases |texts|
  {
    if texts == [] then (blocks, "")
    else
      var step := FullText(blocks, key, texts[0]);
      var rest := FeedBlock(step.0, key, texts[1..]);
      (rest.0, step.1 + rest.1)
  }

  /** Each text extends the one before it, starting from the block's current text. */
  predicate Growing(start: string, texts: seq<string>)
  {
    (texts != [] ==> start <= texts[0]) && forall i :: 0 <= i < |texts| - 1 ==> texts[i] <= texts[i + 1]
  }

  /**
   * Streaming ever longer versions of one block writes exactly the final text beyond what the
   * block held, as long as no other block holds one of the versions.
   */
  lemma {:induction false} GrowingWritesFinal(blocks: map<string, string>, key: string, texts: seq<string>)
    requires texts != [] && Growing(Previous(blocks, key), texts)
    requires forall k, i :: k in blocks && k != key && 0 <= i < |texts| ==> blocks[k] != texts[i]
    ensures var r := FeedBlock(blocks, key, texts);
      Previous(blocks, key) + r.1 == texts[|texts| - 1]
      && Previous(r.0, key) == texts[|texts| - 1]
    decreases |texts|
  {
    var previous := Previous(blocks, key);
    var step := FullText(blocks, key, texts[0]);
    ChainStep(blocks, key, texts[0]);
    if |texts| == 1 {
      assert texts[1..] == [];
      assert previous + (step.1 + "") == texts[0];
    } else {
      var tail := texts[1..];
      var rest := FeedBlock(step.0, key, tail);
      assert FeedBlock(blocks, key, texts) == (rest.0, step.1 + rest.1);
      forall k, i | k in step.0 && k != key && 0 <= i < |tail|
        ensures step.0[k] != tail[i]
      {
        assert tail[i] == texts[i + 1];
      }
      GrowingTail(texts);
      GrowingWritesFinal(step.0, key, tail);
      assert tail[|tail| - 1] == texts[|texts| - 1];
      AppendAssoc(previous, step.1, rest.1);
    }
  }

  lemma GrowingTail(texts: seq<string>)
    requires |texts| > 1 && forall i :: 0 <= i < |texts| - 1 ==> texts[i] <= texts[i + 1]
    ensures Growing(texts[0], texts[1..])
  {
    var tail := texts[1..];
    forall i | 0 <= i < |tail| - 1 ensures tail[i] <= tail[i + 1] {
      assert tail[i] == texts[i + 1] && tail[i + 1] == texts[i + 2];
    }
  }

  /** One version of a growing block that no other block holds: the block now holds it, and only the new part is written. */
  lemma ChainStep(blocks: map<string, string>, key: string, next: string)
    requires Previous(blocks, key) <= next
    requires forall k :: k in blocks && k != key ==> blocks[k] != next
    ensures var r := FullText(blocks, key, next);
      Previous(blocks, key) + r.1 == next && Previous(r.0, key) == next
      && forall k :: k != key ==> (k in r.0 <==> k in blocks) && (k in blocks ==> r.0[k] == blocks[k])
  {
    if next != Previous(blocks, key) {
      assert !Stored(blocks, next);
    }
  }

  /** `appendDeltaText`: the delta is written as it is and extends the block's text. */
  function DeltaText(blocks: map<string, string>, key: string, delta: string): (r: map<string, string>)
    ensures key in r && Previous(r, key) == Previous(blocks, key) + delta
    ensures forall k :: k != key ==> (k in r <==> k in blocks) && (k in blocks ==> r[k] == blocks[k])
  {
    blocks[key := Previous(blocks, key) + delta]
  }

  /** A run of `text_delta`s for one block: the states and everything written. */
  function FeedDeltas(blocks: map<string, string>, key: string, deltas: seq<string>): (map<string, string>, string)
    decreases |deltas|
  {
    if deltas == [] then (blocks, "")
    else
      var rest := FeedDeltas(DeltaText(blocks, key, deltas[0]), key, deltas[1..]);
      (rest.0, deltas[0] + rest.1)
  }

  /**
   * A block streamed as deltas holds exactly what was written for it, so when the assistant
   * message then repeats that text under its own key, nothing is written a second time.
   */
  lemma {:induction false} DeltasThenEcho(blocks: map<string, string>, key: string, deltas: seq<string>, other: string)
    requires deltas != [] && other != key
    ensures var d := FeedDeltas(blocks, key, deltas);
      Previous(d.0, key) == Previous(blocks, key) + d.1
      && FullText(d.0, other, Previous(d.0, key)).1 == ""
  {
    DeltasWritten(blocks, key, deltas);
    var d := FeedDeltas(blocks, key, deltas);
    assert key in d.0;
  }

  lemma {:induction false} DeltasWritten(blocks: map<string, string>, key: string, deltas: seq<string>)
    ensures var d := FeedDeltas(blocks, key, deltas);
      Previous(d.0, key) == Previous(blocks, key) + d.1 && (deltas != [] || key in blocks ==> key in d.0)
    decreases |deltas|
  {
    if deltas == [] {
      assert Previous(blocks, key) + "" == Previous(blocks, key);
    } else {
      var next := DeltaText(blocks, key, deltas[0]);
      DeltasWritten(next, key, deltas[1..]);
      var rest := FeedDeltas(next, key, deltas[1..]);
      assert Previous(blocks, key) + (deltas[0] + rest.1) == (Previous(blocks, key) + deltas[0]) + rest.1;
    }
  }

  // ---------------------------------------------------------------- the Task guard

  /** `allowedAgents.includes(x)`: objects and arrays from the input never equal a list element. */
  predicate Includes(list: seq<Json>, x: Json)
  {
    !x.JObj? && !x.JArr? && x in list
  }

  function GuardReason(list: seq<Json>, requested: Json): string
  {
    "This agent can only spawn: " + (if |list| > 0 then JoinValues(list, ", ") else "none")
      + ". '" + (if Truthy(requested) then ToJsString(requested) else "unknown") + "' is not allowed."
  }

  /**
   * The PreToolUse hook the script installs: with an allow-list, a Task call for a missing or
   * unlisted subagent is denied; everything else gets `{}`.
   */
  function Guard(allowed: Option<Json>, input: Json): (reply: Json)
    ensures reply != JObj([]) <==>
      Field(input, "tool_name") == JStr("Task") && allowed.Some? && allowed.value.JArr?
      && var requested := Field(Field(input, "tool_input"), "subagent_type");
      (!Truthy(requested) || !Includes(allowed.value.items, requested))
    ensures reply != JObj([]) ==> DecisionOf(reply) == Some(JStr("deny"))
  {
    var requested := Field(Field(input, "tool_input"), "subagent_type");
    if Field(input, "tool_name") == JStr("Task") && allowed.Some? && allowed.value.JArr?
       && (!Truthy(requested) || !Includes(allowed.value.items, requested))
    then
      ReadReply("deny", GuardReason(allowed.value.items, requested));
      PreToolUseReply("deny", GuardReason(allowed.value.items, requested))
    else JObj([])
  }

  /**
   * The allow-list a spawner passes is the one enforced: without one every subagent may be
   * spawned; with one, exactly the listed names are.
   */
  lemma AllowListEnforced(allowed: Option<seq<Json>>, name: string)
    ensures var guard := ReadJsonEnv(Some(JsonOrNull(if allowed.None? then None else Some(JArr(allowed.value)))));
      var input := JObj([Member("tool_name", JStr("Task")),
                         Member("tool_input", JObj([Member("subagent_type", JStr(name))]))]);
      Guard(guard, input) == JObj([]) <==> allowed.None? || (name != "" && JStr(name) in allowed.value)
  {
    AllowListRoundTrip(allowed);
    var inner := [Member("subagent_type", JStr(name))];
    var ms := [Member("tool_name", JStr("Task")), Member("tool_input", JObj(inner))];
    LookupAt(ms, 0, "tool_name");
    LookupAt(ms, 1, "tool_input");
    LookupAt(inner, 0, "subagent_type");
  }

  // ---------------------------------------------------------------- failure

  /** The section the script's `catch` appends. */
  function FailureNote(message: string): string
  {
    "\n\n## Status: Failed\n\nError: " + message + "\n"
  }

  /** The `catch` as written: only the note is appended; the header stays in progress. */
  function CatchAsWritten(log: Option<string>, message: string): string
  {
    log.GetOr("") + FailureNote(message)
  }

  /** The `catch` as evidently intended: the note, and the header marked `failed`. */
  function CatchCorrected(log: Option<string>, message: string, endTime: string): string
  {
    LogHeader.UpdateFrontmatter(log.GetOr("") + FailureNote(message), "failed", endTime)
  }

  lemma HeaderAtAppend(log: string, i: nat, more: string)
    requires HeaderAt(log, i)
    ensures HeaderAt(log + more, i)
  {
    assert (log + more)[i..i + |InProgressLine + "\n"|] == log[i..i + |InProgressLine + "\n"|];
    assert |StatusPrefix| <= |InProgressLine + "\n"|;
    forall j | 0 <= j < i ensures !OccursAt(log + more, StatusPrefix, j) {
      assert j + |StatusPrefix| <= |log|;
      assert !OccursAt(log, StatusPrefix, j);
      assert (log + more)[j..j + |StatusPrefix|] == log[j..j + |StatusPrefix|];
    }
  }

  /**
   * The `catch` as written keeps what was logged and leaves an in-progress header in progress:
   * the status the monitor reads is still `in-progress`.
   */
  lemma CatchLeavesHeader(log: string, i: nat, message: string)
    requires HeaderAt(log, i)
    ensures log <= CatchAsWritten(Some(log), message)
    ensures HeaderAt(CatchAsWritten(Some(log), message), i)
    ensures StatusToken(CatchAsWritten(Some(log), message)) == Some(InProgress)
  {
    HeaderAtAppend(log, i, FailureNote(message));
    StatusOfHeader(log + FailureNote(message), i);
  }

  /**
   * As written, a run whose query fails ends as `done`: the script exits normally, so the
   * runner's exit handler finds a header still in progress and completes it.
   */
  lemma FailedRunEndsDone(log: string, i: nat, message: string, endTime: string, crash: string)
    requires HeaderAt(log, i) && !IsTerminal(log + FailureNote(message))
    ensures var e := ExitEffect(false, Some(CatchAsWritten(Some(log), message)), Some(0), None, endTime, crash);
      e.log.Some? && StatusToken(e.log.value) == Some("done")
  {
    HeaderAtAppend(log, i, FailureNote(message));
    ExitIsFinal(log + FailureNote(message), i, Some(0), None, endTime, crash);
  }

  /** With the header marked in the `catch`, the runner's exit handler keeps it `failed`. */
  lemma FailedRunEndsFailed(log: string, i: nat, message: string, endTime: string, endTime': string, crash: string)
    requires HeaderAt(log, i)
    ensures var e := ExitEffect(false, Some(CatchCorrected(Some(log), message, endTime)), Some(0), None, endTime', crash);
      e.log.Some? && StatusToken(e.log.value) == Some("failed")
  {
    var noted := log + FailureNote(message);
    HeaderAtAppend(log, i, FailureNote(message));
    FailedIsWord();
    FinalIsTerminal(noted, i, "failed", endTime);
    FinalStatus(noted, i, "failed", endTime, "");
    assert LogHeader.UpdateFrontmatter(noted, "failed", endTime) + "" == LogHeader.UpdateFrontmatter(noted, "failed", endTime);
  }

  // ---------------------------------------------------------------- the message stream

  /** What the script has produced so far: the block texts and the log file (`None` while missing). */
  datatype ScriptState = ScriptState(blocks: map<string, string>, log: Option<string>)

  /** `appendToLog`: an empty text leaves the log alone, anything else is appended (creating the file). */
  function Appended(log: Option<string>, text: string): Option<string>
  {
    if text == "" then log else Some(log.GetOr("") + text)
  }

  /** The text of a text block: a truthy block whose `type` is `'text'` and whose `text` is a string. */
  function TextOf(block: Json): Option<string>
  {
    if Truthy(block) && Field(block, "type") == JStr("text") && Field(block, "text").JStr? then
      Some(Field(block, "text").s)
    else None
  }

  /** `appendFullText(message, block, index)` on the script's state. */
  function FullTextStep(s: ScriptState, message: Json, block: Json, index: Json, agentId: Option<string>): ScriptState
  {
    match TextOf(block)
    case None => s
    case Some(next) =>
      var r := FullText(s.blocks, BlockKey(message, index, agentId), next);
      ScriptState(r.0, Appended(s.log, r.1))
  }

  /** A block that is not a text block changes nothing; a text block's key ends up holding its text. */
  lemma FullTextStepEffect(s: ScriptState, message: Json, block: Json, index: Json, agentId: Option<string>)
    ensures TextOf(block).None? ==> FullTextStep(s, message, block, index, agentId) == s
    ensures TextOf(block).Some? ==>
      var key := BlockKey(message, index, agentId);
      var t := FullTextStep(s, message, block, index, agentId);
      Previous(t.blocks, key) == TextOf(block).value
      && (forall k :: k != key ==> (k in t.blocks <==> k in s.blocks) && (k in s.blocks ==> t.blocks[k] == s.blocks[k]))
      && (t.log == s.log || t.log == Some(s.log.GetOr("") + t.log.value[|s.log.GetOr("")|..]))
  {
    if TextOf(block).Some? {
      var key := BlockKey(message, index, agentId);
      var r := FullText(s.blocks, key, TextOf(block).value);
      assert FullTextStep(s, message, block, index, agentId) == ScriptState(r.0, Appended(s.log, r.1));
      FullTextHolds(s.blocks, key, TextOf(block).value);
      AppendedExtends(s.log, r.1);
    }
  }

  /** After `appendFullText` the block holds the text and every other block is unchanged. */
  lemma FullTextHolds(blocks: map<string, string>, key: string, next: string)
    ensures var r := FullText(blocks, key, next);
      Previous(r.0, key) == next
      && forall k :: k != key ==> (k in r.0 <==> k in blocks) && (k in blocks ==> r.0[k] == blocks[k])
  {
  }

  /** Appending leaves the log alone or extends it. */
  lemma AppendedExtends(log: Option<string>, text: string)
    ensures var a := Appended(log, text);
      a == log || (a.Some? && a == Some(log.GetOr("") + a.value[|log.GetOr("")|..]))
  {
    if text != "" {
      var base := log.GetOr("");
      assert (base + text)[|base|..] == text;
    }
  }

  /** The first `k` content blocks of an assistant message, fed in order with their positions. */
  function ContentSteps(s: ScriptState, message: Json, items: seq<Json>, k: nat, agentId: Option<string>): ScriptState
    requires k <= |items|
  {
    if k == 0 then s
    else FullTextStep(ContentSteps(s, message, items, k - 1, agentId), message, items[k - 1], JNum(k - 1), agentId)
  }

  /** A `content_block_start` of a text block opens its key with an empty text, unless it is open already. */
  function BlockStartStep(s: ScriptState, message: Json, agentId: Option<string>): (t: ScriptState)
    ensures t.log == s.log
    ensures forall k :: k in s.blocks ==> k in t.blocks && t.blocks[k] == s.blocks[k]
  {
    var fromBlock := Field(Field(message, "content_block"), "type");
    var blockType := if Truthy(fromBlock) then fromBlock else Field(Field(message, "contentBlock"), "type");
    var key := BlockKey(message, IndexOrZero(message), agentId);
    if blockType == JStr("text") && key !in s.blocks then ScriptState(s.blocks[key := ""], s.log) else s
  }

  /** The text a `text_delta` carries, when it is a non-empty string. */
  function DeltaOf(message: Json): Option<string>
  {
    var delta := Field(message, "delta");
    if Field(delta, "type") == JStr("text_delta") && Field(delta, "text").JStr? && Field(delta, "text").s != "" then
      Some(Field(delta, "text").s)
    else None
  }

  /**
   * `appendDeltaText(message, message.delta.text)`: the delta goes to the log verbatim and
   * extends the text of the block it belongs to.
   */
  function DeltaStep(s: ScriptState, message: Json, agentId: Option<string>): (t: ScriptState)
    ensures DeltaOf(message).None? ==> t == s
    ensures DeltaOf(message).Some? ==>
      var key := BlockKey(message, IndexOrZero(message), agentId);
      t.log == Some(s.log.GetOr("") + DeltaOf(message).value)
      && t.blocks == s.blocks[key := Previous(s.blocks, key) + DeltaOf(message).value]
  {
    match DeltaOf(message)
    case None => s
    case Some(text) =>
      ScriptState(DeltaText(s.blocks, BlockKey(message, IndexOrZero(message), agentId), text), Appended(s.log, text))
  }

  /** The status a `result` message records. */
  function ResultStatus(message: Json): (status: string)
    ensures status == "done" <==> Field(message, "subtype") == JStr("success")
    ensures status == "done" || status == "failed"
  {
    if Field(message, "subtype") == JStr("success") then "done" else "failed"
  }

  /** A `result` message: the header is finalised; `None` when reading a missing log throws. */
  function ResultStep(s: ScriptState, message: Json, endTime: string): Option<ScriptState>
  {
    if s.log.None? then None
    else Some(ScriptState(s.blocks, Some(LogHeader.UpdateFrontmatter(s.log.value, ResultStatus(message), endTime))))
  }

  /**
   * After the result of an in-progress run the monitor reads its status, and the runner's exit
   * handler, finding the log final, leaves it as it is.
   */
  lemma ResultIsFinal(s: ScriptState, i: nat, message: Json, endTime: string, endTime': string, crash: string)
    requires s.log.Some? && HeaderAt(s.log.value, i)
    ensures var t := ResultStep(s, message, endTime);
      t.Some? && t.value.log.Some?
      && StatusToken(t.value.log.value) == Some(ResultStatus(message))
      && ExitEffect(false, t.value.log, Some(0), None, endTime', crash).log == t.value.log
  {
    var log := s.log.value;
    var status := ResultStatus(message);
    FailedIsWord();
    FinalStatus(log, i, status, endTime, "");
    assert LogHeader.UpdateFrontmatter(log, status, endTime) + "" == LogHeader.UpdateFrontmatter(log, status, endTime);
    FinalIsTerminal(log, i, status, endTime);
  }

  /** One message of the stream; `None` when handling it throws. */
  function MessageStep(s: ScriptState, message: Json, endTime: string, agentId: Option<string>): (r: Option<ScriptState>)
    ensures r.None? ==> Field(message, "type") == JStr("result") && s.log.None?
  {
    var kind := Field(message, "type");
    if kind == JStr("assistant") then
      var content := Field(Field(message, "message"), "content");
      Some(if content.JArr? then ContentSteps(s, message, content.items, |content.items|, agentId) else s)
    else if kind == JStr("content_block_start") then Some(BlockStartStep(s, message, agentId))
    else if kind == JStr("content_block_delta") || kind == JStr("message_delta") then Some(DeltaStep(s, message, agentId))
    else if kind == JStr("result") then ResultStep(s, message, endTime)
    else Some(s)
  }

  /** The first `k` messages of the stream; the flag tells whether one of them threw, which ends the loop. */
  function StreamSteps(s: ScriptState, messages: seq<Json>, endTimes: seq<string>, k: nat, agentId: Option<string>): (ScriptState, bool)
    requires k <= |messages| && |endTimes| == |messages|
  {
    if k == 0 then (s, false)
    else
      var before := StreamSteps(s, messages, endTimes, k - 1, agentId);
      if before.1 then before
      else match MessageStep(before.0, messages[k - 1], endTimes[k - 1], agentId)
        case None => (before.0, true)
        case Some(t) => (t, false)
  }

  /**
   * The whole run: the stream, then the `catch` (as corrected) when reading the log threw
   * (`readError`) or the stream itself failed (`streamError`).
   */
  function RunSteps(s: ScriptState, messages: seq<Json>, endTimes: seq<string>, streamError: Option<string>,
                    readError: string, failTime: string, agentId: Option<string>): ScriptState
    requires |endTimes| == |messages|
  {
    var r := StreamSteps(s, messages, endTimes, |messages|, agentId);
    if r.1 then ScriptState(r.0.blocks, Some(CatchCorrected(r.0.log, readError, failTime)))
    else if streamError.Some? then ScriptState(r.0.blocks, Some(CatchCorrected(r.0.log, streamError.value, failTime)))
    else r.0
  }

  /** No message ever forgets a block: a key, once opened, stays. */
  lemma {:induction false} BlocksOnlyGrow(s: ScriptState, messages: seq<Json>, endTimes: seq<string>, k: nat, agentId: Option<string>)
    requires k <= |messages| && |endTimes| == |messages|
    ensures s.blocks.Keys <= StreamSteps(s, messages, endTimes, k, agentId).0.blocks.Keys
  {
    if k > 0 {
      BlocksOnlyGrow(s, messages, endTimes, k - 1, agentId);
      var before := StreamSteps(s, messages, endTimes, k - 1, agentId);
      if !before.1 {
        MessageKeepsKeys(before.0, messages[k - 1], endTimes[k - 1], agentId);
      }
    }
  }

  lemma MessageKeepsKeys(s: ScriptState, message: Json, endTime: string, agentId: Option<string>)
    ensures var r := MessageStep(s, message, endTime, agentId); r.Some? ==> s.blocks.Keys <= r.value.blocks.Keys
  {
    var content := Field(Field(message, "message"), "content");
    if Field(message, "type") == JStr("assistant") && content.JArr? {
      ContentKeepsKeys(s, message, content.items, |content.items|, agentId);
    }
  }

  lemma {:induction false} ContentKeepsKeys(s: ScriptState, message: Json, items: seq<Json>, k: nat, agentId: Option<string>)
    requires k <= |items|
    ensures s.blocks.Keys <= ContentSteps(s, message, items, k, agentId).blocks.Keys
  {
    if k > 0 {
      ContentKeepsKeys(s, message, items, k - 1, agentId);
    }
  }

  /**
   * What a text different from the block's previous one adds to the log: the new suffix when it
   * extends the previous text, otherwise the whole text on a new line. The common-prefix scan
   * can never reach the end of the previous text here, so its slicing branch is dead.
   */
  method NewPart(previous: string, nextText: string) returns (delta: string)
    requires previous != nextText
    ensures delta != ""
    ensures previous <= nextText ==> previous + delta == nextText
    ensures !(previous <= nextText) ==> delta == "\n" + nextText
  {
    delta := "";
    if previous <= nextText {
      delta := nextText[|previous|..];
    } else {
      var prefixLength := 0;
      var limit := if |previous| < |nextText| then |previous| else |nextText|;
      while prefixLength < limit && previous[prefixLength] == nextText[prefixLength]
        invariant prefixLength <= limit
        invariant previous[..prefixLength] == nextText[..prefixLength]
      {
        prefixLength := prefixLength + 1;
      }
      if prefixLength < |previous| {
        delta := "\n" + nextText;
      } else {
        assert false;
      }
    }
  }

  /** The scan over `blockStates.values()` for a block already holding `text`. */
  method HeldByAny(blocks: map<string, string>, text: string) returns (found: bool)
    ensures found <==> Stored(blocks, text)
  {
    var rest := blocks.Values;
    while rest != {}
      invariant rest <= blocks.Values
      invariant forall v :: v in blocks.Values && v !in rest ==> v != text
      decreases |rest|
    {
      var existing :| existing in rest;
      if existing == text {
        return true;
      }
      rest := rest - {existing};
    }
    assert forall k :: k in blocks ==> blocks[k] in blocks.Values;
    return false;
  }

  /** The script's log and block memory. */
  class Script {
    const fs: FileSystem
    const logPath: Path
    const agentId: Option<string>
    var blockStates: map<string, string>

    constructor(fs: FileSystem, logPath: Path, agentId: Option<string>)
      ensures this.fs == fs && this.logPath == logPath && this.agentId == agentId && blockStates == map[]
    {
      this.fs := fs;
      this.logPath := logPath;
      this.agentId := agentId;
      blockStates := map[];
    }

    function State(): ScriptState
      reads this, fs
    {
      ScriptState(blockStates, fs.ReadText(logPath))
    }

    method AppendToLog(text: string)
      modifies fs
      ensures fs.ReadText(logPath) == Appended(old(fs.ReadText(logPath)), text)
      ensures fs.texts - {logPath} == old(fs.texts) - {logPath}
      ensures fs.docs == old(fs.docs) && fs.programs == old(fs.programs)
    {
      if text == "" {
        return;
      }
      fs.AppendText(logPath, text);
    }

    method AppendFullText(message: Json, block: Json, index: Json)
      modifies this, fs
      ensures State() == FullTextStep(old(State()), message, block, index, agentId)
      ensures fs.texts - {logPath} == old(fs.texts) - {logPath}
      ensures fs.docs == old(fs.docs) && fs.programs == old(fs.programs)
    {
      var text := TextOf(block);
      if text.None? {
        return;
      }
      Record(BlockKey(message, index, agentId), text.value);
    }

    /** The rest of `appendFullText`, once the block's key and text are known. */
    method Record(key: string, nextText: string)
      modifies this, fs
      ensures var r := FullText(old(blockStates), key, nextText);
        blockStates == r.0 && fs.ReadText(logPath) == Appended(old(fs.ReadText(logPath)), r.1)
      ensures fs.texts - {logPath} == old(fs.texts) - {logPath}
      ensures fs.docs == old(fs.docs) && fs.programs == old(fs.programs)
    {
      var previous := if key in blockStates then blockStates[key] else "";
      if previous != nextText {
        var echo := HeldByAny(blockStates, nextText);
        if echo {
          blockStates := blockStates[key := nextText];
          return;
        }
      }
      if nextText == previous {
        return;
      }
      var delta := NewPart(previous, nextText);
      if delta != "" {
        AppendToLog(delta);
        blockStates := blockStates[key := nextText];
      }
    }

    method AppendContent(message: Json, items: seq<Json>)
      modifies this, fs
      ensures State() == ContentSteps(old(State()), message, items, |items|, agentId)
      ensures fs.texts - {logPath} == old(fs.texts) - {logPath}
      ensures fs.docs == old(fs.docs) && fs.programs == old(fs.programs)
    {
      for index := 0 to |items|
        invariant State() == ContentSteps(old(State()), message, items, index, agentId)
        invariant fs.texts - {logPath} == old(fs.texts) - {logPath}
        invariant fs.docs == old(fs.docs) && fs.programs == old(fs.programs)
      {
        AppendFullText(message, items[index], JNum(index));
      }
    }

    method AppendDeltaText(message: Json, deltaText: Option<string>)
      requires deltaText == DeltaOf(message)
      modifies this, fs
      ensures State() == DeltaStep(old(State()), message, agentId)
      ensures fs.texts - {logPath} == old(fs.texts) - {logPath}
      ensures fs.docs == old(fs.docs) && fs.programs == old(fs.programs)
    {
      if deltaText.None? {
        return;
      }
      var key := BlockKey(message, IndexOrZero(message), agentId);
      var previous := if key in blockStates then blockStates[key] else "";
      var next := previous + deltaText.value;
      AppendToLog(deltaText.value);
      blockStates := blockStates[key := next];
    }

    method OnResult(message: Json, endTime: string) returns (threw: bool)
      modifies fs
      ensures var r := ResultStep(old(State()), message, endTime);
        threw == r.None? && (r.Some? ==> State() == r.value) && (r.None? ==> State() == old(State()))
      ensures fs.texts - {logPath} == old(fs.texts) - {logPath}
      ensures fs.docs == old(fs.docs) && fs.programs == old(fs.programs)
    {
      var status := if Field(message, "subtype") == JStr("success") then "done" else "failed";
      var content := fs.ReadText(logPath);
      if content.None? {
        return true;
      }
      fs.WriteText(logPath, LogHeader.UpdateFrontmatter(content.value, status, endTime));
      threw := false;
    }

    /** One message of the `for await` loop; `threw` when handling it throws. */
    method OnMessage(message: Json, endTime: string) returns (threw: bool)
      modifies this, fs
      ensures var r := MessageStep(old(State()), message, endTime, agentId);
        threw == r.None? && (r.Some? ==> State() == r.value) && (r.None? ==> State() == old(State()))
      ensures fs.texts - {logPath} == old(fs.texts) - {logPath}
      ensures fs.docs == old(fs.docs) && fs.programs == old(fs.programs)
    {
      threw := false;
      var kind := Field(message, "type");
      if kind == JStr("assistant") {
        var content := Field(Field(message, "message"), "content");
        if content.JArr? {
          AppendContent(message, content.items);
        }
      } else if kind == JStr("content_block_start") {
        var fromBlock := Field(Field(message, "content_block"), "type");
        var blockType := if Truthy(fromBlock) then fromBlock else Field(Field(message, "contentBlock"), "type");
        if blockType == JStr("text") {
          var key := BlockKey(message, IndexOrZero(message), agentId);
          if key !in blockStates {
            blockStates := blockStates[key := ""];
          }
        }
      } else if kind == JStr("content_block_delta") || kind == JStr("message_delta") {
        AppendDeltaText(message, DeltaOf(message));
      } else if kind == JStr("result") {
        threw := OnResult(message, endTime);
      }
    }

    /**
     * The script's main loop over the SDK's messages, stopping at the first that throws, then
     * the `catch`, as corrected, for that error or for the stream's own.
     */
    method Run(messages: seq<Json>, endTimes: seq<string>, streamError: Option<string>, readError: string, failTime: string)
      requires |endTimes| == |messages|
      modifies this, fs
      ensures State() == RunSteps(old(State()), messages, endTimes, streamError, readError, failTime, agentId)
      ensures fs.texts - {logPath} == old(fs.texts) - {logPath}
      ensures fs.docs == old(fs.docs) && fs.programs == old(fs.programs)
    {
      var threw := false;
      var i := 0;
      while i < |messages| && !threw
        invariant i <= |messages|
        invariant (State(), threw) == StreamSteps(old(State()), messages, endTimes, i, agentId)
        invariant fs.texts - {logPath} == old(fs.texts) - {logPath}
        invariant fs.docs == old(fs.docs) && fs.programs == old(fs.programs)
      {
        threw := OnMessage(messages[i], endTimes[i]);
        i := i + 1;
      }
      if threw {
        StreamStopped(old(State()), messages, endTimes, i, agentId);
        Fail(readError, failTime);
      } else if streamError.Some? {
        Fail(streamError.value, failTime);
      }
    }

    /** The `catch`, as corrected: the failure note, and the header marked `failed`. */
    method Fail(message: string, endTime: string)
      modifies fs
      ensures State() == ScriptState(old(blockStates), Some(CatchCorrected(old(fs.ReadText(logPath)), message, endTime)))
      ensures fs.texts - {logPath} == old(fs.texts) - {logPath}
      ensures fs.docs == old(fs.docs) && fs.programs == old(fs.programs)
    {
      fs.AppendText(logPath, FailureNote(message));
      var content := fs.ReadText(logPath);
      fs.WriteText(logPath, LogHeader.UpdateFrontmatter(content.value, "failed", endTime));
    }
  }

  /** Once a message has thrown, the later ones are not looked at. */
  lemma {:induction false} StreamStopped(s: ScriptState, messages: seq<Json>, endTimes: seq<string>, k: nat, agentId: Option<string>)
    requires k <= |messages| && |endTimes| == |messages|
    requires StreamSteps(s, messages, endTimes, k, agentId).1
    ensures StreamSteps(s, messages, endTimes, |messages|, agentId) == StreamSteps(s, messages, endTimes, k, agentId)
    decreases |messages| - k
  {
    if k < |messages| {
      StreamStopped(s, messages, endTimes, k + 1, agentId);
    }
  }
}
