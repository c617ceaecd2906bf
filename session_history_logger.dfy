/**
 * The SessionEnd hook that has a background agent record the session in the project's
 * history (hooks/lifecycle/session-history-logger.mjs): which sessions it acts on, the user
 * and assistant messages it reads from the transcript, and the conversation it hands over.
 */
module SessionHistoryLogger {
  import opened Common
  import opened Strings
  import opened JsonValues
  import opened Files
  import opened Transcripts

  // ---------------------------------------------------------------- the entry point

  /** What the detached worker receives: the transcript path, the session and the directory. */
  datatype HistoryJob = HistoryJob(transcriptPath: Json, sessionId: Json, cwd: Json)

  /** How the hook ends: it throws, it stops early, or it starts the worker. */
  datatype EndRun = Crashed | Skipped | Spawned(job: HistoryJob)

  /**
   * The hook on its input, with `processCwd` the directory it runs in: only a SessionEnd whose
   * reason is not `other` and that names a transcript and a session starts the worker.
   */
  function Hook(input: Doc, processCwd: string): (r: EndRun)
    ensures r.Crashed? <==> input.Garbled? || input.value.JNull?
    ensures r.Spawned? ==>
      Truthy(r.job.transcriptPath) && r.job.transcriptPath == Field(input.value, "transcript_path")
      && Truthy(r.job.sessionId) && r.job.sessionId == Field(input.value, "session_id")
  {
    match input
    case Garbled => Crashed
    case Parsed(j) =>
      if j.JNull? then Crashed
      else if Field(j, "hook_event_name") != JStr("SessionEnd") || Field(j, "reason") == JStr("other") then Skipped
      else
        var transcriptPath := Field(j, "transcript_path");
        var sessionId := Field(j, "session_id");
        var cwd := if Truthy(Field(j, "cwd")) then Field(j, "cwd") else JStr(processCwd);
        if !Truthy(transcriptPath) || !Truthy(sessionId) then Skipped
        else Spawned(HistoryJob(transcriptPath, sessionId, cwd))
  }

  /**
   * The worker starts exactly for a SessionEnd not caused by `other` that has both a transcript
   * path and a session id, and receives them unchanged with a non-empty working directory.
   */
  lemma HookSpawns(input: Doc, processCwd: string)
    requires processCwd != ""
    ensures Hook(input, processCwd).Spawned? <==>
      input.Parsed? && Field(input.value, "hook_event_name") == JStr("SessionEnd")
      && Field(input.value, "reason") != JStr("other")
      && Truthy(Field(input.value, "transcript_path")) && Truthy(Field(input.value, "session_id"))
    ensures Hook(input, processCwd).Spawned? ==>
      var job := Hook(input, processCwd).job;
      job.transcriptPath == Field(input.value, "transcript_path") && job.sessionId == Field(input.value, "session_id")
      && Truthy(job.cwd) && (Truthy(Field(input.value, "cwd")) ==> job.cwd == Field(input.value, "cwd"))
  {
  }

  // ---------------------------------------------------------------- reading the transcript

  /** What one transcript line gives: nothing, a user message or an assistant message. */
  datatype LineMessage = Nothing | FromUser(text: string) | FromAssistant(text: string)

  /** A non-empty text without white space at either end, as `trim` leaves it. */
  predicate Trimmed(s: string)
  {
    s != "" && !IsSpace(s[0]) && !IsSpace(s[|s| - 1])
  }

  /** `text.trim()` when that is not empty: the message a line contributes. */
  function NonBlank(text: string): (r: Option<string>)
    ensures r.Some? <==> exists i :: 0 <= i < |text| && !IsSpace(text[i])
    ensures r.Some? ==> Trimmed(r.value) && Contains(text, r.value)
  {
    var t := Trim(text);
    if t != "" then Some(t) else None
  }

  /**
   * One line of `parseTranscript`. A user entry counts only with string content that is not
   * blank; an assistant entry with text that is not blank; both are kept trimmed. A line that
   * does not parse, or whose handling throws, gives nothing.
   */
  function LineOf(line: Doc): (r: LineMessage)
    ensures r.FromUser? ==> line.Parsed? && HasType(line.value, "user") && Trimmed(r.text)
    ensures r.FromAssistant? ==> line.Parsed? && HasType(line.value, "assistant") && Trimmed(r.text)
  {
    match line
    case Garbled => Nothing
    case Parsed(entry) =>
      if entry.JNull? then Nothing
      else
        var content := Field(Field(entry, "message"), "content");
        if HasType(entry, "user") && Truthy(content) then
          if content.JStr? && NonBlank(content.s).Some? then FromUser(NonBlank(content.s).value) else Nothing
        else if HasType(entry, "assistant") && Truthy(content) then
          match MessageText(content)
          case None => Nothing
          case Some(t) => if NonBlank(t).Some? then FromAssistant(NonBlank(t).value) else Nothing
        else Nothing
  }

  /**
   * A user message comes from a user entry with string content and is that content trimmed,
   * not empty; array content from the user is ignored.
   */
  lemma UserLineShape(line: Doc)
    ensures var r := LineOf(line);
      r.FromUser? ==> (Trimmed(r.text) && line.Parsed? && HasType(line.value, "user")
        && var c := Field(Field(line.value, "message"), "content"); c.JStr? && r.text == Trim(c.s))
    ensures line.Parsed? && HasType(line.value, "user") && Field(Field(line.value, "message"), "content").JArr? ==>
      LineOf(line).Nothing?
  {
  }

  /** An assistant message comes from an assistant entry and is trimmed and not empty. */
  lemma AssistantLineShape(line: Doc)
    ensures var r := LineOf(line);
      r.FromAssistant? ==> Trimmed(r.text) && line.Parsed? && HasType(line.value, "assistant")
  {
  }

  /** What each line gives, line by line. */
  function Read(lines: Transcript): (rs: seq<LineMessage>)
    ensures |rs| == |lines|
  {
    seq(|lines|, i requires 0 <= i < |lines| => LineOf(lines[i]))
  }

  /** The user message a line gives, if any. */
  function UserPart(r: LineMessage): seq<string>
  {
    if r.FromUser? then [r.text] else []
  }

  /** The assistant message a line gives, if any. */
  function AssistantPart(r: LineMessage): seq<string>
  {
    if r.FromAssistant? then [r.text] else []
  }

  /** The user messages among what the lines give, in order. */
  function Users(rs: seq<LineMessage>): (ms: seq<string>)
    ensures |ms| <= |rs|
  {
    if rs == [] then [] else Users(rs[..|rs| - 1]) + UserPart(rs[|rs| - 1])
  }

  /** The assistant messages among what the lines give, in order. */
  function Assistants(rs: seq<LineMessage>): (ms: seq<string>)
    ensures |ms| <= |rs|
  {
    if rs == [] then [] else Assistants(rs[..|rs| - 1]) + AssistantPart(rs[|rs| - 1])
  }

  /** A text is among the user messages exactly when some line gives it as a user message. */
  lemma {:induction false} UsersKept(rs: seq<LineMessage>)
    ensures forall m :: m in Users(rs) <==> FromUser(m) in rs
  {
    if rs != [] {
      var init := rs[..|rs| - 1];
      UsersKept(init);
      assert rs == init + [rs[|rs| - 1]];
    }
  }

  /** A text is among the assistant messages exactly when some line gives it as an assistant message. */
  lemma {:induction false} AssistantsKept(rs: seq<LineMessage>)
    ensures forall m :: m in Assistants(rs) <==> FromAssistant(m) in rs
  {
    if rs != [] {
      var init := rs[..|rs| - 1];
      AssistantsKept(init);
      assert rs == init + [rs[|rs| - 1]];
    }
  }

  /** One more line adds its message, if any, to the list of its kind. */
  lemma ReadStep(rs: seq<LineMessage>, i: nat)
    requires i < |rs|
    ensures Users(rs[..i + 1]) == Users(rs[..i]) + UserPart(rs[i])
    ensures Assistants(rs[..i + 1]) == Assistants(rs[..i]) + AssistantPart(rs[i])
  {
    PrefixStep(rs, i);
    Snoc(rs[..i], rs[i]);
  }

  /** The user messages of a transcript. */
  function UserMessages(lines: Transcript): seq<string>
  {
    Users(Read(lines))
  }

  /** The assistant messages of a transcript. */
  function AssistantMessages(lines: Transcript): seq<string>
  {
    Assistants(Read(lines))
  }

  /** The messages read from a transcript are exactly the texts its lines give, each kind apart. */
  lemma MessagesOfLines(lines: Transcript)
    ensures forall m :: m in UserMessages(lines) <==> exists i :: 0 <= i < |lines| && LineOf(lines[i]) == FromUser(m)
    ensures forall m :: m in AssistantMessages(lines) <==> exists i :: 0 <= i < |lines| && LineOf(lines[i]) == FromAssistant(m)
  {
    var rs := Read(lines);
    UsersKept(rs);
    AssistantsKept(rs);
    forall m | m in UserMessages(lines)
      ensures exists i :: 0 <= i < |lines| && LineOf(lines[i]) == FromUser(m)
    {
      var i :| 0 <= i < |rs| && rs[i] == FromUser(m);
      assert LineOf(lines[i]) == FromUser(m);
    }
    forall m | m in AssistantMessages(lines)
      ensures exists i :: 0 <= i < |lines| && LineOf(lines[i]) == FromAssistant(m)
    {
      var i :| 0 <= i < |rs| && rs[i] == FromAssistant(m);
      assert LineOf(lines[i]) == FromAssistant(m);
    }
    forall i | 0 <= i < |lines|
      ensures rs[i] in rs && rs[i] == LineOf(lines[i])
    {
    }
  }

  /** Every message read from a transcript is trimmed and not empty. */
  lemma MessagesTrimmed(lines: Transcript)
    ensures forall m :: m in UserMessages(lines) + AssistantMessages(lines) ==> Trimmed(m)
  {
    MessagesOfLines(lines);
    forall i | 0 <= i < |lines|
      ensures LineOf(lines[i]).FromUser? || LineOf(lines[i]).FromAssistant? ==> Trimmed(LineOf(lines[i]).text)
    {
      UserLineShape(lines[i]);
      AssistantLineShape(lines[i]);
    }
  }

  /**
   * `parseTranscript`: a missing transcript gives no messages; otherwise each line is read in
   * turn and its message pushed onto the list of its kind.
   */
  method ParseTranscript(transcript: Option<Transcript>) returns (userMessages: seq<string>, assistantMessages: seq<string>)
    ensures transcript.None? ==> userMessages == [] && assistantMessages == []
    ensures transcript.Some? ==> userMessages == UserMessages(transcript.value)
    ensures transcript.Some? ==> assistantMessages == AssistantMessages(transcript.value)
  {
    userMessages := [];
    assistantMessages := [];
    if transcript.None? {
      return;
    }
    var lines := transcript.value;
    ghost var read := Read(lines);
    var i := 0;
    while i < |lines|
      invariant 0 <= i <= |lines|
      invariant userMessages == Users(read[..i])
      invariant assistantMessages == Assistants(read[..i])
    {
      ReadStep(read, i);
      var message := LineOf(lines[i]);
      if message.FromUser? {
        userMessages := userMessages + [message.text];
      } else if message.FromAssistant? {
        assistantMessages := assistantMessages + [message.text];
      }
      i := i + 1;
    }
    Whole(read);
  }

  // ---------------------------------------------------------------- the conversation

  /** How many messages of each kind are handed over. */
  const MaxMessages := 10

  /** How many characters of an assistant message are handed over. */
  const MaxAssistantLength := 500

  /** An assistant message longer than the limit is cut to it and marked with `...`. */
  function Truncated(s: string): (t: string)
    ensures |s| <= MaxAssistantLength ==> t == s
    ensures |s| > MaxAssistantLength ==>
      |t| == MaxAssistantLength + 3 && t[..MaxAssistantLength] == s[..MaxAssistantLength] && EndsWith(t, "...")
  {
    if |s| > MaxAssistantLength then s[..MaxAssistantLength] + "..." else s
  }

  function UserLine(m: string): string
  {
    "User: " + m
  }

  function AssistantLine(m: string): string
  {
    "Assistant: " + Truncated(m)
  }

  function Max(a: nat, b: nat): nat
  {
    if a < b then b else a
  }

  function Min(a: nat, b: nat): nat
  {
    if a < b then a else b
  }

  /** Round `i` of an interleaving: the `i`th of `xs`, then the `i`th of `ys`, where they exist. */
  function Round<T>(xs: seq<T>, ys: seq<T>, i: nat): seq<T>
  {
    (if i < |xs| then [xs[i]] else []) + (if i < |ys| then [ys[i]] else [])
  }

  /** The first `n` rounds of the interleaving of `xs` and `ys`. */
  function Rounds<T>(xs: seq<T>, ys: seq<T>, n: nat): seq<T>
    requires n <= Max(|xs|, |ys|)
  {
    if n == 0 then [] else Rounds(xs, ys, n - 1) + Round(xs, ys, n - 1)
  }

  /** Two entries per round while both lists last, one per round after that. */
  lemma {:induction false} RoundsLength<T>(xs: seq<T>, ys: seq<T>, n: nat)
    requires n <= Max(|xs|, |ys|)
    ensures var m := Min(|xs|, |ys|);
      |Rounds(xs, ys, n)| == if n <= m then 2 * n else m + n
  {
    if n > 0 {
      RoundsLength(xs, ys, n - 1);
    }
  }

  /** Later rounds only add to the interleaving. */
  lemma {:induction false} RoundsGrow<T>(xs: seq<T>, ys: seq<T>, k: nat, n: nat)
    requires k <= n <= Max(|xs|, |ys|)
    ensures Rounds(xs, ys, k) <= Rounds(xs, ys, n)
  {
    if k < n {
      RoundsGrow(xs, ys, k, n - 1);
    }
  }

  /** Where the entries of round `i` land among `n` rounds. */
  lemma RoundEntries<T>(xs: seq<T>, ys: seq<T>, n: nat, i: nat)
    requires i < n <= Max(|xs|, |ys|)
    ensures var m := Min(|xs|, |ys|); var r := Rounds(xs, ys, n);
      |r| == (if n <= m then 2 * n else m + n)
      && (i < m ==> r[2 * i] == xs[i] && r[2 * i + 1] == ys[i])
      && (m <= i ==> r[m + i] == if |xs| > |ys| then xs[i] else ys[i])
  {
    RoundsLength(xs, ys, n);
    RoundsLength(xs, ys, i);
    RoundsGrow(xs, ys, i + 1, n);
  }

  /**
   * Where each entry lands: while both lists last they alternate, `xs` first; after that the
   * longer list's entries follow in order.
   */
  lemma RoundsLayout<T>(xs: seq<T>, ys: seq<T>, n: nat)
    requires n <= Max(|xs|, |ys|)
    ensures var m := Min(|xs|, |ys|);
      |Rounds(xs, ys, n)| == if n <= m then 2 * n else m + n
    ensures var m := Min(|xs|, |ys|); var r := Rounds(xs, ys, n);
      forall i :: 0 <= i < n && i < m ==> r[2 * i] == xs[i] && r[2 * i + 1] == ys[i]
    ensures var m := Min(|xs|, |ys|); var r := Rounds(xs, ys, n);
      forall i :: m <= i < n ==> r[m + i] == if |xs| > |ys| then xs[i] else ys[i]
  {
    RoundsLength(xs, ys, n);
    forall i | 0 <= i < n {
      RoundEntries(xs, ys, n, i);
    }
  }

  /** The complete interleaving holds every entry of both lists and nothing else. */
  lemma Interleaved<T>(xs: seq<T>, ys: seq<T>)
    ensures var c := Rounds(xs, ys, Max(|xs|, |ys|));
      |c| == |xs| + |ys| && (forall i :: 0 <= i < |xs| ==> xs[i] in c) && (forall i :: 0 <= i < |ys| ==> ys[i] in c)
  {
    var n := Max(|xs|, |ys|);
    var m := Min(|xs|, |ys|);
    RoundsLayout(xs, ys, n);
    var c := Rounds(xs, ys, n);
    forall i | 0 <= i < |xs|
      ensures xs[i] in c
    {
      if i < m {
        assert c[2 * i] == xs[i];
      } else {
        assert c[m + i] == xs[i];
      }
    }
    forall i | 0 <= i < |ys|
      ensures ys[i] in c
    {
      if i < m {
        assert c[2 * i + 1] == ys[i];
      } else {
        assert c[m + i] == ys[i];
      }
    }
  }

  /** The user messages as the conversation shows them. */
  function UserLines(us: seq<string>): (ls: seq<string>)
    ensures |ls| == |us|
  {
    seq(|us|, i requires 0 <= i < |us| => UserLine(us[i]))
  }

  /** The assistant messages as the conversation shows them. */
  function AssistantLines(asst: seq<string>): (ls: seq<string>)
    ensures |ls| == |asst|
  {
    seq(|asst|, i requires 0 <= i < |asst| => AssistantLine(asst[i]))
  }

  /** The conversation: user and assistant messages taken in turns, user first. */
  function Conversation(us: seq<string>, asst: seq<string>): seq<string>
  {
    Rounds(UserLines(us), AssistantLines(asst), Max(|us|, |asst|))
  }

  /** The loop that builds the conversation, one round per index. */
  method BuildConversation(recentUser: seq<string>, recentAssistant: seq<string>) returns (context: seq<string>)
    ensures context == Conversation(recentUser, recentAssistant)
  {
    context := [];
    ghost var userLines := UserLines(recentUser);
    ghost var assistantLines := AssistantLines(recentAssistant);
    var n := Max(|recentUser|, |recentAssistant|);
    var i := 0;
    while i < n
      invariant 0 <= i <= n
      invariant context == Rounds(userLines, assistantLines, i)
    {
      if i < |recentUser| {
        context := context + [UserLine(recentUser[i])];
      }
      if i < |recentAssistant| {
        var truncated := if |recentAssistant[i]| > MaxAssistantLength
          then recentAssistant[i][..MaxAssistantLength] + "..."
          else recentAssistant[i];
        assert "Assistant: " + truncated == assistantLines[i];
        context := context + ["Assistant: " + truncated];
      }
      i := i + 1;
    }
  }

  // ---------------------------------------------------------------- the worker

  /** How the worker ends: git reports no changes, the transcript has no messages, or it asks for a summary of the conversation. */
  datatype HistoryRun = NoChanges | NoMessages | Summarize(conversation: seq<string>)

  /**
   * The worker, given what `git status --porcelain` and `git diff --stat HEAD` printed (`None`
   * when either failed, which it ignores) and the transcripts by path.
   */
  method Worker(git: Option<(string, string)>, transcripts: map<string, Transcript>, job: HistoryJob) returns (run: HistoryRun)
    ensures run.NoChanges? <==> git.Some? && Trim(git.value.0) == "" && Trim(git.value.1) == ""
    ensures !run.NoChanges? ==>
      var t := job.transcriptPath;
      var lines := if t.JStr? && t.s in transcripts then transcripts[t.s] else [];
      var us := UserMessages(lines);
      var asst := AssistantMessages(lines);
      (run.NoMessages? <==> us == [] && asst == [])
      && (run.Summarize? ==> run.conversation == Conversation(LastN(us, MaxMessages), LastN(asst, MaxMessages)))
  {
    if git.Some? {
      var (status, diff) := git.value;
      if Trim(status) == "" && Trim(diff) == "" {
        return NoChanges;
      }
    }
    var t := job.transcriptPath;
    var transcript := if t.JStr? && t.s in transcripts then Some(transcripts[t.s]) else None;
    var userMessages, assistantMessages := ParseTranscript(transcript);
    if userMessages == [] && assistantMessages == [] {
      return NoMessages;
    }
    var recentUser := LastN(userMessages, MaxMessages);
    var recentAssistant := LastN(assistantMessages, MaxMessages);
    var conversation := BuildConversation(recentUser, recentAssistant);
    return Summarize(conversation);
  }

  /**
   * The conversation handed over holds the last ten user and the last ten assistant messages,
   * one entry for each, so at most twenty entries.
   */
  lemma SummaryHoldsRecent(us: seq<string>, asst: seq<string>)
    ensures var ru := LastN(us, MaxMessages); var ra := LastN(asst, MaxMessages);
      var c := Conversation(ru, ra);
      |c| == |ru| + |ra| && |c| <= 2 * MaxMessages
      && (forall i :: 0 <= i < |ru| ==> UserLine(ru[i]) in c)
      && (forall i :: 0 <= i < |ra| ==> AssistantLine(ra[i]) in c)
  {
    var ru := LastN(us, MaxMessages);
    var ra := LastN(asst, MaxMessages);
    var xs, ys := UserLines(ru), AssistantLines(ra);
    Interleaved(xs, ys);
    var c := Conversation(ru, ra);
    assert c == Rounds(xs, ys, Max(|xs|, |ys|));
    forall i | 0 <= i < |ru|
      ensures UserLine(ru[i]) in c
    {
      assert xs[i] == UserLine(ru[i]);
    }
    forall i | 0 <= i < |ra|
      ensures AssistantLine(ra[i]) in c
    {
      assert ys[i] == AssistantLine(ra[i]);
    }
  }
}
