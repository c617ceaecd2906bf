/**
 * The UserPromptSubmit hook that classifies the developer's current activity
 * (hooks/state-tracking/activity-tracker.js): the recent conversation it collects from the
 * transcript, and when the classification makes it point the agent at a protocol.
 */
module ActivityTracker {
  import opened Common
  import opened Strings
  import opened JsonValues
  import opened Files
  import opened Transcripts

  // ---------------------------------------------------------------- sequences scanned from the end

  /** The concatenation of the parts, in order. */
  function Flatten<T>(parts: seq<seq<T>>): seq<T>
  {
    if parts == [] then [] else parts[0] + Flatten(parts[1..])
  }

  /**
   * `reverse()`. Its contract gives only the length; what reversal means is proved in
   * ReverseAppend and ReverseReverse and used in Chronological.
   */
  function Reverse<T>(s: seq<T>): (r: seq<T>)
    ensures |r| == |s|
  {
    if s == [] then [] else Reverse(s[1..]) + [s[0]]
  }

  lemma {:induction false} ReverseAppend<T>(a: seq<T>, b: seq<T>)
    ensures Reverse(a + b) == Reverse(b) + Reverse(a)
  {
    if a == [] {
      assert a + b == b;
    } else {
      ReverseAppend(a[1..], b);
      assert (a + b)[1..] == a[1..] + b;
      AppendAssoc(Reverse(b), Reverse(a[1..]), [a[0]]);
    }
  }

  lemma {:induction false} ReverseReverse<T>(s: seq<T>)
    ensures Reverse(Reverse(s)) == s
  {
    if s != [] {
      ReverseReverse(s[1..]);
      ReverseAppend(Reverse(s[1..]), [s[0]]);
      assert [s[0]] + s[1..] == s;
    }
  }

  lemma ReverseShort<T>(s: seq<T>)
    requires |s| <= 1
    ensures Reverse(s) == s
  {
  }

  /** Dropping elements in front keeps the last `n` when there are at least `n` behind them. */
  lemma LastNPrepend<T>(p: seq<T>, xs: seq<T>, n: nat)
    requires n <= |xs|
    ensures LastN(p + xs, n) == LastN(xs, n)
  {
    assert (p + xs)[|p| + |xs| - n..] == xs[|xs| - n..];
  }

  /** An element is in the concatenation exactly when it is in one of the parts. */
  lemma {:induction false} FlattenMembers<T>(parts: seq<seq<T>>)
    ensures forall x :: x in Flatten(parts) <==> exists i :: 0 <= i < |parts| && x in parts[i]
  {
    if parts != [] {
      FlattenMembers(parts[1..]);
      assert forall i :: 0 < i < |parts| ==> parts[i] == parts[1..][i - 1];
    }
  }

  /** Each part holds at most one element. */
  predicate AtMostOne<T>(parts: seq<seq<T>>)
  {
    forall i :: 0 <= i < |parts| ==> |parts[i]| <= 1
  }

  /**
   * What a scan from the end collects after `k` parts: it starts from `start`, takes the parts
   * newest first, and stops taking once `limit` elements are held.
   */
  function Gathered<T>(start: seq<T>, parts: seq<seq<T>>, limit: nat, k: nat): seq<T>
    requires k <= |parts|
  {
    if k == 0 then start
    else
      var g := Gathered(start, parts, limit, k - 1);
      if |g| >= limit then g else g + parts[|parts| - k]
  }

  /** Below the limit, the scan takes the next part. */
  lemma GatheredNext<T>(start: seq<T>, parts: seq<seq<T>>, limit: nat, k: nat)
    requires k < |parts| && |Gathered(start, parts, limit, k)| < limit
    ensures Gathered(start, parts, limit, k + 1) == Gathered(start, parts, limit, k) + parts[|parts| - 1 - k]
  {
  }

  /** Once the limit is held, the scan collects nothing more. */
  lemma {:induction false} GatheredStays<T>(start: seq<T>, parts: seq<seq<T>>, limit: nat, k: nat, n: nat)
    requires k <= n <= |parts| && |Gathered(start, parts, limit, k)| >= limit
    ensures Gathered(start, parts, limit, n) == Gathered(start, parts, limit, k)
  {
    if k < n {
      GatheredStays(start, parts, limit, k, n - 1);
    }
  }

  /** The concatenation from part `j` on starts with part `j`. */
  lemma FlattenFront<T>(parts: seq<seq<T>>, j: nat)
    requires j < |parts|
    ensures Flatten(parts[j..]) == parts[j] + Flatten(parts[j + 1..])
  {
    assert parts[j..][1..] == parts[j + 1..];
  }

  /** One more part in front of `rest`, as the scan sees it. */
  lemma NewestStep<T>(start: seq<T>, p: seq<T>, rest: seq<T>, cap: nat)
    requires |p| <= 1
    ensures |rest| >= cap ==> LastN(p + rest, cap) == LastN(rest, cap)
    ensures |rest| < cap ==> start + Reverse(LastN(p + rest, cap)) == (start + Reverse(LastN(rest, cap))) + p
  {
    if |rest| >= cap {
      LastNPrepend(p, rest, cap);
    } else {
      ReverseAppend(p, rest);
      ReverseShort(p);
      AppendAssoc(start, Reverse(rest), p);
    }
  }

  /**
   * With parts of at most one element, the scan holds `start` followed by the newest elements
   * of the scanned parts, newest first, as many as fit under the limit.
   */
  lemma {:induction false} GatheredNewest<T>(start: seq<T>, parts: seq<seq<T>>, limit: nat, from: nat)
    requires from <= |parts| && |start| <= limit && AtMostOne(parts)
    ensures Gathered(start, parts, limit, |parts| - from) == start + Reverse(LastN(Flatten(parts[from..]), limit - |start|))
    decreases |parts| - from
  {
    if from < |parts| {
      var cap := limit - |start|;
      var rest := Flatten(parts[from + 1..]);
      GatheredNewest(start, parts, limit, from + 1);
      var g := Gathered(start, parts, limit, |parts| - (from + 1));
      FlattenFront(parts, from);
      assert |parts[from]| <= 1;
      NewestStep(start, parts[from], rest, cap);
      assert Gathered(start, parts, limit, |parts| - from) == if |g| >= limit then g else g + parts[from];
      if |rest| >= cap {
        assert |g| == limit;
      } else {
        assert |g| < limit;
      }
    }
  }

  /**
   * Scanning all parts and reversing the result gives, in order, the newest elements that fit
   * under the limit, followed by `start` reversed.
   */
  lemma Chronological<T>(start: seq<T>, parts: seq<seq<T>>, limit: nat)
    requires |start| <= limit && AtMostOne(parts)
    ensures Reverse(Gathered(start, parts, limit, |parts|)) == LastN(Flatten(parts), limit - |start|) + Reverse(start)
  {
    var newest := LastN(Flatten(parts), limit - |start|);
    GatheredNewest(start, parts, limit, 0);
    assert parts[|parts| - |parts|..] == parts;
    ReverseAppend(start, Reverse(newest));
    ReverseReverse(newest);
  }

  // ---------------------------------------------------------------- the conversation collected

  datatype Role = User | Assistant

  /** One `{ role, content }` entry of the conversation history. */
  datatype Turn = Turn(role: Role, content: Json)

  /** Text the prompt-submit hooks leave in the transcript; user entries holding it are dropped. */
  const HookMarker := "<user-prompt-submit-hook>"

  /** How many entries the history holds at most, the current prompt included. */
  const MaxTurns := 6

  /** Assistant text longer than this is shortened. */
  const CharLimit := 800

  /** How much of each end of a long assistant text is kept. */
  const KeptChars := 400

  /** A long assistant text keeps its first and last 400 characters around a `...` line. */
  function Clipped(t: string): string
  {
    if |t| > CharLimit then t[..KeptChars] + "\n...\n" + t[|t| - KeptChars..] else t
  }

  /** A text within the limit is kept whole; a longer one keeps both ends and is at most 805 long. */
  lemma ClippedShape(t: string)
    ensures |t| <= CharLimit ==> Clipped(t) == t
    ensures |t| > CharLimit ==>
      var c := Clipped(t);
      |c| == 2 * KeptChars + 5 && c[..KeptChars] == t[..KeptChars]
      && c[KeptChars..KeptChars + 5] == "\n...\n" && c[KeptChars + 5..] == t[|t| - KeptChars..]
  {
  }

  /** A shortened text shows a `.`, so it is never blank. */
  lemma DotKept(t: string)
    requires |t| > CharLimit
    ensures !IsSpace(Clipped(t)[KeptChars + 1])
  {
    var mark := "\n...\n";
    var tail := mark + t[|t| - KeptChars..];
    assert Clipped(t) == t[..KeptChars] + tail;
    assert tail[1] == mark[1] == '.';
  }

  /** `entry.message?.content`. */
  function ContentOf(entry: Json): Json
  {
    Field(Field(entry, "message"), "content")
  }

  /**
   * The entry one transcript line adds: a user entry with string content that does not hold the
   * hook marker, or an assistant entry with text that is not blank, shortened. A line that does
   * not parse, or whose handling throws, adds nothing.
   */
  function LineTurn(line: Doc): Option<Turn>
  {
    match line
    case Garbled => None
    case Parsed(entry) =>
      if entry.JNull? then None
      else
        var content := ContentOf(entry);
        if HasType(entry, "user") && Truthy(content) && content.JStr? then
          if Contains(content.s, HookMarker) then None else Some(Turn(User, content))
        else if HasType(entry, "assistant") && Truthy(content) then
          match MessageText(content)
          case None => None
          case Some(t) => if Trim(t) != "" then Some(Turn(Assistant, JStr(Clipped(t)))) else None
        else None
  }

  /** A user line adds its string content unless it holds the marker. */
  lemma UserLineTurn(line: Doc)
    ensures line.Parsed? && HasType(line.value, "user") && ContentOf(line.value).JStr? ==>
      var c := ContentOf(line.value);
      LineTurn(line) == if c.s == "" || Contains(c.s, HookMarker) then None else Some(Turn(User, c))
    ensures LineTurn(line).Some? && LineTurn(line).value.role == User ==>
      line.Parsed? && HasType(line.value, "user") && LineTurn(line).value.content == ContentOf(line.value)
  {
  }

  /** An assistant line adds the non-blank text of an assistant entry, at most 805 characters long. */
  lemma AssistantLineTurn(line: Doc)
    ensures LineTurn(line).Some? && LineTurn(line).value.role == Assistant ==>
      var c := LineTurn(line).value.content;
      line.Parsed? && HasType(line.value, "assistant") && c.JStr? && Trim(c.s) != "" && |c.s| <= 2 * KeptChars + 5
  {
    if LineTurn(line).Some? && LineTurn(line).value.role == Assistant {
      var t := MessageText(ContentOf(line.value)).value;
      ClippedShape(t);
      if |t| > CharLimit {
        DotKept(t);
      }
    }
  }

  function Part(t: Option<Turn>): (p: seq<Turn>)
    ensures |p| <= 1
  {
    if t.Some? then [t.value] else []
  }

  /** What each line adds, line by line. */
  function Parts(lines: Transcript): (ps: seq<seq<Turn>>)
    ensures |ps| == |lines|
  {
    if lines == [] then [] else Parts(lines[..|lines| - 1]) + [Part(LineTurn(lines[|lines| - 1]))]
  }

  lemma {:induction false} PartsAt(lines: Transcript, i: nat)
    requires i < |lines|
    ensures Parts(lines)[i] == Part(LineTurn(lines[i]))
  {
    var init := lines[..|lines| - 1];
    if i < |init| {
      PartsAt(init, i);
    }
  }

  /** Each line adds at most one entry. */
  lemma PartsAtMostOne(lines: Transcript)
    ensures AtMostOne(Parts(lines))
  {
    forall i | 0 <= i < |lines|
      ensures |Parts(lines)[i]| <= 1
    {
      PartsAt(lines, i);
    }
  }

  /** All entries the transcript's lines add, in file order. */
  function Turns(lines: Transcript): seq<Turn>
  {
    Flatten(Parts(lines))
  }

  /** An entry is among the transcript's entries exactly when some line adds it. */
  lemma TurnsFromLines(lines: Transcript)
    ensures forall t :: t in Turns(lines) <==> exists i :: 0 <= i < |lines| && LineTurn(lines[i]) == Some(t)
  {
    var ps := Parts(lines);
    FlattenMembers(ps);
    forall t | t in Turns(lines)
      ensures exists i :: 0 <= i < |lines| && LineTurn(lines[i]) == Some(t)
    {
      var i :| 0 <= i < |ps| && t in ps[i];
      PartsAt(lines, i);
      assert LineTurn(lines[i]) == Some(t);
    }
    forall i | 0 <= i < |lines| && LineTurn(lines[i]).Some?
      ensures LineTurn(lines[i]).value in ps[i]
    {
      PartsAt(lines, i);
    }
  }

  /** No user entry taken from the transcript holds the hook marker. */
  lemma NoHookOutput(lines: Transcript)
    ensures forall t :: t in Turns(lines) && t.role == User ==> t.content.JStr? && !Contains(t.content.s, HookMarker)
  {
    TurnsFromLines(lines);
    forall i | 0 <= i < |lines|
      ensures LineTurn(lines[i]).Some? && LineTurn(lines[i]).value.role == User ==>
        LineTurn(lines[i]).value.content.JStr? && !Contains(LineTurn(lines[i]).value.content.s, HookMarker)
    {
      UserLineTurn(lines[i]);
    }
  }

  /** The current prompt, when there is one, as the first entry collected. */
  function Opening(prompt: Json): (o: seq<Turn>)
    ensures |o| <= 1
  {
    if Truthy(prompt) then [Turn(User, prompt)] else []
  }

  /** Reversed, the scan over the whole transcript is its newest entries that fit, then the prompt. */
  lemma HistoryIsRecent(prompt: Json, lines: Transcript)
    ensures Reverse(Gathered(Opening(prompt), Parts(lines), MaxTurns, |lines|))
      == LastN(Turns(lines), MaxTurns - |Opening(prompt)|) + Opening(prompt)
  {
    PartsAtMostOne(lines);
    Chronological(Opening(prompt), Parts(lines), MaxTurns);
    ReverseShort(Opening(prompt));
  }

  /** The entry one transcript line gives, if any. */
  method TurnAt(lines: Transcript, i: nat) returns (turn: Option<Turn>)
    requires i < |lines|
    ensures Part(turn) == Parts(lines)[i]
  {
    turn := LineTurn(lines[i]);
    PartsAt(lines, i);
  }

  /**
   * The collection loop: the current prompt goes in first, then the transcript is read from its
   * last line back until six entries are held, so the entries come newest first.
   */
  method CollectNewestFirst(prompt: Json, lines: Transcript) returns (collected: seq<Turn>)
    ensures collected == Gathered(Opening(prompt), Parts(lines), MaxTurns, |lines|)
  {
    collected := [];
    if Truthy(prompt) {
      collected := collected + [Turn(User, prompt)];
    }
    assert collected == Opening(prompt);
    collected := ScanNewestFirst(lines, collected);
  }

  /** The backward scan over the transcript, adding to what `collected` already holds. */
  method ScanNewestFirst(lines: Transcript, start: seq<Turn>) returns (collected: seq<Turn>)
    ensures collected == Gathered(start, Parts(lines), MaxTurns, |lines|)
  {
    collected := start;
    ghost var parts := Parts(lines);
    var i := |lines| - 1;
    ghost var scanned := 0;
    while i >= 0 && |collected| < MaxTurns
      invariant 0 <= scanned <= |lines| && i == |lines| - 1 - scanned
      invariant collected == Gathered(start, parts, MaxTurns, scanned)
    {
      var turn := TurnAt(lines, i);
      GatheredNext(start, parts, MaxTurns, scanned);
      if turn.Some? {
        collected := collected + [turn.value];
      }
      i := i - 1;
      scanned := scanned + 1;
    }
    if i >= 0 {
      GatheredStays(start, parts, MaxTurns, scanned, |lines|);
    }
  }

  /**
   * The conversation history, put in chronological order: the newest transcript entries that
   * fit, in file order, followed by the current prompt.
   */
  method CollectHistory(prompt: Json, lines: Transcript) returns (history: seq<Turn>)
    ensures history == LastN(Turns(lines), MaxTurns - |Opening(prompt)|) + Opening(prompt)
  {
    var collected := CollectNewestFirst(prompt, lines);
    HistoryIsRecent(prompt, lines);
    history := Reverse(collected);
  }

  /** The history holds at most six entries, and is empty only without a prompt and transcript entries. */
  lemma HistoryBounds(prompt: Json, lines: Transcript)
    ensures var h := LastN(Turns(lines), MaxTurns - |Opening(prompt)|) + Opening(prompt);
      |h| <= MaxTurns && (h == [] <==> !Truthy(prompt) && Turns(lines) == [])
  {
  }

  // ---------------------------------------------------------------- the hook

  /** `hook_event_name === 'UserPromptSubmit'` on input that parses. */
  predicate Prompted(input: Doc)
  {
    input.Parsed? && Field(input.value, "hook_event_name") == JStr("UserPromptSubmit")
  }

  /** The transcript lines, with none when the file cannot be read. */
  function TranscriptLines(input: Json, transcripts: map<string, Transcript>): Transcript
  {
    var path := Field(input, "transcript_path");
    if path.JStr? && path.s in transcripts then transcripts[path.s] else []
  }

  /** How collection ends: the hook exits, or it asks for a classification of the history. */
  datatype Collection = Exit | Classify(history: seq<Turn>)

  /**
   * The hook up to the classification request; blank or unparsable input is `Garbled`. It
   * exits unless the event is UserPromptSubmit and some history was collected.
   */
  method Collect(input: Doc, transcripts: map<string, Transcript>) returns (c: Collection)
    ensures c.Classify? <==>
      Prompted(input) && (Truthy(Field(input.value, "prompt")) || Turns(TranscriptLines(input.value, transcripts)) != [])
    ensures c.Classify? ==>
      var prompt := Field(input.value, "prompt");
      c.history == LastN(Turns(TranscriptLines(input.value, transcripts)), MaxTurns - |Opening(prompt)|) + Opening(prompt)
  {
    if !Prompted(input) {
      return Exit;
    }
    var hookData := input.value;
    var lines := TranscriptLines(hookData, transcripts);
    var history := CollectHistory(Field(hookData, "prompt"), lines);
    HistoryBounds(Field(hookData, "prompt"), lines);
    if history == [] {
      return Exit;
    }
    return Classify(history);
  }

  // ---------------------------------------------------------------- the decision

  /** The structured answer of the classifier. */
  datatype Classification = Classification(activity: string, confidence: real, effort: int)

  /** The effort each activity needs before its protocol is pointed at. */
  const Thresholds: map<string, nat> := map[
    "debugging" := 3, "architecting" := 3, "requirements-gathering" := 3, "code-review" := 3,
    "planning" := 4, "investigating" := 6, "security-auditing" := 4, "feature-development" := 7,
    "documenting" := 7, "testing" := 7, "other" := 10]

  /** The protocol file for each activity that has one. */
  const Protocols: map<string, string> := map[
    "architecting" := "ARCHITECTURE-DESIGN", "debugging" := "BUG-FIXING", "code-review" := "CODE-REVIEW",
    "documenting" := "DOCUMENTATION", "feature-development" := "FEATURE-DEVELOPMENT",
    "investigating" := "INVESTIGATION", "planning" := "PLANNING",
    "requirements-gathering" := "REQUIREMENTS-GATHERING", "security-auditing" := "SECURITY-AUDIT"]

  /** An activity's threshold, 7 for one the table does not know. */
  function Threshold(activity: string): nat
  {
    if activity in Thresholds then Thresholds[activity] else 7
  }

  /** How the hook ends once classified: silently, with a one-line report, or pointing at a protocol. */
  datatype Verdict = Silent | Reported(result: Classification) | Injected(result: Classification, protocol: string)

  /** The decision on the classifier's answer, `None` when the call fails. */
  function Decide(result: Option<Classification>): Verdict
  {
    match result
    case None => Silent
    case Some(c) =>
      if c.confidence >= 0.8 && c.effort >= Threshold(c.activity) && c.activity in Protocols
      then Injected(c, Protocols[c.activity])
      else Reported(c)
  }

  /**
   * A protocol is pointed at exactly when the classifier is at least 80% confident, the effort
   * reaches the activity's threshold and the activity has a protocol; testing, other and unknown
   * activities never get one. Every answer is reported when it is not injected.
   */
  lemma InjectionRule(c: Classification)
    ensures Decide(Some(c)).Injected? <==>
      c.confidence >= 0.8 && c.effort >= Threshold(c.activity) && c.activity in Protocols
    ensures Decide(Some(c)).Injected? ==>
      Decide(Some(c)).protocol == Protocols[c.activity] && c.activity != "testing" && c.activity != "other"
    ensures !Decide(Some(c)).Injected? ==> Decide(Some(c)) == Reported(c)
  {
  }

  /**
   * For every activity with a protocol the threshold is at most 7, so a confident answer with
   * effort 7 or more always points at it, while effort below 3 never does.
   */
  lemma EffortBounds(c: Classification)
    ensures c.activity in Protocols && c.confidence >= 0.8 && c.effort >= 7 ==> Decide(Some(c)).Injected?
    ensures c.effort < 3 ==> !Decide(Some(c)).Injected?
  {
  }
}
