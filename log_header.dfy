/**
 * The header every agent log starts with, and the two ways the hooks touch it: the runners
 * and the agent script rewrite `Status: in-progress` into a final status, and the monitor
 * reads the status back with the regular expression `/Status: (\S+)/`.
 */
module LogHeader {
  import opened Common
  import opened Strings

  const StatusPrefix: string := "Status: "
  const InProgress: string := "in-progress"
  const InProgressLine: string := StatusPrefix + InProgress

  /**
   * `updateFrontmatter(status)`: the first `Status: in-progress` becomes
   * `Status: <status>\nEnded: <endTime>`; a log without it is left alone.
   */
  function UpdateFrontmatter(log: string, status: string, endTime: string): (r: string)
    ensures !Contains(log, InProgressLine) ==> r == log
  {
    ReplaceFirst(log, InProgressLine, StatusPrefix + status + Ending(endTime))
  }

  /** The line break and `Ended:` line the rewrite puts after the new status. */
  function Ending(endTime: string): (e: string)
    ensures e != [] && IsSpace(e[0])
  {
    "\nEnded: " + endTime
  }

  /** The test `content.includes('Status: done') || content.includes('Status: failed')`. */
  predicate IsTerminal(log: string)
  {
    Contains(log, StatusPrefix + "done") || Contains(log, StatusPrefix + "failed")
  }

  /** The longest prefix without white space (`\S+` once it has matched). */
  function NonSpaceRun(s: string): (r: string)
    ensures r <= s && forall i :: 0 <= i < |r| ==> !IsSpace(r[i])
    ensures |r| < |s| ==> IsSpace(s[|r|])
  {
    if s != [] && !IsSpace(s[0]) then [s[0]] + NonSpaceRun(s[1..]) else []
  }

  /** The leftmost match of `/Status: (\S+)/`, or `None` when there is none. */
  function StatusToken(s: string): (r: Option<string>)
    ensures r.Some? ==> r.value != []
    decreases |s|
  {
    if |s| > |StatusPrefix| && s[..|StatusPrefix|] == StatusPrefix && !IsSpace(s[|StatusPrefix|]) then
      Some(NonSpaceRun(s[|StatusPrefix|..]))
    else if s == [] then None
    else StatusToken(s[1..])
  }

  /** The header line `Status: in-progress` starts at `i` and no `Status: ` occurs before it. */
  predicate HeaderAt(log: string, i: nat)
  {
    OccursAt(log, InProgressLine + "\n", i) && forall j :: 0 <= j < i ==> !OccursAt(log, StatusPrefix, j)
  }

  /** The header lines before the status: `---`, `Task:`, `Instructions:` and `Started:`. */
  function Opening(description: string, prompt: string, startedAt: string): string
  {
    OpeningLines(description, prompt, startedAt) + "\n"
  }

  function OpeningLines(description: string, prompt: string, startedAt: string): string
  {
    "---" + "\n" + ("Task: " + description) + "\n" + ("Instructions: " + prompt) + "\n" + ("Started: " + startedAt)
  }

  lemma StartedLineFree(startedAt: string)
    requires !Contains(startedAt, StatusPrefix)
    ensures !Contains("Started: " + startedAt, StatusPrefix)
  {
    var started := "Started: " + startedAt;
    LeadWithout("tarted: ", startedAt, StatusPrefix);
    assert started[1..] == "tarted: " + startedAt;
    forall j | 0 <= j <= |started| - |StatusPrefix| ensures !OccursAt(started, StatusPrefix, j) {
      if j > 0 {
        OccursShift(started, StatusPrefix, j - 1);
      } else {
        assert started[0..8][4] == 't';
      }
    }
  }

  lemma OpeningLinesFree(description: string, prompt: string, startedAt: string)
    requires !Contains(description, StatusPrefix) && !Contains(prompt, StatusPrefix)
    requires !Contains(startedAt, StatusPrefix)
    ensures !Contains(OpeningLines(description, prompt, startedAt), StatusPrefix)
  {
    var task := "Task: " + description;
    var instructions := "Instructions: " + prompt;
    var started := "Started: " + startedAt;
    LeadWithout("Task: ", description, StatusPrefix);
    LeadWithout("Instructions: ", prompt, StatusPrefix);
    StartedLineFree(startedAt);
    assert !Contains("---", StatusPrefix);
    Barrier("---", '\n', task, StatusPrefix);
    Barrier("---" + "\n" + task, '\n', instructions, StatusPrefix);
    Barrier("---" + "\n" + task + "\n" + instructions, '\n', started, StatusPrefix);
  }

  /**
   * When the task's own texts do not mention `Status: `, the opening lines do not either, so
   * the status line that follows them is the first one a reader finds.
   */
  lemma HeaderAfterOpening(description: string, prompt: string, startedAt: string, rest: string)
    requires !Contains(description, StatusPrefix) && !Contains(prompt, StatusPrefix)
    requires !Contains(startedAt, StatusPrefix)
    ensures HeaderAt(Opening(description, prompt, startedAt) + InProgressLine + "\n" + rest,
                     |Opening(description, prompt, startedAt)|)
  {
    var body := OpeningLines(description, prompt, startedAt);
    OpeningLinesFree(description, prompt, startedAt);
    var opening := Opening(description, prompt, startedAt);
    var log := opening + InProgressLine + "\n" + rest;
    assert log == body + "\n" + (InProgressLine + "\n" + rest);
    assert log[|body|] == '\n';
    forall j | 0 <= j < |opening| ensures !OccursAt(log, StatusPrefix, j) {
      if j + |StatusPrefix| <= |body| {
        assert log[j..j + |StatusPrefix|] == body[j..j + |StatusPrefix|];
        assert !OccursAt(body, StatusPrefix, j);
      } else if j + |StatusPrefix| <= |log| {
        assert log[j..j + |StatusPrefix|][|body| - j] == '\n';
      }
    }
    assert log[|opening|..][..20] == InProgressLine + "\n";
  }

  /**
   * The lines of a log header: `---`, Task, Instructions, Started, the in-progress status,
   * the `extra` lines, a closing `---`, and the blank line after it.
   */
  function HeaderLines(description: string, prompt: string, startedAt: string, extra: seq<string>): seq<string>
  {
    ["---", "Task: " + description, "Instructions: " + prompt, "Started: " + startedAt, InProgressLine]
      + extra + ["---", "", ""]
  }

  /** Joining five leading lines in front of further ones. */
  lemma {:induction false} JoinFive(a: string, b: string, c: string, d: string, e: string, rest: seq<string>)
    requires rest != []
    ensures Join([a, b, c, d, e] + rest, "\n") == a + "\n" + b + "\n" + c + "\n" + d + "\n" + e + "\n" + Join(rest, "\n")
  {
    var lines := [a, b, c, d, e] + rest;
    JoinFrom(lines, 0, "\n");
    JoinFrom(lines, 1, "\n");
    JoinFrom(lines, 2, "\n");
    JoinFrom(lines, 3, "\n");
    JoinFrom(lines, 4, "\n");
    assert lines[0..] == lines && lines[5..] == rest;
  }

  /** The header text is its lines joined by newlines, the opening lines first. */
  lemma HeaderText(description: string, prompt: string, startedAt: string, extra: seq<string>)
    ensures Join(HeaderLines(description, prompt, startedAt, extra), "\n")
         == Opening(description, prompt, startedAt) + InProgressLine + "\n"
            + Join(extra + ["---", "", ""], "\n")
  {
    var rest := extra + ["---", "", ""];
    assert HeaderLines(description, prompt, startedAt, extra)
        == ["---", "Task: " + description, "Instructions: " + prompt, "Started: " + startedAt, InProgressLine] + rest;
    JoinFive("---", "Task: " + description, "Instructions: " + prompt, "Started: " + startedAt, InProgressLine, rest);
  }

  /** Split at its newlines, a header gives back its lines, when the texts put into it are single lines. */
  lemma HeaderShape(description: string, prompt: string, startedAt: string, extra: seq<string>)
    requires '\n' !in description && '\n' !in prompt && '\n' !in startedAt
    requires forall i :: 0 <= i < |extra| ==> '\n' !in extra[i]
    ensures Split(Join(HeaderLines(description, prompt, startedAt, extra), "\n"), '\n')
         == HeaderLines(description, prompt, startedAt, extra)
  {
    var head := ["---", "Task: " + description, "Instructions: " + prompt, "Started: " + startedAt, InProgressLine];
    var tail := ["---", "", ""];
    var lines := HeaderLines(description, prompt, startedAt, extra);
    assert forall i :: 0 <= i < |head| ==> '\n' !in head[i];
    forall i | 0 <= i < |lines| ensures '\n' !in lines[i] {
      if i < |head| {
        assert lines[i] == head[i];
      } else if i < |head| + |extra| {
        assert lines[i] == extra[i - |head|];
      } else {
        assert lines[i] == tail[i - |head| - |extra|];
      }
    }
    SplitJoin(lines, '\n');
  }

  /** In a header whose texts do not mention `Status: `, the in-progress line is the first status line. */
  lemma HeaderInProgress(description: string, prompt: string, startedAt: string, extra: seq<string>)
    requires !Contains(description, StatusPrefix) && !Contains(prompt, StatusPrefix)
    requires !Contains(startedAt, StatusPrefix)
    ensures HeaderAt(Join(HeaderLines(description, prompt, startedAt, extra), "\n"),
                     |Opening(description, prompt, startedAt)|)
    ensures StatusToken(Join(HeaderLines(description, prompt, startedAt, extra), "\n")) == Some(InProgress)
  {
    HeaderText(description, prompt, startedAt, extra);
    HeaderAfterOpening(description, prompt, startedAt, Join(extra + ["---", "", ""], "\n"));
    StatusOfHeader(Join(HeaderLines(description, prompt, startedAt, extra), "\n"),
                   |Opening(description, prompt, startedAt)|);
  }

  /** A text with no `Status: ` before `b` has the status token of `b`. */
  lemma {:induction false} StatusTokenSkip(a: string, b: string)
    requires forall j :: 0 <= j < |a| ==> !OccursAt(a + b, StatusPrefix, j)
    ensures StatusToken(a + b) == StatusToken(b)
  {
    if a != [] {
      assert !OccursAt(a + b, StatusPrefix, 0);
      assert (a + b)[1..] == a[1..] + b;
      forall j | 0 <= j < |a| - 1
        ensures !OccursAt(a[1..] + b, StatusPrefix, j)
      {
        OccursShift(a + b, StatusPrefix, j);
      }
      StatusTokenSkip(a[1..], b);
      if |a + b| > |StatusPrefix| {
        assert (a + b)[..|StatusPrefix|] != StatusPrefix;
      }
    } else {
      assert a + b == b;
    }
  }

  /** The status word right after `Status: ` is the token, when white space or the end follows it. */
  lemma StatusTokenAt(word: string, rest: string)
    requires word != [] && forall i :: 0 <= i < |word| ==> !IsSpace(word[i])
    requires rest == [] || IsSpace(rest[0])
    ensures StatusToken(StatusPrefix + word + rest) == Some(word)
  {
    var t := word + rest;
    AppendAssoc(StatusPrefix, word, rest);
    AppendParts(StatusPrefix, t);
    StatusTokenHit(StatusPrefix + t);
    NonSpaceRunOf(word, rest);
  }

  lemma StatusTokenHit(s: string)
    requires |s| > |StatusPrefix| && s[..|StatusPrefix|] == StatusPrefix && !IsSpace(s[|StatusPrefix|])
    ensures StatusToken(s) == Some(NonSpaceRun(s[|StatusPrefix|..]))
  {
  }

  lemma {:induction false} NonSpaceRunOf(word: string, rest: string)
    requires forall i :: 0 <= i < |word| ==> !IsSpace(word[i])
    requires rest == [] || IsSpace(rest[0])
    ensures NonSpaceRun(word + rest) == word
  {
    if word != [] {
      assert (word + rest)[1..] == word[1..] + rest;
      NonSpaceRunOf(word[1..], rest);
    } else {
      assert word + rest == rest;
    }
  }

  lemma InProgressIsWord()
    ensures InProgress != [] && forall i :: 0 <= i < |InProgress| ==> !IsSpace(InProgress[i])
  {
  }

  /** A log whose header is in progress reports `in-progress`. */
  lemma StatusOfHeader(log: string, i: nat)
    requires HeaderAt(log, i)
    ensures StatusToken(log) == Some(InProgress)
  {
    var n := |InProgressLine|;
    var rest := log[i + n..];
    assert log[i..i + n + 1] == InProgressLine + "\n";
    assert log[i..i + n] == log[i..i + n + 1][..n] == InProgressLine;
    assert log == log[..i] + (StatusPrefix + InProgress + rest);
    assert rest[0] == '\n';
    InProgressIsWord();
    StatusAfterClean(log[..i], InProgress, rest);
  }

  /** The status word after the first `Status: ` is the token. */
  lemma StatusAfterClean(a: string, word: string, rest: string)
    requires forall j :: 0 <= j < |a| ==> !OccursAt(a + (StatusPrefix + word + rest), StatusPrefix, j)
    requires word != [] && forall k :: 0 <= k < |word| ==> !IsSpace(word[k])
    requires rest == [] || IsSpace(rest[0])
    ensures StatusToken(a + (StatusPrefix + word + rest)) == Some(word)
  {
    StatusTokenSkip(a, StatusPrefix + word + rest);
    StatusTokenAt(word, rest);
  }

  /** `updateFrontmatter` rewrites the header line when the header is the first status line. */
  lemma UpdateAtHeader(log: string, i: nat, status: string, endTime: string)
    requires HeaderAt(log, i)
    ensures UpdateFrontmatter(log, status, endTime)
         == log[..i] + (StatusPrefix + status + (Ending(endTime) + log[i + |InProgressLine|..]))
  {
    OccursPrefix(log, InProgressLine, "\n", i);
    forall j | 0 <= j < i ensures !OccursAt(log, InProgressLine, j) {
      if OccursAt(log, InProgressLine, j) {
        OccursPrefix(log, StatusPrefix, InProgress, j);
      }
    }
    match IndexOf(log, InProgressLine)
    case Some(k) =>
      assert k == i;
    case None =>
      assert OccursAt(log, InProgressLine, i);
  }

  /** Replacing what follows a `Status: ` by another text that starts with `Status: ` adds no earlier one. */
  lemma NoStatusBeforeSplice(log: string, i: nat, tail: string)
    requires HeaderAt(log, i) && StatusPrefix <= tail
    ensures forall j :: 0 <= j < i ==> !OccursAt(log[..i] + tail, StatusPrefix, j)
  {
    var r := log[..i] + tail;
    assert log[i..i + |StatusPrefix|] == StatusPrefix by {
      assert InProgressLine + "\n" == StatusPrefix + (InProgress + "\n");
      OccursPrefix(log, StatusPrefix, InProgress + "\n", i);
    }
    assert r[..i + |StatusPrefix|] == log[..i + |StatusPrefix|];
    forall j | 0 <= j < i ensures !OccursAt(r, StatusPrefix, j) {
      OccursWithinPrefix(r, log, StatusPrefix, j, i + |StatusPrefix|);
    }
  }

  /**
   * After the runner finalises a log at its header, the monitor reads the new status, whatever
   * is appended to the log afterwards.
   */
  lemma FinalStatus(log: string, i: nat, status: string, endTime: string, appended: string)
    requires HeaderAt(log, i)
    requires status != [] && forall k :: 0 <= k < |status| ==> !IsSpace(status[k])
    ensures StatusToken(UpdateFrontmatter(log, status, endTime) + appended) == Some(status)
  {
    UpdateAtHeader(log, i, status, endTime);
    var rest := Ending(endTime) + log[i + |InProgressLine|..] + appended;
    assert UpdateFrontmatter(log, status, endTime) + appended == log[..i] + (StatusPrefix + status + rest);
    NoStatusBeforeSplice(log, i, StatusPrefix + status + rest);
    StatusAfterClean(log[..i], status, rest);
  }

  /** Finalising the header with `done` or `failed` makes the log terminal. */
  lemma FinalIsTerminal(log: string, i: nat, status: string, endTime: string)
    requires HeaderAt(log, i) && (status == "done" || status == "failed")
    ensures IsTerminal(UpdateFrontmatter(log, status, endTime))
  {
    UpdateAtHeader(log, i, status, endTime);
    var r := UpdateFrontmatter(log, status, endTime);
    var rest := Ending(endTime) + log[i + |InProgressLine|..];
    assert r == log[..i] + (StatusPrefix + status) + rest;
    assert r[i..i + |StatusPrefix + status|] == StatusPrefix + status;
    assert OccursAt(r, StatusPrefix + status, i);
  }
}
