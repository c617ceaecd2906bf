/**
 * `agent-monitor.mjs`: the lifecycle hook that scans the agent logs of a project, compares each
 * with what it saw last time (kept in `agent-responses/.monitor-state.json`) and reports the
 * agents that completed, were interrupted or wrote progress lines marked with 📝.
 */
module AgentMonitor {
  import opened Common
  import opened Strings
  import opened JsonValues
  import opened Paths
  import opened Files
  import opened LogHeader
  import opened HookOutput
  import opened SpawnHelpers

  const StateFileName: string := ".monitor-state.json"

  // ---------------------------------------------------------------- state and registry

  /** `loadState`: a missing or unparsable state file is `{}`. */
  function LoadState(doc: Option<Doc>): (state: Json)
    ensures doc.None? || doc == Some(Garbled) ==> state == JObj([])
    ensures doc.Some? && doc.value.Parsed? && (doc.value.value.JObj? || doc.value.value.JArr?) ==> state == doc.value.value
    ensures state.JObj? || state.JArr?
  {
    match doc
    case Some(Parsed(j)) => if j.JObj? || j.JArr? then j else JObj([])
    case _ => JObj([])
  }

  /**
   * `removePidFromRegistry`: the agent's entry is deleted and every other entry kept; without
   * a registry, or with one that cannot be read or is `null`, nothing is written.
   */
  function RegistryWithout(doc: Option<Doc>, agentId: string): (r: Option<Doc>)
    ensures doc.None? || doc == Some(Garbled) || doc == Some(Parsed(JNull)) ==> r == doc
    ensures doc.Some? && doc.value.Parsed? && doc.value.value.JObj? ==>
      r.Some? && r.value.Parsed? && r.value.value.JObj? && Get(r.value.value, agentId).None?
      && forall k :: k != agentId ==> Get(r.value.value, k) == Get(doc.value.value, k)
  {
    match doc
    case Some(Parsed(j)) => if j.JNull? then doc else Some(Parsed(Remove(j, agentId)))
    case _ => doc
  }

  method RemovePidFromRegistry(fs: FileSystem, registryPath: Path, agentId: string)
    modifies fs
    ensures fs.ReadDoc(registryPath) == RegistryWithout(old(fs.ReadDoc(registryPath)), agentId)
    ensures fs.docs - {registryPath} == old(fs.docs) - {registryPath}
    ensures fs.texts == old(fs.texts) && fs.programs == old(fs.programs)
  {
    var doc := fs.ReadDoc(registryPath);
    if doc.None? || doc.value.Garbled? || doc.value.value.JNull? {
      return;
    }
    fs.WriteDoc(registryPath, Remove(doc.value.value, agentId));
  }

  // ---------------------------------------------------------------- agent files

  /** A file as the monitor sees it: its name in the directory, `mtimeMs`, size in bytes and text. */
  datatype AgentFile = AgentFile(name: string, mtime: int, size: int, content: string)

  predicate IsAgentLog(name: string)
  {
    EndsWith(name, ".md") && "agent_" <= name
  }

  /** `getAgentFiles`: the directory's entries named `agent_*.md`, in directory order. */
  function AgentLogs(listing: seq<AgentFile>): (files: seq<AgentFile>)
    ensures forall f :: f in files <==> f in listing && IsAgentLog(f.name)
    ensures |files| <= |listing|
  {
    if listing == [] then []
    else (if IsAgentLog(listing[0].name) then [listing[0]] else []) + AgentLogs(listing[1..])
  }

  /** `basename(file, '.md')`: the agent id a log is named after. */
  function AgentIdOf(name: string): (id: string)
    ensures EndsWith(name, ".md") ==> id + ".md" == name
    ensures !EndsWith(name, ".md") ==> id == name
  {
    if EndsWith(name, ".md") then name[..|name| - 3] else name
  }

  /** The status `/Status: (\S+)/` finds, else `unknown`. */
  function StatusOf(content: string): (status: string)
    ensures StatusToken(content).Some? ==> status == StatusToken(content).value
    ensures StatusToken(content).None? ==> status == "unknown"
  {
    match StatusToken(content)
    case Some(s) => s
    case None => "unknown"
  }

  /**
   * The monitor reads back what the writers put in the header: `in-progress` for a log still
   * at its header, and the final status once a runner or the agent script rewrote it, whatever
   * was appended afterwards.
   */
  lemma StatusSeen(log: string, i: nat, status: string, endTime: string, appended: string)
    requires HeaderAt(log, i) && (status == "done" || status == "failed")
    ensures StatusOf(log) == InProgress
    ensures StatusOf(LogHeader.UpdateFrontmatter(log, status, endTime) + appended) == status
  {
    StatusOfHeader(log, i);
    assert "failed" != [] && forall k :: 0 <= k < |"failed"| ==> !IsSpace("failed"[k]);
    assert "done" != [] && forall k :: 0 <= k < |"done"| ==> !IsSpace("done"[k]);
    FinalStatus(log, i, status, endTime, appended);
  }

  /** `getRelativePath`: the path after the working directory, with one leading `/` dropped, else the file name. */
  function RelativeName(cwdText: string, filePath: string, name: string): string
  {
    if cwdText <= filePath then
      var rest := filePath[|cwdText|..];
      "@" + (if rest != "" && rest[0] == '/' then rest[1..] else rest)
    else "@" + name
  }

  /** For a log in the project's agent directory, the monitor names it `@agent-responses/<name>`. */
  lemma RelativeOfLog(cwd: Path, name: string)
    ensures RelativeName(Render(cwd), Render(cwd + [AgentsDirName, name]), name) == "@" + AgentsDirName + "/" + name
  {
    RenderBelow(cwd, [AgentsDirName, name]);
    var rest := AgentsDirName + "/" + name;
    assert Join([AgentsDirName, name], "/") == rest;
    if cwd == [] {
      assert rest[0] == 'a';
      RelativeNameAfter(Render(cwd), rest, name);
    } else {
      RelativeNameAfter(Render(cwd), "/" + rest, name);
      assert ("/" + rest)[1..] == rest;
    }
  }

  /** A file below the working directory's text is named by what follows it, one leading `/` dropped. */
  lemma RelativeNameAfter(cwdText: string, rest: string, name: string)
    ensures RelativeName(cwdText, cwdText + rest, name)
         == "@" + (if rest != "" && rest[0] == '/' then rest[1..] else rest)
  {
    assert (cwdText + rest)[|cwdText|..] == rest;
  }

  // ---------------------------------------------------------------- progress lines

  /** The progress marker, U+1F4DD. */
  const Marker: char := '\U{1F4DD}'

  /** The text after the marker on one line, trimmed, when there is any. */
  function LineUpdate(line: string): (r: Option<string>)
    ensures r.Some? ==> Marker in line && r.value != ""
  {
    if Marker in line then
      var t := Trim(line[FirstIndex(line, Marker) + 1..]);
      if t != "" then Some(t) else None
    else None
  }

  /** A marked line reports exactly the trimmed text after its first marker, and nothing when that is blank. */
  lemma MarkerTextReported(before: string, after: string)
    requires Marker !in before
    ensures LineUpdate(before + [Marker] + after) == if Trim(after) == "" then None else Some(Trim(after))
  {
    var line := before + [Marker] + after;
    assert line[|before|] == Marker;
    assert line[..|before|] == before;
    assert FirstIndex(line, Marker) == |before|;
    assert line[|before| + 1..] == after;
  }

  /** The lines before a file changed: none when there was no earlier text. */
  function PreviousLines(previous: Option<string>): seq<string>
  {
    if previous.Some? && previous.value != "" then Split(previous.value, '\n') else []
  }

  /** Line `i` is not the line that stood at `i` before. */
  predicate NewAt(current: seq<string>, before: seq<string>, i: nat)
    requires i < |current|
  {
    i >= |before| || before[i] != current[i]
  }

  /** The texts `report` gives for the first `k` lines that are new at their index, in order. */
  function Reported(current: seq<string>, before: seq<string>, k: nat, report: string -> Option<string>): (r: seq<string>)
    requires k <= |current|
    ensures |r| <= k
  {
    if k == 0 then []
    else
      var i := k - 1;
      Reported(current, before, i, report)
        + (if NewAt(current, before, i) && report(current[i]).Some? then [report(current[i]).value] else [])
  }

  /** The progress texts of the first `k` lines, in order. */
  function UpdatesUpTo(current: seq<string>, before: seq<string>, k: nat): seq<string>
    requires k <= |current|
  {
    Reported(current, before, k, LineUpdate)
  }

  /** `extractUpdateContent` as a value. */
  function UpdateContent(content: string, previous: Option<string>): string
  {
    var current := Split(content, '\n');
    Join(UpdatesUpTo(current, PreviousLines(previous), |current|), "\n")
  }

  /**
   * Exactly the new lines are reported: every text reported comes from a line that is new at
   * its index, and every such line with a text is reported.
   */
  lemma {:induction false} ReportedAreNewLines(current: seq<string>, before: seq<string>, k: nat, report: string -> Option<string>)
    requires k <= |current|
    ensures var r := Reported(current, before, k, report);
      (forall t :: t in r ==> exists i :: 0 <= i < k && NewAt(current, before, i) && report(current[i]) == Some(t))
      && (forall i :: 0 <= i < k && NewAt(current, before, i) && report(current[i]).Some? ==> report(current[i]).value in r)
  {
    if k > 0 {
      var j := k - 1;
      ReportedAreNewLines(current, before, j, report);
      var r0 := Reported(current, before, j, report);
      var r := Reported(current, before, k, report);
      forall t | t in r ensures exists i :: 0 <= i < k && NewAt(current, before, i) && report(current[i]) == Some(t) {
        if t !in r0 {
          assert NewAt(current, before, j) && report(current[j]) == Some(t);
        }
      }
      forall i | 0 <= i < k && NewAt(current, before, i) && report(current[i]).Some? ensures report(current[i]).value in r {
        if i < j {
          assert report(current[i]).value in r0;
        }
      }
    }
  }

  /** The progress texts are those of the marked lines that are new at their index. */
  lemma UpdatesAreNewLines(current: seq<string>, before: seq<string>)
    ensures var r := UpdatesUpTo(current, before, |current|);
      (forall t :: t in r ==> exists i :: 0 <= i < |current| && NewAt(current, before, i) && LineUpdate(current[i]) == Some(t))
      && (forall i :: 0 <= i < |current| && NewAt(current, before, i) && LineUpdate(current[i]).Some? ==> LineUpdate(current[i]).value in r)
  {
    ReportedAreNewLines(current, before, |current|, LineUpdate);
  }

  /** Lines that all stand where they stood before report nothing. */
  lemma {:induction false} NothingNewNothingReported(current: seq<string>, before: seq<string>, k: nat, report: string -> Option<string>)
    requires k <= |current| && forall i :: 0 <= i < k ==> !NewAt(current, before, i)
    ensures Reported(current, before, k, report) == []
  {
    if k > 0 {
      NothingNewNothingReported(current, before, k - 1, report);
    }
  }

  /** A text that has not changed line for line reports no progress. */
  lemma UnchangedReportsNothing(content: string)
    requires content != ""
    ensures UpdateContent(content, Some(content)) == ""
  {
    var current := Split(content, '\n');
    NothingNewNothingReported(current, current, |current|, LineUpdate);
  }

  /** The trimmed text after the first marker of a marked line: its progress text when not empty. */
  method TextAfterMarker(line: string) returns (t: string)
    requires Marker in line
    ensures LineUpdate(line) == if t != "" then Some(t) else None
  {
    t := Trim(line[FirstIndex(line, Marker) + 1..]);
  }

  /**
   * `extractUpdateContent(content, previousContent)`: the progress texts of the lines that
   * carry the marker and are not the line that stood at their index before, one per line.
   */
  method ExtractUpdateContent(content: string, previousContent: Option<string>) returns (text: string)
    ensures text == UpdateContent(content, previousContent)
  {
    var currentLines := Split(content, '\n');
    var previousLines := PreviousLines(previousContent);
    var updateLines := CollectUpdates(currentLines, previousLines);
    text := Join(updateLines, "\n");
  }

  /** The loop of `extractUpdateContent` over the current lines. */
  method CollectUpdates(currentLines: seq<string>, previousLines: seq<string>) returns (updateLines: seq<string>)
    ensures updateLines == UpdatesUpTo(currentLines, previousLines, |currentLines|)
  {
    updateLines := [];
    for i := 0 to |currentLines|
      invariant updateLines == UpdatesUpTo(currentLines, previousLines, i)
    {
      var line := currentLines[i];
      if Marker in line && (i >= |previousLines| || previousLines[i] != line) {
        var contentAfter := TextAfterMarker(line);
        UpdateStep(currentLines, previousLines, i, if contentAfter != "" then Some(contentAfter) else None);
        if contentAfter != "" {
          updateLines := updateLines + [contentAfter];
        }
      } else {
        if Marker !in line {
          Unmarked(line);
        }
        UpdateStep(currentLines, previousLines, i, None);
      }
    }
  }

  /** A line without the marker reports nothing. */
  lemma Unmarked(line: string)
    requires Marker !in line
    ensures LineUpdate(line) == None
  {
  }

  /** One more line: its text is appended when it is new and has one. */
  lemma UpdateStep(current: seq<string>, before: seq<string>, i: nat, update: Option<string>)
    requires i < |current| && (NewAt(current, before, i) ==> LineUpdate(current[i]) == update)
    ensures NewAt(current, before, i) && update.Some? ==>
      UpdatesUpTo(current, before, i + 1) == UpdatesUpTo(current, before, i) + [update.value]
    ensures !(NewAt(current, before, i) && update.Some?) ==>
      UpdatesUpTo(current, before, i + 1) == UpdatesUpTo(current, before, i)
  {
    assert UpdatesUpTo(current, before, i) + [] == UpdatesUpTo(current, before, i);
  }

  // ---------------------------------------------------------------- the marker in UTF-16

  /** The UTF-16 code units of one character. */
  function CharUnits(c: char): (u: seq<int>)
    ensures |u| == 1 || |u| == 2
  {
    var v := c as int;
    if v < 0x1_0000 then [v] else [0xD800 + (v - 0x1_0000) / 0x400, 0xDC00 + (v - 0x1_0000) % 0x400]
  }

  /** A string as JavaScript holds it: UTF-16 code units. */
  function Utf16(s: string): seq<int>
  {
    if s == [] then [] else CharUnits(s[0]) + Utf16(s[1..])
  }

  const MarkerUnits: seq<int> := [0xD83D, 0xDCDD]

  /** The line's text after the marker as written: one code unit past the start of the two-unit marker. */
  function LineUpdateAsWritten(units: seq<int>): Option<seq<int>>
  {
    match IndexOf(units, MarkerUnits)
    case None => None
    case Some(i) =>
      var t := TrimEndBy(TrimStartBy(units[i + 1..], IsSpaceCode), IsSpaceCode);
      if t != [] then Some(t) else None
  }

  /**
   * As written, every marked line reports a text that starts with the marker's low surrogate,
   * half a character, and a marker with nothing after it is still reported.
   */
  lemma AsWrittenKeepsLowHalf(units: seq<int>)
    requires Contains(units, MarkerUnits)
    ensures LineUpdateAsWritten(units).Some? && LineUpdateAsWritten(units).value[0] == 0xDCDD
  {
    var i := IndexOf(units, MarkerUnits).value;
    var rest := units[i + 1..];
    assert rest[0] == units[i + 1] == 0xDCDD;
    assert !IsSpaceCode(rest[0]);
    var a := TrimStartBy(rest, IsSpaceCode);
    assert a == rest;
    assert !IsSpaceCode(a[0]);
  }

  /** The line `📝`: reported as the lone low surrogate as written, not at all as intended. */
  lemma MarkerAloneReported()
    ensures Utf16([Marker]) == MarkerUnits
    ensures LineUpdateAsWritten(Utf16([Marker])) == Some([0xDCDD])
    ensures LineUpdate([Marker]) == None
  {
    MarkerEncoding();
    MarkerUnitsAsWritten();
    MarkerAloneQuiet();
  }

  lemma MarkerUnitsAsWritten()
    ensures LineUpdateAsWritten(MarkerUnits) == Some([0xDCDD])
  {
    assert OccursAt(MarkerUnits, MarkerUnits, 0);
    AsWrittenKeepsLowHalf(MarkerUnits);
    assert LineUpdateAsWritten(MarkerUnits).value == [0xDCDD];
  }

  lemma MarkerAloneQuiet()
    ensures LineUpdate([Marker]) == None
  {
    assert FirstIndex([Marker], Marker) == 0;
    assert [Marker][1..] == [];
  }

  lemma MarkerEncoding()
    ensures Utf16([Marker]) == MarkerUnits
  {
    assert Marker as int == 0x1F4DD;
    assert CharUnits(Marker) == MarkerUnits;
    assert Utf16([Marker]) == CharUnits(Marker) + Utf16([]);
  }

  // ---------------------------------------------------------------- one file

  /** What a changed file is reported as. */
  datatype Notice = Completed | Interrupted | Progress(text: string) | Quiet

  /** Whether a file's version is completed or interrupted now, which sets `notified`. */
  predicate Notifies(previous: Json, status: string, size: int)
  {
    size > 100 && !Truthy(Field(previous, "notified"))
    && (((status == "done" || status == "failed") && Field(previous, "status") != JStr(status))
        || (status == "interrupted" && Field(previous, "status") != JStr("interrupted")))
  }

  /**
   * The decision for a new or changed file: small files are never reported; a final status
   * not seen before, on a file not yet reported, completes it; an interruption is reported once;
   * any other change of a known file is progress.
   */
  function Decide(previous: Json, status: string, size: int, content: string): (r: (Notice, bool))
    ensures r.1 <==> r.0 == Completed || r.0 == Interrupted
    ensures r.1 == Notifies(previous, status, size)
    ensures size <= 100 ==> r.0 == Quiet
    ensures r.0 == Completed <==>
      size > 100 && (status == "done" || status == "failed")
      && Field(previous, "status") != JStr(status) && !Truthy(Field(previous, "notified"))
    ensures r.0 == Interrupted <==>
      size > 100 && status == "interrupted"
      && Field(previous, "status") != JStr("interrupted") && !Truthy(Field(previous, "notified"))
    ensures r.0.Progress? ==> Truthy(previous) && size > 100
  {
    if size <= 100 then (Quiet, false)
    else if (status == "done" || status == "failed") && Field(previous, "status") != JStr(status)
            && !Truthy(Field(previous, "notified")) then (Completed, true)
    else if status == "interrupted" then
      if Field(previous, "status") != JStr("interrupted") && !Truthy(Field(previous, "notified")) then (Interrupted, true)
      else (Quiet, false)
    else if Truthy(previous) then (Progress(UpdateContent(content, AsString(Field(previous, "content")))), false)
    else (Quiet, false)
  }

  /** The notification line for a notice. */
  function NoticeLine(n: Notice, rel: string): seq<string>
  {
    match n
    case Completed => ["Agent completed: " + rel]
    case Interrupted => ["Agent interrupted: " + rel]
    case Progress(text) => if text != "" then ["Agent update (" + rel + "): " + text] else ["Agent updated: " + rel]
    case Quiet => []
  }

  /** The state entry kept for a file; `notified` is only written when it is set. */
  function Entry(f: AgentFile, status: string, notified: bool): Json
  {
    JObj([Member("mtime", JNum(f.mtime)), Member("status", JStr(status)), Member("size", JNum(f.size)),
          Member("content", JStr(f.content))] + (if notified then [Member("notified", JBool(true))] else []))
  }

  lemma EntryFields(f: AgentFile, status: string, notified: bool)
    ensures Field(Entry(f, status, notified), "mtime") == JNum(f.mtime)
    ensures Field(Entry(f, status, notified), "status") == JStr(status)
    ensures Truthy(Field(Entry(f, status, notified), "notified")) == notified
  {
    var ms := Entry(f, status, notified).members;
    LookupAt(ms, 0, "mtime");
    LookupAt(ms, 1, "status");
    if notified {
      LookupAt(ms, 4, "notified");
    } else {
      LookupMissing(ms, "notified");
    }
  }

  /** The scan so far: the state object, the notifications and the registry. */
  datatype Scan = Scan(state: Json, updates: seq<string>, registry: Option<Doc>)

  /** The id of a file: its path as text. */
  function FileId(dir: Path, name: string): string
  {
    Render(dir + [name])
  }

  /** The state already has this version of the file: a truthy entry with the same mtime. */
  predicate Current(state: Json, id: string, f: AgentFile)
  {
    Truthy(Field(state, id)) && Field(Field(state, id), "mtime") == JNum(f.mtime)
  }

  /** One iteration of the loop over the agent files: the file's entry, its notification and the registry. */
  function Visit(s: Scan, cwdText: string, dir: Path, f: AgentFile): (t: Scan)
  {
    var d := VisitDecision(s.state, dir, f);
    Scan(VisitState(s.state, dir, f),
         s.updates + (if d.Some? then NoticeLine(d.value.0, RelativeName(cwdText, FileId(dir, f.name), f.name)) else []),
         if d.Some? && d.value.1 then RegistryWithout(s.registry, AgentIdOf(f.name)) else s.registry)
  }

  /** The decision taken for a file, or `None` when its entry is current. */
  function VisitDecision(state: Json, dir: Path, f: AgentFile): Option<(Notice, bool)>
  {
    var id := FileId(dir, f.name);
    if Current(state, id, f) then None
    else Some(Decide(Field(state, id), StatusOf(f.content), f.size, f.content))
  }

  /** The state after one iteration: the file's entry is rewritten unless it is current. */
  function VisitState(state: Json, dir: Path, f: AgentFile): Json
  {
    var id := FileId(dir, f.name);
    if Current(state, id, f) then state
    else
      var status := StatusOf(f.content);
      Set(state, id, Entry(f, status, Notifies(Field(state, id), status, f.size)))
  }

  /** The state after the first `k` files. */
  function StatesUpTo(state: Json, dir: Path, files: seq<AgentFile>, k: nat): Json
    requires k <= |files|
  {
    if k == 0 then state else VisitState(StatesUpTo(state, dir, files, k - 1), dir, files[k - 1])
  }

  /** The first `k` agent files. */
  function ScanSteps(s: Scan, cwdText: string, dir: Path, files: seq<AgentFile>, k: nat): (t: Scan)
    requires k <= |files|
  {
    if k == 0 then s else Visit(ScanSteps(s, cwdText, dir, files, k - 1), cwdText, dir, files[k - 1])
  }

  /** The scan's state evolves by itself, whatever the notifications and the registry. */
  lemma {:induction false} ScanStates(s: Scan, cwdText: string, dir: Path, files: seq<AgentFile>, k: nat)
    requires k <= |files|
    ensures ScanSteps(s, cwdText, dir, files, k).state == StatesUpTo(s.state, dir, files, k)
  {
    if k > 0 {
      ScanStates(s, cwdText, dir, files, k - 1);
      ScanStep(s, cwdText, dir, files, k);
    }
  }

  /** A file of 100 bytes or less is never reported, but its entry is recorded. */
  lemma SmallFileRecorded(s: Scan, cwdText: string, dir: Path, f: AgentFile)
    requires f.size <= 100 && s.state.JObj?
    ensures var t := Visit(s, cwdText, dir, f);
      t.updates == s.updates && t.registry == s.registry && Current(t.state, FileId(dir, f.name), f)
  {
    VisitMakesCurrent(s.state, dir, f);
  }

  /** A file seen for the first time that is still running is recorded without a notification. */
  lemma NewRunningFileQuiet(s: Scan, cwdText: string, dir: Path, f: AgentFile)
    requires !Truthy(Field(s.state, FileId(dir, f.name)))
    requires StatusOf(f.content) != "done" && StatusOf(f.content) != "failed" && StatusOf(f.content) != "interrupted"
    ensures Visit(s, cwdText, dir, f).updates == s.updates
  {
  }

  /**
   * Once a file's entry records a status, a later version with the same status is neither
   * completed nor interrupted again.
   */
  lemma ReportedOnce(f: AgentFile, status: string, notified: bool, size: int, content: string)
    ensures var d := Decide(Entry(f, status, notified), status, size, content);
      d.0 != Completed && d.0 != Interrupted
  {
    EntryFields(f, status, notified);
  }

  /** Visiting a file leaves its entry current and every other entry as it was. */
  lemma VisitMakesCurrent(state: Json, dir: Path, f: AgentFile)
    requires state.JObj?
    ensures var t := VisitState(state, dir, f);
      t.JObj? && Current(t, FileId(dir, f.name), f)
      && forall k :: k != FileId(dir, f.name) ==> Field(t, k) == Field(state, k)
  {
    VisitEntry(state, dir, f);
    forall k | k != FileId(dir, f.name) ensures Field(VisitState(state, dir, f), k) == Field(state, k) {
      VisitOther(state, dir, f, k);
    }
  }

  lemma VisitEntry(state: Json, dir: Path, f: AgentFile)
    requires state.JObj?
    ensures var t := VisitState(state, dir, f); t.JObj? && Current(t, FileId(dir, f.name), f)
  {
    var id := FileId(dir, f.name);
    if !Current(state, id, f) {
      var status := StatusOf(f.content);
      EntryFields(f, status, Notifies(Field(state, id), status, f.size));
    }
  }

  lemma VisitOther(state: Json, dir: Path, f: AgentFile, k: string)
    requires k != FileId(dir, f.name)
    ensures Field(VisitState(state, dir, f), k) == Field(state, k)
  {
  }

  /** Different names in one directory are different ids. */
  lemma IdsDistinct(dir: Path, a: string, b: string)
    requires ValidPath(dir) && ValidSegment(a) && ValidSegment(b) && a != b
    ensures FileId(dir, a) != FileId(dir, b)
  {
    assert ValidPath(dir + [a]) && ValidPath(dir + [b]);
    ResolveRendered(dir, dir + [a]);
    ResolveRendered(dir, dir + [b]);
    assert (dir + [a])[|dir|] == a && (dir + [b])[|dir|] == b;
  }

  /** Files of one directory with distinct, valid names. */
  predicate NamedFiles(dir: Path, files: seq<AgentFile>)
  {
    ValidPath(dir) && DistinctNames(files) && forall i :: 0 <= i < |files| ==> ValidSegment(files[i].name)
  }

  /** Visiting one file leaves another file's current entry current. */
  lemma VisitKeepsCurrent(state: Json, dir: Path, f: AgentFile, g: AgentFile)
    requires ValidPath(dir) && ValidSegment(f.name) && ValidSegment(g.name) && f.name != g.name
    requires Current(state, FileId(dir, g.name), g)
    ensures Current(VisitState(state, dir, f), FileId(dir, g.name), g)
  {
    IdsDistinct(dir, g.name, f.name);
    VisitOther(state, dir, f, FileId(dir, g.name));
  }

  predicate DistinctNames(files: seq<AgentFile>)
  {
    forall i, j :: 0 <= i < j < |files| ==> files[i].name != files[j].name
  }

  /** After a scan, every file scanned so far has a current entry. */
  lemma ScanMakesCurrent(state: Json, dir: Path, files: seq<AgentFile>, k: nat)
    requires k <= |files| && forall f :: f in files ==> ValidSegment(f.name)
    requires ValidPath(dir) && DistinctNames(files) && state.JObj?
    ensures var t := StatesUpTo(state, dir, files, k);
      t.JObj? && forall j :: 0 <= j < k ==> Current(t, FileId(dir, files[j].name), files[j])
  {
    StatesObject(state, dir, files, k);
    forall j | 0 <= j < k ensures Current(StatesUpTo(state, dir, files, k), FileId(dir, files[j].name), files[j]) {
      assert NamedFiles(dir, files) by {
        assert forall i :: 0 <= i < |files| ==> files[i] in files;
      }
      CurrentAfter(state, dir, files, k, j);
    }
  }

  lemma {:induction false} StatesObject(state: Json, dir: Path, files: seq<AgentFile>, k: nat)
    requires k <= |files| && state.JObj?
    ensures StatesUpTo(state, dir, files, k).JObj?
    decreases k
  {
    if k > 0 {
      StatesObject(state, dir, files, k - 1);
      VisitEntry(StatesUpTo(state, dir, files, k - 1), dir, files[k - 1]);
    }
  }

  /** The `j`-th file's entry is current from its own visit on. */
  lemma {:induction false} CurrentAfter(state: Json, dir: Path, files: seq<AgentFile>, k: nat, j: nat)
    requires j < k <= |files| && NamedFiles(dir, files) && state.JObj?
    ensures Current(StatesUpTo(state, dir, files, k), FileId(dir, files[j].name), files[j])
    decreases k
  {
    if j == k - 1 {
      CurrentOnVisit(state, dir, files, k);
    } else {
      CurrentAfter(state, dir, files, k - 1, j);
      CurrentStays(state, dir, files, k, j);
    }
  }

  lemma CurrentOnVisit(state: Json, dir: Path, files: seq<AgentFile>, k: nat)
    requires 0 < k <= |files| && state.JObj?
    ensures Current(StatesUpTo(state, dir, files, k), FileId(dir, files[k - 1].name), files[k - 1])
  {
    StatesObject(state, dir, files, k - 1);
    VisitEntry(StatesUpTo(state, dir, files, k - 1), dir, files[k - 1]);
  }

  lemma CurrentStays(state: Json, dir: Path, files: seq<AgentFile>, k: nat, j: nat)
    requires j < k - 1 && k <= |files| && NamedFiles(dir, files)
    requires Current(StatesUpTo(state, dir, files, k - 1), FileId(dir, files[j].name), files[j])
    ensures Current(StatesUpTo(state, dir, files, k), FileId(dir, files[j].name), files[j])
  {
    assert ValidSegment(files[j].name) && ValidSegment(files[k - 1].name) && files[j].name != files[k - 1].name;
    VisitKeepsCurrent(StatesUpTo(state, dir, files, k - 1), dir, files[k - 1], files[j]);
  }

  /** Scanning files whose entries are all current changes nothing and reports nothing. */
  lemma {:induction false} CurrentScanQuiet(s: Scan, cwdText: string, dir: Path, files: seq<AgentFile>, k: nat)
    requires k <= |files|
    requires AllCurrent(s.state, dir, files)
    ensures ScanSteps(s, cwdText, dir, files, k) == s
  {
    if k > 0 {
      CurrentScanQuiet(s, cwdText, dir, files, k - 1);
      assert files[k - 1] in files;
      assert Current(s.state, FileId(dir, files[k - 1].name), files[k - 1]);
      VisitCurrent(s, cwdText, dir, files[k - 1]);
      ScanStep(s, cwdText, dir, files, k);
    }
  }

  lemma ScanStep(s: Scan, cwdText: string, dir: Path, files: seq<AgentFile>, k: nat)
    requires 0 < k <= |files|
    ensures ScanSteps(s, cwdText, dir, files, k) == Visit(ScanSteps(s, cwdText, dir, files, k - 1), cwdText, dir, files[k - 1])
  {
  }

  /** Every file has a current entry in the state. */
  predicate AllCurrent(state: Json, dir: Path, files: seq<AgentFile>)
  {
    forall j :: 0 <= j < |files| ==> Current(state, FileId(dir, files[j].name), files[j])
  }

  /** Visiting a file whose entry is current changes nothing. */
  lemma VisitCurrent(s: Scan, cwdText: string, dir: Path, f: AgentFile)
    requires Current(s.state, FileId(dir, f.name), f)
    ensures Visit(s, cwdText, dir, f) == s
  {
    assert s.updates + [] == s.updates;
  }

  /**
   * Running the monitor again over files whose mtimes have not changed emits nothing and
   * leaves the state and the registry as they are.
   */
  lemma RerunQuiet(s: Scan, cwdText: string, dir: Path, files: seq<AgentFile>)
    requires forall f :: f in files ==> ValidSegment(f.name)
    requires ValidPath(dir) && DistinctNames(files) && s.state.JObj?
    ensures var first := ScanSteps(s, cwdText, dir, files, |files|);
      var again := Scan(first.state, [], first.registry);
      ScanSteps(again, cwdText, dir, files, |files|) == again
  {
    ScanMakesCurrent(s.state, dir, files, |files|);
    ScanStates(s, cwdText, dir, files, |files|);
    var first := ScanSteps(s, cwdText, dir, files, |files|);
    CurrentScanQuiet(Scan(first.state, [], first.registry), cwdText, dir, files, |files|);
  }

  // ---------------------------------------------------------------- the hook

  /** The hook's output: nothing without notifications, else the lines for Claude or for the user. */
  function Reply(eventName: Json, updates: seq<string>): (r: Option<Json>)
    ensures r.Some? <==> updates != []
  {
    if updates == [] then None
    else if eventName == JStr("PostToolUse") then
      Some(JObj([Member("hookSpecificOutput", JObj([
        Member("hookEventName", JStr("PostToolUse")), Member("additionalContext", JStr(Join(updates, "\n")))]))]))
    else Some(JObj([Member("systemMessage", JStr(Join(updates, "\n")))]))
  }

  /** The docs after an optional change at `p`. */
  function Put(docs: map<Path, Doc>, p: Path, d: Option<Doc>): map<Path, Doc>
  {
    if d.Some? then docs[p := d.value] else docs - {p}
  }

  /** One iteration of the loop, with the registry on disk. */
  method VisitFile(fs: FileSystem, registryPath: Path, state: Json, updates: seq<string>, cwdText: string, dir: Path, f: AgentFile)
    returns (state': Json, updates': seq<string>)
    modifies fs
    ensures Scan(state', updates', fs.ReadDoc(registryPath)) == Visit(Scan(state, updates, old(fs.ReadDoc(registryPath))), cwdText, dir, f)
    ensures fs.docs - {registryPath} == old(fs.docs) - {registryPath}
    ensures fs.texts == old(fs.texts) && fs.programs == old(fs.programs)
  {
    var fileId := FileId(dir, f.name);
    var status := StatusOf(f.content);
    state', updates' := state, updates;
    if !Truthy(Field(state, fileId)) || Field(Field(state, fileId), "mtime") != JNum(f.mtime) {
      var previousState := Field(state, fileId);
      var relativePath := RelativeName(cwdText, fileId, f.name);
      var lines, notified := NotifyFile(fs, registryPath, previousState, status, f, relativePath);
      updates' := updates' + lines;
      state' := Set(state, fileId, Entry(f, status, notified));
      VisitChanged(Scan(state, updates, old(fs.ReadDoc(registryPath))), cwdText, dir, f);
    }
  }

  /**
   * The notification for a changed file of more than 100 bytes, and its registry entry
   * removed when it completes or is interrupted.
   */
  method NotifyFile(fs: FileSystem, registryPath: Path, previousState: Json, status: string, f: AgentFile, relativePath: string)
    returns (lines: seq<string>, notified: bool)
    modifies fs
    ensures var d := Decide(previousState, status, f.size, f.content);
      lines == NoticeLine(d.0, relativePath) && notified == d.1
      && fs.ReadDoc(registryPath) == (if d.1 then RegistryWithout(old(fs.ReadDoc(registryPath)), AgentIdOf(f.name)) else old(fs.ReadDoc(registryPath)))
    ensures fs.docs - {registryPath} == old(fs.docs) - {registryPath}
    ensures fs.texts == old(fs.texts) && fs.programs == old(fs.programs)
  {
    lines, notified := [], false;
    if f.size > 100 {
      var justCompleted := (status == "done" || status == "failed") && Field(previousState, "status") != JStr(status);
      if justCompleted && !Truthy(Field(previousState, "notified")) {
        lines := ["Agent completed: " + relativePath];
        RemovePidFromRegistry(fs, registryPath, AgentIdOf(f.name));
        notified := true;
      } else if status == "interrupted" {
        if Field(previousState, "status") != JStr("interrupted") && !Truthy(Field(previousState, "notified")) {
          lines := ["Agent interrupted: " + relativePath];
          RemovePidFromRegistry(fs, registryPath, AgentIdOf(f.name));
          notified := true;
        }
      } else if Truthy(previousState) {
        var updateContent := ExtractUpdateContent(f.content, AsString(Field(previousState, "content")));
        if updateContent != "" {
          lines := ["Agent update (" + relativePath + "): " + updateContent];
        } else {
          lines := ["Agent updated: " + relativePath];
        }
      }
    }
  }

  /** A visit to a changed file, spelled out by the decision taken for it. */
  lemma VisitChanged(s: Scan, cwdText: string, dir: Path, f: AgentFile)
    requires !Current(s.state, FileId(dir, f.name), f)
    ensures var id := FileId(dir, f.name);
      var status := StatusOf(f.content);
      var d := Decide(Field(s.state, id), status, f.size, f.content);
      Visit(s, cwdText, dir, f)
        == Scan(Set(s.state, id, Entry(f, status, d.1)),
                s.updates + NoticeLine(d.0, RelativeName(cwdText, id, f.name)),
                if d.1 then RegistryWithout(s.registry, AgentIdOf(f.name)) else s.registry)
  {
  }

  /** The loop over the agent files. */
  method ScanFiles(fs: FileSystem, registryPath: Path, state0: Json, cwdText: string, dir: Path, files: seq<AgentFile>)
    returns (state: Json, updates: seq<string>)
    modifies fs
    ensures Scan(state, updates, fs.ReadDoc(registryPath))
         == ScanSteps(Scan(state0, [], old(fs.ReadDoc(registryPath))), cwdText, dir, files, |files|)
    ensures fs.docs - {registryPath} == old(fs.docs) - {registryPath}
    ensures fs.texts == old(fs.texts) && fs.programs == old(fs.programs)
  {
    ghost var start := Scan(state0, [], fs.ReadDoc(registryPath));
    state, updates := state0, [];
    for i := 0 to |files|
      invariant Scan(state, updates, fs.ReadDoc(registryPath)) == ScanSteps(start, cwdText, dir, files, i)
      invariant fs.docs - {registryPath} == old(fs.docs) - {registryPath}
      invariant fs.texts == old(fs.texts) && fs.programs == old(fs.programs)
    {
      state, updates := VisitFile(fs, registryPath, state, updates, cwdText, dir, files[i]);
    }
  }

  lemma PutFrame(before: map<Path, Doc>, after: map<Path, Doc>, p: Path)
    requires after - {p} == before - {p}
    ensures after == Put(before, p, if p in after then Some(after[p]) else None)
  {
    assert forall q :: q in after <==> q in Put(before, p, if p in after then Some(after[p]) else None) by {
      forall q ensures q in after <==> q in Put(before, p, if p in after then Some(after[p]) else None) {
        if q != p {
          assert q in after <==> q in after - {p};
          assert q in before <==> q in before - {p};
        }
      }
    }
    forall q | q in after && q != p ensures after[q] == before[q] {
      assert (after - {p})[q] == after[q];
    }
  }

  /** The state file and the registry are two different files of the agents directory. */
  lemma StateNotRegistry(dir: Path)
    ensures dir + [StateFileName] != dir + [RegistryFileName]
  {
    assert (dir + [StateFileName])[|dir|] != (dir + [RegistryFileName])[|dir|] by {
      assert StateFileName[1] != RegistryFileName[1];
    }
  }

  /**
   * The hook: blank input, input that is not JSON, or a `cwd` that is not a string end it
   * without output or writes. Otherwise every agent log is visited in directory order, the
   * state is saved and the notifications are returned.
   */
  method Monitor(fs: FileSystem, input: HookInput, processCwd: Path, listing: seq<AgentFile>) returns (output: Option<Json>)
    requires ValidPath(processCwd)
    modifies fs
    ensures Blank(input) || input.parsed.None? || !Field(input.parsed.value, "cwd").JStr? ==>
      output.None? && fs.docs == old(fs.docs) && fs.texts == old(fs.texts) && fs.programs == old(fs.programs)
    ensures !(Blank(input) || input.parsed.None? || !Field(input.parsed.value, "cwd").JStr?) ==>
      var cwdText := Field(input.parsed.value, "cwd").s;
      var dir := ResolvePath(processCwd, cwdText) + [AgentsDirName];
      var statePath := dir + [StateFileName];
      var registryPath := dir + [RegistryFileName];
      var r := ScanSteps(Scan(LoadState(old(fs.ReadDoc(statePath))), [], old(fs.ReadDoc(registryPath))),
                         cwdText, dir, AgentLogs(listing), |AgentLogs(listing)|);
      output == Reply(Field(input.parsed.value, "hook_event_name"), r.updates)
      && fs.docs == Put(old(fs.docs), registryPath, r.registry)[statePath := Parsed(r.state)]
      && fs.texts == old(fs.texts) && fs.programs == old(fs.programs)
  {
    if Blank(input) || input.parsed.None? || !Field(input.parsed.value, "cwd").JStr? {
      return None;
    }
    var hookData := input.parsed.value;
    var cwdText := Field(hookData, "cwd").s;
    var dir := ResolvePath(processCwd, cwdText) + [AgentsDirName];
    var statePath := dir + [StateFileName];
    var registryPath := dir + [RegistryFileName];
    StateNotRegistry(dir);
    var state := LoadState(fs.ReadDoc(statePath));
    var updates;
    state, updates := ScanFiles(fs, registryPath, state, cwdText, dir, AgentLogs(listing));
    PutFrame(old(fs.docs), fs.docs, registryPath);
    fs.WriteDoc(statePath, state);
    output := Reply(Field(hookData, "hook_event_name"), updates);
  }
}
