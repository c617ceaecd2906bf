/**
 * `history-mcp.mjs`: the `logHistoryEntry` tool, which puts a dated entry with bullets at the
 * head of `.claude/memory/history.md`, refreshes the `last_updated:` line of its frontmatter
 * and keeps the file within 250 lines by dropping the oldest lines of the body.
 */
module HistoryMcp {
  import opened Common
  import opened Strings
  import opened JsonValues
  import opened Paths
  import opened Files
  import opened Frontmatter

  const MaxLines: int := 250
  const StampPrefix: string := "last_updated:"

  /** `.claude/memory/history.md` below the project directory. */
  function HistoryPath(projectDir: Option<string>, processCwd: Path): Path
    requires ValidPath(processCwd)
  {
    var cwd := if projectDir.Some? && projectDir.value != "" then ResolvePath(processCwd, projectDir.value) else processCwd;
    cwd + [".claude", "memory", "history.md"]
  }

  /** The file `ensureHistoryFile` creates, stamped twice with the same time. */
  function Template(now: string): string
  {
    Open + "created: " + now + "\n" + StampPrefix + " " + now + Close + "\n"
  }

  /** A fresh history file parses: its frontmatter holds the two stamps and its body is one empty line. */
  lemma TemplateParses(now: string)
    requires '\n' !in now
    ensures SplitFrontmatter(Template(now)) == Some(Sections("created: " + now + "\n" + StampPrefix + " " + now, "\n"))
  {
    var x := Sections("created: " + now + "\n" + StampPrefix + " " + now, "\n");
    assert Template(now) == Compose(x);
    var y := StampPrefix + " " + now;
    assert y[0] == 'l';
    TwoLinesEnd("created: " + now, y);
    assert x.frontmatter == "created: " + now + "\n" + y;
    SplitCompose(x);
  }

  // ---------------------------------------------------------------- the timestamp

  /** One frontmatter line after the rewrite. */
  function StampLine(line: string, now: string): string
  {
    if StampPrefix <= line then StampPrefix + " " + now else line
  }

  function StampLines(lines: seq<string>, now: string): (r: seq<string>)
    ensures |r| == |lines|
  {
    seq(|lines|, i requires 0 <= i < |lines| => StampLine(lines[i], now))
  }

  /** `updateFrontmatterTimestamp(frontmatter)` with the clock's reading `now`. */
  function UpdateTimestamp(frontmatter: string, now: string): string
  {
    Join(StampLines(Split(frontmatter, '\n'), now), "\n")
  }

  /**
   * The rewrite keeps the number and order of the lines: a line starting with `last_updated:`
   * becomes `last_updated: <now>` and every other line stays as it was.
   */
  lemma TimestampLines(frontmatter: string, now: string)
    requires '\n' !in now
    ensures var before := Split(frontmatter, '\n');
      var after := Split(UpdateTimestamp(frontmatter, now), '\n');
      |after| == |before|
      && forall i :: 0 <= i < |before| ==>
        after[i] == if StampPrefix <= before[i] then StampPrefix + " " + now else before[i]
  {
    var before := Split(frontmatter, '\n');
    var lines := StampLines(before, now);
    forall i | 0 <= i < |lines| ensures '\n' !in lines[i] {
      if StampPrefix <= before[i] {
        assert lines[i] == StampPrefix + " " + now;
        assert forall k :: 0 <= k < |lines[i]| ==> lines[i][k] != '\n' by {
          forall k | 0 <= k < |lines[i]| ensures lines[i][k] != '\n' {
            if k >= |StampPrefix| + 1 {
              assert lines[i][k] == now[k - |StampPrefix| - 1];
            }
          }
        }
      }
    }
    SplitJoin(lines, '\n');
  }

  /** Stamping again with the same time changes nothing. */
  lemma TimestampIdempotent(frontmatter: string, now: string)
    requires '\n' !in now
    ensures UpdateTimestamp(UpdateTimestamp(frontmatter, now), now) == UpdateTimestamp(frontmatter, now)
  {
    var once := UpdateTimestamp(frontmatter, now);
    TimestampLines(frontmatter, now);
    var lines := Split(once, '\n');
    assert StampLines(lines, now) == lines;
    JoinSplit(once, '\n');
  }

  // ---------------------------------------------------------------- the entry

  /** A validated bullet: its text and its sub-bullets as `${sub}` prints them (none when the field was falsy). */
  datatype Bullet = Bullet(text: string, subbullets: seq<string>)

  /** `toISOString().split('T')[0]`. */
  function DateOf(now: string): string
  {
    Split(now, 'T')[0]
  }

  function HeadingLine(date: string, title: string): string
  {
    "## " + date + ": " + title
  }

  /** The sub-bullet lines, `  - <sub>` each. */
  function SubLines(subs: seq<string>): (r: seq<string>)
    ensures |r| == |subs|
  {
    seq(|subs|, i requires 0 <= i < |subs| => "  - " + subs[i])
  }

  /** The lines of the bullets: `- <text>` for each, followed by its sub-bullet lines. */
  function BulletLines(bullets: seq<Bullet>): seq<string>
  {
    if bullets == [] then []
    else
      var b := bullets[|bullets| - 1];
      BulletLines(bullets[..|bullets| - 1]) + ["- " + b.text] + SubLines(b.subbullets)
  }

  /** Lines, each closed by a line break. */
  function Closed(lines: seq<string>): string
  {
    if lines == [] then "" else lines[0] + "\n" + Closed(lines[1..])
  }

  /** The lines of an entry: heading, blank line, the bullets, blank line. */
  function EntryLineList(date: string, title: string, bullets: seq<Bullet>): seq<string>
  {
    [HeadingLine(date, title), ""] + BulletLines(bullets) + [""]
  }

  /** The entry `formatEntry` builds. */
  function EntryText(date: string, title: string, bullets: seq<Bullet>): string
  {
    Closed(EntryLineList(date, title, bullets))
  }

  lemma {:induction false} ClosedAppend(a: seq<string>, b: seq<string>)
    ensures Closed(a + b) == Closed(a) + Closed(b)
    decreases |a|
  {
    if a == [] {
      assert a + b == b;
    } else {
      ClosedAppend(a[1..], b);
      assert (a + b)[1..] == a[1..] + b;
      assert (a + b)[0] == a[0];
    }
  }

  /** Closing one more line appends it and its line break. */
  lemma ClosedSnoc(lines: seq<string>, line: string)
    ensures Closed(lines) + (line + "\n") == Closed(lines + [line])
  {
    ClosedAppend(lines, [line]);
    assert [line][1..] == [];
  }

  lemma HeadingClosed(date: string, title: string)
    ensures "## " + date + ": " + title + "\n\n" == Closed([HeadingLine(date, title), ""])
  {
    assert [HeadingLine(date, title), ""][1..] == [""];
    assert [""][1..] == [];
  }

  /** `formatEntry(title, bullets)` on the day of `now`. */
  method FormatEntry(now: string, title: string, bullets: seq<Bullet>) returns (entry: string)
    ensures entry == EntryText(DateOf(now), title, bullets)
  {
    var dateStr := Split(now, 'T')[0];
    entry := "## " + dateStr + ": " + title + "\n\n";
    HeadingClosed(dateStr, title);
    ghost var heading := [HeadingLine(dateStr, title), ""];
    assert heading + BulletLines(bullets[..0]) == heading;
    for i := 0 to |bullets|
      invariant entry == Closed(heading + BulletLines(bullets[..i]))
    {
      var bullet := bullets[i];
      ghost var before := heading + BulletLines(bullets[..i]) + ["- " + bullet.text];
      ClosedSnoc(heading + BulletLines(bullets[..i]), "- " + bullet.text);
      entry := entry + ("- " + bullet.text + "\n");
      assert before + SubLines(bullet.subbullets[..0]) == before;
      for j := 0 to |bullet.subbullets|
        invariant entry == Closed(before + SubLines(bullet.subbullets[..j]))
      {
        SubStep(before, bullet.subbullets, j);
        entry := entry + ("  - " + bullet.subbullets[j] + "\n");
      }
      BulletStep(heading, bullets, i);
    }
    assert bullets[..|bullets|] == bullets;
    ClosedSnoc(heading + BulletLines(bullets), "");
    entry := entry + "\n";
  }

  lemma SubStep(before: seq<string>, subs: seq<string>, j: nat)
    requires j < |subs|
    ensures Closed(before + SubLines(subs[..j])) + ("  - " + subs[j] + "\n") == Closed(before + SubLines(subs[..j + 1]))
  {
    assert SubLines(subs[..j + 1]) == SubLines(subs[..j]) + ["  - " + subs[j]];
    assert before + SubLines(subs[..j + 1]) == before + SubLines(subs[..j]) + ["  - " + subs[j]];
    ClosedSnoc(before + SubLines(subs[..j]), "  - " + subs[j]);
  }

  lemma BulletStep(heading: seq<string>, bullets: seq<Bullet>, i: nat)
    requires i < |bullets|
    ensures var b := bullets[i];
      Closed(heading + BulletLines(bullets[..i]) + ["- " + b.text] + SubLines(b.subbullets[..|b.subbullets|]))
      == Closed(heading + BulletLines(bullets[..i + 1]))
  {
    var b := bullets[i];
    assert bullets[..i + 1][..i] == bullets[..i];
    assert b.subbullets[..|b.subbullets|] == b.subbullets;
    assert heading + BulletLines(bullets[..i + 1]) == heading + BulletLines(bullets[..i]) + ["- " + b.text] + SubLines(b.subbullets);
  }

  /** Splitting closed lines in front of more text gives those lines, then the text's lines. */
  lemma {:induction false} SplitClosed(lines: seq<string>, rest: string)
    requires forall i :: 0 <= i < |lines| ==> '\n' !in lines[i]
    ensures Split(Closed(lines) + rest, '\n') == lines + Split(rest, '\n')
    decreases |lines|
  {
    if lines == [] {
      assert Closed(lines) + rest == rest;
    } else {
      var tail := Closed(lines[1..]) + rest;
      SplitClosed(lines[1..], rest);
      ClosedCons(lines, rest);
      SplitStep(Closed(lines) + rest, tail, lines, Split(rest, '\n'));
    }
  }

  /** One step of `SplitClosed`: the first line, its line break, then a tail that splits into the others. */
  lemma SplitStep(s: string, tail: string, lines: seq<string>, after: seq<string>)
    requires lines != [] && '\n' !in lines[0]
    requires s == lines[0] + ['\n'] + tail
    requires Split(tail, '\n') == lines[1..] + after
    ensures Split(s, '\n') == lines + after
  {
    SplitCons(lines[0], '\n', tail);
    ConsSlice(lines, after);
  }

  lemma ConsSlice<T>(xs: seq<T>, ys: seq<T>)
    requires xs != []
    ensures [xs[0]] + (xs[1..] + ys) == xs + ys
  {
  }

  lemma ClosedCons(lines: seq<string>, rest: string)
    requires lines != []
    ensures Closed(lines) + rest == lines[0] + ['\n'] + (Closed(lines[1..]) + rest)
  {
  }

  /** Whether a text holds no line break. */
  predicate OneLine(s: string)
  {
    '\n' !in s
  }

  predicate PlainBullets(bullets: seq<Bullet>)
  {
    forall i :: 0 <= i < |bullets| ==>
      OneLine(bullets[i].text) && forall k :: 0 <= k < |bullets[i].subbullets| ==> OneLine(bullets[i].subbullets[k])
  }

  lemma {:induction false} BulletLinesPlain(bullets: seq<Bullet>)
    requires PlainBullets(bullets)
    ensures forall i :: 0 <= i < |BulletLines(bullets)| ==> OneLine(BulletLines(bullets)[i])
    decreases |bullets|
  {
    if bullets != [] {
      var init := bullets[..|bullets| - 1];
      var b := bullets[|bullets| - 1];
      BulletLinesPlain(init);
      var subs := SubLines(b.subbullets);
      assert forall k :: 0 <= k < |subs| ==> subs[k] == "  - " + b.subbullets[k];
    }
  }

  /**
   * The entry's lines are the heading, an empty line, one line per bullet and per sub-bullet in
   * order, and two empty lines (the entry ends with a blank line).
   */
  lemma EntryLines(date: string, title: string, bullets: seq<Bullet>)
    requires OneLine(date) && OneLine(title) && PlainBullets(bullets)
    ensures Split(EntryText(date, title, bullets), '\n')
      == ["## " + date + ": " + title, ""] + BulletLines(bullets) + ["", ""]
  {
    var lines := EntryLineList(date, title, bullets);
    EntryLineListPlain(date, title, bullets);
    SplitClosed(lines, "");
    assert Closed(lines) + "" == Closed(lines);
    assert Split("", '\n') == [""];
    TwoBlanks([HeadingLine(date, title), ""] + BulletLines(bullets));
  }

  lemma TwoBlanks(xs: seq<string>)
    ensures xs + [""] + [""] == xs + ["", ""]
  {
  }

  lemma EntryLineListPlain(date: string, title: string, bullets: seq<Bullet>)
    requires OneLine(date) && OneLine(title) && PlainBullets(bullets)
    ensures forall i :: 0 <= i < |EntryLineList(date, title, bullets)| ==> '\n' !in EntryLineList(date, title, bullets)[i]
  {
    var h := HeadingLine(date, title);
    assert OneLine(h);
    var body := BulletLines(bullets);
    BulletLinesPlain(bullets);
    var lines := EntryLineList(date, title, bullets);
    forall i | 0 <= i < |lines|
      ensures '\n' !in lines[i]
    {
      if 2 <= i < 2 + |body| {
        assert lines[i] == body[i - 2];
      }
    }
  }

  /** `---\n<frontmatter>\n---\n`. */
  function FrontmatterText(frontmatter: string): string
  {
    Open + frontmatter + Close
  }

  /** The first `n` lines of a text. */
  function FirstLines(s: string, n: nat): string
  {
    Join(Take(Split(s, '\n'), n), "\n")
  }

  /**
   * The body that is kept: all of it when the file stays within the limit, else its first
   * lines, or none. `LineCount` is `split('\n').length` (`Strings.LineCountSplit`).
   */
  function KeptBody(head: string, entry: string, body: string): string
  {
    if LineCount(head + entry + body) <= MaxLines then body
    else
      var maxBodyLines := MaxLines - LineCount(head) - LineCount(entry);
      if maxBodyLines <= 0 then "" else FirstLines(body, maxBodyLines)
  }

  /** Taking the first lines of a text keeps a prefix of it. */
  lemma FirstLinesPrefix(s: string, n: nat)
    requires n >= 1
    ensures FirstLines(s, n) <= s
  {
    JoinTakePrefix(Split(s, '\n'), n, "\n");
    JoinSplit(s, '\n');
  }

  /** Joining the first `n` parts gives a prefix of joining them all. */
  lemma {:induction false} JoinTakePrefix<T>(parts: seq<seq<T>>, n: nat, sep: seq<T>)
    requires n >= 1
    ensures Join(Take(parts, n), sep) <= Join(parts, sep)
    decreases n
  {
    if 1 < n < |parts| {
      JoinTakePrefix(parts[1..], n - 1, sep);
      assert Take(parts, n)[1..] == Take(parts[1..], n - 1);
      assert Join(Take(parts, n), sep) == parts[0] + sep + Join(Take(parts[1..], n - 1), sep);
    } else if n == 1 < |parts| {
      assert Take(parts, n) == [parts[0]];
    }
  }

  /** The first `n` lines of a text with more lines count `n` lines. */
  lemma FirstLinesCount(s: string, n: nat)
    requires 1 <= n < LineCount(s)
    ensures LineCount(FirstLines(s, n)) == n
  {
    LineCountSplit(s);
    LineCountSplit(FirstLines(s, n));
    var parts := Take(Split(s, '\n'), n);
    assert forall i :: 0 <= i < |parts| ==> '\n' !in parts[i] by {
      forall i | 0 <= i < |parts| ensures '\n' !in parts[i] {
        assert parts[i] == Split(s, '\n')[i];
      }
    }
    SplitJoin(parts, '\n');
  }

  /**
   * The cap: a result within 250 lines keeps the whole body; otherwise, when the frontmatter
   * and the entry leave room, the body is cut to a prefix and the file has at most 250 lines;
   * without room no body is kept. The kept body is always a prefix of the old one, so only
   * the oldest lines are lost.
   */
  lemma Capped(head: string, entry: string, body: string)
    ensures var kept := KeptBody(head, entry, body);
      kept <= body
      && (LineCount(head + entry + body) <= MaxLines ==> kept == body)
      && (LineCount(head + entry + body) > MaxLines && MaxLines - LineCount(head) - LineCount(entry) > 0 ==>
            LineCount(head + entry + kept) <= MaxLines)
      && (LineCount(head + entry + body) > MaxLines && MaxLines - LineCount(head) - LineCount(entry) <= 0 ==>
            kept == "")
  {
    var kept := KeptBody(head, entry, body);
    var room := MaxLines - LineCount(head) - LineCount(entry);
    if LineCount(head + entry + body) > MaxLines && room > 0 {
      assert kept == FirstLines(body, room);
      FirstLinesPrefix(body, room);
      CutLines(head, entry, body, room);
    }
  }

  /**
   * When the body is cut, the file has exactly 248 lines: each `split('\n')` count includes the
   * line the next piece continues, so the three counts overlap by two lines.
   */
  lemma CutLines(head: string, entry: string, body: string, room: int)
    requires room == MaxLines - LineCount(head) - LineCount(entry) >= 1
    requires LineCount(head + entry + body) > MaxLines
    ensures LineCount(head + entry + FirstLines(body, room)) == MaxLines - 2
  {
    var h, e, b := LineCount(head), LineCount(entry), LineCount(body);
    LineCountAppend(head, entry);
    LineCountAppend(head + entry, body);
    assert LineCount(head + entry + body) == h + e + b - 2;
    FirstLinesCount(body, room);
    LineCountAppend(head + entry, FirstLines(body, room));
  }

  /** The file `logHistoryEntry` writes in place of `content`, or `None` when it has no frontmatter. */
  function NewHistory(content: string, now: string, title: string, bullets: seq<Bullet>): Option<string>
  {
    match SplitFrontmatter(content)
    case None => None
    case Some(x) =>
      Some(Rewritten(UpdateTimestamp(x.frontmatter, now), EntryText(DateOf(now), title, bullets), x.body))
  }

  /** The refreshed frontmatter block, the new entry, then what the cap keeps of the old body. */
  function Rewritten(stamped: string, entry: string, body: string): string
  {
    var head := FrontmatterText(stamped);
    head + entry + KeptBody(head, entry, body)
  }

  /**
   * The new entry comes first: the written file is the refreshed frontmatter, the entry, then
   * a prefix of the old body; read back, its body starts with the entry.
   */
  lemma NewestFirst(content: string, now: string, title: string, bullets: seq<Bullet>)
    requires SplitFrontmatter(content).Some?
    ensures var x := SplitFrontmatter(content).value;
      var stamped := UpdateTimestamp(x.frontmatter, now);
      var entry := EntryText(DateOf(now), title, bullets);
      var written := NewHistory(content, now, title, bullets).value;
      exists kept :: kept <= x.body && written == Compose(Sections(stamped, entry + kept))
        && (EndsAtFirstClose(stamped) ==> SplitFrontmatter(written) == Some(Sections(stamped, entry + kept)))
  {
    var x := SplitFrontmatter(content).value;
    var stamped := UpdateTimestamp(x.frontmatter, now);
    var head := FrontmatterText(stamped);
    var entry := EntryText(DateOf(now), title, bullets);
    var kept := KeptBody(head, entry, x.body);
    Capped(head, entry, x.body);
    ComposeHead(stamped, entry, kept);
    if EndsAtFirstClose(stamped) {
      SplitCompose(Sections(stamped, entry + kept));
    }
  }

  lemma ComposeHead(frontmatter: string, entry: string, kept: string)
    ensures FrontmatterText(frontmatter) + entry + kept == Compose(Sections(frontmatter, entry + kept))
  {
  }

  /**
   * `logHistoryEntry(cwd, title, bullets)`: the history file is created from the template when
   * missing, then rewritten with the new entry at its head. It fails, after that creation,
   * when the file has no frontmatter.
   */
  method LogHistoryEntry(fs: FileSystem, historyPath: Path, now: string, title: string, bullets: seq<Bullet>)
    returns (ok: bool)
    modifies fs
    ensures var content := old(fs.ReadText(historyPath)).GetOr(Template(now));
      ok == NewHistory(content, now, title, bullets).Some?
      && fs.texts == old(fs.texts)[historyPath := if ok then NewHistory(content, now, title, bullets).value else content]
    ensures fs.docs == old(fs.docs) && fs.programs == old(fs.programs)
  {
    if historyPath !in fs.texts {
      fs.WriteText(historyPath, Template(now));
    } else {
      assert fs.texts == fs.texts[historyPath := fs.texts[historyPath]];
    }
    var content := fs.texts[historyPath];
    assert content == old(fs.ReadText(historyPath)).GetOr(Template(now));
    assert fs.texts == old(fs.texts)[historyPath := content];
    var newContent := RewriteHistory(content, now, title, bullets);
    if newContent.None? {
      return false;
    }
    fs.WriteText(historyPath, newContent.value);
    Overwrite(old(fs.texts), historyPath, content, newContent.value);
    ok := true;
  }

  /** A second write to the same key hides the first. */
  lemma Overwrite<K, V>(m: map<K, V>, k: K, first: V, second: V)
    ensures m[k := first][k := second] == m[k := second]
  {
  }

  /**
   * The text `logHistoryEntry` computes from the file's content: the frontmatter is parsed and
   * restamped, the entry formatted and the body capped; `None` when the parse throws.
   */
  method RewriteHistory(content: string, now: string, title: string, bullets: seq<Bullet>) returns (newContent: Option<string>)
    ensures newContent == NewHistory(content, now, title, bullets)
  {
    var parsed := SplitFrontmatter(content);
    if parsed.None? {
      return None;
    }
    var frontmatter, body := parsed.value.frontmatter, parsed.value.body;
    var updatedFrontmatter := UpdateTimestamp(frontmatter, now);
    var newEntry := FormatEntry(now, title, bullets);
    var frontmatterText := "---\n" + updatedFrontmatter + "\n---\n";
    var trimmedBody := TrimBody(frontmatterText, newEntry, body);
    newContent := Some(frontmatterText + newEntry + trimmedBody);
  }

  /** The 250-line cap of `logHistoryEntry`: what is kept of the old body. */
  method TrimBody(frontmatterText: string, newEntry: string, body: string) returns (trimmedBody: string)
    ensures trimmedBody == KeptBody(frontmatterText, newEntry, body)
  {
    var fullContent := frontmatterText + newEntry + body;
    var totalLines := LineCount(fullContent);
    trimmedBody := body;
    if totalLines > MaxLines {
      var frontmatterLines := LineCount(frontmatterText);
      var newEntryLines := LineCount(newEntry);
      var maxBodyLines := MaxLines - frontmatterLines - newEntryLines;
      if maxBodyLines <= 0 {
        trimmedBody := "";
      } else {
        var bodyLines := Split(body, '\n');
        trimmedBody := Join(Take(bodyLines, maxBodyLines), "\n");
      }
    }
  }

  // ---------------------------------------------------------------- the tool call

  const TitleError: string := "title is required and must be a string"
  const BulletListError: string := "bullets is required and must be a non-empty array"
  const TextError: string := "Each bullet must have a text property that is a string"
  const SubbulletsError: string := "bullet.subbullets must be an array if provided"
  const FormatError: string := "Invalid history.md format: missing frontmatter"
  /** Reading a property of `null` or `undefined`; the text of the `TypeError` is not modelled. */
  const TypeError: string := "TypeError"

  /** The problem with one element of `bullets`, if any: text first, then sub-bullets. */
  function BulletError(b: Json): Option<string>
  {
    if b.JNull? then Some(TypeError)
    else if !Field(b, "text").JStr? || Field(b, "text").s == "" then Some(TextError)
    else if Truthy(Field(b, "subbullets")) && !Field(b, "subbullets").JArr? then Some(SubbulletsError)
    else None
  }

  /** The first problem among the bullets, in order. */
  function BulletsError(items: seq<Json>): (r: Option<string>)
    ensures r.None? <==> forall i :: 0 <= i < |items| ==> BulletError(items[i]).None?
    ensures r.Some? ==> exists i :: 0 <= i < |items| && BulletError(items[i]) == r
  {
    if items == [] then None
    else if BulletError(items[0]).Some? then BulletError(items[0])
    else
      var r := BulletsError(items[1..]);
      assert forall i :: 1 <= i < |items| ==> items[i] == items[1..][i - 1];
      r
  }

  /** A checked bullet as `formatEntry` reads it. */
  function BulletOf(b: Json): Bullet
  {
    var subs := if Field(b, "subbullets").JArr? then Field(b, "subbullets").items else [];
    Bullet(AsString(Field(b, "text")).GetOr(""), seq(|subs|, i requires 0 <= i < |subs| => ToJsString(subs[i])))
  }

  /**
   * The handler's checks on `request.params`, in the handler's order: the tool name, the
   * arguments, the title, the bullets list, then each bullet.
   */
  function CheckCall(name: string, arguments: Json): (r: Result<(string, seq<Bullet>)>)
    ensures name != "logHistoryEntry" ==> r == Err("Unknown tool: " + name)
    ensures r.Ok? <==>
      name == "logHistoryEntry" && !arguments.JNull?
      && Field(arguments, "title").JStr? && Field(arguments, "title").s != ""
      && Field(arguments, "bullets").JArr? && Field(arguments, "bullets").items != []
      && forall i :: 0 <= i < |Field(arguments, "bullets").items| ==> BulletError(Field(arguments, "bullets").items[i]).None?
    ensures name == "logHistoryEntry" && !arguments.JNull? && !(Field(arguments, "title").JStr? && Field(arguments, "title").s != "") ==>
      r == Err(TitleError)
    ensures r.Ok? ==>
      r.value.0 == Field(arguments, "title").s && |r.value.1| == |Field(arguments, "bullets").items|
      && forall i :: 0 <= i < |r.value.1| ==> r.value.1[i] == BulletOf(Field(arguments, "bullets").items[i])
  {
    if name != "logHistoryEntry" then Err("Unknown tool: " + name)
    else if arguments.JNull? then Err(TypeError)
    else
      var title := Field(arguments, "title");
      var bullets := Field(arguments, "bullets");
      if !title.JStr? || title.s == "" then Err(TitleError)
      else if !bullets.JArr? || bullets.items == [] then Err(BulletListError)
      else match BulletsError(bullets.items)
        case Some(e) => Err(e)
        case None => Ok((title.s, seq(|bullets.items|, i requires 0 <= i < |bullets.items| => BulletOf(bullets.items[i]))))
  }

  /** A checked bullet's text is the non-empty string it was given. */
  lemma CheckedTexts(name: string, arguments: Json)
    requires CheckCall(name, arguments).Ok?
    ensures forall i :: 0 <= i < |CheckCall(name, arguments).value.1| ==>
      CheckCall(name, arguments).value.1[i].text != ""
  {
    var items := Field(arguments, "bullets").items;
    forall i | 0 <= i < |items| ensures BulletOf(items[i]).text != "" {
      assert BulletError(items[i]).None?;
    }
  }

  /**
   * The `CallTool` handler: the arguments are validated, then the entry is logged and the reply names the
   * history file; every failure is thrown back to the client with its message.
   */
  method HandleCall(fs: FileSystem, name: string, arguments: Json, projectDir: Option<string>, processCwd: Path, now: string)
    returns (reply: Result<string>)
    requires ValidPath(processCwd)
    modifies fs
    ensures CheckCall(name, arguments).Err? ==>
      reply == Err(CheckCall(name, arguments).error)
      && fs.texts == old(fs.texts) && fs.docs == old(fs.docs) && fs.programs == old(fs.programs)
    ensures CheckCall(name, arguments).Ok? ==>
      var path := HistoryPath(projectDir, processCwd);
      var title := CheckCall(name, arguments).value.0;
      var content := old(fs.ReadText(path)).GetOr(Template(now));
      var written := NewHistory(content, now, title, CheckCall(name, arguments).value.1);
      (reply.Ok? <==> written.Some?)
      && (reply.Ok? ==> reply.value == "Successfully logged history entry \"" + title + "\" to " + Render(path))
      && (reply.Err? ==> reply.error == FormatError)
      && fs.texts == old(fs.texts)[path := if written.Some? then written.value else content]
      && fs.docs == old(fs.docs) && fs.programs == old(fs.programs)
  {
    var checked := CheckCall(name, arguments);
    if checked.Err? {
      return Err(checked.error);
    }
    var (title, bullets) := checked.value;
    var historyPath := HistoryPath(projectDir, processCwd);
    var ok := LogHistoryEntry(fs, historyPath, now, title, bullets);
    if !ok {
      return Err(FormatError);
    }
    reply := Ok("Successfully logged history entry \"" + title + "\" to " + Render(historyPath));
  }
}
