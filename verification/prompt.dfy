/** `create_review_prompt` of reflex/tracker/review.py: the text sent to the
    model, built from a daily summary in four parts — a header with the five
    counters, a task section, an optional log section and a fixed closing
    instruction.

    The status glyphs are a parameter: the newer file writes them as emoji,
    the older one as the mis-decoded byte sequences it happens to contain.
    Both are opaque constants here. */
module Prompt {
  import opened Text
  import opened Summary

  /** The status and decoration glyphs a version of the review writes. */
  datatype Glyphs = Glyphs(
    done: string, waiting: string, chart: string, warning: string, target: string,
    bulb: string, alarm: string, memo: string, crystal: string)

  /** The glyphs of reflex/tracker/review.py. */
  const Emoji: Glyphs := Glyphs(
    "\U{2705}", "\U{23F3}", "\U{1F4CA}", "\U{26A0}\U{FE0F}", "\U{1F3AF}",
    "\U{1F4A1}", "\U{23F0}", "\U{1F4DD}", "\U{1F52E}")

  /** Task status glyphs that cannot be mistaken for the placeholder line. */
  predicate DistinctStatus(g: Glyphs) {
    g.done != [] && g.waiting != [] && g.done[0] != 'N' && g.waiting[0] != 'N'
  }

  predicate StartsWith(s: string, p: string) {
    |p| <= |s| && s[..|p|] == p
  }

  /** `f"{cell}"`: Python's `str()` of a fetched field. */
  function CellText(c: Cell): string {
    match c
    case CText(s) => s
    case CInt(n) => IntToString(n)
    case CNull => "None"
  }

  /** Python truthiness of a fetched field. */
  predicate Truthy(c: Cell) {
    match c
    case CText(s) => s != []
    case CInt(n) => n != 0
    case CNull => false
  }

  /** The header: the five counters in a fixed order. */
  function Header(s: Stats): string {
    "Today's work summary:\n- Tasks completed: " + NatToString(s.completedTasks)
    + "\n- Tasks pending: " + NatToString(s.pendingTasks)
    + "\n- Focus sessions: " + NatToString(s.focusSessions)
    + " (" + NatToString(s.totalFocusTime) + " minutes total)\n- Log entries: "
    + NatToString(s.logEntries) + "\n\nTasks:\n"
  }

  const Placeholder: string := "- No tasks recorded today\n"

  const LogHeading: string := "\nWork log entries:\n"

  const Closing: string :=
    "\n\n" + "Analyze this day. Provide:\n1. What went well\n2. Areas for improvement\n3. Specific suggestions for tomorrow\nKeep it concise and actionable."

  /** The line of a task row with at least two fields: the done glyph when
      the second field is truthy, the waiting glyph otherwise, then the first
      field. */
  function TaskLine(row: Row, g: Glyphs): (r: string)
    requires |row| >= 2
    ensures StartsWith(r, "- ")
    ensures StartsWith(r[2..], if Truthy(row[1]) then g.done else g.waiting)
  {
    var status := if Truthy(row[1]) then g.done else g.waiting;
    assert ("- " + status + " " + CellText(row[0]) + "\n")[2..] == status + " " + CellText(row[0]) + "\n";
    "- " + status + " " + CellText(row[0]) + "\n"
  }

  /** After the bullet and the status glyph, a task's line holds a space,
      the task's first field and the line break, and nothing else. */
  lemma TaskLineContent(row: Row, g: Glyphs)
    requires |row| >= 2
    ensures var r, status := TaskLine(row, g), if Truthy(row[1]) then g.done else g.waiting;
      && |r| == 4 + |status| + |CellText(row[0])|
      && r[2 + |status|] == ' '
      && OccursAt(r, CellText(row[0]), 3 + |status|)
      && r[|r| - 1] == '\n'
  {
    var r, status := TaskLine(row, g), if Truthy(row[1]) then g.done else g.waiting;
    assert r[3 + |status|..3 + |status| + |CellText(row[0])|] == CellText(row[0]);
  }

  /** The task loop: one line per row of at least two fields, shorter rows
      skipped. The result is empty exactly when every row is short, and
      otherwise begins with the line of the first long row. */
  function TaskLines(tasks: seq<Row>, g: Glyphs): (r: string)
    ensures r == [] <==> forall i :: 0 <= i < |tasks| ==> |tasks[i]| < 2
    ensures r != [] ==> StartsWith(r, "- ") && (StartsWith(r[2..], g.done) || StartsWith(r[2..], g.waiting))
  {
    if tasks == [] then []
    else
      var rest := TaskLines(tasks[1..], g);
      assert forall i :: 1 <= i < |tasks| ==> tasks[i] == tasks[1..][i - 1];
      if |tasks[0]| >= 2 then
        var line := TaskLine(tasks[0], g);
        LeadKept(line, rest, g.done, g.waiting);
        line + rest
      else rest
  }

  /** A line's bullet and glyph stay at the front when more text follows. */
  lemma LeadKept(line: string, rest: string, a: string, b: string)
    requires StartsWith(line, "- ") && (StartsWith(line[2..], a) || StartsWith(line[2..], b))
    ensures StartsWith(line + rest, "- ") && (StartsWith((line + rest)[2..], a) || StartsWith((line + rest)[2..], b))
  {
    assert (line + rest)[..2] == line[..2];
    assert (line + rest)[2..] == line[2..] + rest;
  }

  /** The task section: the lines of the task rows, or the placeholder line
      when there are no rows at all. */
  function TasksSection(tasks: seq<Row>, g: Glyphs): string {
    if tasks == [] then Placeholder else TaskLines(tasks, g)
  }

  /** The line of one log entry: the first field of a non-empty tuple, or a
      bare string as it is; an empty tuple contributes nothing. */
  function LogLine(l: LogRow): (r: string)
    ensures r == [] <==> l == LogTuple([])
  {
    match l
    case LogTuple(cells) => if |cells| >= 1 then "- " + CellText(cells[0]) + "\n" else []
    case LogText(s) => "- " + s + "\n"
  }

  /** The entry a log line shows: the first field of a tuple, or the whole
      string, after a bullet and before the line break. */
  lemma LogLineContent(l: LogRow)
    ensures var r := LogLine(l);
      && (r != [] ==> StartsWith(r, "- ") && r[|r| - 1] == '\n')
      && (l.LogTuple? && |l.cells| >= 1 ==> |r| == 3 + |CellText(l.cells[0])| && OccursAt(r, CellText(l.cells[0]), 2))
      && (l.LogText? ==> |r| == 3 + |l.text| && OccursAt(r, l.text, 2))
  {
    var r := LogLine(l);
    if r != [] {
      var t := if l.LogText? then l.text else CellText(l.cells[0]);
      assert r == "- " + t + "\n";
      assert r[..2] == "- " && r[2..2 + |t|] == t;
    }
  }

  /** The log loop. The result is empty exactly when every row is an empty
      tuple. */
  function LogLines(logs: seq<LogRow>): (r: string)
    ensures r == [] <==> forall i :: 0 <= i < |logs| ==> logs[i] == LogTuple([])
  {
    if logs == [] then []
    else
      assert forall i :: 1 <= i < |logs| ==> logs[i] == logs[1..][i - 1];
      LogLine(logs[0]) + LogLines(logs[1..])
  }

  /** The log section, present only when there are log rows. */
  function LogsSection(logs: seq<LogRow>): (r: string)
    ensures r == [] <==> logs == []
    ensures logs != [] ==> StartsWith(r, LogHeading)
  {
    if logs == [] then [] else LogHeading + LogLines(logs)
  }

  /** `create_review_prompt`. The prompt opens with the counter header and
      ends with the fixed closing instruction. */
  function CreateReviewPrompt(d: DailySummary, g: Glyphs): (r: string)
    ensures StartsWith(r, Header(d.stats))
    ensures |r| >= |Closing| && r[|r| - |Closing|..] == Closing
    ensures OccursAt(r, TasksSection(d.tasks, g) + LogsSection(d.logs), |Header(d.stats)|)
  {
    Framed(Header(d.stats), TasksSection(d.tasks, g) + LogsSection(d.logs), Closing);
    Header(d.stats) + (TasksSection(d.tasks, g) + LogsSection(d.logs)) + Closing
  }

  /** A text that opens with `h`, holds `body` next and ends with `c`. */
  lemma Framed(h: string, body: string, c: string)
    ensures var r := h + body + c;
      && StartsWith(r, h) && |r| >= |c| && r[|r| - |c|..] == c
      && OccursAt(r, body, |h|)
  {
    var r := h + body + c;
    assert r[..|h|] == h;
    assert r[|r| - |c|..] == c;
    assert r[|h|..|h| + |body|] == body;
  }

  /** The placeholder line follows the header exactly when the summary holds
      no task rows; a summary whose rows are all too short to print gets
      neither a task line nor the placeholder. */
  lemma PlaceholderIffNoTasks(d: DailySummary, g: Glyphs)
    requires DistinctStatus(g)
    ensures var r := CreateReviewPrompt(d, g);
      OccursAt(r, Placeholder, |Header(d.stats)|) <==> d.tasks == []
  {
    var t := TasksSection(d.tasks, g);
    var rest := LogsSection(d.logs) + Closing;
    RestStartsWithNewline(d.logs);
    if t != [] && d.tasks != [] {
      var tail := t[2..];
      assert StartsWith(tail, g.done) || StartsWith(tail, g.waiting);
      assert tail[0] == g.done[0] || tail[0] == g.waiting[0];
      assert tail[0] == t[2];
    }
    PromptParts(d, g);
    SectionStart(Header(d.stats), t, rest, d.tasks == []);
  }

  /** The prompt as header, task section, and everything after it. */
  lemma PromptParts(d: DailySummary, g: Glyphs)
    ensures CreateReviewPrompt(d, g) == Header(d.stats) + TasksSection(d.tasks, g) + (LogsSection(d.logs) + Closing)
  {
    var h, t, l := Header(d.stats), TasksSection(d.tasks, g), LogsSection(d.logs);
    Regroup(h, t, l, Closing);
  }

  lemma Associate(a: string, b: string, c: string)
    ensures a + (b + c) == (a + b) + c
  {
  }

  lemma Regroup(h: string, t: string, l: string, c: string)
    ensures h + (t + l) + c == h + t + (l + c)
  {
  }

  lemma RestStartsWithNewline(logs: seq<LogRow>)
    ensures (LogsSection(logs) + Closing)[0] == '\n'
  {
    if logs != [] {
      assert (LogsSection(logs) + Closing)[0] == LogHeading[0];
    } else {
      assert LogsSection(logs) + Closing == Closing;
      assert Closing[0] == '\n';
    }
  }

  /** Whatever precedes it, the placeholder stands after `h` exactly when the
      task section is the placeholder. */
  lemma SectionStart(h: string, t: string, rest: string, noTasks: bool)
    requires noTasks ==> t == Placeholder
    requires !noTasks ==> (|t| > 2 && t[2] != 'N') || (t == [] && rest != [] && rest[0] != '-')
    ensures OccursAt(h + t + rest, Placeholder, |h|) <==> noTasks
  {
    if noTasks {
      PlaceholderAt(h, rest);
    } else {
      NoPlaceholderAt(h, t, rest);
    }
  }

  lemma PlaceholderAt(h: string, rest: string)
    ensures OccursAt(h + Placeholder + rest, Placeholder, |h|)
  {
    assert (h + Placeholder + rest)[|h|..|h| + |Placeholder|] == Placeholder;
  }

  /** A string whose first character is not a dash, or whose third is not an
      'N', cannot be the placeholder at that position. */
  lemma NoPlaceholderAt(h: string, t: string, rest: string)
    requires (|t| > 2 && t[2] != 'N') || (t == [] && rest != [] && rest[0] != '-')
    ensures !OccursAt(h + t + rest, Placeholder, |h|)
  {
    var r := h + t + rest;
    assert Placeholder[0] == '-' && Placeholder[2] == 'N';
    if t == [] {
      assert r[|h|] == rest[0];
    } else {
      assert r[|h| + 2] == t[2];
    }
  }

  /** The task loop treats each row on its own: the lines of two row lists
      are the lines of the first followed by those of the second. */
  lemma {:induction false} TaskLinesAppend(a: seq<Row>, b: seq<Row>, g: Glyphs)
    ensures TaskLines(a + b, g) == TaskLines(a, g) + TaskLines(b, g)
  {
    if a == [] {
      assert a + b == b;
    } else {
      assert (a + b)[0] == a[0];
      assert (a + b)[1..] == a[1..] + b;
      TaskLinesAppend(a[1..], b, g);
      var x := TaskLines(a[1..], g);
      var y := TaskLines(b, g);
      if |a[0]| >= 2 {
        var line := TaskLine(a[0], g);
        assert TaskLines(a + b, g) == line + (x + y);
        Associate(line, x, y);
      }
    }
  }

  /** One row contributes its own line when it has two fields or more, and
      nothing otherwise. */
  lemma SingleTaskLine(row: Row, g: Glyphs)
    ensures |row| >= 2 ==> TaskLines([row], g) == TaskLine(row, g)
    ensures |row| < 2 ==> TaskLines([row], g) == []
  {
    assert [row][1..] == [];
  }

  /** The log loop treats each row on its own. */
  lemma {:induction false} LogLinesAppend(a: seq<LogRow>, b: seq<LogRow>)
    ensures LogLines(a + b) == LogLines(a) + LogLines(b)
  {
    if a != [] {
      assert (a + b)[0] == a[0];
      assert (a + b)[1..] == a[1..] + b;
      LogLinesAppend(a[1..], b);
      var line := LogLine(a[0]);
      assert LogLines(a + b) == line + (LogLines(a[1..]) + LogLines(b));
      Associate(line, LogLines(a[1..]), LogLines(b));
    } else {
      assert a + b == b;
    }
  }

  /** Every printable task row puts its line, with its status glyph and its
      first field, into the prompt, after the lines of the rows before it. */
  lemma TaskLineInPrompt(d: DailySummary, g: Glyphs, i: int)
    requires 0 <= i < |d.tasks| && |d.tasks[i]| >= 2
    ensures Contains(CreateReviewPrompt(d, g), TaskLine(d.tasks[i], g))
  {
    var x, line, y := TaskLines(d.tasks[..i], g), TaskLine(d.tasks[i], g), TaskLines(d.tasks[i + 1..], g);
    TaskSectionSplit(d.tasks, g, i);
    PromptParts(d, g);
    Inside(CreateReviewPrompt(d, g), Header(d.stats), TasksSection(d.tasks, g), LogsSection(d.logs) + Closing, x, line, y);
  }

  /** The task section around row `i`: the lines of the rows before it,
      its own line, the lines of the rows after it. */
  lemma TaskSectionSplit(tasks: seq<Row>, g: Glyphs, i: int)
    requires 0 <= i < |tasks| && |tasks[i]| >= 2
    ensures TasksSection(tasks, g) == (TaskLines(tasks[..i], g) + TaskLine(tasks[i], g)) + TaskLines(tasks[i + 1..], g)
  {
    var a, row, b := tasks[..i], tasks[i], tasks[i + 1..];
    assert tasks == a + [row] + b;
    TaskLinesAppend(a + [row], b, g);
    TaskLinesAppend(a, [row], g);
    SingleTaskLine(row, g);
  }

  /** Every log row puts its line, with its entry text, into the prompt. */
  lemma LogLineInPrompt(d: DailySummary, g: Glyphs, i: int)
    requires 0 <= i < |d.logs|
    ensures Contains(CreateReviewPrompt(d, g), LogLine(d.logs[i]))
  {
    var x, line, y := LogLines(d.logs[..i]), LogLine(d.logs[i]), LogLines(d.logs[i + 1..]);
    LogSectionSplit(d.logs, i);
    PromptParts(d, g);
    InsideLogs(CreateReviewPrompt(d, g), Header(d.stats), TasksSection(d.tasks, g), LogsSection(d.logs), Closing, LogHeading, x, line, y);
  }

  /** The log section around row `i`. */
  lemma LogSectionSplit(logs: seq<LogRow>, i: int)
    requires 0 <= i < |logs|
    ensures LogsSection(logs) == LogHeading + ((LogLines(logs[..i]) + LogLine(logs[i])) + LogLines(logs[i + 1..]))
  {
    var a, row, b := logs[..i], logs[i], logs[i + 1..];
    assert logs == a + [row] + b;
    LogLinesAppend(a + [row], b);
    LogLinesAppend(a, [row]);
    assert [row][1..] == [];
    assert LogLines([row]) == LogLine(row);
  }

  /** `p`, standing between `x` and `y` in the part `s` after `h`, occurs at
      the position after `h` and `x`. */
  lemma Inside(r: string, h: string, s: string, rest: string, x: string, p: string, y: string)
    requires r == h + s + rest && s == (x + p) + y
    ensures OccursAt(r, p, |h| + |x|) && Contains(r, p)
  {
    assert r == (h + x) + p + (y + rest);
    assert r[|h + x|..|h + x| + |p|] == p;
    ContainsAt(r, p, |h| + |x|);
  }

  /** The same inside a log section `l` that opens with the heading `lh`. */
  lemma InsideLogs(r: string, h: string, t: string, l: string, c: string, lh: string, x: string, p: string, y: string)
    requires r == h + t + (l + c) && l == lh + ((x + p) + y)
    ensures OccursAt(r, p, |h| + |t| + |lh| + |x|) && Contains(r, p)
  {
    assert r == (h + t + lh + x) + p + (y + c);
    assert r[|h + t + lh + x|..|h + t + lh + x| + |p|] == p;
    ContainsAt(r, p, |h| + |t| + |lh| + |x|);
  }
}
