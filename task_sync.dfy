/**
 * The checklist synchroniser (`task-sync.js`): it reads `tasks.md` into
 * task records when the architect finishes, turns them into TodoWrite
 * items, rewrites checkbox marks as developers start and testers pass
 * tasks, and keeps the review-before-test discipline in the workflow
 * state (`task.reviewed`, `task.testFailed`, `task.debugged`).
 */
module TaskSync {
  import opened Text
  import opened Workflow
  import opened TaskGrammar

  // ---------------------------------------------------------------------
  // Task records

  datatype TaskStatus = Pending | InProgress | Completed

  /** The string `status` takes in a task record and a TodoWrite item. */
  function StatusName(s: TaskStatus): string {
    match s
    case Pending => "pending"
    case InProgress => "in_progress"
    case Completed => "completed"
  }

  datatype Mode = Sequential | Parallel

  /** A parsed task: `{ id, content, status, group, mode, files, output }`. */
  datatype TaskItem = TaskItem(
    id: string,
    content: string,
    status: TaskStatus,
    group: Option<string>,
    mode: Mode,
    files: seq<string>,
    output: Option<string>)

  /** `x`/`X` is completed, `~`/`>` is in progress, a space is pending. */
  function StatusOfMark(c: char): (s: TaskStatus)
    requires IsSyncMark(c)
    ensures s == Completed <==> (c == 'x' || c == 'X')
    ensures s == InProgress <==> (c == '~' || c == '>')
    ensures s == Pending <==> c == ' '
  {
    if c == 'x' || c == 'X' then Completed
    else if c == '~' || c == '>' then InProgress
    else Pending
  }

  /** `m[3]?.toLowerCase() || 'sequential'`. */
  function ModeOf(keyword: Option<string>): (m: Mode)
    ensures m == Parallel <==> keyword.Some? && Lower(keyword.value) == "parallel"
  {
    if keyword.Some? && Lower(keyword.value) == "parallel" then Parallel else Sequential
  }

  /** Each piece trimmed (`.map(f => f.trim())`). */
  function TrimAll(parts: seq<string>): (r: seq<string>)
    ensures |r| == |parts|
    ensures forall i :: 0 <= i < |parts| ==> r[i] == Trim(parts[i])
  {
    if parts == [] then [] else [Trim(parts[0])] + TrimAll(parts[1..])
  }

  /** The group and mode in force while the lines are read. */
  datatype Cursor = Cursor(group: Option<string>, mode: Mode)

  const Start := Cursor(None, Sequential)

  /** The task record a matched task line contributes under `c`. */
  function MakeTask(t: TaskLine, c: Cursor): (r: TaskItem)
    requires IsSyncMark(t.mark)
    ensures r.id == t.id && r.content == Trim(t.title) && r.status == StatusOfMark(t.mark)
    ensures r.group == c.group && r.mode == c.mode
    ensures t.files.None? ==> r.files == []
    ensures t.files.Some? ==> (|r.files| == |Split(t.files.value, ',')|
      && forall i :: 0 <= i < |r.files| ==> r.files[i] == Trim(Split(t.files.value, ',')[i]))
    ensures r.output.Some? <==> t.output.Some? && Trim(t.output.value) != ""
    ensures r.output.Some? ==> r.output.value == Trim(t.output.value)
  {
    var files := if t.files.Some? then TrimAll(Split(t.files.value, ',')) else [];
    var output := if t.output.Some? && Trim(t.output.value) != "" then Some(Trim(t.output.value)) else None;
    TaskItem(t.id, Trim(t.title), StatusOfMark(t.mark), c.group, c.mode, files, output)
  }

  /** The cursor after a group header. */
  function HeaderCursor(h: Header): Cursor {
    Cursor(Some(Trim(h.title)), ModeOf(h.keyword))
  }

  /** What one line does: a header moves the cursor, a task line yields a record. */
  function LineStep(line: string, c: Cursor): (Cursor, seq<TaskItem>) {
    match MatchHeader(line)
    case Some(h) => (HeaderCursor(h), [])
    case None =>
      match MatchTask(line)
      case Some(t) => (c, [MakeTask(t, c)])
      case None => (c, [])
  }

  /**
   * Reading lines in order with a `step` that moves a cursor and yields
   * records: the records of all the lines.
   */
  function Scan<C, T>(step: (string, C) -> (C, seq<T>), lines: seq<string>, c: C): seq<T>
    decreases |lines|
  {
    if lines == [] then [] else step(lines[0], c).1 + Scan(step, lines[1..], step(lines[0], c).0)
  }

  /** The cursor after reading the lines. */
  function ScanEnd<C, T>(step: (string, C) -> (C, seq<T>), lines: seq<string>, c: C): C
    decreases |lines|
  {
    if lines == [] then c else ScanEnd(step, lines[1..], step(lines[0], c).0)
  }

  /** Reading two blocks is reading the first, then the second from where the first left off. */
  lemma {:induction false} ScanAppend<C, T>(step: (string, C) -> (C, seq<T>), a: seq<string>, b: seq<string>, c: C)
    ensures Scan(step, a + b, c) == Scan(step, a, c) + Scan(step, b, ScanEnd(step, a, c))
    ensures ScanEnd(step, a + b, c) == ScanEnd(step, b, ScanEnd(step, a, c))
    decreases |a|
  {
    if a == [] {
      assert a + b == b;
    } else {
      assert (a + b)[0] == a[0] && (a + b)[1..] == a[1..] + b;
      ScanAppend(step, a[1..], b, step(a[0], c).0);
    }
  }

  /** Reading from line `i` on is reading line `i`, then the rest. */
  lemma ScanAt<C, T>(step: (string, C) -> (C, seq<T>), lines: seq<string>, i: nat, c: C)
    requires i < |lines|
    ensures Scan(step, lines[i..], c) == step(lines[i], c).1 + Scan(step, lines[i + 1..], step(lines[i], c).0)
    ensures ScanEnd(step, lines[i..], c) == ScanEnd(step, lines[i + 1..], step(lines[i], c).0)
  {
    assert lines[i..][0] == lines[i] && lines[i..][1..] == lines[i + 1..];
  }

  /** Reading one line is applying the step once. */
  lemma ScanOne<C, T>(step: (string, C) -> (C, seq<T>), x: string, c: C)
    ensures Scan(step, [x], c) == step(x, c).1 && ScanEnd(step, [x], c) == step(x, c).0
  {
    assert [x][1..] == [];
  }

  /** The records the lines yield, read in order from cursor `c`. */
  function ParseLines(lines: seq<string>, c: Cursor): seq<TaskItem> {
    Scan(LineStep, lines, c)
  }

  /** The cursor after reading the lines from `c`. */
  function CursorAfter(lines: seq<string>, c: Cursor): Cursor {
    ScanEnd(LineStep, lines, c)
  }

  /** `parseTasksMd` as a specification: the records of the lines of `content`. */
  function ParseTasks(content: string): seq<TaskItem> {
    ParseLines(Split(content, '\n'), Start)
  }

  /** The loop body of `parseTasksMd`: a header moves the cursor (`continue`), a task line is pushed. */
  method ReadLine(line: string, cur: Cursor) returns (next: Cursor, items: seq<TaskItem>)
    ensures (next, items) == LineStep(line, cur)
  {
    next, items := cur, [];
    var header := MatchHeader(line);
    if header.Some? {
      next := HeaderCursor(header.value);
      return;
    }
    var task := MatchTask(line);
    if task.Some? {
      items := [MakeTask(task.value, cur)];
    }
  }

  /** `parseTasksMd`: one pass over the lines. */
  method ParseTasksMd(content: string) returns (tasks: seq<TaskItem>)
    ensures tasks == ParseTasks(content)
  {
    var lines := Split(content, '\n');
    tasks := [];
    var cur := Start;
    var i := 0;
    while i < |lines|
      invariant 0 <= i <= |lines|
      invariant tasks + ParseLines(lines[i..], cur) == ParseLines(lines, Start)
    {
      var next, items := ReadLine(lines[i], cur);
      ParseStep(lines, i, cur, tasks, next, items);
      tasks, cur := tasks + items, next;
      i := i + 1;
    }
    assert lines[i..] == [];
  }

  /** One turn of the `parseTasksMd` loop keeps its invariant. */
  lemma ParseStep(lines: seq<string>, i: nat, cur: Cursor, tasks: seq<TaskItem>, next: Cursor, items: seq<TaskItem>)
    requires i < |lines|
    requires tasks + ParseLines(lines[i..], cur) == ParseLines(lines, Start)
    requires (next, items) == LineStep(lines[i], cur)
    ensures (tasks + items) + ParseLines(lines[i + 1..], next) == ParseLines(lines, Start)
  {
    ScanAt(LineStep, lines, i, cur);
  }

  /** Reading two blocks of lines is reading the first, then the second from where the first left off. */
  lemma ParseAppend(a: seq<string>, b: seq<string>, c: Cursor)
    ensures ParseLines(a + b, c) == ParseLines(a, c) + ParseLines(b, CursorAfter(a, c))
    ensures CursorAfter(a + b, c) == CursorAfter(b, CursorAfter(a, c))
  {
    ScanAppend(LineStep, a, b, c);
  }

  /** No line of `lines` is a group header. */
  predicate NoHeaders(lines: seq<string>) {
    forall i :: 0 <= i < |lines| ==> MatchHeader(lines[i]).None?
  }

  /** Without a header in between, every record keeps the group and mode in force. */
  lemma {:induction false} KeepsCursor(lines: seq<string>, c: Cursor)
    requires NoHeaders(lines)
    ensures forall t :: t in ParseLines(lines, c) ==> t.group == c.group && t.mode == c.mode
    ensures CursorAfter(lines, c) == c
    decreases |lines|
  {
    if lines != [] {
      assert NoHeaders(lines[1..]) by {
        forall i | 0 <= i < |lines[1..]| ensures MatchHeader(lines[1..][i]).None? {
          assert lines[1..][i] == lines[i + 1];
        }
      }
      KeepsCursor(lines[1..], c);
    }
  }

  /** A header line yields no record and moves the cursor to the header's group. */
  lemma HeaderLine(h: string, c: Cursor)
    requires MatchHeader(h).Some?
    ensures ParseLines([h], c) == []
    ensures CursorAfter([h], c) == HeaderCursor(MatchHeader(h).value)
  {
    ScanOne(LineStep, h, c);
    assert LineStep(h, c) == (HeaderCursor(MatchHeader(h).value), []);
  }

  /**
   * Every task belongs to the nearest group header above it: the records of
   * the lines after header `h` (up to the next header) carry `h`'s trimmed
   * title and mode, whatever came before.
   */
  lemma NearestHeader(before: seq<string>, h: string, after: seq<string>)
    requires MatchHeader(h).Some?
    requires NoHeaders(after)
    ensures var hc := HeaderCursor(MatchHeader(h).value);
      ParseLines(before + [h] + after, Start) == ParseLines(before, Start) + ParseLines(after, hc)
      && forall t :: t in ParseLines(after, hc) ==>
        t.group == Some(Trim(MatchHeader(h).value.title)) && t.mode == ModeOf(MatchHeader(h).value.keyword)
  {
    var hc := HeaderCursor(MatchHeader(h).value);
    var c := CursorAfter(before, Start);
    var upTo := before + [h];
    ParseAppend(before, [h], Start);
    HeaderLine(h, c);
    assert ParseLines(upTo, Start) == ParseLines(before, Start);
    assert CursorAfter(upTo, Start) == hc;
    ParseAppend(upTo, after, Start);
    KeepsCursor(after, hc);
  }

  /** A line that starts like a task item but carries another mark (`[?]`) yields no record. */
  lemma OtherMarkIgnored(line: string, c: Cursor)
    requires IdStart(line, 0).Some? && !IsSyncMark(line[MarkIndex(line, 0)])
    ensures ParseLines([line], c) == []
  {
    ScanOne(LineStep, line, c);
    assert line[0] == '-';
    assert !StartsWith(line, "##") by {
      assert line[..2][0] != "##"[0];
    }
    assert MatchTask(line).None?;
  }

  /** How many records have status `s` (`tasks.filter(t => t.status === s).length`). */
  function CountStatus(tasks: seq<TaskItem>, s: TaskStatus): (n: nat)
    ensures n <= |tasks|
  {
    if tasks == [] then 0
    else (if tasks[0].status == s then 1 else 0) + CountStatus(tasks[1..], s)
  }

  /** The three statuses partition the records. */
  lemma {:induction false} StatusesPartition(tasks: seq<TaskItem>)
    ensures CountStatus(tasks, Pending) + CountStatus(tasks, InProgress) + CountStatus(tasks, Completed) == |tasks|
  {
    if tasks != [] {
      StatusesPartition(tasks[1..]);
    }
  }

  // ---------------------------------------------------------------------
  // The checklist of the integration test

  /** The text of a group header line `## <num>. <title> (<keyword>)`. */
  function HeaderText(num: string, title: string, kw: string): string {
    "## " + num + ". " + title + " (" + kw + ")"
  }

  /** The text of a task line `- [<mark>] <major>.<minor> <title>`. */
  function TaskText(m: char, major: string, minor: string, title: string): string {
    "- [" + [m] + "] " + major + "." + minor + " " + title
  }

  /** Group 1 of the checklist `tests/workflow/integration-test.js` parses. */
  const SetupLines: seq<string> := [
    HeaderText("1", "Setup", "sequential"),
    TaskText(' ', "1", "1", "Initialize project"),
    TaskText('~', "1", "2", "Configure ESLint"),
    TaskText('x', "1", "3", "Setup database")]

  /** The blank line, group 2, and the empty piece after the final newline. */
  const FeatureLines: seq<string> := [
    "",
    HeaderText("2", "Features", "parallel"),
    TaskText(' ', "2", "1", "User Dashboard"),
    TaskText('x', "2", "2", "Settings Page"),
    ""]

  /** The title line and the blank line after it. */
  const LeadLines: seq<string> := ["# 工作流任務", ""]

  /** All eleven lines: the title, a blank line, then the two groups. */
  const SampleLines: seq<string> := LeadLines + SetupLines + FeatureLines

  /** The checklist text: its lines joined by newlines, so a newline ends the last task line. */
  const SampleTasksMd: string := Join(SampleLines, "\n")

  const SetupTasks: seq<TaskItem> := [
    TaskItem("1.1", "Initialize project", Pending, Some("Setup"), Sequential, [], None),
    TaskItem("1.2", "Configure ESLint", InProgress, Some("Setup"), Sequential, [], None),
    TaskItem("1.3", "Setup database", Completed, Some("Setup"), Sequential, [], None)]

  const FeatureTasks: seq<TaskItem> := [
    TaskItem("2.1", "User Dashboard", Pending, Some("Features"), Parallel, [], None),
    TaskItem("2.2", "Settings Page", Completed, Some("Features"), Parallel, [], None)]

  /** The records the test expects. */
  const SampleTasks: seq<TaskItem> := SetupTasks + FeatureTasks

  /** The checklist text splits into its eleven lines, the last one empty. */
  lemma SampleSplits()
    ensures Split(SampleTasksMd, '\n') == SampleLines
  {
    var l := SampleLines;
    assert forall k :: 0 <= k < |l| ==> '\n' !in l[k] by {
      assert l == LeadLines + SetupLines + FeatureLines;
      assert forall k :: 0 <= k < |LeadLines| ==> '\n' !in LeadLines[k];
      assert forall k :: 0 <= k < |SetupLines| ==> '\n' !in SetupLines[k];
      assert forall k :: 0 <= k < |FeatureLines| ==> '\n' !in FeatureLines[k];
    }
    SplitJoin(l, '\n');
  }

  /** The task ids of the checklist, as `<major>.<minor>`. */
  lemma SampleIds()
    ensures "1" + "." + "1" == "1.1" && "1" + "." + "2" == "1.2" && "1" + "." + "3" == "1.3"
    ensures "2" + "." + "1" == "2.1" && "2" + "." + "2" == "2.2"
  {
  }

  /** The keyword `parallel` is already in lower case. */
  lemma ParallelIsLower()
    ensures Lower("parallel") == "parallel"
  {
    var p := "parallel";
    assert forall i :: 0 <= i < |p| ==> 'a' <= p[i] <= 'z';
    LowerUnchanged(p);
  }

  /** A header line `## <num>. <title> (<keyword>)` opens group `title` in the keyword's mode. */
  lemma HeaderLineStep(num: string, title: string, kw: string, c: Cursor)
    requires AllDigits(num) && title != [] && AllDot(title)
    requires forall k :: 0 <= k < |title| ==> !IsSpace(title[k]) && title[k] != '('
    requires kw == "sequential" || kw == "parallel"
    ensures LineStep(HeaderText(num, title, kw), c)
      == (Cursor(Some(title), if kw == "parallel" then Parallel else Sequential), [])
  {
    SectionHeaderLine(num, title, kw);
    TrimPlain(title);
    if kw == "parallel" {
      ParallelIsLower();
    } else {
      assert |Lower(kw)| != |"parallel"|;
    }
  }

  /** A title the task pattern takes whole: no `|`, no line break, no space at either end. */
  predicate PlainTaskTitle(title: string) {
    title != [] && AllDot(title) && !IsSpace(title[0]) && !IsSpace(title[|title| - 1])
    && forall k :: 0 <= k < |title| ==> title[k] != '|'
  }

  /** The five task titles of the checklist are plain. */
  lemma SampleTitles()
    ensures PlainTaskTitle("Initialize project") && PlainTaskTitle("Configure ESLint")
    ensures PlainTaskTitle("Setup database") && PlainTaskTitle("User Dashboard")
    ensures PlainTaskTitle("Settings Page")
  {
  }

  /** A task line `- [<m>] <major>.<minor> <title>` yields one record under the cursor in force. */
  lemma TaskLineStep(m: char, major: string, minor: string, title: string, c: Cursor)
    requires IsSyncMark(m) && AllDigits(major) && AllDigits(minor) && PlainTaskTitle(title)
    ensures LineStep(TaskText(m, major, minor, title), c)
      == (c, [TaskItem(major + "." + minor, title, StatusOfMark(m), c.group, c.mode, [], None)])
  {
    var line := TaskText(m, major, minor, title);
    TaskItemLine(m, major, minor, title);
    TrimPlain(title);
    assert !StartsWith(line, "##") by {
      assert line[..2][1] != "##"[1];
    }
  }

  /** Reading a line in front of more lines: the line's step, then the rest from the cursor it leaves. */
  lemma ParseCons(x: string, rest: seq<string>, c: Cursor)
    ensures ParseLines([x] + rest, c) == LineStep(x, c).1 + ParseLines(rest, LineStep(x, c).0)
    ensures CursorAfter([x] + rest, c) == CursorAfter(rest, LineStep(x, c).0)
  {
    assert ([x] + rest)[0] == x && ([x] + rest)[1..] == rest;
  }

  /** The title line and the blank line before the first group yield nothing. */
  lemma SampleLead(c: Cursor)
    ensures ParseLines(LeadLines, c) == [] && CursorAfter(LeadLines, c) == c
  {
    var title, blank := LeadLines[0], LeadLines[1];
    assert LeadLines == [title] + ([blank] + []);
    assert LineStep(title, c) == (c, []) by {
      assert !StartsWith(title, "##") by {
        assert title[..2][1] != "##"[1];
      }
    }
    assert LineStep(blank, c) == (c, []);
    ParseCons(blank, [], c);
    ParseCons(title, [blank] + [], c);
  }

  /** Group 1 opens the sequential group `Setup` and yields its three tasks. */
  lemma SampleSetup(c: Cursor)
    ensures ParseLines(SetupLines, c) == SetupTasks
    ensures CursorAfter(SetupLines, c) == Cursor(Some("Setup"), Sequential)
  {
    var h, a, b, d := SetupLines[0], SetupLines[1], SetupLines[2], SetupLines[3];
    var t := SetupTasks;
    var setup := Cursor(Some("Setup"), Sequential);
    assert SetupLines == [h] + ([a] + ([b] + ([d] + [])));
    assert t == [t[0]] + ([t[1]] + ([t[2]] + []));
    SampleTitles();
    SampleIds();
    HeaderLineStep("1", "Setup", "sequential", c);
    TaskLineStep(' ', "1", "1", "Initialize project", setup);
    TaskLineStep('~', "1", "2", "Configure ESLint", setup);
    TaskLineStep('x', "1", "3", "Setup database", setup);
    ParseCons(d, [], setup);
    ParseCons(b, [d] + [], setup);
    ParseCons(a, [b] + ([d] + []), setup);
    ParseCons(h, [a] + ([b] + ([d] + [])), c);
  }

  /** Group 2 opens the parallel group `Features` and yields its two tasks. */
  lemma SampleFeatures(c: Cursor)
    ensures ParseLines(FeatureLines, c) == FeatureTasks
    ensures CursorAfter(FeatureLines, c) == Cursor(Some("Features"), Parallel)
  {
    var blank, h, a, b, last := FeatureLines[0], FeatureLines[1], FeatureLines[2], FeatureLines[3], FeatureLines[4];
    var t := FeatureTasks;
    var features := Cursor(Some("Features"), Parallel);
    assert FeatureLines == [blank] + ([h] + ([a] + ([b] + ([last] + []))));
    assert t == [t[0]] + ([t[1]] + []);
    SampleTitles();
    SampleIds();
    assert LineStep(blank, c) == (c, []);
    HeaderLineStep("2", "Features", "parallel", c);
    TaskLineStep(' ', "2", "1", "User Dashboard", features);
    TaskLineStep('x', "2", "2", "Settings Page", features);
    assert LineStep(last, features) == (features, []);
    ParseCons(last, [], features);
    ParseCons(b, [last] + [], features);
    ParseCons(a, [b] + ([last] + []), features);
    ParseCons(h, [a] + ([b] + ([last] + [])), c);
    ParseCons(blank, [h] + ([a] + ([b] + ([last] + []))), c);
  }

  /**
   * The integration test's checklist reads into five records: 1.1 pending,
   * 1.2 in progress and 1.3 completed under the sequential group `Setup`,
   * 2.1 pending and 2.2 completed under the parallel group `Features`; two
   * of the five are completed.
   */
  lemma SampleParse()
    ensures ParseTasks(SampleTasksMd) == SampleTasks
    ensures |ParseTasks(SampleTasksMd)| == 5
    ensures CountStatus(ParseTasks(SampleTasksMd), Completed) == 2
    ensures CountStatus(ParseTasks(SampleTasksMd), InProgress) == 1
    ensures CountStatus(ParseTasks(SampleTasksMd), Pending) == 2
  {
    SampleSplits();
    SampleLead(Start);
    SampleSetup(Start);
    SampleFeatures(Cursor(Some("Setup"), Sequential));
    ParseAppend(LeadLines, SetupLines, Start);
    ParseAppend(LeadLines + SetupLines, FeatureLines, Start);
    SampleCounts();
  }

  /** How many of the expected records have each status. */
  lemma SampleCounts()
    ensures CountStatus(SampleTasks, Completed) == 2
    ensures CountStatus(SampleTasks, InProgress) == 1
    ensures CountStatus(SampleTasks, Pending) == 2
  {
    var t := SampleTasks;
    assert t[0].status == Pending && t[1].status == InProgress && t[2].status == Completed;
    assert t[3].status == Pending && t[4].status == Completed;
    forall s: TaskStatus
      ensures CountStatus(t, s) == (if t[0].status == s then 1 else 0) + (if t[1].status == s then 1 else 0)
        + (if t[2].status == s then 1 else 0) + (if t[3].status == s then 1 else 0) + (if t[4].status == s then 1 else 0)
    {
      assert t[4..][1..] == [];
      assert t[3..][1..] == t[4..];
      assert t[2..][1..] == t[3..];
      assert t[1..][1..] == t[2..];
      assert CountStatus(t[4..], s) == (if t[4].status == s then 1 else 0);
      assert CountStatus(t[3..], s) == (if t[3].status == s then 1 else 0) + CountStatus(t[4..], s);
      assert CountStatus(t[2..], s) == (if t[2].status == s then 1 else 0) + CountStatus(t[3..], s);
      assert CountStatus(t[1..], s) == (if t[1].status == s then 1 else 0) + CountStatus(t[2..], s);
    }
  }


  // ---------------------------------------------------------------------
  // TodoWrite

  datatype TodoItem = TodoItem(content: string, status: TaskStatus, activeForm: string)

  /** The TodoWrite item for one task. */
  function TodoOf(t: TaskItem): TodoItem {
    TodoItem(
      "Task " + t.id + ": " + t.content,
      t.status,
      if t.status == InProgress then "處理 Task " + t.id
      else if t.status == Completed then "Task " + t.id + " 已完成"
      else "待處理 Task " + t.id)
  }

  /** `convertToTodoWrite`: one item per task, in order, with the task's status. */
  function ConvertToTodoWrite(tasks: seq<TaskItem>): (items: seq<TodoItem>)
    ensures |items| == |tasks|
    ensures forall i :: 0 <= i < |tasks| ==> items[i] == TodoOf(tasks[i])
  {
    if tasks == [] then [] else [TodoOf(tasks[0])] + ConvertToTodoWrite(tasks[1..])
  }

  /** An item names its task and keeps its status, and its active form says what stage it is at. */
  lemma TodoNamesTask(t: TaskItem)
    ensures StartsWith(TodoOf(t).content, "Task " + t.id + ": ")
    ensures TodoOf(t).status == t.status
    ensures t.status == Completed ==> EndsWith(TodoOf(t).activeForm, " 已完成")
    ensures t.status == InProgress ==> StartsWith(TodoOf(t).activeForm, "處理 Task ")
    ensures t.status == Pending ==> StartsWith(TodoOf(t).activeForm, "待處理 Task ")
  {
  }

  // ---------------------------------------------------------------------
  // Checkbox rewrites

  /** The characters that make a regular expression more than a literal (`.` is treated apart). */
  predicate IsRegexSpecial(c: char) {
    c == '\\' || c == '^' || c == '$' || c == '*' || c == '+' || c == '?' || c == '(' || c == ')'
    || c == '[' || c == ']' || c == '{' || c == '}' || c == '|'
  }

  /**
   * An id that, pasted into the pattern after its first `.` is escaped,
   * reads as characters to match: no spaces and no pattern syntax.
   */
  predicate PlainId(id: string) {
    |id| > 0 && forall j :: 0 <= j < |id| ==> !IsSpace(id[j]) && !IsRegexSpecial(id[j])
  }

  /**
   * How `id[j]` matches in the pattern: the first `.` is escaped and
   * literal, a later `.` matches any character but a line terminator.
   */
  predicate IdCharMatches(id: string, j: nat, c: char)
    requires j < |id|
  {
    if id[j] == '.' && '.' in id[..j] then IsDotChar(c) else c == id[j]
  }

  /** The text `w` matches the pasted id character by character. */
  predicate IdMatches(w: string, id: string)
    requires |w| == |id|
  {
    forall j :: 0 <= j < |id| ==> IdCharMatches(id, j, w[j])
  }

  /** `ID\s+` at `k`. */
  predicate IdAt(s: string, k: nat, id: string) {
    k + |id| < |s| && IdMatches(s[k..k + |id|], id) && IsSpace(s[k + |id|])
  }

  /** `^` under the `m` flag: the start of the text or just after a line terminator. */
  predicate LineStart(s: string, p: nat)
    requires p <= |s|
  {
    p == 0 || IsLineTerminator(s[p - 1])
  }

  /** The rewrite pattern matches at `p`: `-\s+\[m\]\s+ID\s+` at a line start, with a mark it accepts. */
  predicate MarkLineMatches(s: string, p: nat, id: string, anyMark: bool) {
    p < |s| && LineStart(s, p)
    && IdStart(s, p).Some? && IdAt(s, IdStart(s, p).value, id)
    && (var m := s[MarkIndex(s, p)]; if anyMark then IsSyncMark(m) else m == ' ')
  }

  /** The first position from `from` on where the rewrite pattern matches. */
  function FirstMarkLine(s: string, id: string, anyMark: bool, from: nat): (p: Option<nat>)
    requires from <= |s|
    ensures p.Some? ==> from <= p.value < |s| && MarkLineMatches(s, p.value, id, anyMark)
    ensures p.Some? ==> forall q :: from <= q < p.value ==> !MarkLineMatches(s, q, id, anyMark)
    ensures p.None? ==> forall q :: from <= q <= |s| ==> !MarkLineMatches(s, q, id, anyMark)
    decreases |s| - from
  {
    if from == |s| then None
    else if MarkLineMatches(s, from, id, anyMark) then Some(from)
    else FirstMarkLine(s, id, anyMark, from + 1)
  }

  /**
   * `content.replace(pattern, '$1' + mark + '$2')`: the mark of the first
   * matching line becomes `newMark`; nothing else changes.
   */
  function SetMark(s: string, id: string, anyMark: bool, newMark: char): (r: string)
    ensures |r| == |s|
    ensures FirstMarkLine(s, id, anyMark, 0).None? ==> r == s
    ensures FirstMarkLine(s, id, anyMark, 0).Some? ==>
      var m := MarkIndex(s, FirstMarkLine(s, id, anyMark, 0).value);
      m < |s| && r[m] == newMark && forall j :: 0 <= j < |s| && j != m ==> r[j] == s[j]
  {
    match FirstMarkLine(s, id, anyMark, 0)
    case None => s
    case Some(p) => Overwrite(s, MarkIndex(s, p), newMark)
  }

  /** The contents after a rewrite, and whether they changed (`newContent !== content`). */
  datatype Rewrite = Rewrite(content: string, changed: bool)

  /**
   * `updateTasksMdCheckbox(file, id, true)` on the contents: the first line
   * `- [m] id ...` with `m` one of ` xX~>` gets `x`. It reports a change
   * exactly when there is such a line and its mark was not already `x`.
   */
  function MarkCompleted(s: string, id: string): (r: Rewrite)
    ensures r.changed <==> r.content != s
    ensures r.changed <==> FirstMarkLine(s, id, true, 0).Some? && s[MarkIndex(s, FirstMarkLine(s, id, true, 0).value)] != 'x'
  {
    var t := SetMark(s, id, true, 'x');
    var p := FirstMarkLine(s, id, true, 0);
    assert p.Some? ==> (t != s <==> s[MarkIndex(s, p.value)] != 'x') by {
      if p.Some? {
        var m := MarkIndex(s, p.value);
        if s[m] == 'x' {
          assert forall j :: 0 <= j < |s| ==> t[j] == s[j];
        } else {
          assert t[m] != s[m];
        }
      }
    }
    Rewrite(t, t != s)
  }

  /**
   * `updateTasksMdToInProgress(file, id)` on the contents: the first line
   * `- [ ] id ...` gets `~`. Only a space mark is ever rewritten, so a task
   * already marked `x`, `~` or `>` keeps its mark.
   */
  function MarkInProgress(s: string, id: string): (r: Rewrite)
    ensures |r.content| == |s|
    ensures r.changed <==> r.content != s
    ensures r.changed <==> FirstMarkLine(s, id, false, 0).Some?
    ensures r.changed ==> var m := MarkIndex(s, FirstMarkLine(s, id, false, 0).value);
      && s[m] == ' ' && r.content[m] == '~'
      && forall j :: 0 <= j < |s| && j != m ==> r.content[j] == s[j]
  {
    var t := SetMark(s, id, false, '~');
    var p := FirstMarkLine(s, id, false, 0);
    assert p.Some? ==> t != s by {
      if p.Some? {
        assert t[MarkIndex(s, p.value)] != s[MarkIndex(s, p.value)];
      }
    }
    Rewrite(t, t != s)
  }

  /** Task ids are digits with at most one `.`. */
  lemma TaskIdChars(id: string)
    requires IsTaskId(id)
    ensures forall j :: 0 <= j < |id| ==> IsDigit(id[j]) || id[j] == '.'
    ensures forall j :: 0 <= j < |id| && id[j] == '.' ==> '.' !in id[..j]
    ensures PlainId(id)
  {
    if !AllDigits(id) {
      var d :| 0 < d < |id| && id[d] == '.' && AllDigits(id[..d]) && AllDigits(id[d + 1..]);
      forall j | 0 <= j < |id| ensures IsDigit(id[j]) || j == d {
        if j < d {
          assert id[..d][j] == id[j];
        } else if j > d {
          assert id[d + 1..][j - d - 1] == id[j];
        }
      }
      forall j | 0 <= j < |id| && id[j] == '.' ensures '.' !in id[..j] {
        assert j == d;
        assert id[..j] == id[..d];
      }
    }
  }

  /**
   * A line carries one task id: the pattern for id `1.1` never matches the
   * line of task `1.10` (the id must be followed by a space), and two
   * different ids never match the same line.
   */
  lemma OneIdPerLine(s: string, k: nat, id1: string, id2: string)
    requires IsTaskId(id1) && IsTaskId(id2)
    requires IdAt(s, k, id1) && IdAt(s, k, id2)
    ensures id1 == id2
  {
    TaskIdChars(id1);
    TaskIdChars(id2);
    forall j | 0 <= j < |id1| && j < |id2| ensures id1[j] == id2[j] {
      assert s[k..k + |id1|][j] == s[k + j] == s[k..k + |id2|][j];
      assert IdCharMatches(id1, j, s[k + j]) && IdCharMatches(id2, j, s[k + j]);
    }
    if |id1| < |id2| {
      LongerIdNotSpace(s, k, id1, id2);
    } else if |id2| < |id1| {
      LongerIdNotSpace(s, k, id2, id1);
    }
  }

  /** Where the shorter id ends, the longer one still has a digit or a `.`, never a space. */
  lemma LongerIdNotSpace(s: string, k: nat, short: string, long: string)
    requires IsTaskId(long) && |short| < |long| && k + |long| < |s|
    requires IdMatches(s[k..k + |long|], long)
    ensures !IsSpace(s[k + |short|])
  {
    TaskIdChars(long);
    var j := |short|;
    assert s[k..k + |long|][j] == s[k + j];
    assert IdCharMatches(long, j, s[k + j]);
    assert '.' !in long[..j] || long[j] != '.';
  }

  /** The id of a `Task 1.2` mention in a prompt (`/Task\s+(\d+(?:\.\d+)?)/i`), leftmost first. */
  function PromptTaskIdFrom(s: string, p: nat): (id: Option<string>)
    requires p <= |s|
    ensures id.Some? ==> IsTaskId(id.value)
    decreases |s| - p
  {
    if WordAt(s, p, "task") && SpaceRun(s, p + 4) > 0 && p + 4 + SpaceRun(s, p + 4) < |s|
      && IsDigit(s[p + 4 + SpaceRun(s, p + 4)])
    then
      var q := p + 4 + SpaceRun(s, p + 4);
      IdShape(s, q);
      Some(s[q..IdEnd(s, q)])
    else if p == |s| then None
    else PromptTaskIdFrom(s, p + 1)
  }

  function PromptTaskId(prompt: string): (id: Option<string>)
    ensures id.Some? ==> IsTaskId(id.value)
  {
    PromptTaskIdFrom(prompt, 0)
  }

  // ---------------------------------------------------------------------
  // The hook

  /** What one run has done so far: the in-memory state, the state file, the tasks files, the printed TodoWrite items, and whether it has stopped. */
  datatype SyncRun = SyncRun(
    doc: StateDoc,
    stored: Option<StateDoc>,
    files: map<string, string>,
    todo: Option<seq<TodoItem>>,
    halted: bool)

  /** `saveState(state)` after changing the state to `d`. */
  function Saved(r: SyncRun, d: StateDoc): SyncRun {
    r.(doc := d, stored := Some(d))
  }

  /** `state.task?.testFailed`. */
  predicate TestFailed(d: StateDoc) {
    d.task.Some? && d.task.value.testFailed
  }

  /** `state.taskSync?.tasksFile`, "" when absent. */
  function TasksFileOf(d: StateDoc): string {
    if d.taskSync.Some? then d.taskSync.value.tasksFile else ""
  }

  /** `state.taskSync ||= {}`, then `lastSyncAt := now`. */
  function Synced(d: StateDoc, now: string): StateDoc {
    d.(taskSync := Some(d.taskSync.GetOr(EmptyTaskSync).(lastSyncAt := now)))
  }

  /** The architect branch reads a file: `subagent_type` is exactly `architect` and the resolved tasks file exists. */
  predicate ArchitectReads(agent: string, tasksPath: string, files: map<string, string>) {
    agent == "architect" && tasksPath != "" && tasksPath in files
  }

  /** The `taskSync` record the architect branch writes for the records read from `path`. */
  function SyncCounts(tasks: seq<TaskItem>, path: string, now: string): TaskSyncInfo {
    TaskSyncInfo(now, path, Some(|tasks|), Some(CountStatus(tasks, Completed)), Some(CountStatus(tasks, InProgress)))
  }

  /** The architect finished: the tasks file is read, its counts saved and its TodoWrite items printed. */
  function ArchitectStep(r: SyncRun, agent: string, tasksPath: string, now: string): SyncRun {
    if r.halted || !ArchitectReads(agent, tasksPath, r.files) then r
    else
      var tasks := ParseTasks(r.files[tasksPath]);
      Saved(r, r.doc.(taskSync := Some(SyncCounts(tasks, tasksPath, now)))).(todo := Some(ConvertToTodoWrite(tasks)))
  }

  /** A debugger finished: a recorded test failure is cleared and the task marked debugged. */
  function DebuggerStep(r: SyncRun, agent: string, now: string): SyncRun {
    if r.halted || !Contains(agent, "debugger") || !TestFailed(r.doc) then r
    else
      var t := r.doc.task.value.(testFailed := false, failedAt := "", debugged := true, debuggedAt := now);
      Saved(r, Synced(r.doc.(task := Some(t)), now))
  }

  /**
   * The developer branch marks a task: no test failure is pending, the
   * prompt names a task, `taskSync` names a tasks file that exists, and
   * that file has the task's line with a space mark.
   */
  predicate CanStart(r: SyncRun, agent: string, prompt: string) {
    !r.halted && Contains(agent, "developer") && !TestFailed(r.doc)
    && PromptTaskId(prompt).Some? && TasksFileOf(r.doc) != "" && TasksFileOf(r.doc) in r.files
    && MarkInProgress(r.files[TasksFileOf(r.doc)], PromptTaskId(prompt).value).changed
  }

  /** A developer started: blocked by a pending test failure, otherwise the prompt's task goes in progress. */
  function DeveloperStep(r: SyncRun, agent: string, prompt: string, now: string): SyncRun {
    if r.halted || !Contains(agent, "developer") then r
    else if TestFailed(r.doc) then r.(halted := true)
    else if !CanStart(r, agent, prompt) then r
    else
      var path := TasksFileOf(r.doc);
      var id := PromptTaskId(prompt).value;
      var sync := r.doc.taskSync.value;
      var sync' := sync.(inProgress := Some(sync.inProgress.GetOr(0) + 1), lastSyncAt := now);
      Saved(r.(files := r.files[path := MarkInProgress(r.files[path], id).content]),
            r.doc.(task := Some(TaskFor(id)), taskSync := Some(sync')))
  }

  /** The reviewer's verdict: an explicit approval, or no request for changes and no rejection. */
  predicate ReviewApproved(output: string) {
    var o := Lower(output);
    Contains(o, "approved") || Contains(o, "通過") || Contains(o, "lgtm") || Contains(o, "✅")
    || (!Contains(o, "request changes") && !Contains(o, "reject"))
  }

  /** The reviewer branch records an approval: there is a current task. */
  predicate ReviewerApplies(r: SyncRun, agent: string, output: string) {
    !r.halted && Contains(agent, "reviewer") && ReviewApproved(output)
    && r.doc.task.Some? && r.doc.task.value.current != ""
  }

  /**
   * A reviewer finished. Without `taskSync` the source dereferences an
   * undefined object after setting `reviewed`: the run stops and the
   * change is never saved.
   */
  function ReviewerStep(r: SyncRun, agent: string, output: string, now: string): SyncRun {
    if !ReviewerApplies(r, agent, output) then r
    else
      var d := r.doc.(task := Some(r.doc.task.value.(reviewed := true, reviewedAt := now)));
      if r.doc.taskSync.None? then r.(doc := d, halted := true)
      else Saved(r, Synced(d, now))
  }

  predicate TestPassed(output: string) {
    var o := Lower(output);
    Contains(o, "pass") || Contains(o, "通過") || Contains(o, "✅")
  }

  predicate TestFailedIn(output: string) {
    var o := Lower(output);
    Contains(o, "fail") || Contains(o, "失敗") || Contains(o, "❌")
  }

  /** `taskMatch?.[1] || state.task?.current`, "" for none. */
  function TesterTaskId(d: StateDoc, prompt: string): (id: string)
    ensures PromptTaskId(prompt).Some? ==> id == PromptTaskId(prompt).value
    ensures PromptTaskId(prompt).None? ==> id == (if d.task.Some? then d.task.value.current else "")
  {
    match PromptTaskId(prompt)
    case Some(id) => id
    case None => if d.task.Some? then d.task.value.current else ""
  }

  /**
   * `updateTasksMdCheckbox` on the file at `path`: a missing file, and an
   * id that would not read as plain characters in the pattern, report no
   * change.
   */
  function CompleteInFile(files: map<string, string>, path: string, id: string): (r: Rewrite)
    ensures r.changed ==> path in files && PlainId(id) && r == MarkCompleted(files[path], id)
  {
    if path !in files || !PlainId(id) then Rewrite("", false)
    else MarkCompleted(files[path], id)
  }

  /** The counters after a tester pass has been written to the tasks file. */
  function AfterPass(sync: TaskSyncInfo, now: string): (s: TaskSyncInfo)
    ensures s.completed == Some(sync.completed.GetOr(0) + 1)
    ensures s.inProgress.Some? && s.inProgress.value >= 0
    ensures sync.inProgress.GetOr(0) > 0 ==> s.inProgress == Some(sync.inProgress.value - 1)
    ensures sync.inProgress.GetOr(0) <= 1 ==> s.inProgress == Some(0)
    ensures s.tasksFile == sync.tasksFile && s.totalTasks == sync.totalTasks && s.lastSyncAt == now
  {
    var before := if sync.inProgress.Some? && sync.inProgress.value != 0 then sync.inProgress.value else 1;
    sync.(completed := Some(sync.completed.GetOr(0) + 1),
          inProgress := Some(if before - 1 > 0 then before - 1 else 0),
          lastSyncAt := now)
  }

  /**
   * A tester finished. A failure is looked for first; a pass marks the
   * task completed in the tasks file only after a review.
   */
  function TesterStep(r: SyncRun, agent: string, prompt: string, output: string, now: string): SyncRun {
    if r.halted || !Contains(agent, "tester") then r
    else
      var id := TesterTaskId(r.doc, prompt);
      if TestFailedIn(output) && id != "" then
        var t := r.doc.task.GetOr(TaskFor(id)).(testFailed := true, failedAt := now);
        Saved(r, Synced(r.doc.(task := Some(t)), now)).(halted := true)
      else if TestPassed(output) && id != "" && TasksFileOf(r.doc) != "" then
        if !(r.doc.task.Some? && r.doc.task.value.reviewed) then r.(halted := true)
        else
          var path := TasksFileOf(r.doc);
          var rw := CompleteInFile(r.files, path, id);
          if !rw.changed then r
          else
            Saved(r.(files := r.files[path := rw.content]),
                  r.doc.(task := None, taskSync := Some(AfterPass(r.doc.taskSync.value, now))))
      else r
  }

  /** `loadState()`: a missing or unreadable file is `{}`. */
  function LoadState(stored: Option<StateDoc>): StateDoc {
    stored.GetOr(EmptyDoc)
  }

  /**
   * The whole hook: the branches run one after another (an agent name can
   * enter several), and the first one that stops ends the run.
   */
  function Sync(stored: Option<StateDoc>, files: map<string, string>, input: Option<HookInput>, now: string, tasksPath: string): SyncRun {
    var r0 := SyncRun(LoadState(stored), stored, files, None, false);
    if input.None? || input.value.tool != Task then r0
    else
      var h := input.value;
      var agent := Lower(h.toolInput.subagentType);
      var r1 := ArchitectStep(r0, agent, tasksPath, now);
      var r2 := DebuggerStep(r1, agent, now);
      var r3 := DeveloperStep(r2, agent, h.toolInput.prompt, now);
      var r4 := ReviewerStep(r3, agent, h.toolOutput, now);
      TesterStep(r4, agent, h.toolInput.prompt, h.toolOutput, now)
  }

  // ---------------------------------------------------------------------
  // What the branches keep

  /** A tool other than Task leaves every file alone and prints nothing. */
  lemma OnlyTaskCalls(stored: Option<StateDoc>, files: map<string, string>, input: Option<HookInput>, now: string, tasksPath: string)
    requires input.None? || input.value.tool != Task
    ensures var r := Sync(stored, files, input, now, tasksPath);
      r.stored == stored && r.files == files && r.todo.None?
  {
  }

  /**
   * The architect's counts describe the file it read: as many TodoWrite
   * items as records, and no more completed plus in-progress tasks than
   * there are tasks.
   */
  lemma ArchitectCounts(r: SyncRun, agent: string, tasksPath: string, now: string)
    requires !r.halted && ArchitectReads(agent, tasksPath, r.files)
    ensures var r' := ArchitectStep(r, agent, tasksPath, now);
      var tasks := ParseTasks(r.files[tasksPath]);
      r'.stored == Some(r'.doc) && r'.files == r.files
      && r'.doc.taskSync.Some? && r'.doc.taskSync.value.tasksFile == tasksPath
      && r'.doc.taskSync.value.totalTasks == Some(|tasks|)
      && r'.doc.taskSync.value.completed.value + r'.doc.taskSync.value.inProgress.value <= |tasks|
      && r'.todo.Some? && |r'.todo.value| == |tasks|
  {
    StatusesPartition(ParseTasks(r.files[tasksPath]));
  }

  /** A debugger clears a pending failure and keeps the task, its review and `current`. */
  lemma DebuggerClearsFailure(r: SyncRun, agent: string, now: string)
    requires !r.halted && Contains(agent, "debugger")
    ensures var r' := DebuggerStep(r, agent, now);
      (TestFailed(r.doc) ==>
        r'.doc.task.Some? && !r'.doc.task.value.testFailed && r'.doc.task.value.failedAt == ""
        && r'.doc.task.value.debugged && r'.doc.task.value.debuggedAt == now
        && r'.doc.task.value.current == r.doc.task.value.current
        && r'.doc.task.value.reviewed == r.doc.task.value.reviewed
        && r'.stored == Some(r'.doc) && r'.files == r.files)
      && (!TestFailed(r.doc) ==> r' == r)
  {
  }

  /** While a test failure is pending, a developer run stops without writing anything. */
  lemma DeveloperBlockedWhileFailing(r: SyncRun, agent: string, prompt: string, now: string)
    requires !r.halted && Contains(agent, "developer") && TestFailed(r.doc)
    ensures DeveloperStep(r, agent, prompt, now) == r.(halted := true)
  {
  }

  /**
   * A developer changes the tasks file only by turning the space mark of
   * the prompt's task into `~`; that task becomes current and the
   * in-progress count goes up by one.
   */
  lemma DeveloperMarksPendingTask(r: SyncRun, agent: string, prompt: string, now: string)
    ensures var r' := DeveloperStep(r, agent, prompt, now);
      r'.files != r.files ==>
        CanStart(r, agent, prompt)
        && var path := TasksFileOf(r.doc);
          var id := PromptTaskId(prompt).value;
          var m := MarkIndex(r.files[path], FirstMarkLine(r.files[path], id, false, 0).value);
          r'.files == r.files[path := r'.files[path]]
          && |r'.files[path]| == |r.files[path]|
          && r.files[path][m] == ' ' && r'.files[path][m] == '~'
          && (forall j :: 0 <= j < |r.files[path]| && j != m ==> r'.files[path][j] == r.files[path][j])
          && r'.doc.task == Some(TaskFor(id))
          && r'.doc.taskSync.Some?
          && r'.doc.taskSync.value.inProgress == Some(r.doc.taskSync.value.inProgress.GetOr(0) + 1)
          && r'.stored == Some(r'.doc)
  {
    var r' := DeveloperStep(r, agent, prompt, now);
    if r'.files != r.files {
      DeveloperStartEffect(r, agent, prompt, now);
    }
  }

  /** What an allowed start does to the tasks file and the state. */
  lemma DeveloperStartEffect(r: SyncRun, agent: string, prompt: string, now: string)
    requires CanStart(r, agent, prompt)
    ensures var r' := DeveloperStep(r, agent, prompt, now);
      var path := TasksFileOf(r.doc);
      var id := PromptTaskId(prompt).value;
      var m := MarkIndex(r.files[path], FirstMarkLine(r.files[path], id, false, 0).value);
      && r'.files == r.files[path := r'.files[path]]
      && |r'.files[path]| == |r.files[path]|
      && r.files[path][m] == ' ' && r'.files[path][m] == '~'
      && (forall j :: 0 <= j < |r.files[path]| && j != m ==> r'.files[path][j] == r.files[path][j])
      && r'.doc.task == Some(TaskFor(id))
      && r'.doc.taskSync.Some?
      && r'.doc.taskSync.value.inProgress == Some(r.doc.taskSync.value.inProgress.GetOr(0) + 1)
      && r'.stored == Some(r'.doc)
  {
    var path := TasksFileOf(r.doc);
    var id := PromptTaskId(prompt).value;
    var rw := MarkInProgress(r.files[path], id);
    assert DeveloperStep(r, agent, prompt, now).files == r.files[path := rw.content];
  }

  /**
   * A reviewer's approval of the current task is recorded and saved when
   * `taskSync` exists; without it the run stops and nothing is saved.
   */
  lemma ReviewerRecordsApproval(r: SyncRun, agent: string, output: string, now: string)
    requires ReviewerApplies(r, agent, output)
    ensures var r' := ReviewerStep(r, agent, output, now);
      (r.doc.taskSync.Some? ==>
        r'.doc.task == Some(r.doc.task.value.(reviewed := true, reviewedAt := now))
        && r'.stored == Some(r'.doc) && !r'.halted)
      && (r.doc.taskSync.None? ==> r'.halted && r'.stored == r.stored)
      && r'.files == r.files
  {
  }

  /**
   * A failure is looked for before a pass: an output that reports a
   * failure records `testFailed` and stops, whatever else it says, and
   * the tasks file is not touched.
   */
  lemma TesterFailureFirst(r: SyncRun, agent: string, prompt: string, output: string, now: string)
    requires !r.halted && Contains(agent, "tester") && TestFailedIn(output) && TesterTaskId(r.doc, prompt) != ""
    ensures var r' := TesterStep(r, agent, prompt, output, now);
      r'.halted && r'.files == r.files && r'.stored == Some(r'.doc)
      && r'.doc.task.Some? && r'.doc.task.value.testFailed && r'.doc.task.value.failedAt == now
      && r'.doc.task.value.current == (if r.doc.task.Some? then r.doc.task.value.current else TesterTaskId(r.doc, prompt))
  {
  }

  /** A pass on a task that has not been reviewed changes nothing. */
  lemma PassNeedsReview(r: SyncRun, agent: string, prompt: string, output: string, now: string)
    requires !TestFailedIn(output)
    requires r.doc.task.None? || !r.doc.task.value.reviewed
    ensures var r' := TesterStep(r, agent, prompt, output, now);
      r'.files == r.files && r'.stored == r.stored && r'.doc == r.doc
  {
  }

  /**
   * The tasks file changes under a tester only for a reviewed task: the
   * first line of the task gets `x`, the completed count goes up, the
   * in-progress count goes down without going below zero, and the task is
   * dropped from the state.
   */
  lemma PassCompletes(r: SyncRun, agent: string, prompt: string, output: string, now: string)
    ensures var r' := TesterStep(r, agent, prompt, output, now);
      r'.files != r.files ==>
        !TestFailedIn(output) && TestPassed(output)
        && r.doc.task.Some? && r.doc.task.value.reviewed
        && r.doc.taskSync.Some?
        && var path := r.doc.taskSync.value.tasksFile;
          var id := TesterTaskId(r.doc, prompt);
          path in r.files && r'.files == r.files[path := MarkCompleted(r.files[path], id).content]
          && r'.doc.task.None?
          && r'.doc.taskSync == Some(AfterPass(r.doc.taskSync.value, now))
          && r'.stored == Some(r'.doc)
  {
  }

  /**
   * Develop, review, test: a failed test blocks the next developer until a
   * debugger has run, and after the debugger the developer is no longer
   * blocked.
   */
  lemma FailureNeedsDebugger(r: SyncRun, prompt: string, output: string, now: string, later: string)
    requires !r.halted && TestFailedIn(output) && TesterTaskId(r.doc, prompt) != ""
    ensures var failed := TesterStep(r, "tester", prompt, output, now).(halted := false);
      DeveloperStep(failed, "developer", prompt, later).halted
      && !DeveloperStep(DebuggerStep(failed, "debugger", later), "developer", prompt, later).halted
  {
    assert Contains("tester", "tester") by { assert OccursAt("tester", "tester", 0); }
    assert Contains("developer", "developer") by { assert OccursAt("developer", "developer", 0); }
    assert Contains("debugger", "debugger") by { assert OccursAt("debugger", "debugger", 0); }
  }

  // ---------------------------------------------------------------------
  // The hook as the source runs it

  /** The variables of `main` hold what the run `r` describes. */
  predicate Mirrors(r: SyncRun, state: StateDoc, stored: Option<StateDoc>, files: map<string, string>, todo: Option<seq<TodoItem>>) {
    r.doc == state && r.stored == stored && r.files == files && r.todo == todo
  }

  /** The architect branch of `main`. */
  method Architect(file: StateFile, disk: TextFiles, state: StateDoc, agent: string, tasksPath: string, now: string, ghost r: SyncRun)
    returns (state': StateDoc, todo: Option<seq<TodoItem>>)
    requires !r.halted && Mirrors(r, state, file.stored, disk.contents, None)
    modifies file
    ensures var r' := ArchitectStep(r, agent, tasksPath, now);
      Mirrors(r', state', file.stored, disk.contents, todo) && !r'.halted
  {
    state', todo := state, None;
    if agent == "architect" && tasksPath != "" && tasksPath in disk.contents {
      var tasks := ParseTasksMd(disk.contents[tasksPath]);
      state' := state.(taskSync := Some(SyncCounts(tasks, tasksPath, now)));
      file.Save(state');
      todo := Some(ConvertToTodoWrite(tasks));
    }
  }

  /** The debugger branch of `main`. */
  method Debugger(file: StateFile, disk: TextFiles, state: StateDoc, agent: string, now: string, todo: Option<seq<TodoItem>>, ghost r: SyncRun)
    returns (state': StateDoc)
    requires !r.halted && Mirrors(r, state, file.stored, disk.contents, todo)
    modifies file
    ensures var r' := DebuggerStep(r, agent, now);
      Mirrors(r', state', file.stored, disk.contents, todo) && !r'.halted
  {
    state' := state;
    if Contains(agent, "debugger") && state.task.Some? && state.task.value.testFailed {
      var t := state.task.value.(testFailed := false, failedAt := "", debugged := true, debuggedAt := now);
      state' := state.(task := Some(t));
      state' := Synced(state', now);
      file.Save(state');
    }
  }

  /** The developer branch of `main`; `stop` is its early `return`. */
  method Developer(file: StateFile, disk: TextFiles, state: StateDoc, agent: string, prompt: string, now: string, todo: Option<seq<TodoItem>>, ghost r: SyncRun)
    returns (state': StateDoc, stop: bool)
    requires !r.halted && Mirrors(r, state, file.stored, disk.contents, todo)
    modifies file, disk
    ensures var r' := DeveloperStep(r, agent, prompt, now);
      Mirrors(r', state', file.stored, disk.contents, todo) && stop == r'.halted
  {
    state', stop := state, false;
    if Contains(agent, "developer") {
      if state.task.Some? && state.task.value.testFailed {
        stop := true;
        return;
      }
      var id := PromptTaskId(prompt);
      if id.Some? && state.taskSync.Some? && state.taskSync.value.tasksFile != "" {
        var path := state.taskSync.value.tasksFile;
        if path in disk.contents {
          var rw := MarkInProgress(disk.contents[path], id.value);
          if rw.changed {
            disk.Put(path, rw.content);
            var sync := state.taskSync.value;
            state' := state.(task := Some(TaskFor(id.value)));
            state' := state'.(taskSync := Some(sync.(inProgress := Some(sync.inProgress.GetOr(0) + 1), lastSyncAt := now)));
            file.Save(state');
          }
        }
      }
    }
  }

  /** The reviewer branch of `main`; `stop` is the exception it raises without `taskSync`. */
  method Reviewer(file: StateFile, disk: TextFiles, state: StateDoc, agent: string, output: string, now: string, todo: Option<seq<TodoItem>>, ghost r: SyncRun)
    returns (state': StateDoc, stop: bool)
    requires !r.halted && Mirrors(r, state, file.stored, disk.contents, todo)
    modifies file
    ensures var r' := ReviewerStep(r, agent, output, now);
      Mirrors(r', state', file.stored, disk.contents, todo) && stop == r'.halted
  {
    state', stop := state, false;
    if Contains(agent, "reviewer") && ReviewApproved(output) && state.task.Some? && state.task.value.current != "" {
      state' := state.(task := Some(state.task.value.(reviewed := true, reviewedAt := now)));
      if state.taskSync.None? {
        stop := true;
        return;
      }
      state' := Synced(state', now);
      file.Save(state');
    }
  }

  /** The tester branch of `main`. */
  method Tester(file: StateFile, disk: TextFiles, state: StateDoc, agent: string, prompt: string, output: string, now: string, todo: Option<seq<TodoItem>>, ghost r: SyncRun)
    returns (state': StateDoc)
    requires !r.halted && Mirrors(r, state, file.stored, disk.contents, todo)
    modifies file, disk
    ensures var r' := TesterStep(r, agent, prompt, output, now);
      Mirrors(r', state', file.stored, disk.contents, todo)
  {
    state' := state;
    if !Contains(agent, "tester") {
      return;
    }
    var id := TesterTaskId(state, prompt);
    if TestFailedIn(output) && id != "" {
      var t := state.task.GetOr(TaskFor(id)).(testFailed := true, failedAt := now);
      state' := Synced(state.(task := Some(t)), now);
      file.Save(state');
      return;
    }
    if TestPassed(output) && id != "" && state.taskSync.Some? && state.taskSync.value.tasksFile != "" {
      if !(state.task.Some? && state.task.value.reviewed) {
        return;
      }
      var path := state.taskSync.value.tasksFile;
      var rw := CompleteInFile(disk.contents, path, id);
      if rw.changed {
        disk.Put(path, rw.content);
        state' := state.(task := None, taskSync := Some(AfterPass(state.taskSync.value, now)));
        file.Save(state');
      }
    }
  }

  /** The hook's `main` over the state file and the tasks files. */
  method Run(file: StateFile, disk: TextFiles, input: Option<HookInput>, now: string, tasksPath: string)
    returns (todo: Option<seq<TodoItem>>)
    modifies file, disk
    ensures var r := Sync(old(file.stored), old(disk.contents), input, now, tasksPath);
      file.stored == r.stored && disk.contents == r.files && todo == r.todo
  {
    todo := None;
    if input.None? || input.value.tool != Task {
      return;
    }
    var h := input.value;
    var agent := Lower(h.toolInput.subagentType);
    var prompt := h.toolInput.prompt;
    var state := LoadState(file.stored);
    ghost var r := SyncRun(state, file.stored, disk.contents, None, false);
    ghost var r1, r2, r3, r4;
    var stop;
    state, todo := Architect(file, disk, state, agent, tasksPath, now, r);
    r1 := ArchitectStep(r, agent, tasksPath, now);
    state := Debugger(file, disk, state, agent, now, todo, r1);
    r2 := DebuggerStep(r1, agent, now);
    state, stop := Developer(file, disk, state, agent, prompt, now, todo, r2);
    r3 := DeveloperStep(r2, agent, prompt, now);
    if stop {
      assert ReviewerStep(r3, agent, h.toolOutput, now) == r3;
      return;
    }
    state, stop := Reviewer(file, disk, state, agent, h.toolOutput, now, todo, r3);
    r4 := ReviewerStep(r3, agent, h.toolOutput, now);
    if stop {
      return;
    }
    state := Tester(file, disk, state, agent, prompt, h.toolOutput, now, todo, r4);
  }
}
