/**
 * The workflow violation tracker: an append-only JSON-lines log of
 * workflow events (`workflow-events.jsonl`) that is folded, on every edit,
 * into counters of work not yet reviewed or tested; more than one edit
 * awaiting review appends a `missing_review` warning to a second log
 * (`workflow-violations.jsonl`).
 *
 * The JSON text of one log line is outside the model: `encode` stands for
 * `JSON.stringify` of an event and `decode` for `JSON.parse` of a line,
 * both passed in. The clock is the parameter `now` (milliseconds).
 */
module ViolationTracker {
  import opened Text
  import opened Workflow

  const WarningThresholdEdits := 1
  /** One hour: older events are stale. */
  const StaleTimeoutMs := 60 * 60 * 1000
  /** 1 MiB: a larger log is cut down. */
  const MaxLogSize := 1024 * 1024
  const MaxEventsToKeep := 500

  /**
   * The `type` of an event: `edit`, `developer_complete`,
   * `reviewer_complete`, `tester_complete`, or anything else.
   */
  datatype EventKind =
    | EditDone | DeveloperComplete | ReviewerComplete | TesterComplete
    | OtherKind(name: string)

  /**
   * A log event as the fold sees it: its type, `file` ("" when absent or
   * empty) and the numeric `timestamp` (`None` when missing or not a
   * number, which makes the staleness test fail).
   */
  datatype Event = Event(kind: EventKind, file: string, timestamp: Option<int>)

  /** The fold's four variables; `files` keeps repeats until the end. */
  datatype Counters = Counters(edits: nat, developers: nat, reviewers: nat, files: seq<string>)

  const Nothing := Counters(0, 0, 0, [])

  /** One turn of the `switch` in `computeCurrentState`. */
  function Apply(c: Counters, e: Event): Counters {
    match e.kind
    case EditDone =>
      c.(edits := c.edits + 1, files := if e.file != "" then c.files + [e.file] else c.files)
    case DeveloperComplete => c.(developers := c.developers + 1)
    case ReviewerComplete =>
      Counters(0, if c.developers > 0 then c.developers - 1 else 0, c.reviewers + 1, [])
    case TesterComplete =>
      Counters(0, c.developers, if c.reviewers > 0 then c.reviewers - 1 else 0, [])
    case OtherKind(_) => c
  }

  /** The counters after the events in order. */
  function Fold(events: seq<Event>): Counters
    decreases |events|
  {
    if events == [] then Nothing
    else Apply(Fold(events[..|events| - 1]), events[|events| - 1])
  }

  /** What `computeCurrentState` returns: the fold, with the file list de-duplicated. */
  function CurrentState(events: seq<Event>): Counters {
    var c := Fold(events);
    c.(files := Dedup(c.files))
  }

  /** `computeCurrentState`: one pass over the events. */
  method ComputeCurrentState(events: seq<Event>) returns (state: Counters)
    ensures state == CurrentState(events)
  {
    var pendingEdits: nat, pendingDevelopers: nat, pendingReviewers: nat := 0, 0, 0;
    var editFiles: seq<string> := [];
    var i := 0;
    while i < |events|
      invariant 0 <= i <= |events|
      invariant Counters(pendingEdits, pendingDevelopers, pendingReviewers, editFiles) == Fold(events[..i])
    {
      var event := events[i];
      assert events[..i + 1][..i] == events[..i];
      match event.kind {
        case EditDone =>
          pendingEdits := pendingEdits + 1;
          if event.file != "" {
            editFiles := editFiles + [event.file];
          }
        case DeveloperComplete =>
          pendingDevelopers := pendingDevelopers + 1;
        case ReviewerComplete =>
          if pendingDevelopers > 0 {
            pendingDevelopers := pendingDevelopers - 1;
          }
          pendingReviewers := pendingReviewers + 1;
          pendingEdits := 0;
          editFiles := [];
        case TesterComplete =>
          if pendingReviewers > 0 {
            pendingReviewers := pendingReviewers - 1;
          }
          pendingEdits := 0;
          editFiles := [];
        case OtherKind(_) =>
      }
      i := i + 1;
    }
    assert events[..i] == events;
    state := Counters(pendingEdits, pendingDevelopers, pendingReviewers, Dedup(editFiles));
  }

  /** How many of the events have the kind `k`. */
  function CountKind(events: seq<Event>, k: EventKind): (n: nat)
    ensures n <= |events|
    decreases |events|
  {
    if events == [] then 0
    else CountKind(events[..|events| - 1], k) + (if events[|events| - 1].kind == k then 1 else 0)
  }

  /** The non-empty files of the edit events, in order, repeats included. */
  function EditFiles(events: seq<Event>): seq<string>
    decreases |events|
  {
    if events == [] then []
    else
      var e := events[|events| - 1];
      EditFiles(events[..|events| - 1]) + (if e.kind == EditDone && e.file != "" then [e.file] else [])
  }

  /** A reviewer or tester completion: both clear the pending edits. */
  predicate Clears(e: Event) {
    e.kind == ReviewerComplete || e.kind == TesterComplete
  }

  /** The fold takes one more event by one more turn. */
  lemma FoldSnoc(events: seq<Event>, e: Event)
    ensures Fold(events + [e]) == Apply(Fold(events), e)
  {
    assert (events + [e])[..|events|] == events;
  }

  /** Each event kind changes the counters as the tracker's comments describe. */
  lemma EventEffects(events: seq<Event>, e: Event)
    ensures var before := Fold(events); var after := Fold(events + [e]);
      && (e.kind == EditDone ==>
            after == before.(edits := before.edits + 1,
                             files := before.files + (if e.file != "" then [e.file] else [])))
      && (e.kind == DeveloperComplete ==> after == before.(developers := before.developers + 1))
      && (e.kind == ReviewerComplete ==>
            && after.developers == (if before.developers > 0 then before.developers - 1 else 0)
            && after.reviewers == before.reviewers + 1
            && after.edits == 0 && after.files == [])
      && (e.kind == TesterComplete ==>
            && after.developers == before.developers
            && after.reviewers == (if before.reviewers > 0 then before.reviewers - 1 else 0)
            && after.edits == 0 && after.files == [])
      && (e.kind.OtherKind? ==> after == before)
  {
    FoldSnoc(events, e);
  }

  /**
   * The pending edits are exactly the edit events since the last reviewer
   * or tester event (or since the start, when there is none), and the file
   * list is their files in order.
   */
  lemma {:induction false} PendingSinceLastClear(events: seq<Event>, k: nat)
    requires k <= |events|
    requires k == 0 || Clears(events[k - 1])
    requires forall j :: k <= j < |events| ==> !Clears(events[j])
    ensures Fold(events).edits == CountKind(events[k..], EditDone)
    ensures Fold(events).files == EditFiles(events[k..])
    decreases |events|
  {
    if |events| == k {
      assert events[k..] == [];
    } else {
      var init, last := events[..|events| - 1], events[|events| - 1];
      PendingSinceLastClear(init, k);
      assert events == init + [last];
      EventEffects(init, last);
      SinceSnoc(events, k);
      assert !Clears(last);
    }
  }

  /** The events from `k` on end in the last event, after those of the shorter history. */
  lemma SinceSnoc(events: seq<Event>, k: nat)
    requires k < |events|
    ensures var init, last := events[..|events| - 1], events[|events| - 1];
      && CountKind(events[k..], EditDone) == CountKind(init[k..], EditDone) + (if last.kind == EditDone then 1 else 0)
      && EditFiles(events[k..]) == EditFiles(init[k..]) + (if last.kind == EditDone && last.file != "" then [last.file] else [])
  {
    var since := events[k..];
    assert since[..|since| - 1] == events[..|events| - 1][k..];
    assert since[|since| - 1] == events[|events| - 1];
  }

  /**
   * Floors only ever raise a counter: developers and reviewers still
   * pending lie between the unmatched completions and all completions.
   */
  lemma {:induction false} CounterBounds(events: seq<Event>)
    ensures var c := Fold(events);
      && c.developers <= CountKind(events, DeveloperComplete)
      && c.developers >= CountKind(events, DeveloperComplete) - CountKind(events, ReviewerComplete)
      && c.reviewers <= CountKind(events, ReviewerComplete)
      && c.reviewers >= CountKind(events, ReviewerComplete) - CountKind(events, TesterComplete)
    decreases |events|
  {
    if events != [] {
      CounterBounds(events[..|events| - 1]);
    }
  }

  /**
   * The returned file list grows by a new file at its end and ignores a
   * repeat: each file once, in first-occurrence order.
   */
  lemma EditFileOrder(events: seq<Event>, e: Event)
    requires e.kind == EditDone && e.file != ""
    ensures var files := Fold(events).files;
      CurrentState(events + [e]).files
        == if e.file in files then CurrentState(events).files else CurrentState(events).files + [e.file]
  {
    EventEffects(events, e);
    DedupSnoc(Fold(events).files, e.file);
  }

  /**
   * A full develop → review → test cycle after any history leaves no
   * pending edits and the developer and reviewer counters as they were.
   */
  lemma FullCycle(events: seq<Event>, edit: Event, d: Event, r: Event, t: Event)
    requires edit.kind == EditDone && d.kind == DeveloperComplete
    requires r.kind == ReviewerComplete && t.kind == TesterComplete
    ensures var c := Fold(events);
      Fold(events + [edit, d, r, t]) == Counters(0, c.developers, c.reviewers, [])
  {
    var e1 := events + [edit];
    var e2 := e1 + [d];
    var e3 := e2 + [r];
    assert e3 + [t] == events + [edit, d, r, t];
    EventEffects(events, edit);
    EventEffects(e1, d);
    EventEffects(e2, r);
    EventEffects(e3, t);
  }

  /** Without the tester the cycle leaves one more reviewer pending. */
  lemma MissingTester(events: seq<Event>, edit: Event, d: Event, r: Event)
    requires edit.kind == EditDone && d.kind == DeveloperComplete && r.kind == ReviewerComplete
    ensures var c := Fold(events);
      Fold(events + [edit, d, r]) == Counters(0, c.developers, c.reviewers + 1, [])
  {
    FoldSnoc(events, edit);
    FoldSnoc(events + [edit], d);
    FoldSnoc(events + [edit, d], r);
    assert events + [edit] + [d] == events + [edit, d];
    assert events + [edit, d] + [r] == events + [edit, d, r];
  }

  /** The two traces of the integration test, from an empty log. */
  lemma CycleTraces(edit: Event, d: Event, r: Event, t: Event)
    requires edit.kind == EditDone && d.kind == DeveloperComplete
    requires r.kind == ReviewerComplete && t.kind == TesterComplete
    ensures var full := CurrentState([edit, d, r, t]);
      full.edits == 0 && full.developers == 0 && full.reviewers == 0
    ensures CurrentState([edit, d, r]).reviewers == 1
  {
    FullCycle([], edit, d, r, t);
    MissingTester([], edit, d, r);
    assert [] + [edit, d, r, t] == [edit, d, r, t];
    assert [] + [edit, d, r] == [edit, d, r];
  }

  // ----- The log file -----

  /** The lines kept by `filter(line => line.trim())` (see `TrimEmpty`). */
  function NonBlank(lines: seq<string>): seq<string>
    decreases |lines|
  {
    if lines == [] then []
    else
      var last := lines[|lines| - 1];
      NonBlank(lines[..|lines| - 1]) + (if !IsBlank(last) then [last] else [])
  }

  /** The non-blank lines of a log text. */
  function LogLines(content: string): (r: seq<string>)
    ensures forall k :: 0 <= k < |r| ==> '\n' !in r[k] && !IsBlank(r[k])
  {
    var pieces := Split(content, '\n');
    NonBlankFrom(pieces, '\n');
    NonBlank(pieces)
  }

  /** Kept lines are non-blank, and free of a character no input line holds. */
  lemma {:induction false} NonBlankFrom(lines: seq<string>, c: char)
    requires forall k :: 0 <= k < |lines| ==> c !in lines[k]
    ensures forall k :: 0 <= k < |NonBlank(lines)| ==> c !in NonBlank(lines)[k] && !IsBlank(NonBlank(lines)[k])
    decreases |lines|
  {
    if lines != [] {
      var init := lines[..|lines| - 1];
      assert forall k :: 0 <= k < |init| ==> init[k] == lines[k];
      NonBlankFrom(init, c);
      var last := lines[|lines| - 1];
      assert c !in last;
      var r := NonBlank(lines);
      var ri := NonBlank(init);
      assert r == ri + (if !IsBlank(last) then [last] else []);
      assert forall k :: 0 <= k < |ri| ==> r[k] == ri[k];
    }
  }

  lemma {:induction false} NonBlankAppend(a: seq<string>, b: seq<string>)
    ensures NonBlank(a + b) == NonBlank(a) + NonBlank(b)
    decreases |b|
  {
    if b == [] {
      assert a + b == a;
    } else {
      var init := b[..|b| - 1];
      NonBlankAppend(a, init);
      assert (a + b)[..|a + b| - 1] == a + init;
    }
  }

  /** Non-blank lines are kept as they are. */
  lemma {:induction false} NonBlankKeeps(lines: seq<string>)
    requires forall k :: 0 <= k < |lines| ==> !IsBlank(lines[k])
    ensures NonBlank(lines) == lines
    decreases |lines|
  {
    if lines != [] {
      var init := lines[..|lines| - 1];
      assert forall k :: 0 <= k < |init| ==> init[k] == lines[k];
      NonBlankKeeps(init);
      assert !IsBlank(lines[|lines| - 1]);
      assert init + [lines[|lines| - 1]] == lines;
    }
  }

  /** An event is recent when its timestamp is less than an hour before `now`. */
  predicate Fresh(e: Event, now: int) {
    e.timestamp.Some? && now - e.timestamp.value < StaleTimeoutMs
  }

  /** The events of the lines that parse and are recent, in order. */
  function Recent(lines: seq<string>, now: int, decode: string -> Option<Event>): seq<Event>
    decreases |lines|
  {
    if lines == [] then []
    else
      var d := decode(lines[|lines| - 1]);
      Recent(lines[..|lines| - 1], now, decode) + (if d.Some? && Fresh(d.value, now) then [d.value] else [])
  }

  /** `readRecentEvents` read as a function of the log text ("" when there is no log). */
  function RecentEvents(content: string, now: int, decode: string -> Option<Event>): seq<Event> {
    Recent(LogLines(content), now, decode)
  }

  /** `readRecentEvents`: one pass over the non-blank lines. */
  method ReadRecentEvents(content: string, now: int, decode: string -> Option<Event>) returns (events: seq<Event>)
    ensures events == RecentEvents(content, now, decode)
  {
    var lines := LogLines(content);
    events := [];
    for i := 0 to |lines|
      invariant events == Recent(lines[..i], now, decode)
    {
      assert lines[..i + 1][..i] == lines[..i];
      var parsed := decode(lines[i]);
      if parsed.Some? && Fresh(parsed.value, now) {
        events := events + [parsed.value];
      }
    }
    assert lines[..|lines|] == lines;
  }

  /** The recent events of two stretches of log are those of each, in order. */
  lemma {:induction false} RecentAppend(a: seq<string>, b: seq<string>, now: int, decode: string -> Option<Event>)
    ensures Recent(a + b, now, decode) == Recent(a, now, decode) + Recent(b, now, decode)
    decreases |b|
  {
    if b == [] {
      assert a + b == a;
    } else {
      var init := b[..|b| - 1];
      RecentAppend(a, init, now, decode);
      assert (a + b)[..|a + b| - 1] == a + init;
    }
  }

  /** An event is read back exactly when some line decodes to it and it is recent. */
  lemma {:induction false} RecentExactly(lines: seq<string>, now: int, decode: string -> Option<Event>, e: Event)
    ensures e in Recent(lines, now, decode)
      <==> exists k :: 0 <= k < |lines| && decode(lines[k]) == Some(e) && Fresh(e, now)
    decreases |lines|
  {
    if lines != [] {
      var init := lines[..|lines| - 1];
      RecentExactly(init, now, decode, e);
      if e in Recent(lines, now, decode) && e !in Recent(init, now, decode) {
        assert decode(lines[|lines| - 1]) == Some(e);
      }
      if exists k :: 0 <= k < |lines| && decode(lines[k]) == Some(e) && Fresh(e, now) {
        var k :| 0 <= k < |lines| && decode(lines[k]) == Some(e) && Fresh(e, now);
        if k < |lines| - 1 {
          assert init[k] == lines[k];
        }
      }
    }
  }

  /** The size `fs.statSync` reports: the UTF-8 length of the text. */
  function Utf8Size(s: string): nat {
    if s == [] then 0
    else
      var c := s[0] as int;
      (if c < 0x80 then 1 else if c < 0x800 then 2 else if c < 0x10000 then 3 else 4) + Utf8Size(s[1..])
  }

  /** `truncateIfNeeded`: a log over 1 MiB with more than 500 non-blank lines keeps the newest 500. */
  function Truncated(content: string): string {
    var lines := LogLines(content);
    if Utf8Size(content) <= MaxLogSize || |lines| <= MaxEventsToKeep then content
    else Join(lines[|lines| - MaxEventsToKeep..], "\n") + "\n"
  }

  /** Newline-terminated non-blank lines read back as themselves. */
  lemma LinesOfJoin(kept: seq<string>)
    requires |kept| >= 1
    requires forall k :: 0 <= k < |kept| ==> '\n' !in kept[k] && !IsBlank(kept[k])
    ensures LogLines(Join(kept, "\n") + "\n") == kept
  {
    SplitJoin(kept, '\n');
    SplitTerminated(Join(kept, "\n"), '\n');
    NonBlankAppend(kept, [""]);
    NonBlankKeeps(kept);
    NonBlankEmptyLine();
  }

  lemma NonBlankEmptyLine()
    ensures NonBlank([""]) == []
  {
    assert [""][..0] == [];
  }

  /**
   * After truncation the non-blank lines are the newest ones of the log,
   * at most 500 of them unless nothing was cut, and a cut log ends with a
   * newline.
   */
  lemma TruncationKeepsNewest(content: string)
    ensures var lines := LogLines(content); var kept := LogLines(Truncated(content));
      && |kept| <= |lines| && kept == lines[|lines| - |kept|..]
      && (Truncated(content) == content || (|kept| == MaxEventsToKeep && EndsWith(Truncated(content), "\n")))
  {
    var lines := LogLines(content);
    if Truncated(content) != content {
      LinesOfJoin(lines[|lines| - MaxEventsToKeep..]);
    }
  }

  /** Truncating twice is truncating once. */
  lemma TruncateIdempotent(content: string)
    ensures Truncated(Truncated(content)) == Truncated(content)
  {
    TruncationKeepsNewest(content);
  }

  /** Truncation only forgets the oldest events. */
  lemma TruncationDropsOldest(content: string, now: int, decode: string -> Option<Event>)
    ensures var all := RecentEvents(content, now, decode); var kept := RecentEvents(Truncated(content), now, decode);
      |kept| <= |all| && kept == all[|all| - |kept|..]
  {
    TruncationKeepsNewest(content);
    var lines := LogLines(content);
    var kept := LogLines(Truncated(content));
    assert lines == lines[..|lines| - |kept|] + kept;
    RecentAppend(lines[..|lines| - |kept|], kept, now, decode);
  }

  /**
   * A line appended to a newline-terminated log (or to no log) becomes its
   * last non-blank line when it is not blank itself.
   */
  lemma LinesAfterAppend(content: string, line: string)
    requires content == "" || EndsWith(content, "\n")
    requires '\n' !in line && !IsBlank(line)
    ensures var lines := LogLines(content + line + "\n");
      |lines| >= 1 && lines[|lines| - 1] == line
  {
    var grown := content + line + "\n";
    var before := Split(content, '\n');
    var whole := before[..|before| - 1];
    // The old text splits into whole lines followed by an empty piece.
    assert before == whole + [""] by {
      if content != "" {
        var body := content[..|content| - 1];
        assert content == body + "\n";
        SplitTerminated(body, '\n');
      }
    }
    SplitAppendPiece(content, line, '\n');
    assert "" + line == line;
    SplitTerminated(content + line, '\n');
    assert Split(grown, '\n') == whole + [line] + [""];
    NonBlankAppend(whole + [line], [""]);
    NonBlankAppend(whole, [line]);
    NonBlankEmptyLine();
    assert NonBlank([line]) == [line] by {
      assert [line][..0] == [];
    }
  }

  /**
   * An event appended as a line that reads back as that event is the
   * newest recent event afterwards, truncation or not, as long as the log
   * ended with a newline (appending glues onto an unterminated last line).
   */
  lemma AppendedEventIsNewest(content: string, line: string, e: Event, now: int, decode: string -> Option<Event>)
    requires content == "" || EndsWith(content, "\n")
    requires '\n' !in line && !IsBlank(line)
    requires decode(line) == Some(e) && Fresh(e, now)
    ensures var events := RecentEvents(Truncated(content + line + "\n"), now, decode);
      |events| >= 1 && events[|events| - 1] == e
  {
    var grown := content + line + "\n";
    LinesAfterAppend(content, line);
    TruncationKeepsNewest(grown);
    var kept := LogLines(Truncated(grown));
    assert |kept| >= 1;
    assert kept == kept[..|kept| - 1] + [line];
    RecentAppend(kept[..|kept| - 1], [line], now, decode);
    assert Recent([line], now, decode) == [e] by {
      assert [line][..0] == [];
    }
  }

  // ----- The hook -----

  /** A `missing_review` record of the violations log. */
  datatype Violation = Violation(
    kind: string,
    severity: string,
    message: string,
    pendingEdits: nat,
    files: seq<string>,
    timestamp: int)

  function MissingReview(state: Counters, now: int): (v: Violation)
    ensures v.pendingEdits == state.edits && v.files == state.files
  {
    Violation("missing_review", "warning", "已有 " + NatToString(state.edits) + " 個編輯操作未經審查",
              state.edits, state.files, now)
  }

  /** The event an Edit/Write records: a missing path is recorded as `unknown`. */
  function EditEvent(params: ToolInput, now: int): (e: Event)
    ensures e.kind == EditDone && e.file != "" && Fresh(e, now)
    ensures params.filePath != "" ==> e.file == params.filePath
  {
    Event(EditDone, if params.filePath != "" then params.filePath else "unknown", Some(now))
  }

  /** The event a Task records: only the exact lower-case names count. */
  function TaskEventKind(subagentType: string): (k: Option<EventKind>)
    ensures k.Some? <==> subagentType in ["developer", "reviewer", "tester"]
    ensures k == Some(DeveloperComplete) <==> subagentType == "developer"
    ensures k == Some(ReviewerComplete) <==> subagentType == "reviewer"
    ensures k == Some(TesterComplete) <==> subagentType == "tester"
  {
    if subagentType == "developer" then Some(DeveloperComplete)
    else if subagentType == "reviewer" then Some(ReviewerComplete)
    else if subagentType == "tester" then Some(TesterComplete)
    else None
  }

  /** The log text after `appendEvent(e)`: one more line, then truncation. */
  function Appended(content: string, e: Event, encode: Event -> string): string {
    Truncated(content + encode(e) + "\n")
  }

  /** The violations `handleEdit` appends, given the log after its own event. */
  function EditViolations(content: string, now: int, decode: string -> Option<Event>): seq<Violation> {
    var state := CurrentState(RecentEvents(content, now, decode));
    if state.edits > WarningThresholdEdits then [MissingReview(state, now)] else []
  }

  /** `workflow-events.jsonl` ("" when the file does not exist). */
  class EventLog {
    var content: string

    constructor (initial: string)
      ensures content == initial
    {
      content := initial;
    }

    /** `truncateIfNeeded`. */
    method TruncateIfNeeded()
      modifies this
      ensures content == Truncated(old(content))
    {
      var lines := LogLines(content);
      if Utf8Size(content) > MaxLogSize && |lines| > MaxEventsToKeep {
        content := Join(lines[|lines| - MaxEventsToKeep..], "\n") + "\n";
      }
    }

    /** `appendEvent`: the event is stamped with `now`, written as one line, and the log truncated. */
    method AppendEvent(e: Event, now: int, encode: Event -> string)
      modifies this
      ensures content == Appended(old(content), e.(timestamp := Some(now)), encode)
    {
      content := content + encode(e.(timestamp := Some(now))) + "\n";
      TruncateIfNeeded();
    }
  }

  /** `workflow-violations.jsonl`, as its records. */
  class ViolationLog {
    var records: seq<Violation>

    constructor (initial: seq<Violation>)
      ensures records == initial
    {
      records := initial;
    }

    method Append(v: Violation)
      modifies this
      ensures records == old(records) + [v]
    {
      records := records + [v];
    }
  }

  /** `handleEdit`. */
  method HandleEdit(events: EventLog, violations: ViolationLog, params: ToolInput, now: int,
                    encode: Event -> string, decode: string -> Option<Event>)
    modifies events, violations
    ensures events.content == Appended(old(events.content), EditEvent(params, now), encode)
    ensures violations.records == old(violations.records) + EditViolations(events.content, now, decode)
  {
    events.AppendEvent(EditEvent(params, now), now, encode);
    var recent := ReadRecentEvents(events.content, now, decode);
    var state := ComputeCurrentState(recent);
    if state.edits > WarningThresholdEdits {
      violations.Append(MissingReview(state, now));
    }
  }

  /** `handleTask`. */
  method HandleTask(events: EventLog, params: ToolInput, now: int, encode: Event -> string)
    modifies events
    ensures var k := TaskEventKind(params.subagentType);
      events.content == if k.Some? then Appended(old(events.content), Event(k.value, "", Some(now)), encode)
                        else old(events.content)
  {
    var kind := TaskEventKind(params.subagentType);
    if kind.Some? {
      events.AppendEvent(Event(kind.value, "", None), now, encode);
    }
  }

  /**
   * The hook: `input` is `None` when stdin is empty, is not a JSON object
   * or names no tool; Edit and Write are edits, Task is dispatched, any
   * other tool is ignored. `toolInput` stands for the object the tracker
   * reads its parameters from (`parameters`, else `params`, of the payload).
   */
  method Track(events: EventLog, violations: ViolationLog, input: Option<HookInput>, now: int,
               encode: Event -> string, decode: string -> Option<Event>)
    modifies events, violations
    ensures input.None? || !(IsEditTool(input.value.tool) || input.value.tool == Task) ==>
      events.content == old(events.content) && violations.records == old(violations.records)
    ensures input.Some? && IsEditTool(input.value.tool) ==>
      && events.content == Appended(old(events.content), EditEvent(input.value.toolInput, now), encode)
      && violations.records == old(violations.records) + EditViolations(events.content, now, decode)
    ensures input.Some? && input.value.tool == Task ==>
      && violations.records == old(violations.records)
      && var k := TaskEventKind(input.value.toolInput.subagentType);
         events.content == if k.Some? then Appended(old(events.content), Event(k.value, "", Some(now)), encode)
                           else old(events.content)
  {
    if input.Some? {
      var h := input.value;
      if IsEditTool(h.tool) {
        HandleEdit(events, violations, h.toolInput, now, encode, decode);
      } else if h.tool == Task {
        HandleTask(events, h.toolInput, now, encode);
      }
    }
  }

  /**
   * The edit just recorded is always counted, provided its line reads back
   * as the event: a violation is then appended exactly when an earlier
   * edit is still pending in what the log keeps.
   */
  lemma RecordedEditCounted(content: string, params: ToolInput, now: int,
                            encode: Event -> string, decode: string -> Option<Event>)
    requires content == "" || EndsWith(content, "\n")
    requires var line := encode(EditEvent(params, now));
      '\n' !in line && !IsBlank(line) && decode(line) == Some(EditEvent(params, now))
    ensures var after := Appended(content, EditEvent(params, now), encode);
      var events := RecentEvents(after, now, decode);
      && |events| >= 1
      && CurrentState(events).edits == Fold(events[..|events| - 1]).edits + 1
      && (|EditViolations(after, now, decode)| == 1 <==> Fold(events[..|events| - 1]).edits >= 1)
  {
    var e := EditEvent(params, now);
    AppendedEventIsNewest(content, encode(e), e, now, decode);
    var after := Appended(content, e, encode);
    var events := RecentEvents(after, now, decode);
    var init := events[..|events| - 1];
    assert events == init + [e];
    FoldSnoc(init, e);
  }
}
