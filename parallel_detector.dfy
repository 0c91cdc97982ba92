/**
 * The parallel-opportunity detector (`parallel-opportunity-detector.js`):
 * after the architect has written `tasks.md`, it reads the phases and
 * their options (`parallel`, `sequential`, `agent: x`, `depends: y`) and
 * the checklist items under them, and reports phases whose pending work
 * could be handed to several agents at once.
 *
 * `phaseInfo` is a JavaScript object keyed by phase number, and the
 * analysis walks `Object.keys(phaseInfo)`; the model keeps the table as a
 * sequence of entries in insertion order and computes the order in which
 * `Object.keys` lists them (array-index keys ascending, then the others
 * as inserted).
 */
module ParallelDetector {
  import opened Text
  import opened Workflow
  import opened ParallelGrammar
  import TaskGrammar
  import TS = TaskSync

  // ---------------------------------------------------------------------
  // The options of a phase header

  /** What a header says about its phase. */
  datatype PhaseInfo = PhaseInfo(
    name: string,
    isParallel: bool,
    isSequential: bool,
    agent: Option<string>,
    depends: Option<string>)

  /** A JavaScript value that is a non-empty string (`undefined` and "" are falsy). */
  predicate Truthy(v: Option<string>) {
    v.Some? && v.value != ""
  }

  /** Every piece with its leading whitespace removed. */
  function TrimStartAll(pieces: seq<string>): (r: seq<string>)
    ensures |r| == |pieces|
    ensures forall k :: 0 <= k < |r| ==> r[k] == TrimStart(pieces[k])
  {
    if pieces == [] then [] else [TrimStart(pieces[0])] + TrimStartAll(pieces[1..])
  }

  /**
   * The options text split at a comma together with the whitespace that
   * follows it (the separator pattern is a comma and `\s*`).
   */
  function OptionParts(options: string): (parts: seq<string>)
    ensures |parts| == |Split(options, ',')|
    ensures forall k :: 0 <= k < |parts| ==> ',' !in parts[k]
    ensures forall k :: 1 <= k < |parts| ==> parts[k] == [] || !IsSpace(parts[k][0])
  {
    var raw := Split(options, ',');
    var tail := TrimStartAll(raw[1..]);
    var parts := [raw[0]] + tail;
    forall k | 1 <= k < |parts|
      ensures parts[k] == TrimStart(raw[k]) && ',' !in parts[k]
    {
      assert parts[k] == tail[k - 1] && raw[1..][k - 1] == raw[k];
      TrimStartWithout(raw[k], ',');
    }
    parts
  }

  /** Removing leading whitespace keeps a text free of a character it did not hold. */
  lemma TrimStartWithout(s: string, c: char)
    requires c !in s
    ensures c !in TrimStart(s)
  {
  }

  /** `o.toLowerCase().trim() === word`. */
  predicate IsWord(o: string, word: string) {
    Trim(Lower(o)) == word
  }

  /** `parts.some(o => o.toLowerCase().trim() === word)`. */
  predicate HasWord(parts: seq<string>, word: string) {
    exists k :: 0 <= k < |parts| && IsWord(parts[k], word)
  }

  /** `parts.find(o => o.toLowerCase().startsWith(prefix))`, as an index from `from` on. */
  function FirstPrefixed(parts: seq<string>, prefix: string, from: nat): (r: Option<nat>)
    requires from <= |parts|
    ensures r.Some? ==> from <= r.value < |parts| && StartsWith(Lower(parts[r.value]), prefix)
    ensures r.Some? ==> forall j :: from <= j < r.value ==> !StartsWith(Lower(parts[j]), prefix)
    ensures r.None? ==> forall j :: from <= j < |parts| ==> !StartsWith(Lower(parts[j]), prefix)
    decreases |parts| - from
  {
    if from == |parts| then None
    else if StartsWith(Lower(parts[from]), prefix) then Some(from)
    else FirstPrefixed(parts, prefix, from + 1)
  }

  /** `part.split(':')[1]?.trim()`: the text between the first and second colon. */
  function ValueAfterColon(part: string): (v: Option<string>) {
    var pieces := Split(part, ':');
    if |pieces| > 1 then Some(Trim(pieces[1])) else None
  }

  /** `parts.find(...)?.split(':')[1]?.trim()` for the option named by `prefix`. */
  function FieldValue(parts: seq<string>, prefix: string): (v: Option<string>) {
    match FirstPrefixed(parts, prefix, 0)
    case None => None
    case Some(k) => ValueAfterColon(parts[k])
  }

  /** `agent:` and `depends:` end with the colon `split(':')` cuts at. */
  predicate ColonKey(prefix: string) {
    |prefix| > 0 && prefix[|prefix| - 1] == ':'
  }

  /** Lower-casing leaves a colon where it was and makes no new one. */
  lemma LowerColon(s: string, i: nat)
    requires i < |s| && Lower(s)[i] == ':'
    ensures s[i] == ':'
  {
  }

  /** Trimming keeps a text free of a character it did not hold. */
  lemma TrimKeepsOut(s: string, c: char)
    requires c !in s
    ensures c !in Trim(s)
  {
    var t := TrimStart(s);
    assert Trim(s) == TrimEnd(t);
    assert forall j :: 0 <= j < |t| ==> t[j] == s[|s| - |t| + j];
  }

  /**
   * An option named `agent:` or `depends:` is present exactly when some
   * part starts with the name; its value is then taken from the first such
   * part and holds no colon and no surrounding whitespace.
   */
  lemma FieldPresent(parts: seq<string>, prefix: string)
    requires ColonKey(prefix)
    ensures FieldValue(parts, prefix).Some? <==>
      exists k :: 0 <= k < |parts| && StartsWith(Lower(parts[k]), prefix)
    ensures FieldValue(parts, prefix).Some? ==>
      var v := FieldValue(parts, prefix).value;
      ':' !in v && (v == [] || (!IsSpace(v[0]) && !IsSpace(v[|v| - 1])))
  {
    match FirstPrefixed(parts, prefix, 0)
    case None =>
    case Some(k) =>
      var part := parts[k];
      var n := |prefix| - 1;
      assert Lower(part)[..|prefix|] == prefix;
      assert Lower(part)[n] == ':';
      LowerColon(part, n);
      SplitAtSeparator(part, ':');
      TrimKeepsOut(Split(part, ':')[1], ':');
  }

  /** `parseTasksForParallel`'s reading of one header (`phaseMatch[3] || ''`). */
  function HeaderInfo(h: PhaseHeader): (info: PhaseInfo)
    ensures info.name == h.name
  {
    var parts := OptionParts(h.options.GetOr(""));
    PhaseInfo(h.name, HasWord(parts, "parallel"), HasWord(parts, "sequential"),
              FieldValue(parts, "agent:"), FieldValue(parts, "depends:"))
  }

  /** A header with no options group marks nothing and names no agent. */
  lemma PlainHeader(h: PhaseHeader)
    requires h.options.None? || h.options == Some("")
    ensures !HeaderInfo(h).isParallel && !HeaderInfo(h).isSequential
    ensures HeaderInfo(h).agent.None? && HeaderInfo(h).depends.None?
  {
    var parts := OptionParts("");
    assert Split("", ',') == [""];
    assert parts == [""];
    assert Lower("") == "";
    assert Trim("") == "";
    assert !IsWord("", "parallel") && !IsWord("", "sequential");
    assert !StartsWith("", "agent:") && !StartsWith("", "depends:");
  }

  // ---------------------------------------------------------------------
  // The phase table (`phaseInfo`)

  /** One property of `phaseInfo`. */
  datatype Entry = Entry(key: string, info: PhaseInfo)

  /** The keys in insertion order. */
  function Keys(table: seq<Entry>): (ks: seq<string>)
    ensures |ks| == |table|
    ensures forall i :: 0 <= i < |table| ==> ks[i] == table[i].key
  {
    if table == [] then [] else [table[0].key] + Keys(table[1..])
  }

  /** `phaseInfo[key]`. */
  function Lookup(table: seq<Entry>, key: string): (r: Option<PhaseInfo>)
    ensures r.Some? <==> key in Keys(table)
  {
    if table == [] then None
    else if table[0].key == key then Some(table[0].info)
    else Lookup(table[1..], key)
  }

  /**
   * `phaseInfo[key] = info`: an existing property keeps its place and
   * takes the new value; a new one goes last.
   */
  function Store(table: seq<Entry>, key: string, info: PhaseInfo): (r: seq<Entry>)
    ensures Lookup(r, key) == Some(info)
    ensures forall k :: k != key ==> Lookup(r, k) == Lookup(table, k)
  {
    if table == [] then [Entry(key, info)]
    else if table[0].key == key then
      var r := [Entry(key, info)] + table[1..];
      assert r[1..] == table[1..];
      r
    else
      var rest := Store(table[1..], key, info);
      var r := [table[0]] + rest;
      assert r[0] == table[0] && r[1..] == rest;
      r
  }

  /** Storing keeps the order of the keys, adding a new one at the end. */
  lemma {:induction false} StoreKeys(table: seq<Entry>, key: string, info: PhaseInfo)
    ensures Keys(Store(table, key, info)) == if key in Keys(table) then Keys(table) else Keys(table) + [key]
  {
    if table != [] && table[0].key != key {
      StoreKeys(table[1..], key, info);
      var rest := Store(table[1..], key, info);
      assert Store(table, key, info) == [table[0]] + rest;
      assert Keys([table[0]] + rest) == [table[0].key] + Keys(rest);
      assert Keys(table) == [table[0].key] + Keys(table[1..]);
    }
  }

  predicate Distinct(ks: seq<string>) {
    forall i, j :: 0 <= i < j < |ks| ==> ks[i] != ks[j]
  }

  /** Storing never repeats a key. */
  lemma StoreDistinct(table: seq<Entry>, key: string, info: PhaseInfo)
    requires Distinct(Keys(table))
    ensures Distinct(Keys(Store(table, key, info)))
  {
    StoreKeys(table, key, info);
    var ks := Keys(table);
    if key !in ks {
      var nks := ks + [key];
      forall i, j | 0 <= i < j < |nks|
        ensures nks[i] != nks[j]
      {
        if j == |ks| {
          assert nks[i] == ks[i] && nks[j] == key;
        } else {
          assert nks[i] == ks[i] && nks[j] == ks[j];
        }
      }
    }
  }

  // ---------------------------------------------------------------------
  // The order of `Object.keys`

  function DigitValue(c: char): nat {
    if IsDigit(c) then c as int - '0' as int else 0
  }

  /** The number a run of decimal digits denotes. */
  function DigitsValue(s: string): nat {
    if s == [] then 0 else DigitsValue(s[..|s| - 1]) * 10 + DigitValue(s[|s| - 1])
  }

  /**
   * An array index: the canonical decimal form of a number below
   * 2^32 - 1. `Object.keys` lists these first, in numeric order.
   */
  predicate IsArrayIndex(k: string) {
    AllDigits(k) && (k[0] != '0' || |k| == 1) && DigitsValue(k) < 0xFFFF_FFFF
  }

  predicate SortedByValue(s: seq<string>) {
    forall i, j :: 0 <= i < j < |s| ==> DigitsValue(s[i]) <= DigitsValue(s[j])
  }

  /** Puts `x` before the first key of larger or equal value. */
  function Insert(x: string, s: seq<string>): (r: seq<string>)
    ensures |r| == |s| + 1
    ensures multiset(r) == multiset(s) + multiset{x}
    ensures forall j :: 0 <= j < |r| ==> r[j] == x || r[j] in s
    ensures SortedByValue(s) ==> SortedByValue(r)
  {
    if s == [] then [x]
    else if DigitsValue(x) <= DigitsValue(s[0]) then [x] + s
    else
      var rest := Insert(x, s[1..]);
      InsertStep(x, s, rest);
      InsertCount(x, s, rest);
      [s[0]] + rest
  }

  /** The recursive case of `Insert` adds `x` once. */
  lemma InsertCount(x: string, s: seq<string>, rest: seq<string>)
    requires |s| > 0 && multiset(rest) == multiset(s[1..]) + multiset{x}
    ensures |[s[0]] + rest| == |s| + 1
    ensures multiset([s[0]] + rest) == multiset(s) + multiset{x}
  {
    assert s == [s[0]] + s[1..];
    assert |rest| == |multiset(rest)| == |s[1..]| + 1;
  }

  /** The recursive case of `Insert`. */
  lemma InsertStep(x: string, s: seq<string>, rest: seq<string>)
    requires |s| > 0 && DigitsValue(x) > DigitsValue(s[0])
    requires forall j :: 0 <= j < |rest| ==> rest[j] == x || rest[j] in s[1..]
    requires SortedByValue(s[1..]) ==> SortedByValue(rest)
    ensures forall j :: 0 <= j < |[s[0]] + rest| ==> ([s[0]] + rest)[j] == x || ([s[0]] + rest)[j] in s
    ensures SortedByValue(s) ==> SortedByValue([s[0]] + rest)
  {
    var r := [s[0]] + rest;
    forall j | 0 <= j < |r|
      ensures r[j] == x || r[j] in s
    {
      if j > 0 {
        assert r[j] == rest[j - 1];
      }
    }
    if SortedByValue(s) {
      InsertStepSorted(x, s, rest);
    }
  }

  lemma InsertStepSorted(x: string, s: seq<string>, rest: seq<string>)
    requires |s| > 0 && DigitsValue(x) > DigitsValue(s[0])
    requires forall j :: 0 <= j < |rest| ==> rest[j] == x || rest[j] in s[1..]
    requires SortedByValue(s) && SortedByValue(rest)
    ensures SortedByValue([s[0]] + rest)
  {
    var r := [s[0]] + rest;
    forall j | 0 <= j < |rest|
      ensures DigitsValue(s[0]) <= DigitsValue(rest[j])
    {
      if rest[j] != x {
        var k :| 0 <= k < |s[1..]| && s[1..][k] == rest[j];
        assert s[k + 1] == rest[j];
      }
    }
    assert forall i, j :: 0 < i < j < |r| ==> r[i] == rest[i - 1] && r[j] == rest[j - 1];
  }

  function SortByValue(s: seq<string>): (r: seq<string>)
    ensures |r| == |s|
    ensures multiset(r) == multiset(s)
    ensures forall j :: 0 <= j < |r| ==> r[j] in s
    ensures SortedByValue(r)
  {
    if s == [] then []
    else
      var rest := SortByValue(s[1..]);
      assert s == [s[0]] + s[1..];
      Insert(s[0], rest)
  }

  function IndexKeys(ks: seq<string>): (r: seq<string>)
    ensures forall i :: 0 <= i < |r| ==> IsArrayIndex(r[i])
  {
    if ks == [] then []
    else (if IsArrayIndex(ks[0]) then [ks[0]] else []) + IndexKeys(ks[1..])
  }

  function OtherKeys(ks: seq<string>): (r: seq<string>)
    ensures forall i :: 0 <= i < |r| ==> !IsArrayIndex(r[i])
  {
    if ks == [] then []
    else (if IsArrayIndex(ks[0]) then [] else [ks[0]]) + OtherKeys(ks[1..])
  }

  /** The two filters share the keys out between them. */
  lemma {:induction false} KeysPartition(ks: seq<string>)
    ensures multiset(IndexKeys(ks)) + multiset(OtherKeys(ks)) == multiset(ks)
  {
    if ks != [] {
      KeysPartition(ks[1..]);
      assert ks == [ks[0]] + ks[1..];
    }
  }

  /** `Object.keys(phaseInfo)`. */
  function ObjectKeys(table: seq<Entry>): seq<string> {
    SortByValue(IndexKeys(Keys(table))) + OtherKeys(Keys(table))
  }

  /**
   * `Object.keys` lists every key once: first the array indices by value,
   * then the other keys in the order they were inserted.
   */
  lemma ObjectKeysOrder(table: seq<Entry>)
    ensures multiset(ObjectKeys(table)) == multiset(Keys(table))
    ensures |ObjectKeys(table)| == |table|
    ensures |IndexKeys(Keys(table))| <= |table|
    ensures forall i :: 0 <= i < |IndexKeys(Keys(table))| ==> IsArrayIndex(ObjectKeys(table)[i])
    ensures forall i, j :: 0 <= i < j < |IndexKeys(Keys(table))| ==>
      DigitsValue(ObjectKeys(table)[i]) <= DigitsValue(ObjectKeys(table)[j])
    ensures ObjectKeys(table)[|IndexKeys(Keys(table))|..] == OtherKeys(Keys(table))
  {
    var ks := Keys(table);
    var idx := IndexKeys(ks);
    var sorted := SortByValue(idx);
    var others := OtherKeys(ks);
    KeysPartition(ks);
    assert |idx| + |others| == |ks| by {
      assert |multiset(idx)| + |multiset(others)| == |multiset(ks)|;
    }
    var o := sorted + others;
    assert ObjectKeys(table) == o;
    assert o[|sorted|..] == others;
    assert multiset(o) == multiset(sorted) + multiset(others);
    forall i | 0 <= i < |sorted|
      ensures IsArrayIndex(o[i])
    {
      assert o[i] == sorted[i] && sorted[i] in idx;
    }
  }

  /** A key is listed exactly when it is in the table. */
  lemma ObjectKeysMember(table: seq<Entry>, k: string)
    ensures k in ObjectKeys(table) <==> Lookup(table, k).Some?
  {
    ObjectKeysOrder(table);
    assert k in ObjectKeys(table) <==> k in multiset(ObjectKeys(table));
    assert k in Keys(table) <==> k in multiset(Keys(table));
  }

  // ---------------------------------------------------------------------
  // Reading `tasks.md`

  /** One item of `tasks` (the `phaseInfo` copy it carries is not modelled). */
  datatype PhaseTask = PhaseTask(phase: string, id: string, name: string, status: TS.TaskStatus)

  /** `x` is completed, `~` is in progress, anything else pending. */
  function StatusOfPhaseMark(c: char): (s: TS.TaskStatus)
    ensures s == TS.Completed <==> c == 'x'
    ensures s == TS.InProgress <==> c == '~'
  {
    if c == 'x' then TS.Completed else if c == '~' then TS.InProgress else TS.Pending
  }

  /** On the marks this pattern admits, both readers give the same status. */
  lemma StatusAgrees(c: char)
    requires IsPhaseMark(c)
    ensures TaskGrammar.IsSyncMark(c) && StatusOfPhaseMark(c) == TS.StatusOfMark(c)
  {
  }

  /** The loop's variables: `tasks`, `phaseInfo` and `currentPhase`. */
  datatype Parsed = Parsed(tasks: seq<PhaseTask>, table: seq<Entry>, current: Option<string>)

  const Start := Parsed([], [], None)

  /** One turn of the loop over the lines. */
  function Step(st: Parsed, line: string): Parsed {
    match MatchPhaseHeader(line)
    case Some(h) => Parsed(st.tasks, Store(st.table, h.number, HeaderInfo(h)), Some(h.number))
    case None =>
      match MatchPhaseTask(line)
      case None => st
      case Some(t) =>
        if st.current.None? then st
        else st.(tasks := st.tasks + [PhaseTask(st.current.value, t.id, t.name, StatusOfPhaseMark(t.mark))])
  }

  /** Reading lines in order from `s0`, one `step` per line. */
  function Fold<S>(step: (S, string) -> S, s0: S, lines: seq<string>): S
    decreases |lines|
  {
    if lines == [] then s0 else step(Fold(step, s0, lines[..|lines| - 1]), lines[|lines| - 1])
  }

  /** Reading a block that ends in a line is reading up to that line, then one more step. */
  lemma FoldLast<S>(step: (S, string) -> S, s0: S, before: seq<string>, after: seq<string>)
    requires after != []
    ensures Fold(step, s0, before + after) == step(Fold(step, s0, before + after[..|after| - 1]), after[|after| - 1])
  {
    assert (before + after)[..|before + after| - 1] == before + after[..|after| - 1];
  }

  /** The loop's variables after the lines. */
  function ParseLines(lines: seq<string>): Parsed {
    Fold(Step, Start, lines)
  }

  /** `parseTasksForParallel(content)`. */
  function Parse(content: string): Parsed {
    ParseLines(Split(content, '\n'))
  }

  /** The loop over the lines, as the hook runs it. */
  method ParseTasksForParallel(content: string) returns (tasks: seq<PhaseTask>, phaseInfo: seq<Entry>)
    ensures tasks == Parse(content).tasks && phaseInfo == Parse(content).table
  {
    var lines := Split(content, '\n');
    tasks := [];
    phaseInfo := [];
    var currentPhase: Option<string> := None;
    for i := 0 to |lines|
      invariant Parsed(tasks, phaseInfo, currentPhase) == ParseLines(lines[..i])
    {
      var line := lines[i];
      assert lines[..i + 1][..i] == lines[..i];
      var phaseMatch := MatchPhaseHeader(line);
      if phaseMatch.Some? {
        currentPhase := Some(phaseMatch.value.number);
        phaseInfo := Store(phaseInfo, phaseMatch.value.number, HeaderInfo(phaseMatch.value));
        continue;
      }
      var taskMatch := MatchPhaseTask(line);
      if taskMatch.Some? && currentPhase.Some? {
        var t := taskMatch.value;
        tasks := tasks + [PhaseTask(currentPhase.value, t.id, t.name, StatusOfPhaseMark(t.mark))];
      }
    }
    assert lines[..|lines|] == lines;
  }

  /** The table lists each phase once, and every task and the current phase are in it. */
  predicate WellFormed(st: Parsed) {
    && Distinct(Keys(st.table))
    && (st.current.Some? ==> Lookup(st.table, st.current.value).Some?)
    && (forall i :: 0 <= i < |st.tasks| ==> Lookup(st.table, st.tasks[i].phase).Some?)
  }

  /** Every prefix of the document leaves the loop's variables well formed. */
  lemma {:induction false} ParseWellFormed(lines: seq<string>)
    ensures WellFormed(ParseLines(lines))
  {
    if lines != [] {
      var st := ParseLines(lines[..|lines| - 1]);
      ParseWellFormed(lines[..|lines| - 1]);
      var h := MatchPhaseHeader(lines[|lines| - 1]);
      if h.Some? {
        StoreDistinct(st.table, h.value.number, HeaderInfo(h.value));
      }
    }
  }

  predicate NoPhaseHeaders(lines: seq<string>) {
    forall i :: 0 <= i < |lines| ==> MatchPhaseHeader(lines[i]).None?
  }

  /** Items before the first header belong to no phase and are dropped. */
  lemma {:induction false} NoHeaderNoTasks(lines: seq<string>)
    requires NoPhaseHeaders(lines)
    ensures ParseLines(lines) == Start
  {
    if lines != [] {
      NoHeaderNoTasks(lines[..|lines| - 1]);
    }
  }

  /**
   * `p` is `q` after lines that are not headers: the same table and
   * current phase, and `q`'s tasks followed by tasks of the current phase.
   */
  predicate Extends(q: Parsed, p: Parsed) {
    && p.table == q.table && p.current == q.current
    && |q.tasks| <= |p.tasks| && p.tasks[..|q.tasks|] == q.tasks
    && (|p.tasks| > |q.tasks| ==> q.current.Some?)
    && (forall i :: |q.tasks| <= i < |p.tasks| ==> p.tasks[i].phase == q.current.value)
  }

  /** A line that is not a header extends what was read before it. */
  lemma StepWithoutHeader(q: Parsed, st: Parsed, line: string)
    requires MatchPhaseHeader(line).None? && Extends(q, st)
    ensures Extends(q, Step(st, line))
  {
    var n := Step(st, line);
    if n.tasks != st.tasks {
      assert n.tasks[..|st.tasks|] == st.tasks;
      assert n.tasks[..|q.tasks|] == st.tasks[..|q.tasks|];
    }
  }

  /** Reading a block that ends in a line is reading up to that line, then one more step. */
  lemma ParseLastOfAppend(before: seq<string>, after: seq<string>)
    requires after != []
    ensures ParseLines(before + after) == Step(ParseLines(before + after[..|after| - 1]), after[|after| - 1])
  {
    FoldLast(Step, Start, before, after);
  }

  /** Without headers in a block, there are none in its first lines and its last is not one. */
  lemma NoHeadersSplit(lines: seq<string>)
    requires lines != [] && NoPhaseHeaders(lines)
    ensures NoPhaseHeaders(lines[..|lines| - 1]) && MatchPhaseHeader(lines[|lines| - 1]).None?
  {
    var init := lines[..|lines| - 1];
    forall i | 0 <= i < |init| ensures MatchPhaseHeader(init[i]).None? {
      assert init[i] == lines[i];
    }
  }

  /** The lines after the last header extend what was read up to it. */
  lemma {:induction false} NoHeaderExtends(before: seq<string>, after: seq<string>)
    requires NoPhaseHeaders(after)
    ensures Extends(ParseLines(before), ParseLines(before + after))
  {
    if after == [] {
      assert before + after == before;
    } else {
      var init, last := after[..|after| - 1], after[|after| - 1];
      NoHeadersSplit(after);
      NoHeaderExtends(before, init);
      ParseLastOfAppend(before, after);
      StepWithoutHeader(ParseLines(before), ParseLines(before + init), last);
    }
  }

  /**
   * After a header, the items up to the next header are filed under its
   * number, and the tasks read before it are kept as they were.
   */
  lemma HeaderOwnsItems(before: seq<string>, after: seq<string>)
    requires |before| > 0 && MatchPhaseHeader(before[|before| - 1]).Some?
    requires NoPhaseHeaders(after)
    ensures ParseLines(before).current == Some(MatchPhaseHeader(before[|before| - 1]).value.number)
    ensures Extends(ParseLines(before), ParseLines(before + after))
  {
    NoHeaderExtends(before, after);
  }

  /**
   * The task pattern takes only ` `, `x` and `~`: an item marked `X`,
   * which the checklist synchroniser counts as completed, is not a task here.
   */
  lemma UpperMarkNotATask()
    ensures MatchPhaseTask("- [X] 1.1 Build").None?
    ensures MatchPhaseTask("- [>] 1.1 Build").None?
  {
    assert SpaceRun("- [X] 1.1 Build", 1) == 1;
    assert SpaceRun("- [>] 1.1 Build", 1) == 1;
  }

  // ---------------------------------------------------------------------
  // The analysis

  datatype Opportunity =
    | ExplicitParallel(phase: string, phaseName: string, tasks: seq<string>, message: string)
    | SameAgentParallel(phases: seq<string>, agent: string, message: string)

  /** `tasksByPhase[phase]`: the tasks of one phase, in document order. */
  function PhaseTasks(tasks: seq<PhaseTask>, phase: string): (r: seq<PhaseTask>)
    ensures forall i :: 0 <= i < |r| ==> r[i].phase == phase
  {
    if tasks == [] then []
    else
      var t := tasks[|tasks| - 1];
      PhaseTasks(tasks[..|tasks| - 1], phase) + (if t.phase == phase then [t] else [])
  }

  /** `.filter(t => t.status === 'pending').map(t => t.id)`. */
  function PendingIds(ts: seq<PhaseTask>): (ids: seq<string>)
    ensures |ids| <= |ts|
  {
    if ts == [] then []
    else
      var t := ts[|ts| - 1];
      PendingIds(ts[..|ts| - 1]) + (if t.status == TS.Pending then [t.id] else [])
  }

  /** `t` is a pending task of `phase` with id `id`. */
  predicate PendingTask(t: PhaseTask, phase: string, id: string) {
    t.phase == phase && t.id == id && t.status == TS.Pending
  }

  /** The ids listed are exactly those of the pending tasks of the phase. */
  lemma {:induction false} PendingIdsExactly(tasks: seq<PhaseTask>, phase: string, id: string)
    ensures id in PendingIds(PhaseTasks(tasks, phase)) <==>
      exists i :: 0 <= i < |tasks| && PendingTask(tasks[i], phase, id)
  {
    if tasks != [] {
      var init := tasks[..|tasks| - 1];
      var t := tasks[|tasks| - 1];
      PendingIdsExactly(init, phase, id);
      var pt := PhaseTasks(init, phase);
      if t.phase == phase {
        assert PhaseTasks(tasks, phase) == pt + [t];
        assert (pt + [t])[..|pt|] == pt;
        assert id in PendingIds(pt + [t]) <==> id in PendingIds(pt) || PendingTask(t, phase, id);
      } else {
        assert PhaseTasks(tasks, phase) == pt + [];
        assert pt + [] == pt;
      }
      assert id in PendingIds(PhaseTasks(tasks, phase)) <==> id in PendingIds(pt) || PendingTask(t, phase, id);
      assert forall i :: 0 <= i < |init| ==> tasks[i] == init[i];
      if PendingTask(t, phase, id) {
        assert PendingTask(tasks[|tasks| - 1], phase, id);
      }
    }
  }

  /** `p` would run beside `phase` under `agent`: same agent, no dependency, another phase. */
  predicate SiblingOf(table: seq<Entry>, q: string, phase: string, agent: string) {
    && Lookup(table, q).Some?
    && Lookup(table, q).value.agent == Some(agent)
    && !Truthy(Lookup(table, q).value.depends)
    && q != phase
  }

  /** `phases.filter(...)`: the siblings in the order of `phases`. */
  function Siblings(table: seq<Entry>, phases: seq<string>, phase: string, agent: string): (r: seq<string>)
    ensures forall q :: q in r <==> q in phases && SiblingOf(table, q, phase, agent)
  {
    if phases == [] then []
    else
      var q := phases[|phases| - 1];
      Siblings(table, phases[..|phases| - 1], phase, agent)
        + (if SiblingOf(table, q, phase, agent) then [q] else [])
  }

  /** The explicit-parallel report for one phase, if any. */
  function ExplicitOf(tasks: seq<PhaseTask>, phase: string, info: PhaseInfo): seq<Opportunity> {
    var pending := PendingIds(PhaseTasks(tasks, phase));
    if info.isParallel && |pending| > 1 then
      [ExplicitParallel(phase, info.name, pending, "Phase " + phase + " (" + info.name + ") 標記為並行執行")]
    else []
  }

  /** The same-agent report for one phase, if any. */
  function SameAgentOf(table: seq<Entry>, phases: seq<string>, phase: string, info: PhaseInfo): seq<Opportunity> {
    if Truthy(info.agent) && !Truthy(info.depends) then
      var siblings := Siblings(table, phases, phase, info.agent.value);
      if |siblings| > 0 then
        [SameAgentParallel([phase] + siblings, info.agent.value,
          "Phase " + phase + " 和 " + Join(siblings, ", ") + " 可由 " + info.agent.value + " 並行執行")]
      else []
    else []
  }

  /** What one turn of the loop over the phases adds. */
  function PhaseOpportunities(tasks: seq<PhaseTask>, table: seq<Entry>, phases: seq<string>, phase: string): seq<Opportunity> {
    match Lookup(table, phase)
    case None => []
    case Some(info) => ExplicitOf(tasks, phase, info) + SameAgentOf(table, phases, phase, info)
  }

  /** The reports for the phases `ks`, in order. */
  function OpportunitiesOver(tasks: seq<PhaseTask>, table: seq<Entry>, phases: seq<string>, ks: seq<string>): seq<Opportunity> {
    if ks == [] then []
    else
      OpportunitiesOver(tasks, table, phases, ks[..|ks| - 1])
        + PhaseOpportunities(tasks, table, phases, ks[|ks| - 1])
  }

  /** `analyzeParallelOpportunities(tasks, phaseInfo)`. */
  function Opportunities(tasks: seq<PhaseTask>, table: seq<Entry>): seq<Opportunity> {
    OpportunitiesOver(tasks, table, ObjectKeys(table), ObjectKeys(table))
  }

  /** The first loop: `tasksByPhase`, one array per phase that has tasks. */
  method GroupByPhase(tasks: seq<PhaseTask>) returns (byPhase: map<string, seq<PhaseTask>>)
    ensures forall p :: p in byPhase <==> PhaseTasks(tasks, p) != []
    ensures forall p :: p in byPhase ==> byPhase[p] == PhaseTasks(tasks, p)
  {
    byPhase := map[];
    for i := 0 to |tasks|
      invariant forall p :: p in byPhase <==> PhaseTasks(tasks[..i], p) != []
      invariant forall p :: p in byPhase ==> byPhase[p] == PhaseTasks(tasks[..i], p)
    {
      var task := tasks[i];
      assert tasks[..i + 1][..i] == tasks[..i];
      if task.phase !in byPhase {
        byPhase := byPhase[task.phase := []];
      }
      byPhase := byPhase[task.phase := byPhase[task.phase] + [task]];
    }
    assert tasks[..|tasks|] == tasks;
  }

  /** One turn of the loop over the phases, with `tasksByPhase` built. */
  method PhaseTurn(tasks: seq<PhaseTask>, tasksByPhase: map<string, seq<PhaseTask>>, phaseInfo: seq<Entry>,
                   phases: seq<string>, phase: string) returns (found: seq<Opportunity>)
    requires forall p :: p in tasksByPhase <==> PhaseTasks(tasks, p) != []
    requires forall p :: p in tasksByPhase ==> tasksByPhase[p] == PhaseTasks(tasks, p)
    ensures found == PhaseOpportunities(tasks, phaseInfo, phases, phase)
  {
    found := [];
    match Lookup(phaseInfo, phase)
    case None =>
    case Some(info) =>
      if info.isParallel && phase in tasksByPhase {
        var pendingTasks := PendingIds(tasksByPhase[phase]);
        if |pendingTasks| > 1 {
          found := [ExplicitParallel(phase, info.name, pendingTasks,
            "Phase " + phase + " (" + info.name + ") 標記為並行執行")];
        }
      }
      assert PendingIds([]) == [];
      assert found == ExplicitOf(tasks, phase, info);
      if Truthy(info.agent) && !Truthy(info.depends) {
        var siblingPhases := Siblings(phaseInfo, phases, phase, info.agent.value);
        if |siblingPhases| > 0 {
          found := found + [SameAgentParallel([phase] + siblingPhases, info.agent.value,
            "Phase " + phase + " 和 " + Join(siblingPhases, ", ") + " 可由 " + info.agent.value + " 並行執行")];
        }
      }
  }

  /** The reports for one more phase. */
  lemma OverSnoc(tasks: seq<PhaseTask>, table: seq<Entry>, phases: seq<string>, i: nat)
    requires i < |phases|
    ensures OpportunitiesOver(tasks, table, phases, phases[..i + 1])
      == OpportunitiesOver(tasks, table, phases, phases[..i]) + PhaseOpportunities(tasks, table, phases, phases[i])
  {
    assert phases[..i + 1][..i] == phases[..i];
  }

  /** The two loops of `analyzeParallelOpportunities`. */
  method AnalyzeParallelOpportunities(tasks: seq<PhaseTask>, phaseInfo: seq<Entry>) returns (opportunities: seq<Opportunity>)
    ensures opportunities == Opportunities(tasks, phaseInfo)
  {
    var tasksByPhase := GroupByPhase(tasks);
    var phases := ObjectKeys(phaseInfo);
    opportunities := [];
    for i := 0 to |phases|
      invariant opportunities == OpportunitiesOver(tasks, phaseInfo, phases, phases[..i])
    {
      OverSnoc(tasks, phaseInfo, phases, i);
      var found := PhaseTurn(tasks, tasksByPhase, phaseInfo, phases, phases[i]);
      opportunities := opportunities + found;
    }
    assert phases[..|phases|] == phases;
  }

  // ---------------------------------------------------------------------
  // What the analysis reports

  /** Phase `p` is marked parallel and has more than one pending task. */
  predicate ExplicitWanted(tasks: seq<PhaseTask>, table: seq<Entry>, p: string) {
    Lookup(table, p).Some? && Lookup(table, p).value.isParallel && |PendingIds(PhaseTasks(tasks, p))| > 1
  }

  /** One turn adds an explicit report only for its own phase, and only when wanted. */
  lemma TurnExplicit(tasks: seq<PhaseTask>, table: seq<Entry>, phases: seq<string>, k: string, p: string)
    ensures (exists o :: o in PhaseOpportunities(tasks, table, phases, k) && o.ExplicitParallel? && o.phase == p) <==>
      k == p && ExplicitWanted(tasks, table, p)
    ensures forall o :: o in PhaseOpportunities(tasks, table, phases, k) && o.ExplicitParallel? ==>
      && o.phase == k && Lookup(table, k).Some?
      && o.tasks == PendingIds(PhaseTasks(tasks, k)) && o.phaseName == Lookup(table, k).value.name
  {
    match Lookup(table, k)
    case None =>
    case Some(info) =>
      var e := ExplicitOf(tasks, k, info);
      var sa := SameAgentOf(table, phases, k, info);
      assert forall o :: o in sa ==> o.SameAgentParallel?;
      if k == p && ExplicitWanted(tasks, table, p) {
        assert e[0] in e + sa;
      }
  }

  /** The explicit reports of the turns for `ks`. */
  lemma {:induction false} OverExplicit(tasks: seq<PhaseTask>, table: seq<Entry>, phases: seq<string>, ks: seq<string>, p: string)
    ensures (exists o :: o in OpportunitiesOver(tasks, table, phases, ks) && o.ExplicitParallel? && o.phase == p) <==>
      p in ks && ExplicitWanted(tasks, table, p)
    ensures forall o :: o in OpportunitiesOver(tasks, table, phases, ks) && o.ExplicitParallel? ==>
      && Lookup(table, o.phase).Some?
      && o.tasks == PendingIds(PhaseTasks(tasks, o.phase)) && o.phaseName == Lookup(table, o.phase).value.name
  {
    if ks != [] {
      var init := ks[..|ks| - 1];
      var k := ks[|ks| - 1];
      OverExplicit(tasks, table, phases, init, p);
      TurnExplicit(tasks, table, phases, k, p);
      assert ks == init + [k];
    }
  }

  /**
   * A phase is reported as explicitly parallel exactly when its header says
   * `parallel` and more than one of its tasks is pending; the report
   * carries the phase's name and its pending ids in document order.
   */
  lemma ExplicitExactly(tasks: seq<PhaseTask>, table: seq<Entry>, p: string)
    ensures (exists o :: o in Opportunities(tasks, table) && o.ExplicitParallel? && o.phase == p) <==>
      Lookup(table, p).Some? && Lookup(table, p).value.isParallel && |PendingIds(PhaseTasks(tasks, p))| > 1
    ensures forall o :: o in Opportunities(tasks, table) && o.ExplicitParallel? && o.phase == p ==>
      && Lookup(table, p).Some?
      && o.tasks == PendingIds(PhaseTasks(tasks, p)) && o.phaseName == Lookup(table, p).value.name
  {
    var ks := ObjectKeys(table);
    OverExplicit(tasks, table, ks, ks, p);
    ObjectKeysMember(table, p);
  }

  /** Phase `p` names an agent, depends on nothing, and has a sibling under that agent. */
  predicate SameAgentWanted(table: seq<Entry>, phases: seq<string>, p: string) {
    && Lookup(table, p).Some?
    && Truthy(Lookup(table, p).value.agent) && !Truthy(Lookup(table, p).value.depends)
    && |Siblings(table, phases, p, Lookup(table, p).value.agent.value)| > 0
  }

  /** What every same-agent report looks like: its lead phase, then that phase's siblings. */
  predicate SameAgentShape(table: seq<Entry>, phases: seq<string>, o: Opportunity) {
    o.SameAgentParallel? ==>
      && |o.phases| >= 2
      && Lookup(table, o.phases[0]).Some?
      && Lookup(table, o.phases[0]).value.agent == Some(o.agent)
      && !Truthy(Lookup(table, o.phases[0]).value.depends)
      && o.phases[1..] == Siblings(table, phases, o.phases[0], o.agent)
  }

  /** One turn adds a same-agent report only led by its own phase, and only when wanted. */
  lemma TurnSameAgent(tasks: seq<PhaseTask>, table: seq<Entry>, phases: seq<string>, k: string, p: string)
    ensures (exists o :: o in PhaseOpportunities(tasks, table, phases, k) && o.SameAgentParallel? && |o.phases| > 0 && o.phases[0] == p) <==>
      k == p && SameAgentWanted(table, phases, p)
    ensures forall o :: o in PhaseOpportunities(tasks, table, phases, k) ==>
      SameAgentShape(table, phases, o) && (o.SameAgentParallel? ==> o.phases[0] == k)
  {
    match Lookup(table, k)
    case None =>
    case Some(info) =>
      var e := ExplicitOf(tasks, k, info);
      var sa := SameAgentOf(table, phases, k, info);
      assert forall o :: o in e ==> o.ExplicitParallel?;
      if sa != [] {
        assert sa[0].phases[1..] == Siblings(table, phases, k, info.agent.value);
        assert sa[0] in e + sa;
      }
  }

  /** The same-agent reports of the turns for `ks`. */
  lemma {:induction false} OverSameAgent(tasks: seq<PhaseTask>, table: seq<Entry>, phases: seq<string>, ks: seq<string>, p: string)
    ensures (exists o :: o in OpportunitiesOver(tasks, table, phases, ks) && o.SameAgentParallel? && |o.phases| > 0 && o.phases[0] == p) <==>
      p in ks && SameAgentWanted(table, phases, p)
    ensures forall o :: o in OpportunitiesOver(tasks, table, phases, ks) ==> SameAgentShape(table, phases, o)
  {
    if ks != [] {
      var init := ks[..|ks| - 1];
      var k := ks[|ks| - 1];
      OverSameAgent(tasks, table, phases, init, p);
      TurnSameAgent(tasks, table, phases, k, p);
      assert ks == init + [k];
    }
  }

  /**
   * A phase leads a same-agent report exactly when it names an agent,
   * depends on nothing, and another phase names the same agent and depends
   * on nothing.
   */
  lemma SameAgentExactly(tasks: seq<PhaseTask>, table: seq<Entry>, p: string)
    ensures (exists o :: o in Opportunities(tasks, table) && o.SameAgentParallel? && |o.phases| > 0 && o.phases[0] == p) <==>
      && Lookup(table, p).Some?
      && Truthy(Lookup(table, p).value.agent) && !Truthy(Lookup(table, p).value.depends)
      && exists q :: SiblingOf(table, q, p, Lookup(table, p).value.agent.value)
  {
    var ks := ObjectKeys(table);
    OverSameAgent(tasks, table, ks, ks, p);
    ObjectKeysMember(table, p);
    if Lookup(table, p).Some? && Truthy(Lookup(table, p).value.agent) {
      var a := Lookup(table, p).value.agent.value;
      var sib := Siblings(table, ks, p, a);
      if exists q :: SiblingOf(table, q, p, a) {
        var q :| SiblingOf(table, q, p, a);
        ObjectKeysMember(table, q);
        assert q in sib;
      }
      if |sib| > 0 {
        assert sib[0] in sib;
        ObjectKeysMember(table, sib[0]);
      }
    }
  }

  /**
   * A same-agent report names the lead phase's agent and lists every
   * other phase with that agent and no dependency, and no phase besides.
   */
  lemma SameAgentLists(tasks: seq<PhaseTask>, table: seq<Entry>, o: Opportunity)
    requires o in Opportunities(tasks, table) && o.SameAgentParallel?
    ensures |o.phases| >= 2 && Lookup(table, o.phases[0]).Some?
    ensures Lookup(table, o.phases[0]).value.agent == Some(o.agent)
    ensures !Truthy(Lookup(table, o.phases[0]).value.depends)
    ensures o.phases[0] !in o.phases[1..]
    ensures forall q :: q in o.phases[1..] <==> SiblingOf(table, q, o.phases[0], o.agent)
  {
    var ks := ObjectKeys(table);
    OverSameAgent(tasks, table, ks, ks, "");
    assert SameAgentShape(table, ks, o);
    forall q | SiblingOf(table, q, o.phases[0], o.agent)
      ensures q in ks
    {
      ObjectKeysMember(table, q);
    }
  }

  /** A report of that shape leaves out every phase with a dependency. */
  lemma ShapeExcludesDepends(table: seq<Entry>, phases: seq<string>, o: Opportunity, p: string)
    requires o.SameAgentParallel? && SameAgentShape(table, phases, o)
    requires Lookup(table, p).Some? && Truthy(Lookup(table, p).value.depends)
    ensures p !in o.phases
  {
    var sib := Siblings(table, phases, o.phases[0], o.agent);
    assert !SiblingOf(table, p, o.phases[0], o.agent);
    assert p !in sib;
    assert p != o.phases[0];
    forall i | 0 < i < |o.phases|
      ensures o.phases[i] != p
    {
      assert o.phases[1..][i - 1] == o.phases[i];
    }
  }

  /** A phase with a `depends:` option appears in no same-agent report. */
  lemma DependsExcludes(tasks: seq<PhaseTask>, table: seq<Entry>, p: string)
    requires Lookup(table, p).Some? && Truthy(Lookup(table, p).value.depends)
    ensures forall o :: o in Opportunities(tasks, table) && o.SameAgentParallel? ==> p !in o.phases
  {
    var ks := ObjectKeys(table);
    OverSameAgent(tasks, table, ks, ks, p);
    forall o | o in Opportunities(tasks, table) && o.SameAgentParallel?
      ensures p !in o.phases
    {
      ShapeExcludesDepends(table, ks, o, p);
    }
  }

  // ---------------------------------------------------------------------
  // The hook

  /**
   * The whole hook: only a Task call whose lower-cased `subagent_type`
   * contains `architect` is analysed, and only when the workflow state
   * names a tasks file that exists; the result is what it reports.
   */
  function Detect(stored: Option<StateDoc>, files: map<string, string>, input: Option<HookInput>): (r: seq<Opportunity>)
    ensures r != [] ==> input.Some? && input.value.tool == Task
    ensures r != [] ==> Contains(Lower(input.value.toolInput.subagentType), "architect")
  {
    if input.None? || input.value.tool != Task then []
    else if !Contains(Lower(input.value.toolInput.subagentType), "architect") then []
    else
      var state := stored.GetOr(EmptyDoc);
      var tasksFile := if state.taskSync.Some? then state.taskSync.value.tasksFile else "";
      if tasksFile == "" || tasksFile !in files then []
      else
        var parsed := Parse(files[tasksFile]);
        Opportunities(parsed.tasks, parsed.table)
  }

  /** Without a tasks file in the state, or when it does not exist, nothing is reported. */
  lemma NeedsTasksFile(stored: Option<StateDoc>, files: map<string, string>, input: Option<HookInput>)
    requires stored.None? || stored.value.taskSync.None? || stored.value.taskSync.value.tasksFile !in files
    ensures Detect(stored, files, input) == []
  {
  }

  // ---------------------------------------------------------------------
  // The printed reminder

  /** The suggested calls: one per id, for at most the first three. */
  function SuggestedCalls(ids: seq<string>): (lines: seq<string>)
    ensures |lines| == if |ids| < 3 then |ids| else 3
    ensures forall k :: 0 <= k < |lines| ==>
      lines[k] == "   Task(subagent_type: developer, prompt: \"Task " + ids[k] + "...\")"
  {
    var shown := if |ids| < 3 then ids else ids[..3];
    seq(|shown|, k requires 0 <= k < |shown| => "   Task(subagent_type: developer, prompt: \"Task " + shown[k] + "...\")")
  }

  /** The lines printed for the `index`-th report. */
  function OpportunityLines(o: Opportunity, index: nat): seq<string> {
    ["### " + NatToString(index + 1) + ". " + o.message]
      + (if o.ExplicitParallel? then
          ["   可並行的任務: " + Join(o.tasks, ", "), "", "   建議：同時啟動多個 Task agent", "   ```"]
          + SuggestedCalls(o.tasks) + ["   ```"]
         else [])
      + [""]
  }

  function OpportunitiesLines(opps: seq<Opportunity>, from: nat): (lines: seq<string>)
    ensures from <= |opps| ==> |lines| >= 2 * (|opps| - from)
    decreases |opps| - from
  {
    if from >= |opps| then [] else OpportunityLines(opps[from], from) + OpportunitiesLines(opps, from + 1)
  }

  /** `outputParallelOpportunities`: nothing at all when there is nothing to report. */
  function Reminder(opps: seq<Opportunity>): (lines: seq<string>)
    ensures lines == [] <==> opps == []
    ensures opps != [] ==> |lines| >= 8 + 2 * |opps|
  {
    if opps == [] then []
    else
      ["\n",
       "╔══════════════════════════════════════════════════════════════╗",
       "║           ⚡ 偵測到並行執行機會                              ║",
       "╚══════════════════════════════════════════════════════════════╝",
       ""]
      + OpportunitiesLines(opps, 0)
      + ["---", "💡 **提示**: 使用單一訊息發送多個 Task 工具呼叫以實現真正的並行執行", ""]
  }
}
