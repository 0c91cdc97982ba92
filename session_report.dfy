/**
 * The session report (`session-report.js`): at the end of a session it
 * reads the main agent's counters from the state file and the violation
 * log, lists the blocked edit attempts (each file once, at most five
 * shown), and renders the delegation statistics as one message.
 *
 * The violation log's contents arrive as a string; reading one JSON line
 * is the parameter `parse` (`None` where `JSON.parse` throws).
 */
module SessionReport {
  import opened Text
  import opened Workflow

  // ---------------------------------------------------------------------
  // Violation records

  /**
   * One violation record: `type`, `files` ([] when absent) and `reason`
   * ("" when absent or empty).
   */
  datatype Violation = Violation(vtype: string, files: seq<string>, reason: string)

  /** One blocked edit attempt as the report lists it. */
  datatype BlockedEdit = BlockedEdit(file: string, reason: string)

  const DefaultReason := "改用 Task(developer)"

  /** The two record types that describe a refused edit. */
  predicate IsBlockType(vtype: string) {
    vtype == "main_agent_code_edit" || vtype == "blocked_edit"
  }

  /** `violation.reason || '改用 Task(developer)'`. */
  function ReasonOf(v: Violation): string {
    if v.reason != "" then v.reason else DefaultReason
  }

  /** The parsed non-empty lines, in order: the lines that do not parse are dropped. */
  function ParsedLines(lines: seq<string>, parse: string -> Option<Violation>): seq<Violation> {
    if lines == [] then []
    else
      var last := lines[|lines| - 1];
      ParsedLines(lines[..|lines| - 1], parse) + (if last != "" && parse(last).Some? then [parse(last).value] else [])
  }

  /** `loadViolations()`: a missing log holds no violations. */
  function LoadViolations(log: Option<string>, parse: string -> Option<Violation>): seq<Violation> {
    if log.None? then [] else ParsedLines(Split(Trim(log.value), '\n'), parse)
  }

  /**
   * Every loaded violation is what some non-empty line parses to, and every
   * line that parses contributes one: empty and unparseable lines are dropped.
   */
  lemma {:induction false} ParsedLinesExactly(lines: seq<string>, parse: string -> Option<Violation>)
    ensures |ParsedLines(lines, parse)| <= |lines|
    ensures forall v :: v in ParsedLines(lines, parse) <==>
      exists k :: 0 <= k < |lines| && lines[k] != "" && parse(lines[k]) == Some(v)
  {
    if lines != [] {
      var init := lines[..|lines| - 1];
      ParsedLinesExactly(init, parse);
      forall v ensures v in ParsedLines(lines, parse) <==>
        exists k :: 0 <= k < |lines| && lines[k] != "" && parse(lines[k]) == Some(v)
      {
        if v in ParsedLines(init, parse) {
          var k :| 0 <= k < |init| && init[k] != "" && parse(init[k]) == Some(v);
          assert lines[k] == init[k];
        }
        if exists k :: 0 <= k < |lines| && lines[k] != "" && parse(lines[k]) == Some(v) {
          var k :| 0 <= k < |lines| && lines[k] != "" && parse(lines[k]) == Some(v);
          if k < |init| {
            assert init[k] == lines[k];
          }
        }
      }
    }
  }

  /** A log that holds only white space yields no violations. */
  lemma BlankLogNoViolations(log: string, parse: string -> Option<Violation>)
    requires IsBlank(log)
    ensures LoadViolations(Some(log), parse) == []
  {
    TrimEmpty(log);
    assert Split("", '\n') == [""];
    assert ParsedLines([""], parse) == ParsedLines([], parse);
  }

  // ---------------------------------------------------------------------
  // Blocked edits

  /** One entry per file, all with the same reason. */
  function Tagged(files: seq<string>, reason: string): (r: seq<BlockedEdit>)
    ensures |r| == |files|
    ensures forall k :: 0 <= k < |files| ==> r[k] == BlockedEdit(files[k], reason)
  {
    if files == [] then [] else Tagged(files[..|files| - 1], reason) + [BlockedEdit(files[|files| - 1], reason)]
  }

  /** The entries before de-duplication: one per file of each refused-edit record. */
  function BlockedOf(vs: seq<Violation>): seq<BlockedEdit> {
    if vs == [] then []
    else
      var last := vs[|vs| - 1];
      BlockedOf(vs[..|vs| - 1]) + (if IsBlockType(last.vtype) then Tagged(last.files, ReasonOf(last)) else [])
  }

  /** The record `v` lists the entry `e`. */
  predicate Names(v: Violation, e: BlockedEdit) {
    IsBlockType(v.vtype) && e.file in v.files && e.reason == ReasonOf(v)
  }

  lemma TaggedMember(files: seq<string>, reason: string, e: BlockedEdit)
    ensures e in Tagged(files, reason) <==> e.file in files && e.reason == reason
  {
    if e.file in files && e.reason == reason {
      var k :| 0 <= k < |files| && files[k] == e.file;
      assert Tagged(files, reason)[k] == e;
    }
  }

  lemma TaggedSnoc(files: seq<string>, f: string, reason: string)
    ensures Tagged(files + [f], reason) == Tagged(files, reason) + [BlockedEdit(f, reason)]
  {
    assert (files + [f])[..|files|] == files;
  }

  lemma BlockedOfSnoc(vs: seq<Violation>, v: Violation)
    ensures BlockedOf(vs + [v]) == BlockedOf(vs) + (if IsBlockType(v.vtype) then Tagged(v.files, ReasonOf(v)) else [])
  {
    assert (vs + [v])[..|vs|] == vs;
  }

  lemma NamedSnoc(vs: seq<Violation>, v: Violation, e: BlockedEdit)
    ensures (exists i :: 0 <= i < |vs + [v]| && Names((vs + [v])[i], e))
      <==> (exists i :: 0 <= i < |vs| && Names(vs[i], e)) || Names(v, e)
  {
    if exists i :: 0 <= i < |vs| && Names(vs[i], e) {
      var i :| 0 <= i < |vs| && Names(vs[i], e);
      assert (vs + [v])[i] == vs[i];
    }
    if Names(v, e) {
      assert (vs + [v])[|vs|] == v;
    }
    if exists i :: 0 <= i < |vs + [v]| && Names((vs + [v])[i], e) {
      var i :| 0 <= i < |vs + [v]| && Names((vs + [v])[i], e);
      if i < |vs| {
        assert vs[i] == (vs + [v])[i];
      }
    }
  }

  /** An entry is listed exactly when some refused-edit record names its file with its reason. */
  lemma {:induction false} BlockedOfExactly(vs: seq<Violation>)
    ensures forall e :: e in BlockedOf(vs) <==> exists i :: 0 <= i < |vs| && Names(vs[i], e)
  {
    if vs != [] {
      var init := vs[..|vs| - 1];
      var last := vs[|vs| - 1];
      assert vs == init + [last];
      BlockedOfExactly(init);
      BlockedOfSnoc(init, last);
      forall e ensures e in BlockedOf(vs) <==> exists i :: 0 <= i < |vs| && Names(vs[i], e) {
        TaggedMember(last.files, ReasonOf(last), e);
        NamedSnoc(init, last, e);
      }
    }
  }
  /** The files of some entries. */
  function FileSet(xs: seq<BlockedEdit>): set<string> {
    set k | 0 <= k < |xs| :: xs[k].file
  }

  /** The entries with each file once, the first one seen winning. */
  function UniqueByFile(xs: seq<BlockedEdit>): seq<BlockedEdit> {
    if xs == [] then []
    else
      var u := UniqueByFile(xs[..|xs| - 1]);
      var last := xs[|xs| - 1];
      if last.file in FileSet(u) then u else u + [last]
  }

  /** Where the first entry for `f` sits (`|xs|` when there is none). */
  function FirstIndex(xs: seq<BlockedEdit>, f: string): (r: nat)
    ensures r <= |xs| && (r < |xs| ==> xs[r].file == f)
    ensures forall k :: 0 <= k < r ==> xs[k].file != f
    ensures r == |xs| <==> f !in FileSet(xs)
  {
    if xs == [] then 0
    else if xs[0].file == f then 0
    else
      var r := 1 + FirstIndex(xs[1..], f);
      assert forall k :: 1 <= k < |xs| ==> xs[k] == xs[1..][k - 1];
      assert f in FileSet(xs) ==> f in FileSet(xs[1..]) by {
        if f in FileSet(xs) {
          var k :| 0 <= k < |xs| && xs[k].file == f;
          assert xs[1..][k - 1].file == f;
        }
      }
      r
  }

  /** Growing the entries keeps the first index of a file already present. */
  lemma FirstIndexSnoc(xs: seq<BlockedEdit>, x: BlockedEdit, f: string)
    requires f in FileSet(xs)
    ensures FirstIndex(xs + [x], f) == FirstIndex(xs, f)
  {
    var r := FirstIndex(xs, f);
    var r' := FirstIndex(xs + [x], f);
    assert (xs + [x])[r] == xs[r];
    assert r' <= r;
    assert (xs + [x])[r'] == xs[r'];
  }

  lemma FileSetSnoc(xs: seq<BlockedEdit>, x: BlockedEdit)
    ensures FileSet(xs + [x]) == FileSet(xs) + {x.file}
  {
    forall f | f in FileSet(xs + [x]) ensures f in FileSet(xs) + {x.file} {
      var k :| 0 <= k < |xs| + 1 && (xs + [x])[k].file == f;
      if k < |xs| {
        assert xs[k] == (xs + [x])[k];
      }
    }
    forall f | f in FileSet(xs) ensures f in FileSet(xs + [x]) {
      var k :| 0 <= k < |xs| && xs[k].file == f;
      assert (xs + [x])[k] == xs[k];
    }
    assert (xs + [x])[|xs|] == x;
  }

  lemma UniqueByFileSnoc(xs: seq<BlockedEdit>, x: BlockedEdit)
    ensures UniqueByFile(xs + [x])
      == if x.file in FileSet(UniqueByFile(xs)) then UniqueByFile(xs) else UniqueByFile(xs) + [x]
  {
    assert (xs + [x])[..|xs|] == xs;
  }

  /** A new file's first entry is the one just added. */
  lemma FirstIndexNew(xs: seq<BlockedEdit>, x: BlockedEdit)
    requires x.file !in FileSet(xs)
    ensures FirstIndex(xs + [x], x.file) == |xs|
  {
    assert (xs + [x])[|xs|] == x;
    forall k | 0 <= k < |xs| ensures (xs + [x])[k].file != x.file {
      assert (xs + [x])[k] == xs[k];
      assert xs[k].file in FileSet(xs);
    }
  }

  /** De-duplication keeps every file. */
  lemma {:induction false} UniqueKeepsFiles(xs: seq<BlockedEdit>)
    ensures FileSet(UniqueByFile(xs)) == FileSet(xs)
  {
    if xs != [] {
      var init := xs[..|xs| - 1];
      var last := xs[|xs| - 1];
      assert xs == init + [last];
      UniqueKeepsFiles(init);
      UniqueByFileSnoc(init, last);
      FileSetSnoc(init, last);
      if last.file !in FileSet(UniqueByFile(init)) {
        FileSetSnoc(UniqueByFile(init), last);
      }
    }
  }

  /** De-duplication lists no file twice. */
  lemma {:induction false} UniqueDistinct(xs: seq<BlockedEdit>)
    ensures var r := UniqueByFile(xs); forall i, j :: 0 <= i < j < |r| ==> r[i].file != r[j].file
  {
    if xs != [] {
      var init := xs[..|xs| - 1];
      var last := xs[|xs| - 1];
      assert xs == init + [last];
      UniqueDistinct(init);
      UniqueByFileSnoc(init, last);
      var u := UniqueByFile(init);
      if last.file !in FileSet(u) {
        var r := u + [last];
        forall i, j | 0 <= i < j < |r| ensures r[i].file != r[j].file {
          assert r[i] == u[i];
          if j == |u| {
            assert u[i].file in FileSet(u);
          } else {
            assert r[j] == u[j];
          }
        }
      }
    }
  }

  /** Each kept entry is the first one for its file. */
  lemma {:induction false} UniqueFirstWins(xs: seq<BlockedEdit>)
    ensures var r := UniqueByFile(xs);
      forall i :: 0 <= i < |r| ==> FirstIndex(xs, r[i].file) < |xs| && r[i] == xs[FirstIndex(xs, r[i].file)]
  {
    if xs != [] {
      var init := xs[..|xs| - 1];
      var last := xs[|xs| - 1];
      assert xs == init + [last];
      UniqueFirstWins(init);
      UniqueByFileSnoc(init, last);
      UniqueKeepsFiles(init);
      var u := UniqueByFile(init);
      forall i | 0 <= i < |u|
        ensures FirstIndex(xs, u[i].file) < |xs| && u[i] == xs[FirstIndex(xs, u[i].file)]
      {
        assert u[i].file in FileSet(u);
        FirstIndexSnoc(init, last, u[i].file);
        assert xs[FirstIndex(init, u[i].file)] == init[FirstIndex(init, u[i].file)];
      }
      if last.file !in FileSet(u) {
        FirstIndexNew(init, last);
      }
    }
  }

  /** One more entry moves no kept file's first index. */
  lemma KeptIndicesStay(init: seq<BlockedEdit>, last: BlockedEdit)
    ensures var u := UniqueByFile(init);
      forall i :: 0 <= i < |u| ==> FirstIndex(init + [last], u[i].file) == FirstIndex(init, u[i].file) < |init|
  {
    UniqueKeepsFiles(init);
    var u := UniqueByFile(init);
    forall i | 0 <= i < |u| ensures FirstIndex(init + [last], u[i].file) == FirstIndex(init, u[i].file) < |init| {
      assert u[i].file in FileSet(u);
      FirstIndexSnoc(init, last, u[i].file);
    }
  }

  /** Kept entries stay in the order their files first appear. */
  lemma {:induction false} UniqueKeepsOrder(xs: seq<BlockedEdit>)
    ensures var r := UniqueByFile(xs);
      forall i, j :: 0 <= i < j < |r| ==> FirstIndex(xs, r[i].file) < FirstIndex(xs, r[j].file)
  {
    if xs != [] {
      var init := xs[..|xs| - 1];
      var last := xs[|xs| - 1];
      assert xs == init + [last];
      UniqueKeepsOrder(init);
      UniqueByFileSnoc(init, last);
      UniqueKeepsFiles(init);
      KeptIndicesStay(init, last);
      var u := UniqueByFile(init);
      if last.file !in FileSet(u) {
        FirstIndexNew(init, last);
        var r := u + [last];
        forall i, j | 0 <= i < j < |r| ensures FirstIndex(xs, r[i].file) < FirstIndex(xs, r[j].file) {
          assert r[i] == u[i];
          if j < |u| {
            assert r[j] == u[j];
          }
        }
      }
    }
  }

  /** The first loop of `filterBlockedEdits`: one entry per listed file. */
  method CollectBlocked(violations: seq<Violation>) returns (blocked: seq<BlockedEdit>)
    ensures blocked == BlockedOf(violations)
  {
    blocked := [];
    for i := 0 to |violations|
      invariant blocked == BlockedOf(violations[..i])
    {
      var v := violations[i];
      assert violations[..i + 1] == violations[..i] + [v];
      BlockedOfSnoc(violations[..i], v);
      if IsBlockType(v.vtype) {
        var reason := if v.reason != "" then v.reason else DefaultReason;
        blocked := PushTagged(blocked, v.files, reason);
      }
    }
    assert violations[..|violations|] == violations;
  }

  /** The inner loop: one entry per file of a record, all with its reason. */
  method PushTagged(blocked: seq<BlockedEdit>, files: seq<string>, reason: string) returns (r: seq<BlockedEdit>)
    ensures r == blocked + Tagged(files, reason)
  {
    r := blocked;
    for j := 0 to |files|
      invariant r == blocked + Tagged(files[..j], reason)
    {
      assert files[..j + 1] == files[..j] + [files[j]];
      TaggedSnoc(files[..j], files[j], reason);
      r := r + [BlockedEdit(files[j], reason)];
    }
    assert files[..|files|] == files;
  }

  /** The second loop of `filterBlockedEdits`: the `seen` set keeps each file once. */
  method KeepFirstPerFile(blocked: seq<BlockedEdit>) returns (unique: seq<BlockedEdit>)
    ensures unique == UniqueByFile(blocked)
  {
    unique := [];
    var seen: set<string> := {};
    for i := 0 to |blocked|
      invariant unique == UniqueByFile(blocked[..i])
      invariant seen == FileSet(unique)
    {
      var item := blocked[i];
      assert blocked[..i + 1] == blocked[..i] + [item];
      UniqueByFileSnoc(blocked[..i], item);
      FileSetSnoc(unique, item);
      if item.file !in seen {
        seen := seen + {item.file};
        unique := unique + [item];
      }
    }
    assert blocked[..|blocked|] == blocked;
  }

  /** `filterBlockedEdits(violations)`: collect, then keep each file once. */
  method FilterBlockedEdits(violations: seq<Violation>) returns (unique: seq<BlockedEdit>)
    ensures unique == UniqueByFile(BlockedOf(violations))
  {
    var blocked := CollectBlocked(violations);
    unique := KeepFirstPerFile(blocked);
  }

  // ---------------------------------------------------------------------
  // Rendering

  const MaxPathLength := 50
  const MaxBlockedDisplay := 5
  const SeparatorLine := Repeat('─', 63)

  /**
   * `shortenPath(filePath)`: `length` and `slice` count UTF-16 code units,
   * so the limits are in units too.
   */
  function ShortenPath(p: string): string {
    if p == "" then "(未知檔案)"
    else if Utf16Length(p) <= MaxPathLength then p
    else "..." + LastUnits(p, MaxPathLength - 3)
  }

  /**
   * A short path is kept, a missing one gets a placeholder, and a long
   * one keeps the end of it that fits in 47 code units behind `...`: 47
   * units, or 46 when a surrogate pair straddles the cut. Never more than
   * 50 units in all.
   */
  lemma ShortenPathShape(p: string)
    ensures Utf16Length(ShortenPath(p)) <= MaxPathLength
    ensures p != "" && Utf16Length(p) <= MaxPathLength ==> ShortenPath(p) == p
    ensures p == "" ==> ShortenPath(p) == "(未知檔案)"
    ensures Utf16Length(p) > MaxPathLength ==>
      && StartsWith(ShortenPath(p), "...") && EndsWith(p, ShortenPath(p)[3..])
      && MaxPathLength - 4 <= Utf16Length(ShortenPath(p)[3..]) <= MaxPathLength - 3
  {
    var r := ShortenPath(p);
    if p == "" {
      Utf16LengthOfBmp(r);
    } else if Utf16Length(p) > MaxPathLength {
      var tail := LastUnits(p, MaxPathLength - 3);
      Utf16LengthAppend("...", tail);
      assert r[3..] == tail;
      assert tail != p;
    }
  }

  /** A path inside the Basic Multilingual Plane is shortened to exactly 50 characters, its last 47 behind `...`. */
  lemma ShortenBmpPath(p: string)
    requires forall i :: 0 <= i < |p| ==> p[i] as int <= 0xFFFF
    requires |p| > MaxPathLength
    ensures ShortenPath(p) == "..." + p[|p| - (MaxPathLength - 3)..]
    ensures |ShortenPath(p)| == MaxPathLength
  {
    Utf16LengthOfBmp(p);
    ShortenLong(p);
    LastUnitsOfBmp(p, MaxPathLength - 3);
  }

  /** A path longer than 50 code units is its last 47 units behind `...`. */
  lemma ShortenLong(p: string)
    requires Utf16Length(p) > MaxPathLength
    ensures ShortenPath(p) == "..." + LastUnits(p, MaxPathLength - 3)
  {
  }

  /** `Math.floor(n / m)` on integers, for either sign of `m`. */
  function FloorDiv(n: int, m: int): (q: int)
    requires m != 0
    ensures m * q <= n < m * q + m || m * q + m < n <= m * q
  {
    if m > 0 then n / m else (-n) / (-m)
  }

  /** `Math.round(100 * d / t)` on the exact quotient: round half up. */
  function Percent(d: int, t: int): int
    requires t != 0
  {
    FloorDiv(200 * d + t, 2 * t)
  }

  /** The rounding: `p` is the whole number nearest to `100·d/t`, halves going up. */
  lemma PercentRounds(d: int, t: int)
    requires t > 0
    ensures 2 * Percent(d, t) * t - t <= 200 * d < 2 * Percent(d, t) * t + t
  {
  }

  /** Cancelling a positive factor keeps a strict order. */
  lemma MulCancel(m: int, q: int, c: int)
    requires m > 0 && m * q < m * c
    ensures q < c
  {
    assert m * (c - q) == m * c - m * q;
  }

  /** A share of a positive total is a percentage between 0 and 100. */
  lemma PercentBounds(d: int, t: int)
    requires 0 <= d <= t && t > 0
    ensures 0 <= Percent(d, t) <= 100
  {
    var p := Percent(d, t);
    PercentRounds(d, t);
    assert (2 * t) * p < (2 * t) * 101 && (2 * t) * (-1) < (2 * t) * p by {
      assert 2 * p * t - t <= 200 * t;
      assert -t <= 200 * d < 2 * p * t + t;
    }
    MulCancel(2 * t, p, 101);
    MulCancel(2 * t, -1, p);
  }

  /** `calculateDelegationRate(delegated, directEdits)`. */
  function DelegationRate(delegated: int, directEdits: int): string {
    var total := delegated + directEdits;
    if total == 0 then "0/0 (N/A)"
    else IntToString(delegated) + "/" + IntToString(total) + " (" + IntToString(Percent(delegated, total)) + "%)"
  }

  /** No work gives no rate; otherwise the rate is written over the total. */
  lemma DelegationRateShape(delegated: int, directEdits: int)
    ensures delegated + directEdits == 0 <==> DelegationRate(delegated, directEdits) == "0/0 (N/A)"
    ensures delegated + directEdits != 0 ==>
      StartsWith(DelegationRate(delegated, directEdits), IntToString(delegated) + "/" + IntToString(delegated + directEdits) + " (")
  {
    if delegated + directEdits != 0 {
      RateOverTotal(delegated, directEdits);
    }
  }

  lemma RateOverTotal(delegated: int, directEdits: int)
    requires delegated + directEdits != 0
    ensures var head := IntToString(delegated) + "/" + IntToString(delegated + directEdits) + " (";
      var r := DelegationRate(delegated, directEdits);
      StartsWith(r, head) && r != "0/0 (N/A)"
  {
    var total := delegated + directEdits;
    var r := DelegationRate(delegated, directEdits);
    var head := IntToString(delegated) + "/" + IntToString(total) + " (";
    var tail := IntToString(Percent(delegated, total)) + "%)";
    assert r == head + tail;
    assert r[..|head|] == head;
    assert r[|r| - 2] == tail[|tail| - 2] == '%';
    assert "0/0 (N/A)"[7] == 'A';
  }

  /** The line for one listed blocked entry. */
  function BlockedLine(b: BlockedEdit): string {
    "  - " + ShortenPath(b.file) + " → " + b.reason
  }

  /** The blocked section: the count, at most five entries, and how many more. */
  function BlockedLines(blocked: int, edits: seq<BlockedEdit>): seq<string> {
    if blocked > 0 then
      var shown := if |edits| < MaxBlockedDisplay then |edits| else MaxBlockedDisplay;
      ["嘗試違規被阻擋: " + IntToString(blocked)]
      + seq(shown, i requires 0 <= i < shown => BlockedLine(edits[i]))
      + (if |edits| > MaxBlockedDisplay
         then ["  - ... 還有 " + IntToString(|edits| - MaxBlockedDisplay) + " 個被阻擋的嘗試"] else [])
    else ["嘗試違規被阻擋: 0"]
  }

  /** The lines of the report, in order. */
  function ReportLines(ops: Ops, edits: seq<BlockedEdit>): seq<string> {
    ["## 📋 委派統計", SeparatorLine,
     "Main 直接操作: " + IntToString(ops.directEdits) + " (允許的檔案)",
     "委派至 Sub Agent: " + IntToString(ops.delegated)]
    + BlockedLines(ops.blocked, edits)
    + (if ops.bypassed > 0 then ["Bypass 使用: " + IntToString(ops.bypassed)] else [])
    + ["委派率: " + DelegationRate(ops.delegated, ops.directEdits), SeparatorLine]
  }

  /** `generateReport`'s line building, push by push. */
  method BuildReportLines(ops: Ops, edits: seq<BlockedEdit>) returns (lines: seq<string>)
    ensures lines == ReportLines(ops, edits)
  {
    lines := ["## 📋 委派統計", SeparatorLine,
              "Main 直接操作: " + IntToString(ops.directEdits) + " (允許的檔案)",
              "委派至 Sub Agent: " + IntToString(ops.delegated)];
    var section := BuildBlockedLines(ops.blocked, edits);
    lines := lines + section;
    if ops.bypassed > 0 {
      lines := lines + ["Bypass 使用: " + IntToString(ops.bypassed)];
    }
    lines := lines + ["委派率: " + DelegationRate(ops.delegated, ops.directEdits), SeparatorLine];
  }

  /** The blocked section's pushes: the count, then one line per shown entry. */
  method BuildBlockedLines(blocked: int, edits: seq<BlockedEdit>) returns (lines: seq<string>)
    ensures lines == BlockedLines(blocked, edits)
  {
    if blocked > 0 {
      var displayCount := if |edits| < MaxBlockedDisplay then |edits| else MaxBlockedDisplay;
      lines := PushEntries(["嘗試違規被阻擋: " + IntToString(blocked)], edits, displayCount);
      var more := if |edits| > MaxBlockedDisplay
        then ["  - ... 還有 " + IntToString(|edits| - MaxBlockedDisplay) + " 個被阻擋的嘗試"] else [];
      SectionOf(blocked, edits, lines, more);
      lines := lines + more;
    } else {
      lines := ["嘗試違規被阻擋: 0"];
    }
  }

  /** The `for` loop over the shown entries: one line pushed per entry. */
  method PushEntries(start: seq<string>, edits: seq<BlockedEdit>, count: nat) returns (lines: seq<string>)
    requires count <= |edits|
    ensures |lines| == |start| + count && lines[..|start|] == start
    ensures forall k :: 0 <= k < count ==> lines[|start| + k] == BlockedLine(edits[k])
  {
    lines := start;
    for i := 0 to count
      invariant |lines| == |start| + i && lines[..|start|] == start
      invariant forall k :: 0 <= k < i ==> lines[|start| + k] == BlockedLine(edits[k])
    {
      lines := lines + [BlockedLine(edits[i])];
    }
  }

  /** The count line and the shown entries, followed by the "more" line when there is one, are the section. */
  lemma SectionOf(blocked: int, edits: seq<BlockedEdit>, lines: seq<string>, more: seq<string>)
    requires blocked > 0
    requires |lines| == 1 + (if |edits| < MaxBlockedDisplay then |edits| else MaxBlockedDisplay)
    requires lines[0] == "嘗試違規被阻擋: " + IntToString(blocked)
    requires forall k :: 0 <= k < |lines| - 1 ==> lines[1 + k] == BlockedLine(edits[k])
    requires more == if |edits| > MaxBlockedDisplay
      then ["  - ... 還有 " + IntToString(|edits| - MaxBlockedDisplay) + " 個被阻擋的嘗試"] else []
    ensures lines + more == BlockedLines(blocked, edits)
  {
    var shown := seq(|lines| - 1, k requires 0 <= k < |lines| - 1 => BlockedLine(edits[k]));
    assert lines == [lines[0]] + shown by {
      assert forall k :: 0 <= k < |lines| - 1 ==> lines[1 + k] == shown[k];
    }
  }

  /**
   * With nothing blocked the section is the single zero line; otherwise
   * the count line, at most five entries, and one "more" line exactly
   * when there are more than five.
   */
  lemma BlockedLinesCount(blocked: int, edits: seq<BlockedEdit>)
    ensures blocked <= 0 ==> BlockedLines(blocked, edits) == ["嘗試違規被阻擋: 0"]
    ensures blocked > 0 ==>
      |BlockedLines(blocked, edits)| ==
        1 + (if |edits| < MaxBlockedDisplay then |edits| else MaxBlockedDisplay) + (if |edits| > MaxBlockedDisplay then 1 else 0)
    ensures blocked > 0 ==> forall i :: 1 <= i <= |edits| && i <= MaxBlockedDisplay ==>
      BlockedLines(blocked, edits)[i] == BlockedLine(edits[i - 1])
  {
  }

  /** The bypass line: the only line that starts with `B`. */
  predicate IsBypassLine(line: string) {
    |line| > 0 && line[0] == 'B'
  }

  /** The report has a bypass line exactly when a bypass was used. */
  lemma BypassLineIff(ops: Ops, edits: seq<BlockedEdit>)
    ensures (exists i :: 0 <= i < |ReportLines(ops, edits)| && IsBypassLine(ReportLines(ops, edits)[i])) <==> ops.bypassed > 0
  {
    var lines := ReportLines(ops, edits);
    var head := ["## 📋 委派統計", SeparatorLine,
      "Main 直接操作: " + IntToString(ops.directEdits) + " (允許的檔案)",
      "委派至 Sub Agent: " + IntToString(ops.delegated)];
    var b := BlockedLines(ops.blocked, edits);
    var tail := ["委派率: " + DelegationRate(ops.delegated, ops.directEdits), SeparatorLine];
    assert SeparatorLine[0] == '─';
    assert NoBypassLine(head) && NoBypassLine(tail);
    BlockedLinesPlain(ops.blocked, edits);
    NoBypassLineAppend(head, b);
    if ops.bypassed > 0 {
      var bypass := ["Bypass 使用: " + IntToString(ops.bypassed)];
      assert lines == head + b + bypass + tail;
      assert lines[|head + b|] == bypass[0];
    } else {
      assert lines == head + b + tail;
      NoBypassLineAppend(head + b, tail);
    }
  }

  predicate NoBypassLine(lines: seq<string>) {
    forall i :: 0 <= i < |lines| ==> !IsBypassLine(lines[i])
  }

  lemma NoBypassLineAppend(a: seq<string>, b: seq<string>)
    requires NoBypassLine(a) && NoBypassLine(b)
    ensures NoBypassLine(a + b)
  {
    forall i | 0 <= i < |a + b| ensures !IsBypassLine((a + b)[i]) {
      if i >= |a| {
        assert (a + b)[i] == b[i - |a|];
      }
    }
  }

  /** Every line of the blocked section starts with `嘗` or a space. */
  lemma BlockedLinesPlain(blocked: int, edits: seq<BlockedEdit>)
    ensures NoBypassLine(BlockedLines(blocked, edits))
  {
  }

  /** The report frames its lines with the separator and ends with the rate. */
  lemma ReportFrame(ops: Ops, edits: seq<BlockedEdit>)
    ensures var lines := ReportLines(ops, edits);
      && |lines| >= 7 && lines[1] == SeparatorLine && lines[|lines| - 1] == SeparatorLine
      && lines[|lines| - 2] == "委派率: " + DelegationRate(ops.delegated, ops.directEdits)
  {
  }

  // ---------------------------------------------------------------------
  // The hook

  /** The report for a state and a violation log; `None` without counters. */
  function ReportOf(stored: Option<StateDoc>, log: Option<string>, parse: string -> Option<Violation>): Option<string> {
    if stored.None? || stored.value.mainAgentOps.None? then None
    else
      var edits := UniqueByFile(BlockedOf(LoadViolations(log, parse)));
      Some(Join(ReportLines(stored.value.mainAgentOps.value, edits), "\n"))
  }

  /** `main()`: the message the hook prints, if any. */
  method Report(stored: Option<StateDoc>, log: Option<string>, parse: string -> Option<Violation>)
    returns (message: Option<string>)
    ensures message == ReportOf(stored, log, parse)
    ensures message.None? <==> stored.None? || stored.value.mainAgentOps.None?
  {
    if stored.None? || stored.value.mainAgentOps.None? {
      return None;
    }
    var violations := LoadViolations(log, parse);
    var edits := FilterBlockedEdits(violations);
    var lines := BuildReportLines(stored.value.mainAgentOps.value, edits);
    message := Some(Join(lines, "\n"));
  }
}
