/**
 * The two line patterns of the parallel-opportunity detector
 * (`parallel-opportunity-detector.js`), a stricter reading of `tasks.md`
 * than the checklist synchroniser's. As in `TaskGrammar`, each regular
 * expression is written out as a matcher that makes the JavaScript
 * engine's choices: greedy parts give back one character at a time, lazy
 * parts grow one character at a time, and the first way to reach the end
 * of the line wins. Neither pattern has a flag, so `$` is the end of the
 * line and letters are compared exactly.
 */
module ParallelGrammar {
  import opened Text

  // ---------------------------------------------------------------------
  // Phase headers: /^##\s+(\d+)\.\s+(.+?)(?:\s+\((.*?)\))?$/

  /** What a header match captures: the number, the name and the options text. */
  datatype PhaseHeader = PhaseHeader(number: string, name: string, options: Option<string>)

  /** `(.*?)\)$` from `start`, with `n` characters tried and then more. */
  function OptionsText(line: string, start: nat, n: nat): (o: Option<string>)
    requires start + n <= |line|
    requires forall k :: start <= k < start + n ==> IsDotChar(line[k])
    ensures o.Some? ==> AllDot(o.value) && start + |o.value| + 1 == |line| && line[|line| - 1] == ')'
    ensures o.Some? ==> o.value == line[start..|line| - 1]
    decreases |line| - start - n
  {
    if start + n >= |line| then None
    else if line[start + n] == ')' && start + n + 1 == |line| then
      Some(line[start..start + n])
    else if IsDotChar(line[start + n]) then OptionsText(line, start, n + 1)
    else None
  }

  /** `\s+\((.*?)\)$` from `p`, with `k` leading spaces taken, then fewer. */
  function OptionsGroup(line: string, p: nat, k: nat): (o: Option<string>)
    requires p + k <= |line|
    ensures o.Some? ==> AllDot(o.value) && p < |line| && line[|line| - 1] == ')'
    decreases k
  {
    if k == 0 then None
    else if p + k < |line| && line[p + k] == '(' then
      match OptionsText(line, p + k + 1, 0)
      case Some(o) => Some(o)
      case None => OptionsGroup(line, p, k - 1)
    else OptionsGroup(line, p, k - 1)
  }

  /**
   * `(?:\s+\((.*?)\))?$` from `p` to the end of the line: `None` when it
   * fails, otherwise the options text, if the group took part.
   */
  function HeaderEnd(line: string, p: nat): (r: Option<Option<string>>)
    requires p <= |line|
    ensures r == Some(None) <==> p == |line|
    ensures r.Some? && r.value.Some? ==> AllDot(r.value.value) && p < |line| && line[|line| - 1] == ')'
  {
    match OptionsGroup(line, p, SpaceRun(line, p))
    case Some(o) => Some(Some(o))
    case None => if p == |line| then Some(None) else None
  }

  /** The lazy name `(.+?)` from `pos`, tried with `t` characters and then more. */
  function PhaseNameFrom(line: string, number: string, pos: nat, t: nat): (h: Option<PhaseHeader>)
    requires pos <= |line| && t >= 1
    requires forall k :: pos <= k < pos + t - 1 && k < |line| ==> IsDotChar(line[k])
    ensures h.Some? ==> h.value.number == number && |h.value.name| >= 1 && AllDot(h.value.name)
    decreases |line| - t
  {
    if pos + t > |line| then None
    else if !IsDotChar(line[pos + t - 1]) then None
    else
      match HeaderEnd(line, pos + t)
      case Some(o) => Some(PhaseHeader(number, line[pos..pos + t], o))
      case None => PhaseNameFrom(line, number, pos, t + 1)
  }

  /** `\s+` after the dot, with `k` spaces taken, then fewer. */
  function AfterDot(line: string, number: string, q: nat, k: nat): (h: Option<PhaseHeader>)
    requires q + k <= |line|
    ensures h.Some? ==> h.value.number == number && |h.value.name| >= 1 && AllDot(h.value.name)
    decreases k
  {
    if k == 0 then None
    else
      match PhaseNameFrom(line, number, q + k, 1)
      case Some(h) => Some(h)
      case None => AfterDot(line, number, q, k - 1)
  }

  /** `(\d+)\.` at `p`, with `d` digits taken, then fewer. */
  function NumberDigits(line: string, p: nat, d: nat): (h: Option<PhaseHeader>)
    requires p + d <= |line|
    requires forall k :: p <= k < p + d ==> IsDigit(line[k])
    ensures h.Some? ==> AllDigits(h.value.number) && |h.value.name| >= 1 && AllDot(h.value.name)
    decreases d
  {
    if d == 0 then None
    else if p + d < |line| && line[p + d] == '.' then
      match AfterDot(line, line[p..p + d], p + d + 1, SpaceRun(line, p + d + 1))
      case Some(h) => Some(h)
      case None => NumberDigits(line, p, d - 1)
    else NumberDigits(line, p, d - 1)
  }

  /** `\s+` after `##`, with `k` spaces taken, then fewer. */
  function AfterHashes(line: string, k: nat): (h: Option<PhaseHeader>)
    requires 2 + k <= |line|
    ensures h.Some? ==> AllDigits(h.value.number) && |h.value.name| >= 1 && AllDot(h.value.name)
    decreases k
  {
    if k == 0 then None
    else
      match NumberDigits(line, 2 + k, DigitRun(line, 2 + k))
      case Some(h) => Some(h)
      case None => AfterHashes(line, k - 1)
  }

  /** The phase-header pattern against one line. */
  function MatchPhaseHeader(line: string): (h: Option<PhaseHeader>)
    ensures h.Some? ==> StartsWith(line, "##") && |line| > 2 && IsSpace(line[2])
    ensures h.Some? ==> AllDigits(h.value.number) && |h.value.name| >= 1 && AllDot(h.value.name)
  {
    if !StartsWith(line, "##") then None
    else AfterHashes(line, SpaceRun(line, 2))
  }

  // ---------------------------------------------------------------------
  // Task items: /^-\s+\[([ x~])\]\s+(\d+\.\d+)\s+(.+?)(?:\s+\|.*)?$/

  /** What a task match captures: the mark, the `n.m` id and the name. */
  datatype PhaseTaskLine = PhaseTaskLine(mark: char, id: string, name: string)

  /** The marks `[ x~]` admits; `X` and `>` are not among them. */
  predicate IsPhaseMark(c: char) {
    c == ' ' || c == 'x' || c == '~'
  }

  /** A two-level id `\d+\.\d+`. */
  predicate IsTwoLevelId(id: string) {
    exists d :: 0 < d < |id| && id[d] == '.' && AllDigits(id[..d]) && AllDigits(id[d + 1..])
  }

  /** `\s+\|.*` from `p`, with `k` leading spaces taken, then fewer. */
  predicate PipeGroup(line: string, p: nat, k: nat)
    requires p + k <= |line|
    decreases k
  {
    if k == 0 then false
    else if p + k < |line| && line[p + k] == '|' && AllDot(line[p + k + 1..]) then true
    else PipeGroup(line, p, k - 1)
  }

  /** `(?:\s+\|.*)?$` from `p` to the end of the line. */
  predicate TaskEnd(line: string, p: nat)
    requires p <= |line|
  {
    PipeGroup(line, p, SpaceRun(line, p)) || p == |line|
  }

  /** The lazy name `(.+?)` from `pos`, tried with `t` characters and then more. */
  function TaskNameFrom(line: string, mark: char, id: string, pos: nat, t: nat): (r: Option<PhaseTaskLine>)
    requires pos <= |line| && t >= 1
    requires forall k :: pos <= k < pos + t - 1 && k < |line| ==> IsDotChar(line[k])
    ensures r.Some? ==> r.value.mark == mark && r.value.id == id && |r.value.name| >= 1 && AllDot(r.value.name)
    decreases |line| - t
  {
    if pos + t > |line| then None
    else if !IsDotChar(line[pos + t - 1]) then None
    else if TaskEnd(line, pos + t) then Some(PhaseTaskLine(mark, id, line[pos..pos + t]))
    else TaskNameFrom(line, mark, id, pos, t + 1)
  }

  /** `\s+` after the id, with `k` spaces taken, then fewer. */
  function AfterId(line: string, mark: char, id: string, q: nat, k: nat): (r: Option<PhaseTaskLine>)
    requires q + k <= |line|
    ensures r.Some? ==> r.value.mark == mark && r.value.id == id && |r.value.name| >= 1
    decreases k
  {
    if k == 0 then None
    else
      match TaskNameFrom(line, mark, id, q + k, 1)
      case Some(r) => Some(r)
      case None => AfterId(line, mark, id, q, k - 1)
  }

  /** The second `\d+` of the id, with `d2` digits taken, then fewer. */
  function IdMinor(line: string, mark: char, p: nat, d1: nat, d2: nat): (r: Option<PhaseTaskLine>)
    requires p + d1 + 1 + d2 <= |line| && d1 >= 1 && line[p + d1] == '.'
    requires forall k :: p <= k < p + d1 ==> IsDigit(line[k])
    requires forall k :: p + d1 + 1 <= k < p + d1 + 1 + d2 ==> IsDigit(line[k])
    ensures r.Some? ==> r.value.mark == mark && IsTwoLevelId(r.value.id) && |r.value.name| >= 1
    decreases d2
  {
    if d2 == 0 then None
    else
      var e := p + d1 + 1 + d2;
      var id := line[p..e];
      assert id[d1] == '.' && AllDigits(id[..d1]) && AllDigits(id[d1 + 1..]);
      match AfterId(line, mark, id, e, SpaceRun(line, e))
      case Some(r) => Some(r)
      case None => IdMinor(line, mark, p, d1, d2 - 1)
  }

  /** The first `\d+` of the id and its dot, with `d1` digits taken, then fewer. */
  function IdMajor(line: string, mark: char, p: nat, d1: nat): (r: Option<PhaseTaskLine>)
    requires p + d1 <= |line|
    requires forall k :: p <= k < p + d1 ==> IsDigit(line[k])
    ensures r.Some? ==> r.value.mark == mark && IsTwoLevelId(r.value.id) && |r.value.name| >= 1
    decreases d1
  {
    if d1 == 0 then None
    else if p + d1 < |line| && line[p + d1] == '.' then
      match IdMinor(line, mark, p, d1, DigitRun(line, p + d1 + 1))
      case Some(r) => Some(r)
      case None => IdMajor(line, mark, p, d1 - 1)
    else IdMajor(line, mark, p, d1 - 1)
  }

  /** `\s+` after `]`, with `k` spaces taken, then fewer. */
  function AfterMark(line: string, mark: char, q: nat, k: nat): (r: Option<PhaseTaskLine>)
    requires q + k <= |line|
    ensures r.Some? ==> r.value.mark == mark && IsTwoLevelId(r.value.id) && |r.value.name| >= 1
    decreases k
  {
    if k == 0 then None
    else
      match IdMajor(line, mark, q + k, DigitRun(line, q + k))
      case Some(r) => Some(r)
      case None => AfterMark(line, mark, q, k - 1)
  }

  /** `\s+\[([ x~])\]` after the dash, with `k` spaces taken, then fewer. */
  function AfterDash(line: string, k: nat): (r: Option<PhaseTaskLine>)
    requires 1 + k <= |line|
    ensures r.Some? ==> IsPhaseMark(r.value.mark) && IsTwoLevelId(r.value.id) && |r.value.name| >= 1
    decreases k
  {
    if k == 0 then None
    else if 3 + k < |line| && line[1 + k] == '[' && IsPhaseMark(line[2 + k]) && line[3 + k] == ']' then
      match AfterMark(line, line[2 + k], 4 + k, SpaceRun(line, 4 + k))
      case Some(r) => Some(r)
      case None => AfterDash(line, k - 1)
    else AfterDash(line, k - 1)
  }

  /** The task pattern against one line. */
  function MatchPhaseTask(line: string): (r: Option<PhaseTaskLine>)
    ensures r.Some? ==> |line| > 0 && line[0] == '-'
    ensures r.Some? ==> IsPhaseMark(r.value.mark) && IsTwoLevelId(r.value.id) && |r.value.name| >= 1
  {
    if |line| == 0 || line[0] != '-' then None
    else AfterDash(line, SpaceRun(line, 1))
  }

  // ---------------------------------------------------------------------
  // Lines the patterns accept

  /** `(.*?)\)$` grows over any one-line text up to the `)` that ends the line. */
  lemma {:induction false} OptionsRun(line: string, start: nat, n: nat)
    requires start + n < |line| && line[|line| - 1] == ')'
    requires forall k :: start <= k < |line| - 1 ==> IsDotChar(line[k])
    ensures OptionsText(line, start, n) == Some(line[start..|line| - 1])
    decreases |line| - start - n
  {
    if start + n + 1 < |line| {
      OptionsRun(line, start, n + 1);
    }
  }

  /** ` (options)` ending the line from `p`: the optional group takes part and captures the options. */
  lemma OptionsEnd(line: string, p: nat)
    requires p + 3 <= |line| && line[p] == ' ' && line[p + 1] == '(' && line[|line| - 1] == ')'
    requires forall k :: p + 2 <= k < |line| - 1 ==> IsDotChar(line[k])
    ensures HeaderEnd(line, p) == Some(Some(line[p + 2..|line| - 1]))
  {
    assert SpaceRun(line, p) == 1;
    OptionsRun(line, p + 2, 0);
  }

  /** With no `(` from `p` to `p + k`, the optional group cannot start. */
  lemma {:induction false} NoOptionsGroup(line: string, p: nat, k: nat)
    requires p + k < |line| && forall j :: p <= j <= p + k ==> line[j] != '('
    ensures OptionsGroup(line, p, k) == None
    decreases k
  {
    if k > 0 {
      NoOptionsGroup(line, p, k - 1);
    }
  }

  /**
   * Where the line goes on from `p`, with no `(`, up to a character other
   * than whitespace at `end - 1`, the header cannot end at `p`.
   */
  lemma NoHeaderEndBefore(line: string, p: nat, end: nat)
    requires p < end <= |line| && !IsSpace(line[end - 1])
    requires forall k :: p <= k < end ==> line[k] != '('
    ensures HeaderEnd(line, p) == None
  {
    var n := SpaceRun(line, p);
    assert p + n <= end - 1;
    NoOptionsGroup(line, p, n);
  }

  /** One step of the lazy name inside a run with no `(` that ends in a character other than whitespace. */
  lemma NameGrows(line: string, number: string, pos: nat, t: nat, end: nat)
    requires 1 <= t && pos + t < end <= |line| && !IsSpace(line[end - 1])
    requires forall k :: pos <= k < end ==> IsDotChar(line[k]) && line[k] != '('
    ensures PhaseNameFrom(line, number, pos, t) == PhaseNameFrom(line, number, pos, t + 1)
  {
    NoHeaderEndBefore(line, pos + t, end);
  }

  /** The lazy name grows over such a run up to its end. */
  lemma {:induction false} NameRuns(line: string, number: string, pos: nat, t: nat, end: nat)
    requires 1 <= t <= end - pos && end <= |line| && !IsSpace(line[end - 1])
    requires forall k :: pos <= k < end ==> IsDotChar(line[k]) && line[k] != '('
    ensures PhaseNameFrom(line, number, pos, t) == PhaseNameFrom(line, number, pos, end - pos)
    decreases end - pos - t
  {
    if pos + t < end {
      NameGrows(line, number, pos, t, end);
      NameRuns(line, number, pos, t + 1, end);
    }
  }

  /** A name run followed by ` (options)` ending the line is read from its first character. */
  lemma NameFromStart(line: string, number: string, pos: nat, end: nat)
    requires pos < end && end + 3 <= |line| && !IsSpace(line[end - 1])
    requires forall k :: pos <= k < end ==> IsDotChar(line[k]) && line[k] != '('
    requires line[end] == ' ' && line[end + 1] == '(' && line[|line| - 1] == ')'
    requires forall k :: end + 2 <= k < |line| - 1 ==> IsDotChar(line[k])
    ensures PhaseNameFrom(line, number, pos, 1)
      == Some(PhaseHeader(number, line[pos..end], Some(line[end + 2..|line| - 1])))
  {
    OptionsEnd(line, end);
    NameRuns(line, number, pos, 1, end);
  }

  /** One space after the dot and a name found: that is the header. */
  lemma AfterDotTakesOne(line: string, number: string, q: nat)
    requires q + 1 <= |line| && PhaseNameFrom(line, number, q + 1, 1).Some?
    ensures AfterDot(line, number, q, 1) == PhaseNameFrom(line, number, q + 1, 1)
  {
  }

  /** All `d` digits and the dot taken and a header found after them: that is the header. */
  lemma DigitsTakeDot(line: string, p: nat, d: nat)
    requires d >= 1 && p + d < |line| && line[p + d] == '.'
    requires forall k :: p <= k < p + d ==> IsDigit(line[k])
    requires AfterDot(line, line[p..p + d], p + d + 1, SpaceRun(line, p + d + 1)).Some?
    ensures NumberDigits(line, p, d) == AfterDot(line, line[p..p + d], p + d + 1, SpaceRun(line, p + d + 1))
  {
  }

  /** `k` spaces taken after `##` and a header found after the number: that is the header. */
  lemma HashesTakeDigits(line: string, k: nat)
    requires k >= 1 && 2 + k <= |line| && NumberDigits(line, 2 + k, DigitRun(line, 2 + k)).Some?
    ensures AfterHashes(line, k) == NumberDigits(line, 2 + k, DigitRun(line, 2 + k))
  {
  }

  /**
   * A line of the shape `## n. name (options)`, described position by
   * position: `d` digits, a name from `5 + d` to `end` that starts and ends
   * with a character other than whitespace and holds no `(`, and options
   * after it up to the final `)`.
   */
  predicate PhaseHeaderShape(line: string, d: nat, end: nat) {
    d >= 1 && 5 + d < end && end + 3 <= |line|
    && line[0] == '#' && line[1] == '#' && line[2] == ' '
    && (forall k :: 3 <= k < 3 + d ==> IsDigit(line[k]))
    && line[3 + d] == '.' && line[4 + d] == ' ' && !IsSpace(line[5 + d]) && !IsSpace(line[end - 1])
    && (forall k :: 5 + d <= k < end ==> IsDotChar(line[k]) && line[k] != '(')
    && line[end] == ' ' && line[end + 1] == '(' && line[|line| - 1] == ')'
    && (forall k :: end + 2 <= k < |line| - 1 ==> IsDotChar(line[k]))
  }

  /** A line of that shape is read with its number, its name and its options. */
  lemma PhaseHeaderShapeMatches(line: string, d: nat, end: nat)
    requires PhaseHeaderShape(line, d, end)
    ensures MatchPhaseHeader(line)
      == Some(PhaseHeader(line[3..3 + d], line[5 + d..end], Some(line[end + 2..|line| - 1])))
  {
    assert line[..2] == "##";
    assert SpaceRun(line, 2) == 1;
    assert DigitRun(line, 3) == d;
    assert SpaceRun(line, 4 + d) == 1;
    NameFromStart(line, line[3..3 + d], 5 + d, end);
    AfterDotTakesOne(line, line[3..3 + d], 4 + d);
    DigitsTakeDot(line, 3, d);
    HashesTakeDigits(line, 1);
  }

  /**
   * A phase header `## n. name (options)` whose name starts and ends with a
   * character other than whitespace and holds no `(` is read with that
   * number, name and options.
   */
  lemma PhaseHeaderLine(num: string, name: string, opts: string)
    requires AllDigits(num) && name != [] && !IsSpace(name[0]) && !IsSpace(name[|name| - 1])
    requires forall k :: 0 <= k < |name| ==> IsDotChar(name[k]) && name[k] != '('
    requires AllDot(opts)
    ensures MatchPhaseHeader("## " + num + ". " + name + " (" + opts + ")") == Some(PhaseHeader(num, name, Some(opts)))
  {
    var line := "## " + num + ". " + name + " (" + opts + ")";
    var d := |num|;
    var end := 5 + d + |name|;
    assert line[..3] == "## " && line[3..3 + d] == num && line[3 + d..5 + d] == ". ";
    assert line[5 + d..end] == name && line[end + 2..|line| - 1] == opts;
    assert line[0] == '#' && line[1] == '#' && line[2] == ' ' && line[3 + d] == '.' && line[4 + d] == ' ';
    assert line[5 + d] == name[0] && line[end - 1] == name[|name| - 1];
    assert line[end] == ' ' && line[end + 1] == '(' && line[|line| - 1] == ')';
    forall k | 3 <= k < 3 + d
      ensures IsDigit(line[k])
    {
      assert line[k] == num[k - 3];
    }
    forall k | 5 + d <= k < end
      ensures IsDotChar(line[k]) && line[k] != '('
    {
      assert line[k] == name[k - 5 - d];
    }
    forall k | end + 2 <= k < |line| - 1
      ensures IsDotChar(line[k])
    {
      assert line[k] == opts[k - end - 2];
    }
    assert PhaseHeaderShape(line, d, end);
    PhaseHeaderShapeMatches(line, d, end);
  }

  /** With no `|` from `p` on, the pipe group cannot start. */
  lemma {:induction false} NoPipeGroup(line: string, p: nat, k: nat)
    requires p + k <= |line| && forall j :: p <= j < |line| ==> line[j] != '|'
    ensures !PipeGroup(line, p, k)
    decreases k
  {
    if k > 0 {
      NoPipeGroup(line, p, k - 1);
    }
  }

  /** A task name with no `|` runs to the end of the line. */
  lemma {:induction false} TaskNameRuns(line: string, mark: char, id: string, pos: nat, t: nat)
    requires 1 <= t <= |line| - pos
    requires forall k :: pos <= k < |line| ==> IsDotChar(line[k]) && line[k] != '|'
    ensures TaskNameFrom(line, mark, id, pos, t) == Some(PhaseTaskLine(mark, id, line[pos..]))
    decreases |line| - pos - t
  {
    if pos + t < |line| {
      NoPipeGroup(line, pos + t, SpaceRun(line, pos + t));
      TaskNameRuns(line, mark, id, pos, t + 1);
    } else {
      assert line[pos..pos + t] == line[pos..];
    }
  }

  /** One space after the id and a name found: that is the task. */
  lemma AfterIdTakesOne(line: string, mark: char, id: string, q: nat)
    requires q + 1 <= |line| && TaskNameFrom(line, mark, id, q + 1, 1).Some?
    ensures AfterId(line, mark, id, q, 1) == TaskNameFrom(line, mark, id, q + 1, 1)
  {
  }

  /** All digits of the second run, up to `e`, taken and a task found after them: that is the task. */
  lemma MinorTakesAll(line: string, mark: char, p: nat, d1: nat, e: nat)
    requires d1 >= 1 && p + d1 + 1 < e <= |line| && line[p + d1] == '.'
    requires forall k :: p <= k < p + d1 ==> IsDigit(line[k])
    requires forall k :: p + d1 + 1 <= k < e ==> IsDigit(line[k])
    requires AfterId(line, mark, line[p..e], e, SpaceRun(line, e)).Some?
    ensures IdMinor(line, mark, p, d1, e - p - d1 - 1) == AfterId(line, mark, line[p..e], e, SpaceRun(line, e))
  {
  }

  /**
   * Both digit runs of the id, the second ending at a non-digit at `e`,
   * taken whole and a task found after them: that is the task.
   */
  lemma IdTakesAll(line: string, mark: char, p: nat, d1: nat, e: nat)
    requires d1 >= 1 && p + d1 + 1 < e < |line| && line[p + d1] == '.' && !IsDigit(line[e])
    requires forall k :: p <= k < p + d1 ==> IsDigit(line[k])
    requires forall k :: p + d1 + 1 <= k < e ==> IsDigit(line[k])
    requires AfterId(line, mark, line[p..e], e, SpaceRun(line, e)).Some?
    ensures IdMajor(line, mark, p, d1) == AfterId(line, mark, line[p..e], e, SpaceRun(line, e))
  {
    assert DigitRun(line, p + d1 + 1) == e - p - d1 - 1;
    MinorTakesAll(line, mark, p, d1, e);
  }

  /** One space after `]` and a task found: that is the task. */
  lemma MarkTakesOne(line: string, mark: char, q: nat)
    requires q + 1 <= |line| && IdMajor(line, mark, q + 1, DigitRun(line, q + 1)).Some?
    ensures AfterMark(line, mark, q, 1) == IdMajor(line, mark, q + 1, DigitRun(line, q + 1))
  {
  }

  /** One space after `-`, a mark in brackets and a task found: that is the task. */
  lemma DashTakesOne(line: string)
    requires 4 < |line| && line[2] == '[' && IsPhaseMark(line[3]) && line[4] == ']'
    requires AfterMark(line, line[3], 5, SpaceRun(line, 5)).Some?
    ensures AfterDash(line, 1) == AfterMark(line, line[3], 5, SpaceRun(line, 5))
  {
  }

  /**
   * A line of the shape `- [m] a.b name`, described position by position:
   * `a` digits, a dot and digits up to `e`, one space, and a name that
   * starts with a character other than whitespace and holds no `|`.
   */
  predicate PhaseTaskShape(line: string, a: nat, e: nat) {
    a >= 1 && 7 + a < e && e + 1 < |line|
    && line[0] == '-' && line[1] == ' ' && line[2] == '[' && IsPhaseMark(line[3]) && line[4] == ']' && line[5] == ' '
    && (forall k :: 6 <= k < 6 + a ==> IsDigit(line[k]))
    && line[6 + a] == '.'
    && (forall k :: 7 + a <= k < e ==> IsDigit(line[k]))
    && line[e] == ' ' && !IsSpace(line[e + 1])
    && (forall k :: e + 1 <= k < |line| ==> IsDotChar(line[k]) && line[k] != '|')
  }

  /** One space after the id, then a name with no `|` to the end of the line. */
  lemma NameAfterId(line: string, mark: char, id: string, e: nat)
    requires e + 1 < |line| && line[e] == ' ' && !IsSpace(line[e + 1])
    requires forall k :: e + 1 <= k < |line| ==> IsDotChar(line[k]) && line[k] != '|'
    ensures AfterId(line, mark, id, e, SpaceRun(line, e)) == Some(PhaseTaskLine(mark, id, line[e + 1..]))
  {
    assert SpaceRun(line, e) == 1;
    TaskNameRuns(line, mark, id, e + 1, 1);
    AfterIdTakesOne(line, mark, id, e);
  }

  /** In a line of that shape the task is read from the id on. */
  lemma TaskFromId(line: string, a: nat, e: nat)
    requires PhaseTaskShape(line, a, e)
    ensures IdMajor(line, line[3], 6, a) == Some(PhaseTaskLine(line[3], line[6..e], line[e + 1..]))
  {
    var m := line[3];
    NameAfterId(line, m, line[6..e], e);
    IdTakesAll(line, m, 6, a, e);
  }

  /** A line of that shape is read with its mark, its id and its name. */
  lemma PhaseTaskShapeMatches(line: string, a: nat, e: nat)
    requires PhaseTaskShape(line, a, e)
    ensures MatchPhaseTask(line) == Some(PhaseTaskLine(line[3], line[6..e], line[e + 1..]))
  {
    TaskFromId(line, a, e);
    assert SpaceRun(line, 1) == 1 && SpaceRun(line, 5) == 1;
    assert DigitRun(line, 6) == a;
    MarkTakesOne(line, line[3], 5);
    DashTakesOne(line);
  }

  /**
   * A task item `- [m] a.b name` whose name starts with a character other
   * than whitespace and holds no `|` is read with that mark, id and name.
   */
  lemma PhaseTaskItemLine(m: char, major: string, minor: string, name: string)
    requires IsPhaseMark(m) && AllDigits(major) && AllDigits(minor)
    requires name != [] && !IsSpace(name[0])
    requires forall k :: 0 <= k < |name| ==> IsDotChar(name[k]) && name[k] != '|'
    ensures MatchPhaseTask("- [" + [m] + "] " + major + "." + minor + " " + name)
      == Some(PhaseTaskLine(m, major + "." + minor, name))
  {
    var id := major + "." + minor;
    var line := "- [" + [m] + "] " + major + "." + minor + " " + name;
    var a := |major|;
    var e := 6 + |id|;
    assert line[..6] == "- [" + [m] + "] " && line[6..e] == id && line[e] == ' ' && line[e + 1..] == name;
    assert line[0] == '-' && line[1] == ' ' && line[2] == '[' && line[3] == m && line[4] == ']' && line[5] == ' ';
    assert id[a] == '.' && line[6 + a] == '.' && line[e + 1] == name[0];
    forall k | 6 <= k < 6 + a
      ensures IsDigit(line[k])
    {
      assert line[k] == id[k - 6] == major[k - 6];
    }
    forall k | 7 + a <= k < e
      ensures IsDigit(line[k])
    {
      assert line[k] == id[k - 6] == minor[k - 7 - a];
    }
    forall k | e + 1 <= k < |line|
      ensures IsDotChar(line[k]) && line[k] != '|'
    {
      assert line[k] == name[k - e - 1];
    }
    assert PhaseTaskShape(line, a, e);
    PhaseTaskShapeMatches(line, a, e);
  }
}
