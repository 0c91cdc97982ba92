/**
 * The line grammar of `tasks.md` as the checklist synchroniser
 * (`task-sync.js`) reads it: group headers and task items. Each regular
 * expression is written out as a matcher that makes the same choices as
 * the JavaScript backtracking engine: greedy parts take as much as they can
 * and give back one character at a time, lazy parts take as little as they
 * can and grow one character at a time, and the first way to reach the end
 * of the line wins.
 */
module TaskGrammar {
  import opened Text

  /** `s` starts at `i` with `word`, ASCII letters compared without case (the `i` flag). */
  predicate WordAt(s: string, i: nat, word: string) {
    i + |word| <= |s| && forall j :: 0 <= j < |word| ==> LowerChar(s[i + j]) == word[j]
  }

  // ---------------------------------------------------------------------
  // Group headers: /^##\s+(?:(\d+)\.\s+)?(.+?)\s*\(?(sequential|parallel)?\)?$/i

  /** What a header match captures: the title (group 2) and the keyword (group 3). */
  datatype Header = Header(title: string, keyword: Option<string>)

  /** The length of the keyword `(sequential|parallel)` at `q`, in any letter case. */
  function KeywordAt(line: string, q: nat): Option<nat> {
    if WordAt(line, q, "sequential") then Some(10)
    else if WordAt(line, q, "parallel") then Some(8)
    else None
  }

  /** `\)?$` at `e`: the line ends there, or after one `)`. */
  predicate ClosesAt(line: string, e: nat) {
    e == |line| || (e + 1 == |line| && line[e] == ')')
  }

  /**
   * `\s*\(?(sequential|parallel)?\)?$` from `p` to the end of the line:
   * `None` when it fails, otherwise the keyword it captured, if any.
   */
  function HeaderTail(line: string, p: nat): Option<Option<string>>
    requires p <= |line|
  {
    var q := p + SpaceRun(line, p);
    var q1 := if q < |line| && line[q] == '(' then q + 1 else q;
    if ClosesAt(line, q1) then Some(None)
    else
      match KeywordAt(line, q1)
      case None => None
      case Some(n) => if ClosesAt(line, q1 + n) then Some(Some(line[q1..q1 + n])) else None
  }

  /** The lazy title `(.+?)` from `pos`, tried with `t` characters and more. */
  function HeaderTitleFrom(line: string, pos: nat, t: nat): Option<Header>
    requires pos <= |line| && t >= 1
    decreases |line| - t
  {
    if pos + t > |line| then None
    else if !IsDotChar(line[pos + t - 1]) then None
    else
      match HeaderTail(line, pos + t)
      case Some(kw) => Some(Header(line[pos..pos + t], kw))
      case None => HeaderTitleFrom(line, pos, t + 1)
  }

  /** `\s+` after the number, giving back one space at a time. */
  function HeaderAfterNumber(line: string, q: nat, k: nat): Option<Header>
    requires q + k <= |line|
    decreases k
  {
    if k == 0 then None
    else
      match HeaderTitleFrom(line, q + k, 1)
      case Some(h) => Some(h)
      case None => HeaderAfterNumber(line, q, k - 1)
  }

  /** The optional `(\d+)\.\s+` at `p`. */
  function HeaderNumbered(line: string, p: nat): Option<Header>
    requires p <= |line|
  {
    var d := DigitRun(line, p);
    if d == 0 || p + d >= |line| || line[p + d] != '.' then None
    else HeaderAfterNumber(line, p + d + 1, SpaceRun(line, p + d + 1))
  }

  /** `\s+` after `##`, with `k` spaces taken, then fewer. */
  function HeaderAfterHashes(line: string, k: nat): Option<Header>
    requires 2 + k <= |line|
    decreases k
  {
    if k == 0 then None
    else
      var p := 2 + k;
      match HeaderNumbered(line, p)
      case Some(h) => Some(h)
      case None =>
        match HeaderTitleFrom(line, p, 1)
        case Some(h) => Some(h)
        case None => HeaderAfterHashes(line, k - 1)
  }

  /** The group-header pattern against one line. */
  function MatchHeader(line: string): (h: Option<Header>)
    ensures h.Some? ==> StartsWith(line, "##") && |line| > 2 && IsSpace(line[2])
  {
    if !StartsWith(line, "##") then None
    else HeaderAfterHashes(line, SpaceRun(line, 2))
  }

  // ---------------------------------------------------------------------
  // Task items:
  // /^-\s+\[([ xX~>])\]\s+(\d+(?:\.\d+)?)\s+(.+?)(?:\s*\|\s*files?:\s*(.+?))?(?:\s*\|\s*output:\s*(.+?))?$/i

  /** What a task match captures: mark, id, title, files text and output text. */
  datatype TaskLine = TaskLine(mark: char, id: string, title: string, files: Option<string>, output: Option<string>)

  /** The marks task-sync accepts. */
  predicate IsSyncMark(c: char) {
    c == ' ' || c == 'x' || c == 'X' || c == '~' || c == '>'
  }

  /** `\s*(.+?)$` from `c`: the spaces taken are `a`, then fewer. */
  function ValueToEnd(s: string, c: nat, a: nat): (v: Option<string>)
    requires c + a <= |s|
    ensures v.Some? ==> v.value != "" && AllDot(v.value) && EndsWith(s, v.value)
    decreases a
  {
    var x := s[c + a..];
    if x != "" && AllDot(x) then Some(x)
    else if a == 0 then None
    else ValueToEnd(s, c, a - 1)
  }

  /** `\s*\|\s*output:\s*(.+?)$` against the whole of `s`. */
  function OutputClause(s: string): Option<string> {
    var a := SpaceRun(s, 0);
    if a >= |s| || s[a] != '|' then None
    else
      var b := a + 1 + SpaceRun(s, a + 1);
      if !WordAt(s, b, "output:") then None
      else ValueToEnd(s, b + 7, SpaceRun(s, b + 7))
  }

  /** `(?:\s*\|\s*output:\s*(.+?))?$`: `None` when it fails, else the output captured, if any. */
  function OutputPart(s: string): Option<Option<string>> {
    if s == "" then Some(None)
    else
      match OutputClause(s)
      case Some(o) => Some(Some(o))
      case None => None
  }

  /** The lazy files value `(.+?)` at `v`, tried with `t` characters and more. */
  function FilesValueFrom(s: string, v: nat, t: nat): Option<(Option<string>, Option<string>)>
    requires v <= |s| && t >= 1
    decreases |s| - t
  {
    if v + t > |s| then None
    else if !IsDotChar(s[v + t - 1]) then None
    else
      match OutputPart(s[v + t..])
      case Some(o) => Some((Some(s[v..v + t]), o))
      case None => FilesValueFrom(s, v, t + 1)
  }

  /** `\s*` before the files value, with `a` spaces taken, then fewer. */
  function FilesAfterColon(s: string, c: nat, a: nat): Option<(Option<string>, Option<string>)>
    requires c + a <= |s|
    decreases a
  {
    match FilesValueFrom(s, c + a, 1)
    case Some(r) => Some(r)
    case None => if a == 0 then None else FilesAfterColon(s, c, a - 1)
  }

  /** `\s*\|\s*files?:\s*(.+?)` followed by the output part and the end. */
  function FilesClause(s: string): Option<(Option<string>, Option<string>)> {
    var a := SpaceRun(s, 0);
    if a >= |s| || s[a] != '|' then None
    else
      var b := a + 1 + SpaceRun(s, a + 1);
      var c := if WordAt(s, b, "files:") then b + 6 else if WordAt(s, b, "file:") then b + 5 else -1;
      if c < 0 then None
      else FilesAfterColon(s, c, SpaceRun(s, c))
  }

  /** Everything after the title: the optional files clause, the optional output clause, the end. */
  function TaskTail(s: string): Option<(Option<string>, Option<string>)> {
    match FilesClause(s)
    case Some(r) => Some(r)
    case None =>
      match OutputPart(s)
      case Some(o) => Some((None, o))
      case None => None
  }

  /** The lazy title at the start of `rest`, tried with `t` characters and more. */
  function TaskTitleFrom(rest: string, t: nat): Option<(string, Option<string>, Option<string>)>
    requires t >= 1
    decreases |rest| - t
  {
    if t > |rest| then None
    else if !IsDotChar(rest[t - 1]) then None
    else
      match TaskTail(rest[t..])
      case Some((f, o)) => Some((rest[..t], f, o))
      case None => TaskTitleFrom(rest, t + 1)
  }

  /** `\s+` at the start of `rest` (the text after the id), with `k` spaces taken, then fewer. */
  function TaskAfterId(rest: string, k: nat): Option<(string, Option<string>, Option<string>)>
    requires k <= |rest|
    decreases k
  {
    if k == 0 then None
    else
      match TaskTitleFrom(rest[k..], 1)
      case Some(r) => Some(r)
      case None => TaskAfterId(rest, k - 1)
  }

  /** Where the id `\d+(?:\.\d+)?` starting at `k` ends (`k` itself when there is no digit). */
  function IdEnd(line: string, k: nat): (e: nat)
    requires k <= |line|
    ensures k <= e <= |line|
  {
    var d1 := DigitRun(line, k);
    if d1 > 0 && k + d1 < |line| && line[k + d1] == '.' && DigitRun(line, k + d1 + 1) > 0 then
      k + d1 + 1 + DigitRun(line, k + d1 + 1)
    else k + d1
  }

  /** The id shape `\d+(?:\.\d+)?`. */
  predicate IsTaskId(id: string) {
    AllDigits(id) || exists d | 0 < d < |id| :: id[d] == '.' && AllDigits(id[..d]) && AllDigits(id[d + 1..])
  }

  /** Where the id of a line whose `-` is at `p` begins, when the line has the `- [m] ` prefix. */
  function IdStart(s: string, p: nat): (k: Option<nat>)
    requires p <= |s|
    ensures k.Some? ==> p + 5 <= k.value <= |s|
    ensures k.Some? ==> p < |s| && s[p] == '-' && MarkIndex(s, p) + 3 <= k.value
  {
    if p >= |s| || s[p] != '-' then None
    else
      var w1 := SpaceRun(s, p + 1);
      var i := p + 1 + w1;
      if w1 == 0 || i + 3 > |s| || s[i] != '[' || s[i + 2] != ']' then None
      else
        var w2 := SpaceRun(s, i + 3);
        if w2 == 0 then None else Some(i + 3 + w2)
  }

  /** The index of the mark of a line whose `-` is at `p`. */
  function MarkIndex(s: string, p: nat): nat
    requires p + 1 <= |s|
  {
    p + 1 + SpaceRun(s, p + 1) + 1
  }

  /** The task-item pattern against one line. */
  function MatchTask(line: string): (t: Option<TaskLine>)
    ensures t.Some? ==> IdStart(line, 0).Some? && IsSyncMark(t.value.mark)
    ensures t.Some? ==> MarkIndex(line, 0) < |line| && t.value.mark == line[MarkIndex(line, 0)]
    ensures t.Some? ==> IsTaskId(t.value.id)
  {
    match IdStart(line, 0)
    case None => None
    case Some(k) =>
      var mark := line[MarkIndex(line, 0)];
      var e := IdEnd(line, k);
      var w3 := SpaceRun(line, e);
      if !IsSyncMark(mark) || e == k || w3 == 0 then None
      else
        match TaskAfterId(line[e..], w3)
        case None => None
        case Some((title, f, o)) =>
          IdShape(line, k);
          Some(TaskLine(mark, line[k..e], title, f, o))
  }

  /** The text between an id's start and `IdEnd` has the id shape. */
  lemma IdShape(line: string, k: nat)
    requires k <= |line| && IdEnd(line, k) > k
    ensures IsTaskId(line[k..IdEnd(line, k)])
  {
    var id := line[k..IdEnd(line, k)];
    var d1 := DigitRun(line, k);
    assert AllDigits(id[..d1]);
    if IdEnd(line, k) != k + d1 {
      assert id[d1] == '.' && AllDigits(id[d1 + 1..]);
    }
  }

  // ---------------------------------------------------------------------
  // Lines the patterns accept

  /** A keyword is read whatever its letter case, and only `sequential` and `parallel` are. */
  lemma KeywordAtReads(line: string, q: nat)
    ensures KeywordAt(line, q).Some? ==>
      var n := KeywordAt(line, q).value;
      q + n <= |line| && (Lower(line[q..q + n]) == "sequential" || Lower(line[q..q + n]) == "parallel")
  {
    if KeywordAt(line, q).Some? {
      var n := KeywordAt(line, q).value;
      var w: string := if n == 10 then "sequential" else "parallel";
      assert WordAt(line, q, w);
      var r := Lower(line[q..q + n]);
      forall j | 0 <= j < n
        ensures r[j] == w[j]
      {
        assert line[q..q + n][j] == line[q + j];
      }
      assert r == w;
    }
  }

  /** A lower-case keyword written at `q` is taken as the keyword. */
  lemma KeywordAtOf(line: string, q: nat, kw: string)
    requires kw == "sequential" || kw == "parallel"
    requires q + |kw| <= |line| && line[q..q + |kw|] == kw
    ensures KeywordAt(line, q) == Some(|kw|)
  {
    assert WordAt(line, q, kw) by {
      LowerUnchanged(kw);
      forall j | 0 <= j < |kw|
        ensures LowerChar(line[q + j]) == kw[j]
      {
        assert line[q + j] == line[q..q + |kw|][j];
        assert Lower(kw)[j] == LowerChar(kw[j]);
      }
    }
    if kw == "parallel" {
      assert LowerChar(line[q + 0]) == 'p' != "sequential"[0];
    }
  }

  /** ` (keyword)` ending the line from `p`: the header's tail matches and captures the keyword. */
  lemma KeywordTail(line: string, p: nat, kw: string)
    requires kw == "sequential" || kw == "parallel"
    requires p + |kw| + 3 == |line| && line[p] == ' ' && line[p + 1] == '('
    requires line[p + 2..p + 2 + |kw|] == kw && line[p + 2 + |kw|] == ')'
    ensures HeaderTail(line, p) == Some(Some(kw))
  {
    assert SpaceRun(line, p) == 1;
    KeywordAtOf(line, p + 2, kw);
  }

  /**
   * The lazy title cannot stop before a character that is neither
   * whitespace nor `(` when more than eleven characters are left: the
   * optional keyword and `)` are too short to reach the end.
   */
  lemma NoEarlyTail(line: string, p: nat)
    requires p + 12 <= |line| && !IsSpace(line[p]) && line[p] != '('
    ensures HeaderTail(line, p) == None
  {
    assert SpaceRun(line, p) == 0;
  }

  /** A character a title without whitespace or `(` may hold. */
  predicate TitleCharAt(line: string, k: nat) {
    k < |line| && IsDotChar(line[k]) && !IsSpace(line[k]) && line[k] != '('
  }

  /**
   * The lazy title from `pos` grows until it reaches `end`: every shorter
   * title is followed by a character other than whitespace and `(` and by
   * more than eleven characters, so the tail fails after it.
   */
  lemma {:induction false} TitleRuns(line: string, pos: nat, t: nat, end: nat)
    requires 1 <= t <= end - pos && end + 11 <= |line|
    requires forall k :: pos <= k < end ==> TitleCharAt(line, k)
    ensures HeaderTitleFrom(line, pos, t) == HeaderTitleFrom(line, pos, end - pos)
    decreases end - pos - t
  {
    if pos + t < end {
      assert TitleCharAt(line, pos + t - 1) && TitleCharAt(line, pos + t);
      TitleGrows(line, pos, t);
      TitleRuns(line, pos, t + 1, end);
    }
  }

  /** Before a character other than whitespace and `(`, with more than eleven left, the lazy title takes one more. */
  lemma TitleGrows(line: string, pos: nat, t: nat)
    requires t >= 1 && pos + t + 12 <= |line| && IsDotChar(line[pos + t - 1])
    requires !IsSpace(line[pos + t]) && line[pos + t] != '('
    ensures HeaderTitleFrom(line, pos, t) == HeaderTitleFrom(line, pos, t + 1)
  {
    NoEarlyTail(line, pos + t);
  }

  /** Where the tail matches, the lazy title stops. */
  lemma TitleStops(line: string, pos: nat, t: nat, kw: Option<string>)
    requires t >= 1 && pos + t <= |line| && IsDotChar(line[pos + t - 1]) && HeaderTail(line, pos + t) == Some(kw)
    ensures HeaderTitleFrom(line, pos, t) == Some(Header(line[pos..pos + t], kw))
  {
  }

  /**
   * A line of the shape `## n. ` with `d` digits, described position by
   * position, followed by a title without whitespace or `(` that ends at
   * `end`, where a matching tail of at least eleven characters begins.
   */
  predicate HeaderShape(line: string, d: nat, end: nat) {
    d >= 1 && 5 + d < end && end + 11 <= |line|
    && line[0] == '#' && line[1] == '#' && line[2] == ' '
    && (forall k :: 3 <= k < 3 + d ==> IsDigit(line[k]))
    && line[3 + d] == '.' && line[4 + d] == ' '
    && (forall k :: 5 + d <= k < end ==> TitleCharAt(line, k))
  }

  /** The optional number taken: the header goes on after the dot. */
  lemma NumberedStep(line: string, p: nat)
    requires p <= |line| && DigitRun(line, p) >= 1
    requires p + DigitRun(line, p) < |line| && line[p + DigitRun(line, p)] == '.'
    ensures var q := p + DigitRun(line, p) + 1;
      HeaderNumbered(line, p) == HeaderAfterNumber(line, q, SpaceRun(line, q))
  {
  }

  /** A title run up to a matching tail is read from its first character. */
  lemma TitleFromStart(line: string, pos: nat, end: nat, kw: Option<string>)
    requires pos < end && end + 11 <= |line| && HeaderTail(line, end) == Some(kw)
    requires forall k :: pos <= k < end ==> TitleCharAt(line, k)
    ensures HeaderTitleFrom(line, pos, 1) == Some(Header(line[pos..end], kw))
  {
    assert TitleCharAt(line, end - 1);
    TitleStops(line, pos, end - pos, kw);
    TitleRuns(line, pos, 1, end);
  }

  /** One space after the number taken and a title found: that is the header. */
  lemma AfterNumberTakesOne(line: string, q: nat)
    requires q + 1 <= |line| && HeaderTitleFrom(line, q + 1, 1).Some?
    ensures HeaderAfterNumber(line, q, 1) == HeaderTitleFrom(line, q + 1, 1)
  {
  }

  /** `k` spaces taken after `##` and a numbered header found: that is the header. */
  lemma HashesTakeNumber(line: string, k: nat)
    requires k >= 1 && 2 + k <= |line| && HeaderNumbered(line, 2 + k).Some?
    ensures HeaderAfterHashes(line, k) == HeaderNumbered(line, 2 + k)
  {
  }

  /** A line of that shape is read with its number's title and the tail's keyword. */
  lemma HeaderShapeMatches(line: string, d: nat, end: nat, kw: Option<string>)
    requires HeaderShape(line, d, end) && HeaderTail(line, end) == Some(kw)
    ensures MatchHeader(line) == Some(Header(line[5 + d..end], kw))
  {
    assert line[..2] == "##";
    assert SpaceRun(line, 2) == 1;
    assert DigitRun(line, 3) == d;
    assert TitleCharAt(line, 5 + d);
    assert SpaceRun(line, 4 + d) == 1;
    TitleFromStart(line, 5 + d, end, kw);
    AfterNumberTakesOne(line, 4 + d);
    NumberedStep(line, 3);
    HashesTakeNumber(line, 1);
  }

  /**
   * A header `## n. title (keyword)` whose title holds no whitespace and no
   * `(` is read with that title and keyword.
   */
  lemma SectionHeaderLine(num: string, title: string, kw: string)
    requires AllDigits(num) && title != [] && AllDot(title)
    requires forall k :: 0 <= k < |title| ==> !IsSpace(title[k]) && title[k] != '('
    requires kw == "sequential" || kw == "parallel"
    ensures MatchHeader("## " + num + ". " + title + " (" + kw + ")") == Some(Header(title, Some(kw)))
  {
    var line := "## " + num + ". " + title + " (" + kw + ")";
    var d := |num|;
    var end := 5 + d + |title|;
    assert line[..3] == "## " && line[3..3 + d] == num && line[3 + d..5 + d] == ". ";
    assert line[5 + d..end] == title && line[end + 2..end + 2 + |kw|] == kw;
    assert line[0] == '#' && line[1] == '#' && line[2] == ' ' && line[3 + d] == '.' && line[4 + d] == ' ';
    forall k | 3 <= k < 3 + d
      ensures IsDigit(line[k])
    {
      assert line[k] == num[k - 3];
    }
    forall k | 5 + d <= k < end
      ensures TitleCharAt(line, k)
    {
      assert line[k] == title[k - 5 - d];
    }
    assert line[end] == ' ' && line[end + 1] == '(' && line[end + 2 + |kw|] == ')';
    KeywordTail(line, end, kw);
    assert HeaderShape(line, d, end);
    HeaderShapeMatches(line, d, end, Some(kw));
  }

  /** Text without `|` has no files or output clause. */
  lemma NoPipeNoTail(s: string)
    requires s != [] && forall k :: 0 <= k < |s| ==> s[k] != '|'
    ensures TaskTail(s) == None
  {
  }

  /** A title without `|` is taken whole, with no files and no output. */
  lemma {:induction false} TitleWithoutPipe(rest: string, t: nat)
    requires 1 <= t <= |rest| && AllDot(rest)
    requires forall k :: 0 <= k < |rest| ==> rest[k] != '|'
    ensures TaskTitleFrom(rest, t) == Some((rest, None, None))
    decreases |rest| - t
  {
    if t < |rest| {
      var x := rest[t..];
      forall k | 0 <= k < |x|
        ensures x[k] != '|'
      {
        assert x[k] == rest[t + k];
      }
      NoPipeNoTail(x);
      TitleWithoutPipe(rest, t + 1);
    } else {
      assert rest[t..] == "" && rest[..t] == rest;
    }
  }

  /**
   * A line of the shape `- [m] a.b title`, described position by position:
   * the mark at 3, the id from 6 to `e` with its dot at `6 + a`, one space,
   * and a title without `|` that does not start with whitespace.
   */
  predicate TaskShape(line: string, m: char, a: nat, e: nat) {
    6 + a < e < |line| - 1 && a >= 1 && e > 7 + a
    && line[0] == '-' && line[1] == ' ' && line[2] == '[' && line[3] == m && line[4] == ']' && line[5] == ' '
    && (forall k :: 6 <= k < 6 + a ==> IsDigit(line[k]))
    && line[6 + a] == '.'
    && (forall k :: 7 + a <= k < e ==> IsDigit(line[k]))
    && line[e] == ' ' && !IsSpace(line[e + 1])
    && forall k :: e + 1 <= k < |line| ==> IsDotChar(line[k]) && line[k] != '|'
  }

  /** `- [m] ` followed by a digit: the id starts at 6 and the mark is at 3. */
  lemma TaskPrefixAt(line: string)
    requires |line| > 6 && line[0] == '-' && line[1] == ' ' && line[2] == '[' && line[4] == ']' && line[5] == ' '
    requires IsDigit(line[6])
    ensures IdStart(line, 0) == Some(6) && MarkIndex(line, 0) == 3
  {
    assert SpaceRun(line, 1) == 1 && SpaceRun(line, 5) == 1;
  }

  /** Digits, a dot and digits from 6 up to a non-digit at `e`: the id ends at `e`. */
  lemma IdRunAt(line: string, a: nat, e: nat)
    requires a >= 1 && 7 + a < e < |line| && !IsDigit(line[e])
    requires forall k :: 6 <= k < 6 + a ==> IsDigit(line[k])
    requires line[6 + a] == '.'
    requires forall k :: 7 + a <= k < e ==> IsDigit(line[k])
    ensures IdEnd(line, 6) == e
  {
    assert DigitRun(line, 6) == a && DigitRun(line, 7 + a) == e - 7 - a;
  }

  /** In a line of that shape the id starts at 6, ends at `e` and is followed by one space. */
  lemma TaskShapeId(line: string, m: char, a: nat, e: nat)
    requires TaskShape(line, m, a, e)
    ensures IdStart(line, 0) == Some(6) && MarkIndex(line, 0) == 3
    ensures IdEnd(line, 6) == e && SpaceRun(line, e) == 1
  {
    TaskPrefixAt(line);
    IdRunAt(line, a, e);
    assert SpaceRun(line, e) == 1;
  }

  /** A line of that shape matches with its mark, id and title, and without files or output. */
  lemma TaskShapeMatches(line: string, m: char, a: nat, e: nat)
    requires TaskShape(line, m, a, e) && IsSyncMark(m)
    ensures MatchTask(line) == Some(TaskLine(m, line[6..e], line[e + 1..], None, None))
  {
    TaskShapeId(line, m, a, e);
    var title := line[e + 1..];
    assert forall k :: 0 <= k < |title| ==> title[k] == line[e + 1 + k];
    assert line[e..][1..] == title;
    TitleWithoutPipe(title, 1);
    assert TaskAfterId(line[e..], 1) == Some((title, None, None));
  }

  /**
   * A task item `- [m] a.b title` whose title has no `|` and does not start
   * with whitespace is read with that mark, id and title, and without files
   * or output.
   */
  lemma TaskItemLine(m: char, major: string, minor: string, title: string)
    requires IsSyncMark(m) && AllDigits(major) && AllDigits(minor)
    requires title != [] && AllDot(title) && !IsSpace(title[0])
    requires forall k :: 0 <= k < |title| ==> title[k] != '|'
    ensures MatchTask("- [" + [m] + "] " + major + "." + minor + " " + title)
      == Some(TaskLine(m, major + "." + minor, title, None, None))
  {
    var id := major + "." + minor;
    var line := "- [" + [m] + "] " + major + "." + minor + " " + title;
    var a := |major|;
    var e := 6 + |id|;
    assert line[..6] == "- [" + [m] + "] " && line[6..e] == id && line[e] == ' ' && line[e + 1..] == title;
    assert id[a] == '.';
    assert forall k :: 0 <= k < a ==> id[k] == major[k];
    assert forall k :: a + 1 <= k < |id| ==> id[k] == minor[k - a - 1];
    assert TaskShape(line, m, a, e);
    TaskShapeMatches(line, m, a, e);
    assert MatchTask(line) == Some(TaskLine(m, id, title, None, None));
  }
}
