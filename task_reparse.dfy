/**
 * Reading a checklist back after `updateTasksMdCheckbox` or
 * `updateTasksMdToInProgress` rewrote one of its marks: the records
 * before and after the rewrite differ in at most one task, and in that
 * task only in its status.
 *
 * One kind of text is set aside (`DashesAfterNewlines`). Under the `m`
 * flag the rewrite pattern's `^` also matches after a `\r`, U+2028 or
 * U+2029, while the checklist is read in pieces split at `\n` only: a `-`
 * right after such a character starts a task line for the rewrite but
 * sits inside the title of another line for the reader.
 */
module TaskReparse {
  import opened Text
  import opened TaskGrammar
  import opened TaskSync

  // ---------------------------------------------------------------------
  // Runs are fixed by the characters they read

  /** A run of `n` spaces at `i` that cannot be extended is `SpaceRun`'s. */
  lemma {:induction false} SpaceRunIs(s: string, i: nat, n: nat)
    requires i + n <= |s|
    requires forall j :: i <= j < i + n ==> IsSpace(s[j])
    requires i + n == |s| || !IsSpace(s[i + n])
    ensures SpaceRun(s, i) == n
  {
  }

  /** A run of `n` digits at `i` that cannot be extended is `DigitRun`'s. */
  lemma {:induction false} DigitRunIs(s: string, i: nat, n: nat)
    requires i + n <= |s|
    requires forall j :: i <= j < i + n ==> IsDigit(s[j])
    requires i + n == |s| || !IsDigit(s[i + n])
    ensures DigitRun(s, i) == n
  {
  }

  /** Two texts of one length that hold the same characters from `i` on. */
  predicate SameFrom(a: string, b: string, i: nat) {
    |a| == |b| && i <= |a| && forall j :: i <= j < |a| ==> a[j] == b[j]
  }

  /** A space run depends on its spaces and the character that stops it. */
  lemma {:induction false} SpaceRunAgree(a: string, b: string, i: nat)
    requires |a| == |b| && i <= |a|
    requires forall j :: i <= j <= i + SpaceRun(a, i) && j < |a| ==> a[j] == b[j]
    ensures SpaceRun(b, i) == SpaceRun(a, i)
  {
    var n := SpaceRun(a, i);
    if i + n < |a| {
      assert a[i + n] == b[i + n];
    }
    SpaceRunIs(b, i, n);
  }

  lemma {:induction false} DigitRunAgree(a: string, b: string, i: nat)
    requires SameFrom(a, b, i)
    ensures DigitRun(b, i) == DigitRun(a, i)
  {
    var n := DigitRun(a, i);
    if i + n < |a| {
      assert a[i + n] == b[i + n];
    }
    DigitRunIs(b, i, n);
  }

  lemma {:induction false} IdEndAgree(a: string, b: string, k: nat)
    requires SameFrom(a, b, k)
    ensures IdEnd(b, k) == IdEnd(a, k)
  {
    DigitRunAgree(a, b, k);
    var d1 := DigitRun(a, k);
    if k + d1 < |a| {
      DigitRunAgree(a, b, k + d1 + 1);
    }
  }

  // ---------------------------------------------------------------------
  // One line

  /** A line that does not start with `#` is no group header. */
  lemma {:induction false} NotHeader(l: string)
    requires |l| > 0 && l[0] != '#'
    ensures MatchHeader(l).None?
  {
    if |l| >= 2 {
      assert l[..2][0] != "##"[0];
    }
  }

  /** Two texts of one length that differ at most at position `m`. */
  predicate DiffersOnlyAt(a: string, b: string, m: nat) {
    |a| == |b| && forall j :: 0 <= j < |a| && j != m ==> a[j] == b[j]
  }

  /** The `- [m] ` prefix is found in the same place whatever the mark. */
  lemma {:induction false} IdStartAgree(a: string, b: string)
    requires |a| > 0 && a[0] == '-' && MarkIndex(a, 0) < |a| && DiffersOnlyAt(a, b, MarkIndex(a, 0))
    ensures MarkIndex(b, 0) == MarkIndex(a, 0) && IdStart(b, 0) == IdStart(a, 0)
  {
    var i := 1 + SpaceRun(a, 1);
    SpaceRunAgree(a, b, 1);
    if i + 3 <= |a| {
      assert b[i] == a[i] && b[i + 2] == a[i + 2];
      SpaceRunAgree(a, b, i + 3);
    }
  }

  /** From the id on, two texts that agree there are read alike. */
  lemma {:induction false} AfterIdAgree(a: string, b: string, k: nat)
    requires SameFrom(a, b, k)
    ensures IdEnd(b, k) == IdEnd(a, k) && SpaceRun(b, IdEnd(a, k)) == SpaceRun(a, IdEnd(a, k))
    ensures b[k..IdEnd(a, k)] == a[k..IdEnd(a, k)] && b[IdEnd(a, k)..] == a[IdEnd(a, k)..]
  {
    IdEndAgree(a, b, k);
    var e := IdEnd(a, k);
    SpaceRunAgree(a, b, e);
    assert b[e..] == a[e..];
    assert b[k..e] == a[k..e];
  }

  /** `MatchTask` on two lines that are read alike except for their marks. */
  lemma {:induction false} MatchTaskRemark(a: string, b: string, c: char)
    requires IdStart(a, 0).Some? && IdStart(b, 0) == IdStart(a, 0)
    requires MarkIndex(b, 0) == MarkIndex(a, 0) < |a| && b[MarkIndex(a, 0)] == c
    requires IsSyncMark(a[MarkIndex(a, 0)]) && IsSyncMark(c)
    requires IdEnd(b, IdStart(a, 0).value) == IdEnd(a, IdStart(a, 0).value)
    requires SpaceRun(b, IdEnd(a, IdStart(a, 0).value)) == SpaceRun(a, IdEnd(a, IdStart(a, 0).value))
    requires b[IdStart(a, 0).value..IdEnd(a, IdStart(a, 0).value)] == a[IdStart(a, 0).value..IdEnd(a, IdStart(a, 0).value)]
    requires b[IdEnd(a, IdStart(a, 0).value)..] == a[IdEnd(a, IdStart(a, 0).value)..]
    ensures MatchTask(b) == if MatchTask(a).Some? then Some(MatchTask(a).value.(mark := c)) else None
  {
  }

  /**
   * The task pattern reads a line's mark only to see that it is one of
   * ` xX~>`: with another such mark the line matches the same way and
   * captures the new mark.
   */
  lemma {:induction false} MarkIgnored(l: string, c: char)
    requires |l| > 0 && l[0] == '-'
    requires MarkIndex(l, 0) < |l| && IsSyncMark(l[MarkIndex(l, 0)]) && IsSyncMark(c)
    ensures MatchHeader(l).None? && MatchHeader(Overwrite(l, MarkIndex(l, 0), c)).None?
    ensures MatchTask(Overwrite(l, MarkIndex(l, 0), c)) ==
      if MatchTask(l).Some? then Some(MatchTask(l).value.(mark := c)) else None
  {
    var m := MarkIndex(l, 0);
    var l2 := Overwrite(l, m, c);
    IdStartAgree(l, l2);
    NotHeader(l);
    NotHeader(l2);
    if IdStart(l, 0).Some? {
      AfterIdAgree(l, l2, IdStart(l, 0).value);
      MatchTaskRemark(l, l2, c);
    } else {
      assert MatchTask(l).None? && MatchTask(l2).None?;
    }
  }

  /** Where a matched task line's id sits. */
  lemma {:induction false} TaskIdSpan(l: string)
    requires MatchTask(l).Some?
    ensures IdStart(l, 0).Some?
    ensures IdEnd(l, IdStart(l, 0).value) > IdStart(l, 0).value
    ensures MatchTask(l).value.id == l[IdStart(l, 0).value..IdEnd(l, IdStart(l, 0).value)]
  {
  }

  /** An id of the task shape matches, in the rewrite pattern, only itself. */
  lemma {:induction false} TaskIdLiteral(w: string, id: string)
    requires IsTaskId(id) && |w| == |id| && IdMatches(w, id)
    ensures w == id
  {
    TaskIdChars(id);
    forall j | 0 <= j < |id|
      ensures w[j] == id[j]
    {
      assert IdCharMatches(id, j, w[j]);
    }
  }

  /** An id of the task shape followed by a space or the end is read whole. */
  lemma {:induction false} IdEndOf(line: string, k: nat, id: string)
    requires IsTaskId(id) && k + |id| <= |line| && line[k..k + |id|] == id
    requires k + |id| == |line| || IsSpace(line[k + |id|])
    ensures IdEnd(line, k) == k + |id|
  {
    forall j | k <= j < k + |id|
      ensures line[j] == id[j - k]
    {
      assert line[k..k + |id|][j - k] == line[j];
    }
    if AllDigits(id) {
      DigitRunIs(line, k, |id|);
    } else {
      var d :| 0 < d < |id| && id[d] == '.' && AllDigits(id[..d]) && AllDigits(id[d + 1..]);
      forall j | k <= j < k + d
        ensures IsDigit(line[j])
      {
        assert id[..d][j - k] == id[j - k];
      }
      DigitRunIs(line, k, d);
      forall j | k + d + 1 <= j < k + |id|
        ensures IsDigit(line[j])
      {
        assert id[d + 1..][j - k - d - 1] == id[j - k];
      }
      DigitRunIs(line, k + d + 1, |id| - d - 1);
    }
  }

  // ---------------------------------------------------------------------
  // Lines of the text

  /** Every `-` that follows a line terminator follows a `\n`. */
  predicate DashesAfterNewlines(s: string) {
    forall j :: 0 < j < |s| && s[j] == '-' && IsLineTerminator(s[j - 1]) ==> s[j - 1] == '\n'
  }

  /** Where the `\n`-separated line holding position `m` begins. */
  function LineBegin(s: string, m: nat): (j: nat)
    requires m <= |s|
    ensures j <= m && (j == 0 || s[j - 1] == '\n')
    ensures forall x :: j <= x < m ==> s[x] != '\n'
  {
    if m == 0 || s[m - 1] == '\n' then m else LineBegin(s, m - 1)
  }

  /** Where the `\n`-separated line holding position `m` ends. */
  function LineEnd(s: string, m: nat): (q: nat)
    requires m <= |s|
    ensures m <= q <= |s| && (q == |s| || s[q] == '\n')
    ensures forall x :: m <= x < q ==> s[x] != '\n'
    ensures m < |s| && s[m] != '\n' ==> m < q
    decreases |s| - m
  {
    if m == |s| || s[m] == '\n' then m else LineEnd(s, m + 1)
  }

  /** A text ending in a line break, or empty, splits with an empty last piece. */
  lemma {:induction false} SplitEndsEmpty(pre: string)
    requires pre == [] || pre[|pre| - 1] == '\n'
    ensures Split(pre, '\n')[|Split(pre, '\n')| - 1] == ""
  {
    if pre != [] {
      SplitTerminated(pre[..|pre| - 1], '\n');
      assert pre[..|pre| - 1] + ['\n'] == pre;
    }
  }

  /** A line without line breaks before a line break, or the end, is the first piece. */
  lemma {:induction false} SplitLineFirst(line: string, post: string)
    requires '\n' !in line
    requires post == [] || post[0] == '\n'
    ensures Split(line + post, '\n') == [line] + Split(post, '\n')[1..]
  {
    if post == [] {
      SplitNoSeparator(line, '\n');
      assert line + post == line;
    } else {
      SplitJoinStep(line, post[1..], Split(post[1..], '\n'), '\n');
      SplitAfterSeparator(post[1..], '\n');
      assert ['\n'] + post[1..] == post;
    }
  }

  /**
   * A line between the start or a line break and a line break or the end
   * is one piece of `split('\n')`, between the pieces of what comes before
   * and after it.
   */
  lemma {:induction false} SplitAround(pre: string, line: string, post: string)
    requires pre == [] || pre[|pre| - 1] == '\n'
    requires '\n' !in line
    requires post == [] || post[0] == '\n'
    ensures Split(pre + line + post, '\n') == Split(pre, '\n')[..|Split(pre, '\n')| - 1] + [line] + Split(post, '\n')[1..]
  {
    SplitEndsEmpty(pre);
    SplitLineFirst(line, post);
    SplitAppend(pre, line + post, '\n');
    assert pre + line + post == pre + (line + post);
    assert "" + line == line;
  }


  // ---------------------------------------------------------------------
  // Records before and after

  /**
   * `after` is `before` with at most one record changed, and that one only
   * in its status, which went from one in `prior` to `st`; for an id of
   * the task shape the changed record carries that id.
   */
  predicate Remarked(before: seq<TaskItem>, after: seq<TaskItem>, st: TaskStatus, prior: set<TaskStatus>, id: string) {
    && |after| == |before|
    && (forall i :: 0 <= i < |before| && after[i] != before[i] ==>
          && after[i] == before[i].(status := st)
          && before[i].status in prior
          && (IsTaskId(id) ==> before[i].id == id))
    && (forall i, j :: 0 <= i < j < |before| ==> after[i] == before[i] || after[j] == before[j])
  }

  /** Changing at most one record in the middle of a list. */
  lemma {:induction false} RemarkedConcat(a: seq<TaskItem>, x: seq<TaskItem>, y: seq<TaskItem>, b: seq<TaskItem>,
                       st: TaskStatus, prior: set<TaskStatus>, id: string)
    requires y == x || (|x| == 1 && y == [x[0].(status := st)] && x[0].status in prior
                        && (IsTaskId(id) ==> x[0].id == id))
    ensures Remarked(a + x + b, a + y + b, st, prior, id)
  {
    var before, after := a + x + b, a + y + b;
    if y != x {
      forall i | 0 <= i < |before| && i != |a|
        ensures after[i] == before[i]
      {
        if i > |a| {
          assert after[i] == b[i - |a| - 1] == before[i];
        }
      }
    }
  }

  /**
   * `l2` is `l` rewritten so that neither is a header and either neither
   * is a task line, or both are and only the mark changed, to `c`, from a
   * status in `prior`, on the record of `id` when `id` is a task id.
   */
  predicate LineRemark(l: string, l2: string, c: char, prior: set<TaskStatus>, id: string) {
    && MatchHeader(l).None? && MatchHeader(l2).None?
    && (|| (MatchTask(l).None? && MatchTask(l2).None?)
        || (&& MatchTask(l).Some? && MatchTask(l2) == Some(MatchTask(l).value.(mark := c))
            && StatusOfMark(MatchTask(l).value.mark) in prior
            && (IsTaskId(id) ==> MatchTask(l).value.id == id)))
  }

  /**
   * Rewriting one line that is no header and either no task line before
   * and after, or a task line whose mark became `c`, changes the records
   * of the whole text at most in that line's record.
   */
  lemma {:induction false} ParseAround(s: string, s2: string, pre: string, l: string, l2: string, post: string, c: char, prior: set<TaskStatus>, id: string)
    requires s == pre + l + post && s2 == pre + l2 + post
    requires pre == [] || pre[|pre| - 1] == '\n'
    requires post == [] || post[0] == '\n'
    requires '\n' !in l && '\n' !in l2 && IsSyncMark(c)
    requires LineRemark(l, l2, c, prior, id)
    ensures Remarked(ParseTasks(s), ParseTasks(s2), StatusOfMark(c), prior, id)
  {
    var p := Split(pre, '\n');
    var front, back := p[..|p| - 1], Split(post, '\n')[1..];
    SplitAround(pre, l, post);
    SplitAround(pre, l2, post);
    ParseAppend(front + [l], back, Start);
    ParseAppend(front, [l], Start);
    ParseAppend(front + [l2], back, Start);
    ParseAppend(front, [l2], Start);
    var cur := CursorAfter(front, Start);
    ScanOne(LineStep, l, cur);
    ScanOne(LineStep, l2, cur);
    var x, y := ParseLines([l], cur), ParseLines([l2], cur);
    if MatchTask(l).Some? {
      var t := MatchTask(l).value;
      assert x == [MakeTask(t, cur)];
      assert y == [MakeTask(t.(mark := c), cur)];
      assert MakeTask(t.(mark := c), cur) == MakeTask(t, cur).(status := StatusOfMark(c));
    } else {
      assert x == [] == y;
    }
    assert CursorAfter([l], cur) == cur == CursorAfter([l2], cur);
    RemarkedConcat(ParseLines(front, Start), x, y, ParseLines(back, cur), StatusOfMark(c), prior, id);
  }

  /** The mark of the line `l` cut out at `p` sits where it sat in the text. */
  lemma {:induction false} SliceMarkIndex(s: string, p: nat, q: nat, l: string)
    requires p <= |s| && IdStart(s, p).Some? && MarkIndex(s, p) + 2 <= q <= |s| && l == s[p..q]
    ensures MarkIndex(l, 0) == MarkIndex(s, p) - p
  {
    var w := SpaceRun(s, p + 1);
    forall x | 1 <= x < 1 + w
      ensures IsSpace(l[x])
    {
      assert l[x] == s[p + x];
    }
    assert l[1 + w] == s[p + 1 + w];
    SpaceRunIs(l, 1, w);
  }

  /** A run of spaces in the line cut out at `p` that ends inside it is the run `p` further on in the text. */
  lemma {:induction false} SpaceRunShift(s: string, p: nat, q: nat, l: string, a: nat)
    requires p <= q <= |s| && l == s[p..q] && a <= |l| && a + SpaceRun(l, a) < |l|
    ensures SpaceRun(s, p + a) == SpaceRun(l, a)
  {
    var w := SpaceRun(l, a);
    forall x | p + a <= x < p + a + w
      ensures IsSpace(s[x])
    {
      assert s[x] == l[x - p];
    }
    assert s[p + a + w] == l[a + w];
    SpaceRunIs(s, p + a, w);
  }

  /** Where the id of the line `l` cut out at `p` starts, when it starts inside it. */
  lemma {:induction false} SliceIdStart(s: string, p: nat, q: nat, l: string, k: nat)
    requires p <= |s| && IdStart(s, p) == Some(k) && MarkIndex(s, p) + 2 <= q <= |s| && l == s[p..q]
    requires IdStart(l, 0).Some? && IdStart(l, 0).value < |l|
    ensures IdStart(l, 0) == Some(k - p)
  {
    SliceMarkIndex(s, p, q, l);
    var i := 1 + SpaceRun(l, 1);
    assert l[i] == s[p + i] && l[i + 2] == s[p + i + 2];
    SpaceRunShift(s, p, q, l, i + 3);
  }


  /** An id of the task shape the rewrite found at `k`, on a line ending at `q`, lies inside that line. */
  lemma {:induction false} IdInLine(s: string, k: nat, id: string, q: nat)
    requires IsTaskId(id) && IdAt(s, k, id) && k < q <= |s| && (q == |s| || s[q] == '\n')
    ensures k + |id| <= q && s[k..k + |id|] == id
  {
    TaskIdLiteral(s[k..k + |id|], id);
    TaskIdChars(id);
  }

  /**
   * The line `l` from a match position `p` to the next line break, when no
   * line break comes before the mark: its mark is where the match put it,
   * and when it is a task line, an id of the task shape is its id.
   */
  lemma {:induction false} LineOfMatch(s: string, p: nat, k: nat, id: string, q: nat, l: string)
    requires p < |s| && IdStart(s, p) == Some(k) && IdAt(s, k, id)
    requires MarkIndex(s, p) + 2 <= q <= |s| && (q == |s| || s[q] == '\n') && l == s[p..q]
    ensures MarkIndex(l, 0) == MarkIndex(s, p) - p
    ensures IsTaskId(id) ==> LineIdIs(l, id)
  {
    SliceMarkIndex(s, p, q, l);
    if IsTaskId(id) && IdStart(l, 0).Some? && IdStart(l, 0).value < |l| {
      LineIdOfMatch(s, p, k, id, q, l);
    }
  }

  /** When the line's id starts inside the line, it is the one the rewrite found. */
  lemma {:induction false} LineIdOfMatch(s: string, p: nat, k: nat, id: string, q: nat, l: string)
    requires p < |s| && IdStart(s, p) == Some(k) && IdAt(s, k, id) && IsTaskId(id)
    requires MarkIndex(s, p) + 2 <= q <= |s| && (q == |s| || s[q] == '\n') && l == s[p..q]
    requires IdStart(l, 0).Some? && IdStart(l, 0).value < |l|
    ensures LineIdIs(l, id)
  {
    SliceIdStart(s, p, q, l, k);
    IdInLine(s, k, id, q);
    LineIdTail(s, p, k, k - p, id, q, l);
  }

  lemma {:induction false} LineIdTail(s: string, p: nat, k: nat, kl: nat, id: string, q: nat, l: string)
    requires kl == k - p && IsTaskId(id) && k <= q <= |s| && l == s[p..q] && IdStart(l, 0) == Some(kl)
    requires k + |id| <= q && s[k..k + |id|] == id && (k + |id| == q || IsSpace(s[k + |id|]))
    ensures LineIdIs(l, id)
  {
    SliceId(s, p, q, l, id, k, kl);
    LineIdFrom(l, kl, id);
  }

  /** Where the id of `l` starts and ends decides what `LineIdIs` says. */
  lemma {:induction false} LineIdFrom(l: string, kl: nat, id: string)
    requires IdStart(l, 0) == Some(kl)
    requires kl + |id| <= |l|
    requires IdEnd(l, kl) == kl + |id|
    requires l[kl..kl + |id|] == id
    ensures LineIdIs(l, id)
  {
  }



  /** The id read in line `l`, if it starts inside the line, is `id`. */
  predicate LineIdIs(l: string, id: string) {
    IdStart(l, 0).Some? && IdStart(l, 0).value < |l| ==> l[IdStart(l, 0).value..IdEnd(l, IdStart(l, 0).value)] == id
  }

  /** A task line whose id is read as `id` captures `id`. */
  lemma {:induction false} TaskIdIs(l: string, id: string)
    requires LineIdIs(l, id) && MatchTask(l).Some?
    ensures MatchTask(l).value.id == id
  {
    TaskIdSpan(l);
  }

  /** A piece of the line cut out at `p` is the piece of the text `p` further on. */
  lemma {:induction false} SliceWithin(s: string, p: nat, q: nat, l: string, a: nat, b: nat)
    requires p <= q <= |s| && l == s[p..q] && a <= b <= |l|
    ensures l[a..b] == s[p + a..p + b]
  {
    forall x | 0 <= x < b - a
      ensures l[a..b][x] == s[p + a..p + b][x]
    {
      assert l[a + x] == s[p + a + x];
    }
  }

  /** The id found by the rewrite at `k` is the id read at `k - p` in the line cut out at `p`. */
  lemma {:induction false} SliceId(s: string, p: nat, q: nat, l: string, id: string, k: nat, kl: nat)
    requires IsTaskId(id) && kl == k - p && k + |id| <= q <= |s| && l == s[p..q]
    requires s[k..k + |id|] == id && (k + |id| == q || IsSpace(s[k + |id|]))
    ensures kl + |id| <= |l|
    ensures IdEnd(l, kl) == kl + |id|
    ensures l[kl..kl + |id|] == id
  {
    SliceWithin(s, p, q, l, kl, kl + |id|);
    if kl + |id| < |l| {
      assert l[kl + |id|] == s[k + |id|];
    }
    IdEndOf(l, kl, id);
  }

  /** The `\n`-line around position `m`, cut out of the text before and after overwriting `m`. */
  lemma {:induction false} CutLine(s: string, m: nat, c: char) returns (pre: string, l: string, l2: string, post: string)
    requires m < |s| && s[m] != '\n' && c != '\n'
    ensures l == LineAt(s, m) && m - LineBegin(s, m) < |l| && l2 == Overwrite(l, m - LineBegin(s, m), c)
    ensures '\n' !in l && '\n' !in l2
    ensures pre == [] || pre[|pre| - 1] == '\n'
    ensures post == [] || post[0] == '\n'
    ensures s == pre + l + post && Overwrite(s, m, c) == pre + l2 + post
  {
    var j, q := LineBegin(s, m), LineEnd(s, m);
    pre, l, post := s[..j], LineAt(s, m), s[q..];
    l2 := Overwrite(l, m - j, c);
    var t := Overwrite(s, m, c);
    assert s == pre + l + post;
    forall x | 0 <= x < |t|
      ensures t[x] == (pre + l2 + post)[x]
    {
      if j <= x < q {
        assert (pre + l2 + post)[x] == l2[x - j];
      }
    }
    assert t == pre + l2 + post;
    forall x | 0 <= x < |l|
      ensures l2[x] != '\n'
    {
      assert l[x] == s[j + x];
    }
  }

  /**
   * A `\n`-line that begins after a match position `p` but no later than
   * its mark begins inside the whitespace before `[`, or at `[`: it
   * starts with neither `-` nor `#`, and its first character is not the mark.
   */
  lemma {:induction false} LaterLineStart(s: string, p: nat, j: nat)
    requires p <= |s| && IdStart(s, p).Some? && p < j <= MarkIndex(s, p) && s[j - 1] == '\n'
    ensures j < MarkIndex(s, p) && s[j] != '-' && s[j] != '#'
  {
    var i := p + 1 + SpaceRun(s, p + 1);
    assert s[i] == '[';
    assert j - 1 != p && j - 1 != i;
    if j < i {
      assert IsSpace(s[j]);
    }
  }

  /** The statuses a rewritten record may have had: any, or only pending when only a space mark is rewritten. */
  function Prior(anyMark: bool): (r: set<TaskStatus>)
    ensures Pending in r
  {
    if anyMark then {Pending, InProgress, Completed} else {Pending}
  }

  /** The `\n`-separated line holding position `m`. */
  function LineAt(s: string, m: nat): (l: string)
    requires m <= |s|
    ensures '\n' !in l
  {
    var j, q := LineBegin(s, m), LineEnd(s, m);
    assert forall x :: 0 <= x < q - j ==> s[j..q][x] == s[j + x];
    s[j..q]
  }

  /**
   * Overwriting the character at `m` with `c` changes the records as
   * `LineRemark` says the line holding `m` changes.
   */
  lemma {:induction false} RemarkLine(s: string, m: nat, c: char, prior: set<TaskStatus>, id: string)
    requires m < |s| && s[m] != '\n' && IsSyncMark(c)
    requires LineRemark(LineAt(s, m), Overwrite(LineAt(s, m), m - LineBegin(s, m), c), c, prior, id)
    ensures Remarked(ParseTasks(s), ParseTasks(Overwrite(s, m, c)), StatusOfMark(c), prior, id)
  {
    var pre, l, l2, post := CutLine(s, m, c);
    ParseAround(s, Overwrite(s, m, c), pre, LineAt(s, m), Overwrite(LineAt(s, m), m - LineBegin(s, m), c), post, c, prior, id);
  }

  /**
   * A task-shaped line whose mark is overwritten with a checkbox mark
   * changes as `LineRemark` says, given its mark's status and its id.
   */
  lemma {:induction false} OwnLineRemark(l: string, c: char, prior: set<TaskStatus>, id: string)
    requires |l| > 0 && l[0] == '-'
    requires MarkIndex(l, 0) < |l| && IsSyncMark(l[MarkIndex(l, 0)]) && IsSyncMark(c)
    requires StatusOfMark(l[MarkIndex(l, 0)]) in prior
    requires IsTaskId(id) ==> LineIdIs(l, id)
    ensures LineRemark(l, Overwrite(l, MarkIndex(l, 0), c), c, prior, id)
  {
    MarkIgnored(l, c);
    if IsTaskId(id) && MatchTask(l).Some? {
      TaskIdIs(l, id);
    }
  }

  /** `LineRemark` for a line and its rewrite, stated again for equal terms. */
  lemma {:induction false} SameRemark(l: string, l': string, k: nat, k': nat, c: char, prior: set<TaskStatus>, id: string)
    requires l == l' && k == k' && k < |l|
    requires LineRemark(l, Overwrite(l, k, c), c, prior, id)
    ensures LineRemark(l', Overwrite(l', k', c), c, prior, id)
  {
  }

  /** The case where the mark lies on the `\n`-line that starts at `p`. */
  lemma {:induction false} RemarkOwnLine(s: string, p: nat, m: nat, id: string, anyMark: bool, newMark: char)
    requires MarkLineMatches(s, p, id, anyMark) && IsSyncMark(newMark) && m == MarkIndex(s, p)
    requires LineBegin(s, m) == p
    ensures m < |s| && s[m] != '\n'
    ensures LineRemark(LineAt(s, m), Overwrite(LineAt(s, m), m - LineBegin(s, m), newMark), newMark, Prior(anyMark), id)
  {
    var q := LineEnd(s, m);
    assert q != m + 1 by {
      assert s[m + 1] == ']';
    }
    var l := s[p..q];
    LineOfMatch(s, p, IdStart(s, p).value, id, q, l);
    assert l[m - p] == s[m];
    OwnLineRemark(l, newMark, Prior(anyMark), id);
    SameRemark(l, LineAt(s, m), MarkIndex(l, 0), m - LineBegin(s, m), newMark, Prior(anyMark), id);
  }

  /** A line and its rewrite that start alike, with neither `-` nor `#`, are neither task lines nor headers. */
  lemma {:induction false} PlainLineRemark(l: string, l2: string, c: char, prior: set<TaskStatus>, id: string)
    requires |l| > 0 && l[0] != '-' && l[0] != '#' && |l2| > 0 && l2[0] == l[0]
    ensures MatchTask(l).None? && MatchTask(l2).None?
    ensures LineRemark(l, l2, c, prior, id)
  {
    NotHeader(l);
    NotHeader(l2);
  }

  /** The case where a line break comes between `p` and the mark: the mark's line is no task line. */
  lemma {:induction false} RemarkLaterLine(s: string, p: nat, m: nat, id: string, anyMark: bool, newMark: char)
    requires MarkLineMatches(s, p, id, anyMark) && IsSyncMark(newMark) && m == MarkIndex(s, p)
    requires p < LineBegin(s, m)
    ensures m < |s| && s[m] != '\n'
    ensures MatchTask(LineAt(s, m)).None? && MatchTask(Overwrite(LineAt(s, m), m - LineBegin(s, m), newMark)).None?
    ensures LineRemark(LineAt(s, m), Overwrite(LineAt(s, m), m - LineBegin(s, m), newMark), newMark, Prior(anyMark), id)
  {
    LaterLineStart(s, p, LineBegin(s, m));
    assert LineAt(s, m)[0] == s[LineBegin(s, m)];
    PlainLineRemark(LineAt(s, m), Overwrite(LineAt(s, m), m - LineBegin(s, m), newMark), newMark, Prior(anyMark), id);
  }

  /** No line break comes between the start of the line a match begins on and the match. */
  lemma {:induction false} MatchLineBegin(s: string, p: nat, id: string, anyMark: bool)
    requires MarkLineMatches(s, p, id, anyMark) && DashesAfterNewlines(s)
    ensures MarkIndex(s, p) < |s| && p <= LineBegin(s, MarkIndex(s, p))
  {
    assert p == 0 || s[p - 1] == '\n';
  }

  /**
   * Overwriting the mark the rewrite pattern matched at `p` changes the
   * records at most in the record of that line, and only in its status.
   */
  lemma {:induction false} RemarkAt(s: string, p: nat, id: string, anyMark: bool, newMark: char)
    requires MarkLineMatches(s, p, id, anyMark) && IsSyncMark(newMark) && DashesAfterNewlines(s)
    ensures MarkIndex(s, p) < |s|
    ensures Remarked(ParseTasks(s), ParseTasks(Overwrite(s, MarkIndex(s, p), newMark)), StatusOfMark(newMark), Prior(anyMark), id)
  {
    var m := MarkIndex(s, p);
    MatchLineBegin(s, p, id, anyMark);
    if LineBegin(s, m) == p {
      RemarkOwnLine(s, p, m, id, anyMark, newMark);
    } else {
      RemarkLaterLine(s, p, m, id, anyMark, newMark);
    }
    RemarkLine(s, m, newMark, Prior(anyMark), id);
  }

  /**
   * The rewrite behind both checkbox updates, read back: at most one
   * record changes, only in its status, which becomes the new mark's.
   * When only a space mark may be rewritten, the changed record was
   * pending.
   */
  lemma {:induction false} SetMarkReparse(s: string, id: string, anyMark: bool, newMark: char)
    requires IsSyncMark(newMark) && DashesAfterNewlines(s)
    ensures Remarked(ParseTasks(s), ParseTasks(SetMark(s, id, anyMark, newMark)), StatusOfMark(newMark), Prior(anyMark), id)
  {
    match FirstMarkLine(s, id, anyMark, 0)
    case None =>
      assert SetMark(s, id, anyMark, newMark) == s;
    case Some(p) =>
      RemarkAt(s, p, id, anyMark, newMark);
  }

  /**
   * Completing task `id` and reading the checklist again: every record is
   * unchanged but at most one, which only became completed.
   */
  lemma {:induction false} MarkCompletedReparse(s: string, id: string)
    requires DashesAfterNewlines(s)
    ensures Remarked(ParseTasks(s), ParseTasks(MarkCompleted(s, id).content), Completed, {Pending, InProgress, Completed}, id)
  {
    SetMarkReparse(s, id, true, 'x');
  }

  /**
   * Starting task `id` and reading the checklist again: every record is
   * unchanged but at most one, which went from pending to in progress.
   */
  lemma {:induction false} MarkInProgressReparse(s: string, id: string)
    requires DashesAfterNewlines(s)
    ensures Remarked(ParseTasks(s), ParseTasks(MarkInProgress(s, id).content), InProgress, {Pending}, id)
  {
    SetMarkReparse(s, id, false, '~');
  }
}
