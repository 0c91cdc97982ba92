/**
 * String vocabulary shared by every hook: JavaScript's character classes,
 * ASCII case mapping, and the handful of String methods the hooks rely on
 * (`includes`, `startsWith`, `trim`, `split`, `join`, number rendering).
 */
module Text {

  datatype Option<T> = None | Some(value: T) {
    function GetOr(default: T): T {
      if Some? then value else default
    }
  }

  /** The characters JavaScript's `\s` matches, which are also the ones `trim` removes. */
  predicate IsSpace(c: char) {
    c == '\t' || c == '\n' || c == '\U{000B}' || c == '\U{000C}' || c == '\r' || c == ' '
    || c == '\U{00A0}' || c == '\U{1680}' || ('\U{2000}' <= c <= '\U{200A}')
    || c == '\U{2028}' || c == '\U{2029}' || c == '\U{202F}' || c == '\U{205F}'
    || c == '\U{3000}' || c == '\U{FEFF}'
  }

  /** Line terminators: what `.` refuses and where `^` matches under the `m` flag. */
  predicate IsLineTerminator(c: char) {
    c == '\n' || c == '\r' || c == '\U{2028}' || c == '\U{2029}'
  }

  /** The characters `.` matches (no `s` flag). */
  predicate IsDotChar(c: char) {
    !IsLineTerminator(c)
  }

  predicate IsDigit(c: char) {
    '0' <= c <= '9'
  }

  predicate IsAsciiUpper(c: char) {
    'A' <= c <= 'Z'
  }

  predicate IsAsciiLower(c: char) {
    'a' <= c <= 'z'
  }

  predicate IsAsciiLetter(c: char) {
    IsAsciiUpper(c) || IsAsciiLower(c)
  }

  function LowerChar(c: char): char {
    if IsAsciiUpper(c) then (c as int + 32) as char else c
  }

  function UpperChar(c: char): char {
    if IsAsciiLower(c) then (c as int - 32) as char else c
  }

  /** `toLowerCase`, restricted to the ASCII letters. */
  function Lower(s: string): (r: string)
    ensures |r| == |s|
    ensures forall i :: 0 <= i < |s| ==> r[i] == LowerChar(s[i])
  {
    if s == [] then [] else [LowerChar(s[0])] + Lower(s[1..])
  }

  /** `toUpperCase`, restricted to the ASCII letters. */
  function Upper(s: string): (r: string)
    ensures |r| == |s|
    ensures forall i :: 0 <= i < |s| ==> r[i] == UpperChar(s[i])
  {
    if s == [] then [] else [UpperChar(s[0])] + Upper(s[1..])
  }

  /** Lower-casing works character by character, so it distributes over `+`. */
  lemma LowerAppend(a: string, b: string)
    ensures Lower(a + b) == Lower(a) + Lower(b)
  {
    var l, r := Lower(a + b), Lower(a) + Lower(b);
    assert |l| == |r|;
    forall i | 0 <= i < |l|
      ensures l[i] == r[i]
    {
      if i < |a| {
        assert (a + b)[i] == a[i];
      } else {
        assert (a + b)[i] == b[i - |a|];
      }
    }
  }

  /** A text without upper-case ASCII letters is its own lower case. */
  lemma LowerUnchanged(s: string)
    requires forall i :: 0 <= i < |s| ==> !IsAsciiUpper(s[i])
    ensures Lower(s) == s
  {
  }

  /** `s` with the character at `i` replaced by `c`. */
  function Overwrite(s: string, i: nat, c: char): (r: string)
    requires i < |s|
    ensures |r| == |s| && r[i] == c
    ensures forall j :: 0 <= j < |s| && j != i ==> r[j] == s[j]
  {
    s[..i] + [c] + s[i + 1..]
  }

  predicate StartsWith(s: string, prefix: string) {
    |prefix| <= |s| && s[..|prefix|] == prefix
  }

  predicate EndsWith(s: string, suffix: string) {
    |suffix| <= |s| && s[|s| - |suffix|..] == suffix
  }

  /** `s.includes(sub)`: `sub` occurs somewhere in `s`. */
  predicate Contains(s: string, sub: string) {
    exists i | 0 <= i <= |s| - |sub| :: OccursAt(s, sub, i)
  }

  /** `sub` occurs in `s` starting at index `i`. */
  predicate OccursAt(s: string, sub: string, i: int) {
    0 <= i <= |s| - |sub| && s[i..i + |sub|] == sub
  }

  /** `trimStart`: the longest whitespace prefix removed. */
  function TrimStart(s: string): (r: string)
    ensures |r| <= |s| && r == s[|s| - |r|..]
    ensures forall i :: 0 <= i < |s| - |r| ==> IsSpace(s[i])
    ensures r == [] || !IsSpace(r[0])
  {
    if |s| > 0 && IsSpace(s[0]) then
      var r := TrimStart(s[1..]);
      assert s[1..][|s| - 1 - |r|..] == s[|s| - |r|..];
      r
    else s
  }

  /** `trimEnd`: the longest whitespace suffix removed. */
  function TrimEnd(s: string): (r: string)
    ensures |r| <= |s| && r == s[..|r|]
    ensures forall i :: |r| <= i < |s| ==> IsSpace(s[i])
    ensures r == [] || !IsSpace(r[|r| - 1])
  {
    if |s| > 0 && IsSpace(s[|s| - 1]) then TrimEnd(s[..|s| - 1]) else s
  }

  /** `trim`: both ends. */
  function Trim(s: string): (r: string)
    ensures |r| <= |s|
    ensures r == [] || (!IsSpace(r[0]) && !IsSpace(r[|r| - 1]))
  {
    var t := TrimStart(s);
    var r := TrimEnd(t);
    r
  }

  /** A text with no whitespace at either end is its own trim. */
  lemma TrimPlain(s: string)
    requires s != [] && !IsSpace(s[0]) && !IsSpace(s[|s| - 1])
    ensures Trim(s) == s
  {
    assert TrimStart(s) == s;
    assert TrimEnd(s) == s;
  }

  /** Only whitespace: what `s.trim()` turns into the empty string. */
  predicate IsBlank(s: string) {
    forall i :: 0 <= i < |s| ==> IsSpace(s[i])
  }

  lemma TrimEmpty(s: string)
    ensures Trim(s) == "" <==> IsBlank(s)
  {
    var t := TrimStart(s);
    assert Trim(s) == TrimEnd(t);
    assert forall j :: 0 <= j < |t| ==> t[j] == s[|s| - |t| + j];
  }

  /** The length of the run of `\s` characters starting at `i`. */
  function SpaceRun(s: string, i: nat): (n: nat)
    requires i <= |s|
    ensures i + n <= |s|
    ensures forall k :: i <= k < i + n ==> IsSpace(s[k])
    ensures i + n == |s| || !IsSpace(s[i + n])
    decreases |s| - i
  {
    if i < |s| && IsSpace(s[i]) then 1 + SpaceRun(s, i + 1) else 0
  }

  /** The length of the run of `\d` characters starting at `i`. */
  function DigitRun(s: string, i: nat): (n: nat)
    requires i <= |s|
    ensures i + n <= |s|
    ensures forall k :: i <= k < i + n ==> IsDigit(s[k])
    ensures i + n == |s| || !IsDigit(s[i + n])
    decreases |s| - i
  {
    if i < |s| && IsDigit(s[i]) then 1 + DigitRun(s, i + 1) else 0
  }

  /** Every character is one `.` matches. */
  predicate AllDot(s: string) {
    forall k :: 0 <= k < |s| ==> IsDotChar(s[k])
  }

  /** A non-empty run of digits. */
  predicate AllDigits(s: string) {
    |s| > 0 && forall k :: 0 <= k < |s| ==> IsDigit(s[k])
  }

  /** `s.split(c)` for a one-character separator. */
  function Split(s: string, c: char): (parts: seq<string>)
    ensures |parts| >= 1
    ensures forall k :: 0 <= k < |parts| ==> c !in parts[k]
  {
    if s == [] then [""]
    else
      var rest := Split(s[1..], c);
      if s[0] == c then [""] + rest else [[s[0]] + rest[0]] + rest[1..]
  }

  /** `parts.join(sep)`. */
  function Join(parts: seq<string>, sep: string): string {
    if parts == [] then ""
    else if |parts| == 1 then parts[0]
    else parts[0] + sep + Join(parts[1..], sep)
  }

  /** Joining the pieces of a split restores the text. */
  lemma {:induction false} JoinSplit(s: string, c: char)
    ensures Join(Split(s, c), [c]) == s
  {
    if s != [] {
      JoinSplit(s[1..], c);
      var rest := Split(s[1..], c);
      if s[0] == c {
        assert Split(s, c) == [""] + rest;
        assert Join(Split(s, c), [c]) == [c] + Join(rest, [c]);
      } else {
        var parts := [[s[0]] + rest[0]] + rest[1..];
        assert Split(s, c) == parts;
        if |rest| == 1 {
          assert Join(parts, [c]) == [s[0]] + rest[0];
        } else {
          assert rest == [rest[0]] + rest[1..];
          assert Join(rest, [c]) == rest[0] + [c] + Join(rest[1..], [c]);
          assert Join(parts, [c]) == [s[0]] + rest[0] + [c] + Join(rest[1..], [c]);
        }
      }
    }
  }

  /** A text without the separator splits into itself alone. */
  lemma {:induction false} SplitNoSeparator(s: string, c: char)
    requires c !in s
    ensures Split(s, c) == [s]
  {
    if s != [] {
      SplitNoSeparator(s[1..], c);
      assert [s[0]] + s[1..] == s;
    }
  }

  /** A text holding the separator splits into at least two pieces. */
  lemma {:induction false} SplitAtSeparator(s: string, c: char)
    requires c in s
    ensures |Split(s, c)| >= 2
  {
    if s[0] != c {
      SplitAtSeparator(s[1..], c);
    }
  }

  /**
   * Splitting a concatenation: the last piece of `a` and the first piece of
   * `b` fuse, everything else is kept.
   */
  lemma {:induction false} SplitAppend(a: string, b: string, c: char)
    ensures Split(a + b, c) == Fused(Split(a, c), Split(b, c))
  {
    if a == [] {
      assert a + b == b;
      var pb := Split(b, c);
      assert "" + pb[0] == pb[0];
      assert [pb[0]] + pb[1..] == pb;
    } else {
      assert (a + b)[0] == a[0];
      assert (a + b)[1..] == a[1..] + b;
      SplitAppend(a[1..], b, c);
      FusedCons(a[0], Split(a[1..], c), Split(b, c), c);
    }
  }

  /** `pa` and `pb` with the last piece of `pa` joined to the first of `pb`. */
  function Fused(pa: seq<string>, pb: seq<string>): seq<string>
    requires |pa| >= 1 && |pb| >= 1
  {
    pa[..|pa| - 1] + [pa[|pa| - 1] + pb[0]] + pb[1..]
  }

  /** One more leading character commutes with `Fused`, as `Split` adds it. */
  lemma FusedCons(x: char, p: seq<string>, pb: seq<string>, c: char)
    requires |p| >= 1 && |pb| >= 1
    ensures var r := Fused(p, pb);
      var pa := if x == c then [""] + p else [[x] + p[0]] + p[1..];
      (if x == c then [""] + r else [[x] + r[0]] + r[1..]) == Fused(pa, pb)
  {
    var r := Fused(p, pb);
    if x == c {
      assert ([""] + p)[..|p|] == [""] + p[..|p| - 1];
    } else if |p| == 1 {
      assert r == [p[0] + pb[0]] + pb[1..];
      assert [x] + p[0] + pb[0] == [x] + (p[0] + pb[0]);
      assert r[1..] == pb[1..];
    } else {
      assert r[0] == p[0];
      assert r[1..] == p[1..|p| - 1] + [p[|p| - 1] + pb[0]] + pb[1..];
      var pa := [[x] + p[0]] + p[1..];
      assert pa[..|pa| - 1] == [[x] + p[0]] + p[1..|p| - 1];
    }
  }

  /** A piece without the separator extends the last piece. */
  lemma SplitAppendPiece(a: string, x: string, c: char)
    requires c !in x
    ensures var pa := Split(a, c); Split(a + x, c) == pa[..|pa| - 1] + [pa[|pa| - 1] + x]
  {
    SplitAppend(a, x, c);
    SplitNoSeparator(x, c);
  }

  /** A trailing separator splits off an empty last piece. */
  lemma SplitTerminated(a: string, c: char)
    ensures Split(a + [c], c) == Split(a, c) + [""]
  {
    SplitAppend(a, [c], c);
    SplitAfterSeparator("", c);
    assert [c] == [c] + "";
    var pa := Split(a, c);
    assert pa[|pa| - 1] + "" == pa[|pa| - 1];
    assert pa[..|pa| - 1] + [pa[|pa| - 1]] == pa;
  }

  /** A leading separator splits off an empty first piece. */
  lemma SplitAfterSeparator(s: string, c: char)
    ensures Split([c] + s, c) == [""] + Split(s, c)
  {
    assert ([c] + s)[1..] == s;
  }

  lemma JoinCons(parts: seq<string>, sep: string)
    requires |parts| >= 2
    ensures Join(parts, sep) == parts[0] + (sep + Join(parts[1..], sep))
  {
  }

  lemma FusedSingle(x: string, rest: seq<string>)
    ensures Fused([x], [""] + rest) == [x] + rest
  {
    assert x + "" == x;
  }

  /** Splitting the join of separator-free pieces gives the pieces back. */
  lemma {:induction false} SplitJoin(parts: seq<string>, c: char)
    requires |parts| >= 1
    requires forall k :: 0 <= k < |parts| ==> c !in parts[k]
    ensures Split(Join(parts, [c]), c) == parts
  {
    if |parts| == 1 {
      SplitNoSeparator(parts[0], c);
    } else {
      var rest := parts[1..];
      SplitJoin(rest, c);
      JoinCons(parts, [c]);
      SplitJoinStep(parts[0], Join(rest, [c]), rest, c);
      assert [parts[0]] + rest == parts;
    }
  }

  /** One step of `SplitJoin`: a separator-free piece in front of a split text. */
  lemma SplitJoinStep(x: string, joined: string, rest: seq<string>, c: char)
    requires c !in x
    requires Split(joined, c) == rest
    ensures Split(x + ([c] + joined), c) == [x] + rest
  {
    SplitNoSeparator(x, c);
    SplitAfterSeparator(joined, c);
    SplitAppend(x, [c] + joined, c);
    FusedSingle(x, rest);
  }

  /** `s.length`: JavaScript counts UTF-16 code units. */
  function Utf16Length(s: string): (n: nat)
    ensures |s| <= n <= 2 * |s|
  {
    if s == [] then 0 else Utf16Units(s[0]) + Utf16Length(s[1..])
  }

  /** Inside the Basic Multilingual Plane every character is one code unit. */
  lemma {:induction false} Utf16LengthOfBmp(s: string)
    requires forall i :: 0 <= i < |s| ==> s[i] as int <= 0xFFFF
    ensures Utf16Length(s) == |s|
  {
    if s != [] {
      Utf16LengthOfBmp(s[1..]);
    }
  }

  /** Code units add up over a concatenation. */
  lemma {:induction false} Utf16LengthAppend(a: string, b: string)
    ensures Utf16Length(a + b) == Utf16Length(a) + Utf16Length(b)
  {
    if a != [] {
      var ab := a + b;
      assert ab[0] == a[0] && ab[1..] == a[1..] + b;
      Utf16LengthAppend(a[1..], b);
      assert Utf16Length(ab) == Utf16Units(ab[0]) + Utf16Length(ab[1..]);
    } else {
      assert a + b == b;
    }
  }

  /**
   * `s.slice(-n)`: the characters that fit in the last `n` UTF-16 code
   * units. A character cut in half by the limit is dropped whole.
   */
  function LastUnits(s: string, n: nat): (r: string)
    ensures |r| <= |s| && r == s[|s| - |r|..]
    ensures Utf16Length(r) <= n
    ensures |r| < |s| ==> Utf16Length(r) + Utf16Units(s[|s| - |r| - 1]) > n
  {
    if Utf16Length(s) <= n then s
    else
      var r := LastUnits(s[1..], n);
      assert |r| < |s| - 1 ==> s[1..][|s| - 1 - |r| - 1] == s[|s| - |r| - 1];
      r
  }

  /** For text inside the Basic Multilingual Plane the slice is the last `n` characters. */
  lemma LastUnitsOfBmp(s: string, n: nat)
    requires forall i :: 0 <= i < |s| ==> s[i] as int <= 0xFFFF
    ensures LastUnits(s, n) == s[|s| - (if |s| < n then |s| else n)..]
  {
    var r := LastUnits(s, n);
    var k := |s| - |r|;
    assert r == s[k..];
    BmpSuffix(s, k);
    Utf16LengthOfBmp(r);
    var m := if |s| < n then |s| else n;
    if k > 0 {
      assert Utf16Units(s[k - 1]) == 1;
      assert |r| == m;
    } else {
      assert |r| == m;
    }
  }

  lemma BmpSuffix(s: string, k: nat)
    requires k <= |s|
    requires forall i :: 0 <= i < |s| ==> s[i] as int <= 0xFFFF
    ensures forall i :: 0 <= i < |s| - k ==> s[k..][i] as int <= 0xFFFF
  {
  }

  /** A character outside the Basic Multilingual Plane takes a surrogate pair. */
  function Utf16Units(c: char): (n: nat)
    ensures n == 1 || n == 2
  {
    if c as int > 0xFFFF then 2 else 1
  }

  function DigitChar(d: int): char
    requires 0 <= d < 10
  {
    ('0' as int + d) as char
  }

  /** `String(n)` for a natural number: its decimal digits. */
  function NatToString(n: nat): (r: string)
    ensures |r| >= 1
    ensures forall i :: 0 <= i < |r| ==> IsDigit(r[i])
    ensures r[0] == '0' ==> n == 0
  {
    if n < 10 then [DigitChar(n)] else NatToString(n / 10) + [DigitChar(n % 10)]
  }

  /** The decimal text of an integer, with a minus sign when negative. */
  function IntToString(n: int): string {
    if n < 0 then "-" + NatToString(-n) else NatToString(n)
  }

  /** `c.repeat(n)`. */
  function Repeat(c: char, n: nat): (r: string)
    ensures |r| == n
    ensures forall i :: 0 <= i < n ==> r[i] == c
  {
    if n == 0 then "" else [c] + Repeat(c, n - 1)
  }

  /** Elements in first-occurrence order, each once: `[...new Set(xs)]`. */
  function Dedup<T(==,!new)>(xs: seq<T>): (r: seq<T>)
    ensures forall x :: x in r <==> x in xs
    ensures forall i, j :: 0 <= i < j < |r| ==> r[i] != r[j]
  {
    DedupAfter(xs, {})
  }

  /**
   * Growing the input by one element grows the result by that element
   * exactly when it is new: first-occurrence order.
   */
  lemma DedupSnoc<T(!new)>(xs: seq<T>, x: T)
    ensures Dedup(xs + [x]) == if x in xs then Dedup(xs) else Dedup(xs) + [x]
  {
    DedupAfterSnoc(xs, x, {});
  }

  lemma {:induction false} DedupAfterSnoc<T(!new)>(xs: seq<T>, x: T, seen: set<T>)
    ensures DedupAfter(xs + [x], seen)
      == if x in xs || x in seen then DedupAfter(xs, seen) else DedupAfter(xs, seen) + [x]
  {
    if xs == [] {
      assert [x][1..] == [];
    } else {
      var ys := xs[1..];
      assert (xs + [x])[0] == xs[0] && (xs + [x])[1..] == ys + [x];
      if xs[0] in seen {
        DedupAfterSnoc(ys, x, seen);
      } else {
        var seen' := seen + {xs[0]};
        DedupAfterSnoc(ys, x, seen');
        assert (x in xs || x in seen) == (x in ys || x in seen');
        var d := DedupAfter(ys, seen');
        assert DedupAfter(xs + [x], seen) == [xs[0]] + DedupAfter(ys + [x], seen');
        assert DedupAfter(xs, seen) == [xs[0]] + d;
        assert [xs[0]] + (d + [x]) == ([xs[0]] + d) + [x];
      }
    }
  }

  /** Dedup of `xs`, skipping anything already in `seen`. */
  function DedupAfter<T(==,!new)>(xs: seq<T>, seen: set<T>): (r: seq<T>)
    ensures forall x :: x in r <==> x in xs && x !in seen
    ensures forall i, j :: 0 <= i < j < |r| ==> r[i] != r[j]
  {
    if xs == [] then []
    else if xs[0] in seen then DedupAfter(xs[1..], seen)
    else
      var rest := DedupAfter(xs[1..], seen + {xs[0]});
      assert forall k :: 0 <= k < |rest| ==> rest[k] != xs[0];
      [xs[0]] + rest
  }
}
