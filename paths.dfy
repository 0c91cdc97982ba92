/**
 * POSIX `path.extname` as Node.js computes it, which both code-file
 * policies (the gate's and the state updater's) are built on.
 */
module Paths {
  import opened Text

  /** The path without its trailing `/` characters. */
  function StripTrailingSlashes(p: string): (q: string)
    ensures StartsWith(p, q)
    ensures q == [] || q[|q| - 1] != '/'
    ensures forall i :: |q| <= i < |p| ==> p[i] == '/'
  {
    if |p| > 0 && p[|p| - 1] == '/' then StripTrailingSlashes(p[..|p| - 1]) else p
  }

  /** The text after the last `/`. */
  function AfterLastSlash(q: string): (r: string)
    ensures EndsWith(q, r)
    ensures '/' !in r
    ensures |r| < |q| ==> q[|q| - |r| - 1] == '/'
  {
    if q == [] then []
    else if q[|q| - 1] == '/' then []
    else
      var r := AfterLastSlash(q[..|q| - 1]);
      assert q[..|q| - 1][|q| - 1 - |r|..] == q[|q| - 1 - |r|..|q| - 1];
      r + [q[|q| - 1]]
  }

  /** The last path segment, trailing slashes ignored (`path.basename`). */
  function Basename(p: string): (b: string)
    ensures '/' !in b
  {
    AfterLastSlash(StripTrailingSlashes(p))
  }

  /** The index of the last `.` of `s`, if any. */
  function LastDot(s: string): (r: Option<nat>)
    ensures r.None? <==> '.' !in s
    ensures r.Some? ==> r.value < |s| && s[r.value] == '.' && '.' !in s[r.value + 1..]
  {
    if s == [] then None
    else if s[|s| - 1] == '.' then Some(|s| - 1)
    else
      var r := LastDot(s[..|s| - 1]);
      assert s == s[..|s| - 1] + [s[|s| - 1]];
      if r.Some? then
        assert s[r.value + 1..] == s[..|s| - 1][r.value + 1..] + [s[|s| - 1]];
        r
      else r
  }

  /** The extension of one path segment `b`, as `path.extname` takes it. */
  function SegmentExt(b: string): (e: string)
    ensures e == "" || (e[0] == '.' && '.' !in e[1..])
    ensures e != "" ==> EndsWith(b, e) && 0 < |e| < |b|
  {
    match LastDot(b)
    case None => ""
    case Some(d) =>
      if d == 0 || b == ".." then ""
      else
        assert b[d..][1..] == b[d + 1..];
        b[d..]
  }

  /**
   * `path.extname(p)`: from the last `.` of the last segment to its end,
   * or "" when that segment has no dot, has its only dot in front
   * (`.bashrc`), or is `..`.
   */
  function Extname(p: string): (e: string)
    ensures e == "" || (e[0] == '.' && '.' !in e[1..] && '/' !in e)
    ensures e != "" ==> EndsWith(Basename(p), e) && |e| < |Basename(p)|
  {
    var b := Basename(p);
    var e := SegmentExt(b);
    assert e != "" ==> e == b[|b| - |e|..];
    e
  }

  /**
   * The extension is empty exactly when the last segment has no dot, has
   * its only dot in front (`.bashrc`), or is `..`.
   */
  lemma ExtnameEmpty(p: string)
    ensures var b := Basename(p);
      Extname(p) == "" <==> ('.' !in b || (b[0] == '.' && '.' !in b[1..]) || b == "..")
  {
    var b := Basename(p);
    assert Extname(p) == SegmentExt(b);
    match LastDot(b)
    case None =>
    case Some(d) =>
      if d > 0 && b != ".." {
        assert b[1..][d - 1] == '.';
      }
      if d == 0 {
        assert b[1..] == b[d + 1..];
      }
  }
}
