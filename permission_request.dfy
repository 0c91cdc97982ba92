/**
 * The permission-request hook (`permission-request.js`): answers a
 * PermissionRequest for an MCP tool with `allow` when the tool's name reads
 * as non-destructive, and with `prompt` (ask the user) in every other case.
 *
 * The settings are the module's `config` object, read once from the
 * `permissionRequest` section of `~/.claude/hooks/config.json`; the file
 * and the stdin payload arrive here already parsed.
 */
module PermissionRequest {
  import opened Text

  const DefaultDestructivePatterns: seq<string> := [
    "delete", "remove", "destroy", "drop", "clear", "wipe", "purge", "forget", "erase", "reset",
    "update", "modify", "edit", "change", "write", "create", "deploy", "publish", "execute", "run",
    "eval", "consolidate"
  ]

  const DefaultSafePatterns: seq<string> := [
    "get", "list", "read", "retrieve", "fetch", "search", "find", "query", "recall", "check",
    "status", "health", "stats", "analyze", "view", "show", "describe", "inspect", "store",
    "remember", "ingest", "rate", "proactive", "context", "summary", "recommendations"
  ]

  datatype Config = Config(enabled: bool, autoApprove: bool, logDecisions: bool,
                           destructivePatterns: seq<string>, safePatterns: seq<string>)

  const DefaultConfig := Config(true, true, false, DefaultDestructivePatterns, DefaultSafePatterns)

  /** The `permissionRequest` section of the configuration file; an absent field is `None`. */
  datatype Section = Section(enabled: Option<bool>, autoApprove: Option<bool>, logDecisions: Option<bool>,
                             customSafePatterns: Option<seq<string>>,
                             customDestructivePatterns: Option<seq<string>>)

  /**
   * The settings after loading `section`, which is `None` when the file is
   * missing, unreadable, not JSON or has no `permissionRequest` section.
   */
  function Loaded(c: Config, section: Option<Section>): Config {
    match section
    case None => c
    case Some(h) =>
      Config(h.enabled.GetOr(true), h.autoApprove.GetOr(true), h.logDecisions.GetOr(false),
             if h.customDestructivePatterns.Some? then DefaultDestructivePatterns + h.customDestructivePatterns.value
             else c.destructivePatterns,
             if h.customSafePatterns.Some? then DefaultSafePatterns + h.customSafePatterns.value
             else c.safePatterns)
  }

  /** The module-level `config` object. */
  class Settings {
    var enabled: bool
    var autoApprove: bool
    var logDecisions: bool
    var destructivePatterns: seq<string>
    var safePatterns: seq<string>

    function Current(): Config
      reads this
    {
      Config(enabled, autoApprove, logDecisions, destructivePatterns, safePatterns)
    }

    /** The settings before the configuration file is read. */
    constructor ()
      ensures Current() == DefaultConfig
    {
      enabled := true;
      autoApprove := true;
      logDecisions := false;
      destructivePatterns := DefaultDestructivePatterns;
      safePatterns := DefaultSafePatterns;
    }

    /** `loadConfiguration()`. */
    method Load(section: Option<Section>)
      modifies this
      ensures Current() == Loaded(old(Current()), section)
    {
      if section.None? {
        return;
      }
      var h := section.value;
      enabled := if h.enabled.Some? then h.enabled.value else true;
      autoApprove := if h.autoApprove.Some? then h.autoApprove.value else true;
      logDecisions := if h.logDecisions.Some? then h.logDecisions.value else false;
      if h.customSafePatterns.Some? {
        safePatterns := DefaultSafePatterns + h.customSafePatterns.value;
      }
      if h.customDestructivePatterns.Some? {
        destructivePatterns := DefaultDestructivePatterns + h.customDestructivePatterns.value;
      }
    }
  }

  /**
   * Loading at start-up extends the built-in patterns and never replaces
   * them: custom patterns come after the defaults, and without custom
   * patterns the defaults stay as they are.
   */
  lemma CustomPatternsAppended(section: Option<Section>)
    ensures var c := Loaded(DefaultConfig, section);
      && DefaultSafePatterns <= c.safePatterns
      && DefaultDestructivePatterns <= c.destructivePatterns
      && (section.Some? && section.value.customSafePatterns.Some? ==>
            c.safePatterns[|DefaultSafePatterns|..] == section.value.customSafePatterns.value)
      && (section.Some? && section.value.customDestructivePatterns.Some? ==>
            c.destructivePatterns[|DefaultDestructivePatterns|..] == section.value.customDestructivePatterns.value)
      && (section.None? || section.value.customSafePatterns.None? ==> c.safePatterns == DefaultSafePatterns)
      && (section.None? || section.value.customDestructivePatterns.None? ==> c.destructivePatterns == DefaultDestructivePatterns)
  {
  }

  // ---------------------------------------------------------------------
  // The tool name

  /** `^mcp__.+?__` matches the first `e` characters of `s`. */
  predicate PrefixEndsAt(s: string, e: int) {
    StartsWith(s, "mcp__") && 8 <= e <= |s| && s[e - 2..e] == "__" && AllDot(s[5..e - 2])
  }

  /** `e` ends the shortest such prefix: the one the lazy `.+?` finds. */
  ghost predicate ShortestPrefix(s: string, e: int) {
    PrefixEndsAt(s, e) && forall f :: 0 <= f < e ==> !PrefixEndsAt(s, f)
  }

  /** A character `.` refuses at `k` rules out every prefix reaching past it. */
  lemma LineTerminatorBlocks(s: string, k: nat)
    ensures 5 <= k < |s| && !IsDotChar(s[k]) ==> forall e :: k + 2 < e <= |s| ==> !PrefixEndsAt(s, e)
  {
    if 5 <= k < |s| && !IsDotChar(s[k]) {
      forall e | k + 2 < e <= |s|
        ensures !PrefixEndsAt(s, e)
      {
        assert s[5..e - 2][k - 5] == s[k];
      }
    }
  }

  /**
   * The lazy `.+?` having consumed `s[5..k]`: try `__` at `k`, otherwise
   * take one more character.
   */
  function LazyEnd(s: string, k: nat): (r: Option<nat>)
    requires StartsWith(s, "mcp__") && 6 <= k <= |s| && AllDot(s[5..k])
    ensures r.Some? ==> PrefixEndsAt(s, r.value) && forall e :: k + 2 <= e < r.value ==> !PrefixEndsAt(s, e)
    ensures r.None? ==> forall e :: k + 2 <= e <= |s| ==> !PrefixEndsAt(s, e)
    decreases |s| - k
  {
    if k + 2 <= |s| && s[k..k + 2] == "__" then Some(k + 2)
    else if k < |s| && IsDotChar(s[k]) then
      assert s[5..k + 1] == s[5..k] + [s[k]];
      LazyEnd(s, k + 1)
    else
      LineTerminatorBlocks(s, k);
      None
  }

  /** Where the shortest `mcp__<server>__` prefix of `s` ends, if there is one. */
  function PrefixEnd(s: string): (r: Option<nat>)
    ensures r.Some? ==> ShortestPrefix(s, r.value)
    ensures r.None? ==> forall e :: 0 <= e <= |s| ==> !PrefixEndsAt(s, e)
  {
    if StartsWith(s, "mcp__") && |s| >= 6 && IsDotChar(s[5]) then LazyEnd(s, 6)
    else
      LineTerminatorBlocks(s, 5);
      None
  }

  /**
   * `extractToolName`: the name without its shortest leading
   * `mcp__<server>__`, with its case kept; a name without such a prefix
   * is returned as it is.
   */
  function ExtractToolName(name: string): (r: string)
    ensures (forall e :: 0 <= e <= |name| ==> !PrefixEndsAt(name, e)) ==> r == name
    ensures forall e :: ShortestPrefix(name, e) ==> r == name[e..]
    ensures EndsWith(name, r)
  {
    match PrefixEnd(name)
    case Some(e) =>
      assert forall f :: ShortestPrefix(name, f) ==> f == e by {
        forall f | ShortestPrefix(name, f)
          ensures f == e
        {
          assert !(f < e) && !(e < f);
        }
      }
      name[e..]
    case None => name
  }

  /**
   * The shortest prefix is the one that ends at the first `__` after the
   * server's first character.
   */
  lemma ShortestEndsAtFirstDoubleUnderscore(s: string, e: int)
    ensures ShortestPrefix(s, e)
      <==> PrefixEndsAt(s, e) && forall j :: 6 <= j < e - 2 ==> !OccursAt(s, "__", j)
  {
    if ShortestPrefix(s, e) {
      forall j | 6 <= j < e - 2
        ensures !OccursAt(s, "__", j)
      {
        assert AllDot(s[5..j]) by {
          forall k | 0 <= k < j - 5
            ensures IsDotChar(s[5..j][k])
          {
            assert s[5..j][k] == s[5..e - 2][k];
          }
        }
        assert !PrefixEndsAt(s, j + 2);
      }
    }
    if PrefixEndsAt(s, e) && forall j :: 6 <= j < e - 2 ==> !OccursAt(s, "__", j) {
      forall f | 0 <= f < e
        ensures !PrefixEndsAt(s, f)
      {
        if 8 <= f {
          assert !OccursAt(s, "__", f - 2);
        }
      }
    }
  }

  /** A server name may hold a single `_`; the first `__` ends the prefix. */
  lemma ServerWithUnderscore(s: string)
    requires s == "mcp__my_srv__get_data"
    ensures ExtractToolName(s) == "get_data"
  {
    assert PrefixEndsAt(s, 13);
    ShortestEndsAtFirstDoubleUnderscore(s, 13);
    assert s[6] == 'y' && s[7] == '_' && s[8] == 's' && s[9] == 'r' && s[10] == 'v' && s[11] == '_';
    forall j | 6 <= j < 11
      ensures !OccursAt(s, "__", j)
    {
      assert s[j] != '_' || s[j + 1] != '_';
    }
  }

  /** The lazy match stops at the earliest `__`, even inside a longer run of `_`. */
  lemma LazyStopsEarly(s: string)
    requires s == "mcp__a___b"
    ensures ExtractToolName(s) == "_b"
  {
    assert PrefixEndsAt(s, 8);
    ShortestEndsAtFirstDoubleUnderscore(s, 8);
  }

  /** The server part cannot be empty, and a name without the prefix is kept. */
  lemma NoPrefixKept(s: string, t: string)
    requires s == "mcp____x" && t == "get_data"
    ensures ExtractToolName(s) == s && ExtractToolName(t) == t
  {
    assert !PrefixEndsAt(s, 8) by {
      assert s[6..8] != "__" by { assert s[7] == 'x'; }
    }
    assert !StartsWith(t, "mcp__") by { assert t[0] != 'm'; }
  }

  // ---------------------------------------------------------------------
  // Splitting a name into words

  /** A lower-case ASCII letter followed by an upper-case one. */
  predicate CamelBoundary(a: char, b: char) {
    IsAsciiLower(a) && IsAsciiUpper(b)
  }

  /**
   * `replace(/([a-z])([A-Z])/g, '$1_$2')`: a `_` at each lower-to-upper
   * boundary (two matches never overlap, since a match ends in an
   * upper-case letter and starts with a lower-case one).
   */
  function WithSeparators(s: string): (r: string)
    ensures |r| >= |s|
  {
    if |s| < 2 then s
    else if CamelBoundary(s[0], s[1]) then [s[0], '_'] + WithSeparators(s[1..])
    else [s[0]] + WithSeparators(s[1..])
  }

  /** A text without camel-case boundaries is left as it is. */
  lemma {:induction false} WithoutBoundaryUnchanged(s: string)
    requires forall i :: 0 <= i < |s| - 1 ==> !CamelBoundary(s[i], s[i + 1])
    ensures WithSeparators(s) == s
  {
    if |s| >= 2 {
      WithoutBoundaryUnchanged(s[1..]);
      assert [s[0]] + s[1..] == s;
    }
  }

  /** The replacement is local: joining two texts adds at most the `_` at the seam. */
  /** The first step of inserting separators. */
  lemma WithSeparatorsCons(s: string)
    requires |s| >= 2
    ensures WithSeparators(s) == (if CamelBoundary(s[0], s[1]) then [s[0], '_'] else [s[0]]) + WithSeparators(s[1..])
  {
  }

  lemma Regroup(h: string, x: string, sep: string, y: string)
    ensures h + (x + sep + y) == (h + x) + sep + y
  {
  }

  lemma {:induction false} WithSeparatorsAppend(a: string, b: string)
    requires |a| >= 1 && |b| >= 1
    ensures WithSeparators(a + b)
      == WithSeparators(a) + (if CamelBoundary(a[|a| - 1], b[0]) then "_" else "") + WithSeparators(b)
  {
    var ab := a + b;
    WithSeparatorsCons(ab);
    if |a| == 1 {
      assert ab[0] == a[0] && ab[1] == b[0] && ab[1..] == b;
    } else {
      var t := a[1..];
      assert ab[0] == a[0] && ab[1] == a[1] && ab[1..] == t + b;
      assert t[|t| - 1] == a[|a| - 1];
      WithSeparatorsAppend(t, b);
      WithSeparatorsCons(a);
      var sep: string := if CamelBoundary(a[|a| - 1], b[0]) then "_" else "";
      var head: string := if CamelBoundary(a[0], a[1]) then [a[0], '_'] else [a[0]];
      Regroup(head, WithSeparators(t), sep, WithSeparators(b));
    }
  }

  predicate IsSeparator(c: char) {
    c == '_' || c == '-'
  }

  /** `split(/[_-]/)`. */
  function SplitWords(s: string): (parts: seq<string>)
    ensures |parts| >= 1
    ensures forall k :: 0 <= k < |parts| ==> '_' !in parts[k] && '-' !in parts[k]
  {
    if s == [] then [""]
    else
      var rest := SplitWords(s[1..]);
      if IsSeparator(s[0]) then [""] + rest else [[s[0]] + rest[0]] + rest[1..]
  }

  /** A text without separators is one word. */
  lemma {:induction false} SplitWordsPlain(w: string)
    requires forall i :: 0 <= i < |w| ==> !IsSeparator(w[i])
    ensures SplitWords(w) == [w]
  {
    if w != [] {
      SplitWordsPlain(w[1..]);
      assert [w[0]] + w[1..] == w;
    }
  }

  /** A separator ends the word before it. */
  lemma {:induction false} SplitWordsAt(a: string, c: char, b: string)
    requires forall i :: 0 <= i < |a| ==> !IsSeparator(a[i])
    requires IsSeparator(c)
    ensures SplitWords(a + [c] + b) == [a] + SplitWords(b)
  {
    var s := a + [c] + b;
    if a == [] {
      assert s[1..] == b;
    } else {
      assert s[0] == a[0] && s[1..] == a[1..] + [c] + b;
      SplitWordsAt(a[1..], c, b);
      assert [a[0]] + a[1..] == a;
    }
  }

  /** Every character of a word is one of the text. */
  lemma {:induction false} SplitWordsChars(s: string, k: nat, i: nat)
    requires k < |SplitWords(s)| && i < |SplitWords(s)[k]|
    ensures SplitWords(s)[k][i] in s
  {
    if s != [] {
      var rest := SplitWords(s[1..]);
      if IsSeparator(s[0]) {
        SplitWordsChars(s[1..], k - 1, i);
      } else if k == 0 && i == 0 {
      } else if k == 0 {
        SplitWordsChars(s[1..], 0, i - 1);
      } else {
        SplitWordsChars(s[1..], k, i);
      }
    }
  }

  /** The lower-cased words `isSafeTool` compares with the patterns. */
  function Parts(name: string): seq<string> {
    SplitWords(Lower(WithSeparators(name)))
  }

  /** No word holds a separator or an upper-case ASCII letter. */
  lemma PartsAreLowerWords(name: string, k: nat)
    requires k < |Parts(name)|
    ensures '_' !in Parts(name)[k] && '-' !in Parts(name)[k]
    ensures forall i :: 0 <= i < |Parts(name)[k]| ==> !IsAsciiUpper(Parts(name)[k][i])
  {
    var l := Lower(WithSeparators(name));
    forall i | 0 <= i < |Parts(name)[k]|
      ensures !IsAsciiUpper(Parts(name)[k][i])
    {
      SplitWordsChars(l, k, i);
    }
  }

  /** Lower-casing keeps a separator between two texts. */
  lemma LowerAround(a: string, c: char, b: string)
    requires IsSeparator(c)
    ensures Lower(a + [c] + b) == Lower(a) + [c] + Lower(b)
  {
    LowerAppend(a + [c], b);
    LowerAppend(a, [c]);
  }

  /** A capitalised word lower-cases its first letter only. */
  lemma CapitalLowered(w: string)
    requires Word(w)
    ensures Lower(w) == [LowerChar(w[0])] + w[1..]
  {
  }

  /** A word: a letter, then lower-case letters (`get`, `Check`). */
  predicate Word(w: string) {
    |w| >= 1 && IsAsciiLetter(w[0]) && forall i :: 1 <= i < |w| ==> IsAsciiLower(w[i])
  }

  /** A word is one part, lower-cased. */
  lemma WordParts(w: string)
    requires Word(w)
    ensures WithSeparators(w) == w
    ensures Parts(w) == [Lower(w)]
  {
    WithoutBoundaryUnchanged(w);
    SplitWordsPlain(Lower(w));
  }

  /** The `_` inserted before a capital goes along with the word before it. */
  lemma WordSeparatorsPrefix(w: string, c: char, rest: string)
    requires Word(w) && !IsAsciiUpper(c) && !IsAsciiLower(c)
    ensures WithSeparators(w + [c] + rest) == w + [c] + WithSeparators(rest)
  {
    WordParts(w);
    var t := [c] + rest;
    assert w + [c] + rest == w + t;
    WithSeparatorsAppend(w, t);
    if rest != [] {
      assert t[0] == c && t[1..] == rest;
    }
  }

  /** A separator after a word ends it: `get_rest` splits into `get` and the parts of `rest`. */
  lemma SnakeParts(w: string, c: char, rest: string)
    requires Word(w) && IsSeparator(c)
    ensures Parts(w + [c] + rest) == [Lower(w)] + Parts(rest)
  {
    WordSeparatorsPrefix(w, c, rest);
    LowerAround(w, c, WithSeparators(rest));
    SplitWordsAt(Lower(w), c, Lower(WithSeparators(rest)));
  }

  /** A capital after a word ending in lower case starts the next part: `statusCheck`. */
  lemma CamelParts(w: string, rest: string)
    requires Word(w) && IsAsciiLower(w[|w| - 1])
    requires |rest| >= 1 && IsAsciiUpper(rest[0])
    ensures Parts(w + rest) == [Lower(w)] + Parts(rest)
  {
    WordParts(w);
    WithSeparatorsAppend(w, rest);
    assert WithSeparators(w + rest) == w + ['_'] + WithSeparators(rest);
    LowerAround(w, '_', WithSeparators(rest));
    SplitWordsAt(Lower(w), '_', Lower(WithSeparators(rest)));
  }

  /** The source's examples: `statusCheck` is `status`, `check`, ... */
  lemma StatusCheckWords(w: string, rest: string)
    requires w == "status" && rest == "Check"
    ensures Parts(w + rest) == ["status", "check"]
  {
    assert Word(w) && IsAsciiLower(w[|w| - 1]);
    assert |rest| >= 1 && IsAsciiUpper(rest[0]) && Word(rest);
    CamelParts(w, rest);
    WordParts(rest);
    LowerUnchanged(w);
    CapitalLowered(rest);
    assert Lower(w) == "status";
    assert Lower(rest) == "check";
  }

  /** ... `GetData` is `get`, `data`, ... */
  lemma GetDataWords(w: string, rest: string)
    requires w == "Get" && rest == "Data"
    ensures Parts(w + rest) == ["get", "data"]
  {
    assert Word(w) && IsAsciiLower(w[|w| - 1]);
    assert |rest| >= 1 && IsAsciiUpper(rest[0]) && Word(rest);
    CamelParts(w, rest);
    WordParts(rest);
    CapitalLowered(w);
    CapitalLowered(rest);
    assert Lower(w) == "get";
    assert Lower(rest) == "data";
  }

  /** ... `updated_records` is `updated`, `records`, ... */
  lemma UpdatedRecordsWords(b: string, c: string)
    requires b == "updated" && c == "records"
    ensures Parts(b + ['_'] + c) == ["updated", "records"]
  {
    assert Word(b) && Word(c);
    SnakeParts(b, '_', c);
    WordParts(c);
    LowerUnchanged(b);
    LowerUnchanged(c);
  }

  /** ... and `get_updated_records` is `get`, `updated`, `records`. */
  lemma GetUpdatedRecordsWords(a: string, b: string, c: string)
    requires a == "get" && b == "updated" && c == "records"
    ensures Parts(a + ['_'] + (b + ['_'] + c)) == ["get", "updated", "records"]
  {
    assert Word(a);
    SnakeParts(a, '_', b + ['_'] + c);
    UpdatedRecordsWords(b, c);
    LowerUnchanged(a);
  }

  // ---------------------------------------------------------------------
  // Safety

  /**
   * The judgement `isSafeTool` makes: a non-empty name none of whose words
   * is a destructive pattern and one of whose words is a safe pattern.
   */
  ghost predicate Safe(name: string, c: Config) {
    && name != ""
    && (forall p :: p in c.destructivePatterns ==> p !in Parts(name))
    && (exists p :: p in c.safePatterns && p in Parts(name))
  }

  /** `isSafeTool(toolName)`: the destructive patterns first, then the safe ones. */
  method IsSafeTool(settings: Settings, toolName: string) returns (safe: bool)
    ensures safe <==> Safe(toolName, settings.Current())
  {
    if toolName == "" {
      return false;
    }
    var parts := Parts(toolName);
    var destructive := settings.destructivePatterns;
    var i := 0;
    while i < |destructive|
      invariant 0 <= i <= |destructive|
      invariant forall k :: 0 <= k < i ==> destructive[k] !in parts
    {
      if destructive[i] in parts {
        return false;
      }
      i := i + 1;
    }
    var safePatterns := settings.safePatterns;
    var j := 0;
    while j < |safePatterns|
      invariant 0 <= j <= |safePatterns|
      invariant forall k :: 0 <= k < j ==> safePatterns[k] !in parts
    {
      if safePatterns[j] in parts {
        return true;
      }
      j := j + 1;
    }
    return false;
  }

  /** A name is safe when none of its words is destructive and its `k`-th word is safe. */
  lemma SafeByWords(name: string, c: Config, k: nat)
    requires name != ""
    requires forall j :: 0 <= j < |Parts(name)| ==> Parts(name)[j] !in c.destructivePatterns
    requires k < |Parts(name)| && Parts(name)[k] in c.safePatterns
    ensures Safe(name, c)
  {
  }

  /** An empty name is never safe. */
  lemma EmptyNameUnsafe(c: Config)
    ensures !Safe("", c)
  {
  }

  /** A destructive word wins over any safe word beside it. */
  lemma DestructiveWins(name: string, c: Config, p: string)
    requires p in c.destructivePatterns && p in Parts(name)
    ensures !Safe(name, c)
  {
  }

  /** A name without a word from the safe patterns is not safe. */
  lemma UnknownUnsafe(name: string, c: Config)
    requires forall k :: 0 <= k < |Parts(name)| ==> Parts(name)[k] !in c.safePatterns
    ensures !Safe(name, c)
  {
    forall p | p in c.safePatterns
      ensures p !in Parts(name)
    {
    }
  }

  /**
   * Words match whole: `updated` is not `update`, so `get_updated_records`
   * is safe under the built-in patterns ...
   */
  lemma ExactWordMatch(a: string, b: string, c: string)
    requires a == "get" && b == "updated" && c == "records"
    ensures Safe(a + ['_'] + (b + ['_'] + c), DefaultConfig)
  {
    var name := a + ['_'] + (b + ['_'] + c);
    NoDestructiveWord(a, b, c);
    SafeByWords(name, DefaultConfig, 0);
  }

  /** None of `get`, `updated`, `records` is a destructive pattern, and `get` is a safe one. */
  lemma NoDestructiveWord(a: string, b: string, c: string)
    requires a == "get" && b == "updated" && c == "records"
    ensures var name := a + ['_'] + (b + ['_'] + c);
      && (forall j :: 0 <= j < |Parts(name)| ==> Parts(name)[j] !in DefaultDestructivePatterns)
      && |Parts(name)| > 0 && Parts(name)[0] in DefaultSafePatterns
  {
    GetUpdatedRecordsWords(a, b, c);
    NotDestructive(a);
    NotDestructive(b);
    NotDestructive(c);
    GetIsSafe(a);
  }

  lemma NotDestructive(x: string)
    requires x == "get" || x == "updated" || x == "records"
    ensures x !in DefaultDestructivePatterns
  {
  }

  lemma GetIsSafe(x: string)
    requires x == "get"
    ensures x in DefaultSafePatterns
  {
  }

  /** ... while in `statusUpdate` the destructive `update` wins over the safe `status`. */
  lemma DestructiveBesideSafe(w: string, d: string)
    requires w == "status" && d == "Update"
    ensures !Safe(w + d, DefaultConfig)
  {
    StatusUpdateWords(w, d);
    assert "update" in DefaultDestructivePatterns;
    DestructiveWins(w + d, DefaultConfig, Parts(w + d)[1]);
  }

  /** `statusUpdate` is `status`, `update`. */
  lemma StatusUpdateWords(w: string, d: string)
    requires w == "status" && d == "Update"
    ensures |Parts(w + d)| == 2 && Parts(w + d)[1] == "update"
  {
    assert Word(w) && IsAsciiLower(w[|w| - 1]);
    assert |d| >= 1 && IsAsciiUpper(d[0]) && Word(d);
    CamelParts(w, d);
    WordParts(d);
    CapitalLowered(d);
    assert Lower(d) == "update";
  }

  /**
   * More safe patterns can only make more names safe, and more destructive
   * patterns only fewer.
   */
  lemma MorePatternsMonotone(name: string, c: Config, extra: seq<string>)
    ensures Safe(name, c) ==> Safe(name, c.(safePatterns := c.safePatterns + extra))
    ensures Safe(name, c.(destructivePatterns := c.destructivePatterns + extra)) ==> Safe(name, c)
  {
    if Safe(name, c) {
      var p :| p in c.safePatterns && p in Parts(name);
      assert p in c.safePatterns + extra;
    }
  }

  // ---------------------------------------------------------------------
  // The decision

  /** The stdin payload; an absent tool name is "". */
  datatype Payload = Payload(hookEventName: Option<string>, kind: Option<string>,
                             toolName: string, serverName: Option<string>)

  /** `isMCPToolCall(payload)`. */
  predicate IsMcpToolCall(p: Payload) {
    || p.hookEventName == Some("PermissionRequest")
    || p.kind == Some("mcp_tool_call")
    || (p.toolName != "" && p.serverName.Some? && p.serverName.value != "")
  }

  datatype Behavior = Allow | Deny | Prompt

  datatype MetaValue = Str(text: string) | Flag(flag: bool)

  /** The JSON line the hook prints. */
  datatype HookOutput = HookOutput(behavior: Behavior, metadata: Option<map<string, MetaValue>>)

  /** `outputDecision(behavior, metadata)`: metadata is attached only to a non-prompt decision that has some. */
  function OutputDecision(behavior: Behavior, metadata: map<string, MetaValue>): (o: HookOutput)
    ensures o.behavior == behavior
    ensures o.metadata.Some? <==> |metadata| > 0 && behavior != Prompt
    ensures o.metadata.Some? ==> o.metadata.value == metadata
  {
    HookOutput(behavior, if |metadata| > 0 && behavior != Prompt then Some(metadata) else None)
  }

  /** What an automatic approval records. */
  function ApprovalMetadata(p: Payload, toolName: string): map<string, MetaValue> {
    var m := map["reason" := Str("自動核准安全工具: " + toolName), "auto_approved" := Flag(true),
                 "tool_name" := Str(toolName)];
    if p.serverName.Some? then m["server" := Str(p.serverName.value)] else m
  }

  /**
   * `main()`: `payload` is `None` when stdin could not be read in time or
   * did not parse (the `catch` branch), or parsed to a falsy value.
   */
  ghost function Decision(c: Config, payload: Option<Payload>): HookOutput {
    if !c.enabled then OutputDecision(Prompt, map[])
    else if payload.None? || !IsMcpToolCall(payload.value) then OutputDecision(Prompt, map[])
    else
      var toolName := ExtractToolName(payload.value.toolName);
      if !c.autoApprove then OutputDecision(Prompt, map[])
      else if Safe(toolName, c) then OutputDecision(Allow, ApprovalMetadata(payload.value, toolName))
      else OutputDecision(Prompt, map[])
  }

  /** `main()`, deciding through `isSafeTool`. */
  method HandleRequest(settings: Settings, payload: Option<Payload>) returns (output: HookOutput)
    ensures output == Decision(settings.Current(), payload)
  {
    if !settings.enabled {
      return OutputDecision(Prompt, map[]);
    }
    if payload.None? || !IsMcpToolCall(payload.value) {
      return OutputDecision(Prompt, map[]);
    }
    var toolName := ExtractToolName(payload.value.toolName);
    if !settings.autoApprove {
      return OutputDecision(Prompt, map[]);
    }
    var safe := IsSafeTool(settings, toolName);
    if safe {
      output := OutputDecision(Allow, ApprovalMetadata(payload.value, toolName));
    } else {
      output := OutputDecision(Prompt, map[]);
    }
  }

  /**
   * Fail closed: the hook allows exactly when it is enabled, auto-approval
   * is on, the payload is an MCP tool call and the stripped name is safe;
   * every other case prompts, it never denies, and only an allow carries
   * metadata.
   */
  lemma FailClosed(c: Config, payload: Option<Payload>)
    ensures var o := Decision(c, payload);
      o.behavior == Allow <==>
        c.enabled && c.autoApprove && payload.Some? && IsMcpToolCall(payload.value)
        && Safe(ExtractToolName(payload.value.toolName), c)
    ensures Decision(c, payload).behavior != Deny
    ensures Decision(c, payload).metadata.Some? <==> Decision(c, payload).behavior == Allow
    ensures var o := Decision(c, payload);
      o.behavior == Allow ==>
        o.metadata.value["tool_name"] == Str(ExtractToolName(payload.value.toolName))
        && o.metadata.value["auto_approved"] == Flag(true)
  {
  }
}
