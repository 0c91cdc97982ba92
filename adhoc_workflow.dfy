/**
 * Ad-hoc workflows (`tests/test-state-updater.js`, which carries the only
 * visible copies of these helpers): a Task started without a planned
 * change gets a generated change id, and a new workflow starts from a
 * reset state document.
 *
 * `Date.now()` and `new Date().toISOString()` are parameters: `nowMs` and
 * `now`, one value per call.
 */
module AdHocWorkflow {
  import opened Text
  import opened Workflow
  import StateUpdater
  import Gate

  /** `ADHOC_MAX_PROMPT_LENGTH`, in UTF-16 code units. */
  const MaxPromptLength := 50
  /** `ADHOC_MAX_SLUG_WORDS`. */
  const MaxSlugWords := 3

  const IdPrefix := "ad-hoc-"

  // ---------------------------------------------------------------------
  // Cleaning the prompt

  /** `toolInput.prompt || toolInput.description || ''`. */
  function PromptText(input: ToolInput): string {
    if input.prompt != "" then input.prompt else input.description
  }

  /**
   * `s.slice(0, n)`: the characters that fit in `n` UTF-16 code units. A
   * character cut in half by the limit is dropped whole; in the source its
   * lone surrogate survives the slice but not the cleaning that follows.
   */
  function TakeUnits(s: string, n: nat): (r: string)
    ensures |r| <= |s| && r == s[..|r|]
    ensures Utf16Length(r) <= n
    ensures |r| < |s| ==> Utf16Length(r) + Utf16Units(s[|r|]) > n
  {
    if s == [] || Utf16Units(s[0]) > n then []
    else
      var rest := TakeUnits(s[1..], n - Utf16Units(s[0]));
      assert ([s[0]] + rest)[1..] == rest;
      [s[0]] + rest
  }

  /** For text inside the Basic Multilingual Plane the slice is the first `n` characters. */
  lemma TakeUnitsOfBmp(s: string, n: nat)
    requires forall i :: 0 <= i < |s| ==> s[i] as int <= 0xFFFF
    ensures TakeUnits(s, n) == s[..if |s| < n then |s| else n]
  {
    var r := TakeUnits(s, n);
    assert forall i :: 0 <= i < |r| ==> r[i] == s[i];
    Utf16LengthOfBmp(r);
    if |r| < |s| {
      assert Utf16Units(s[|r|]) == 1;
    }
  }

  predicate IsCjk(c: char) {
    '\U{4E00}' <= c <= '\U{9FFF}'
  }

  /** The characters a slug is made of: ASCII letters and digits, and CJK ideographs. */
  predicate Meaningful(c: char) {
    IsAsciiLetter(c) || IsDigit(c) || IsCjk(c)
  }

  /** What `/[^a-zA-Z0-9一-鿿\s]/g` spares. */
  predicate Kept(c: char) {
    Meaningful(c) || IsSpace(c)
  }

  /** The `replace` that deletes every other character. */
  function StripSymbols(s: string): (r: string)
    ensures forall i :: 0 <= i < |r| ==> Kept(r[i])
  {
    if s == [] then [] else (if Kept(s[0]) then [s[0]] else []) + StripSymbols(s[1..])
  }

  /** A character survives exactly when it was there and is kept. */
  lemma {:induction false} StripSymbolsMembers(s: string, c: char)
    ensures c in StripSymbols(s) <==> c in s && Kept(c)
  {
    if s != [] {
      StripSymbolsMembers(s[1..], c);
      assert s == [s[0]] + s[1..];
    }
  }

  /** Text made only of kept characters is left alone. */
  lemma {:induction false} StripSymbolsKeepsKept(s: string)
    requires forall i :: 0 <= i < |s| ==> Kept(s[i])
    ensures StripSymbols(s) == s
  {
    if s != [] {
      StripSymbolsKeepsKept(s[1..]);
      assert [s[0]] + s[1..] == s;
    }
  }

  /** The cleaned words: the first fifty code units of the prompt, stripped and trimmed. */
  function Cleaned(input: ToolInput): string {
    Trim(StripSymbols(TakeUnits(PromptText(input), MaxPromptLength)))
  }

  // ---------------------------------------------------------------------
  // Splitting on whitespace

  /** `s.split(/\s+/)`: the pieces between maximal runs of whitespace. */
  function SplitSpaces(s: string): (parts: seq<string>)
    ensures |parts| >= 1
    ensures forall k, i :: 0 <= k < |parts| && 0 <= i < |parts[k]| ==> !IsSpace(parts[k][i])
    decreases |s|
  {
    if s == [] then [""]
    else if IsSpace(s[0]) then
      var t := TrimStart(s);
      assert t != s;
      [""] + SplitSpaces(t)
    else
      var rest := SplitSpaces(s[1..]);
      [[s[0]] + rest[0]] + rest[1..]
  }

  /** The text's non-space characters, in order: what the pieces hold between them. */
  function NonSpaces(s: string): string {
    if s == [] then [] else (if IsSpace(s[0]) then [] else [s[0]]) + NonSpaces(s[1..])
  }

  function Concat(parts: seq<string>): string {
    if parts == [] then [] else parts[0] + Concat(parts[1..])
  }

  lemma {:induction false} NonSpacesOfBlankRun(s: string)
    ensures NonSpaces(s) == NonSpaces(TrimStart(s))
  {
    if |s| > 0 && IsSpace(s[0]) {
      NonSpacesOfBlankRun(s[1..]);
    }
  }

  /** Concatenated, the pieces give back the text without its whitespace. */
  lemma {:induction false} SplitSpacesConcat(s: string)
    ensures Concat(SplitSpaces(s)) == NonSpaces(s)
    decreases |s|
  {
    if s == [] {
    } else if IsSpace(s[0]) {
      var t := TrimStart(s);
      SplitSpacesConcat(t);
      NonSpacesOfBlankRun(s);
      assert NonSpaces(s) == NonSpaces(s[1..]);
      NonSpacesOfBlankRun(s[1..]);
      assert TrimStart(s) == TrimStart(s[1..]);
      assert ([""] + SplitSpaces(t))[1..] == SplitSpaces(t);
    } else {
      var rest := SplitSpaces(s[1..]);
      SplitSpacesConcat(s[1..]);
      var parts := [[s[0]] + rest[0]] + rest[1..];
      assert parts[1..] == rest[1..];
      assert rest == [rest[0]] + rest[1..];
      assert Concat(rest) == rest[0] + Concat(rest[1..]);
      assert Concat(parts) == [s[0]] + rest[0] + Concat(rest[1..]);
    }
  }

  /**
   * Text that does not end in whitespace has no empty piece after the
   * first, and when it does not start with whitespace either the first
   * piece is not empty.
   */
  lemma {:induction false} SplitSpacesPiecesNonEmpty(s: string)
    requires s == [] || !IsSpace(s[|s| - 1])
    ensures forall k :: 1 <= k < |SplitSpaces(s)| ==> SplitSpaces(s)[k] != ""
    ensures s != [] && !IsSpace(s[0]) ==> SplitSpaces(s)[0] != ""
    decreases |s|
  {
    if s == [] {
    } else if IsSpace(s[0]) {
      var t := TrimStart(s);
      assert !IsSpace(s[|s| - 1]);
      assert t != [];
      assert t[|t| - 1] == s[|s| - 1];
      SplitSpacesPiecesNonEmpty(t);
      assert SplitSpaces(s) == [""] + SplitSpaces(t);
    } else {
      SplitSpacesPiecesNonEmpty(s[1..]);
      var rest := SplitSpaces(s[1..]);
      assert SplitSpaces(s) == [[s[0]] + rest[0]] + rest[1..];
    }
  }

  /** Every character of a piece comes from the text and is not whitespace. */
  lemma {:induction false} SplitSpacesChars(s: string)
    ensures forall k, c :: 0 <= k < |SplitSpaces(s)| && c in SplitSpaces(s)[k] ==> c in s && !IsSpace(c)
    decreases |s|
  {
    if s == [] {
    } else if IsSpace(s[0]) {
      var t := TrimStart(s);
      SplitSpacesChars(t);
      assert forall c :: c in t ==> c in s;
      assert SplitSpaces(s) == [""] + SplitSpaces(t);
    } else {
      SplitSpacesChars(s[1..]);
      var rest := SplitSpaces(s[1..]);
      assert forall c :: c in s[1..] ==> c in s;
      assert SplitSpaces(s) == [[s[0]] + rest[0]] + rest[1..];
    }
  }

  // ---------------------------------------------------------------------
  // The change id

  function Lowered(parts: seq<string>): (r: seq<string>)
    ensures |r| == |parts|
    ensures forall k :: 0 <= k < |parts| ==> r[k] == Lower(parts[k])
  {
    if parts == [] then [] else [Lower(parts[0])] + Lowered(parts[1..])
  }

  /** `words.split(/\s+/).slice(0, 3)`. */
  function FirstWords(words: string): (r: seq<string>)
    ensures |r| <= MaxSlugWords
  {
    var parts := SplitSpaces(words);
    parts[..if |parts| < MaxSlugWords then |parts| else MaxSlugWords]
  }

  /** `.join('-').toLowerCase()`. */
  function Slug(words: string): string {
    Lower(Join(FirstWords(words), "-"))
  }

  /** `generateAdHocChangeId(toolInput)`, at time `nowMs`. */
  function AdHocChangeId(input: ToolInput, nowMs: nat): string {
    var words := Cleaned(input);
    if |words| > 0 then IdPrefix + Slug(words) + "-" + NatToString(nowMs)
    else IdPrefix + NatToString(nowMs)
  }

  /** Every id starts with `ad-hoc-` and ends with `-` and the time in milliseconds. */
  lemma IdShape(input: ToolInput, nowMs: nat)
    ensures StartsWith(AdHocChangeId(input, nowMs), IdPrefix)
    ensures EndsWith(AdHocChangeId(input, nowMs), "-" + NatToString(nowMs))
  {
    if |Cleaned(input)| > 0 {
      SluggedIdShape(input, nowMs);
    } else {
      BareIdShape(input, nowMs);
    }
  }

  lemma SluggedIdShape(input: ToolInput, nowMs: nat)
    requires |Cleaned(input)| > 0
    ensures StartsWith(AdHocChangeId(input, nowMs), IdPrefix)
    ensures EndsWith(AdHocChangeId(input, nowMs), "-" + NatToString(nowMs))
  {
    SluggedId(input, nowMs);
    SluggedShape(Slug(Cleaned(input)), NatToString(nowMs));
  }

  /** With some cleaned text the id is the prefix, the slug, `-` and the time. */
  lemma SluggedId(input: ToolInput, nowMs: nat)
    requires |Cleaned(input)| > 0
    ensures AdHocChangeId(input, nowMs) == IdPrefix + Slug(Cleaned(input)) + "-" + NatToString(nowMs)
  {
  }

  lemma SluggedShape(slug: string, ts: string)
    ensures StartsWith(IdPrefix + slug + "-" + ts, IdPrefix)
    ensures EndsWith(IdPrefix + slug + "-" + ts, "-" + ts)
  {
    assert IdPrefix + slug + "-" + ts == IdPrefix + (slug + "-" + ts) == (IdPrefix + slug) + ("-" + ts);
    Ends(IdPrefix, slug + "-" + ts);
    Ends(IdPrefix + slug, "-" + ts);
  }

  lemma BareIdShape(input: ToolInput, nowMs: nat)
    requires |Cleaned(input)| == 0
    ensures StartsWith(AdHocChangeId(input, nowMs), IdPrefix)
    ensures EndsWith(AdHocChangeId(input, nowMs), "-" + NatToString(nowMs))
  {
    var ts := NatToString(nowMs);
    assert AdHocChangeId(input, nowMs) == IdPrefix + ts;
    Ends(IdPrefix, ts);
    EndsWithDash(IdPrefix, ts);
  }

  /** A text ending in `-`, followed by `t`, ends with `-` and `t`. */
  lemma EndsWithDash(p: string, t: string)
    requires |p| >= 1 && p[|p| - 1] == '-'
    ensures EndsWith(p + t, "-" + t)
  {
    assert (p + t)[|p + t| - |"-" + t|..] == [p[|p| - 1]] + t;
  }

  /** A concatenation starts with its first part and ends with its second. */
  lemma Ends(a: string, b: string)
    ensures StartsWith(a + b, a) && EndsWith(a + b, b)
  {
    assert (a + b)[..|a|] == a;
    assert (a + b)[|a + b| - |b|..] == b;
  }

  /** No letter, digit or CJK ideograph among the characters `t`. */
  predicate NothingMeaningful(t: string) {
    forall c :: c in t ==> !Meaningful(c)
  }

  /**
   * The id is the bare `ad-hoc-<time>` exactly when the first fifty code
   * units of the prompt (else the description) hold no letter, digit or
   * CJK ideograph.
   */
  lemma Fallback(input: ToolInput, nowMs: nat)
    ensures AdHocChangeId(input, nowMs) == IdPrefix + NatToString(nowMs)
            <==> NothingMeaningful(TakeUnits(PromptText(input), MaxPromptLength))
  {
    var t := TakeUnits(PromptText(input), MaxPromptLength);
    var stripped := StripSymbols(t);
    TrimEmpty(stripped);
    BlankStripped(t);
    if |Cleaned(input)| > 0 {
      var id := AdHocChangeId(input, nowMs);
      assert |id| > |IdPrefix + NatToString(nowMs)|;
    }
  }

  /** The stripped text is blank exactly when nothing meaningful was in it. */
  lemma BlankStripped(t: string)
    ensures IsBlank(StripSymbols(t)) <==> NothingMeaningful(t)
  {
    var r := StripSymbols(t);
    if IsBlank(r) {
      forall c | c in t
        ensures !Meaningful(c)
      {
        StripSymbolsMembers(t, c);
        if Kept(c) {
          var i :| 0 <= i < |r| && r[i] == c;
          assert IsSpace(c);
        }
      }
    }
    if NothingMeaningful(t) {
      forall i | 0 <= i < |r|
        ensures IsSpace(r[i])
      {
        StripSymbolsMembers(t, r[i]);
      }
    }
  }

  /** Lower-casing a join lower-cases each piece (the separator has no capitals). */
  lemma {:induction false} LowerJoin(parts: seq<string>, sep: string)
    requires forall i :: 0 <= i < |sep| ==> !IsAsciiUpper(sep[i])
    ensures Lower(Join(parts, sep)) == Join(Lowered(parts), sep)
  {
    if |parts| >= 2 {
      var rest := parts[1..];
      var lowered := Lowered(parts);
      LowerJoin(rest, sep);
      JoinCons(parts, sep);
      JoinCons(lowered, sep);
      assert lowered[1..] == Lowered(rest);
      var tail := Join(rest, sep);
      LowerAppend(parts[0], sep + tail);
      LowerAppend(sep, tail);
      LowerUnchanged(sep);
    }
  }

  /**
   * When the cleaned text is not empty the slug is its first one to three
   * whitespace-separated words, each non-empty and lower-cased, joined by
   * `-`; splitting the slug at `-` gives those words back.
   */
  lemma SlugWords(input: ToolInput, nowMs: nat)
    requires Cleaned(input) != ""
    ensures var words := SplitSpaces(Cleaned(input));
      var n := if |words| < MaxSlugWords then |words| else MaxSlugWords;
      var slug := Join(Lowered(words[..n]), "-");
      && 1 <= n <= MaxSlugWords
      && AdHocChangeId(input, nowMs) == IdPrefix + slug + "-" + NatToString(nowMs)
      && (forall k :: 0 <= k < n ==> words[k] != "")
      && Split(slug, '-') == Lowered(words[..n])
  {
    var w := Cleaned(input);
    var words := SplitSpaces(w);
    var n := if |words| < MaxSlugWords then |words| else MaxSlugWords;
    assert FirstWords(w) == words[..n];
    assert AdHocChangeId(input, nowMs) == IdPrefix + Slug(w) + "-" + NatToString(nowMs);
    SlugIsLoweredWords(w);
    WordsNonEmpty(w);
    forall k | 0 <= k < n
      ensures words[k] != ""
    {
      assert words[k] == FirstWords(w)[k];
    }
    SlugSplits(input);
  }

  /** The words of a trimmed text are not empty. */
  lemma WordsNonEmpty(w: string)
    requires w != "" && !IsSpace(w[0]) && !IsSpace(w[|w| - 1])
    ensures forall k :: 0 <= k < |FirstWords(w)| ==> FirstWords(w)[k] != ""
  {
    SplitSpacesPiecesNonEmpty(w);
    var words := SplitSpaces(w);
    forall k | 0 <= k < |FirstWords(w)|
      ensures FirstWords(w)[k] != ""
    {
      assert FirstWords(w)[k] == words[k];
    }
  }

  /** The slug lower-cases word by word. */
  lemma SlugIsLoweredWords(w: string)
    ensures Slug(w) == Join(Lowered(FirstWords(w)), "-")
  {
    LowerJoin(FirstWords(w), "-");
  }

  /** Splitting the slug at `-` gives its words back. */
  lemma SlugSplits(input: ToolInput)
    ensures var ws := Lowered(FirstWords(Cleaned(input)));
      Split(Join(ws, "-"), '-') == ws
  {
    CleanedMeaningful(input);
    FirstWordsHaveNoDash(Cleaned(input));
    SplitJoin(Lowered(FirstWords(Cleaned(input))), '-');
  }

  lemma FirstWordsHaveNoDash(w: string)
    requires forall c :: c in w ==> Kept(c)
    ensures |Lowered(FirstWords(w))| >= 1
    ensures forall k :: 0 <= k < |Lowered(FirstWords(w))| ==> '-' !in Lowered(FirstWords(w))[k]
  {
    var words := SplitSpaces(w);
    var n := if |words| < MaxSlugWords then |words| else MaxSlugWords;
    var ws := Lowered(FirstWords(w));
    assert FirstWords(w) == words[..n];
    PiecesHaveNoDash(w);
    forall k | 0 <= k < |ws|
      ensures '-' !in ws[k]
    {
      assert ws[k] == Lower(words[k]);
    }
  }

  /** No word holds a `-`: the cleaning removed every one. */
  lemma PiecesHaveNoDash(w: string)
    requires forall c :: c in w ==> Kept(c)
    ensures forall k :: 0 <= k < |SplitSpaces(w)| ==> '-' !in Lower(SplitSpaces(w)[k])
  {
    var words := SplitSpaces(w);
    SplitSpacesChars(w);
    forall k | 0 <= k < |words|
      ensures '-' !in Lower(words[k])
    {
      forall i | 0 <= i < |words[k]|
        ensures Lower(words[k])[i] != '-'
      {
        var x := words[k][i];
        assert x in words[k];
        assert x in w;
        assert Kept(x);
        assert LowerChar(x) != '-';
      }
    }
  }

  /** The cleaned words consist of meaningful characters and whitespace. */
  lemma CleanedMeaningful(input: ToolInput)
    ensures forall c :: c in Cleaned(input) ==> Kept(c)
  {
    var s := StripSymbols(TakeUnits(PromptText(input), MaxPromptLength));
    TrimInside(s);
  }

  /** Trimming only removes characters. */
  lemma TrimInside(s: string)
    ensures forall c :: c in Trim(s) ==> c in s
  {
    var t := TrimStart(s);
    assert forall c :: c in t ==> c in s;
    assert forall c :: c in TrimEnd(t) ==> c in t;
  }

  /** A character that may appear in an id. */
  predicate IdChar(c: char) {
    IsAsciiLower(c) || IsDigit(c) || IsCjk(c) || c == '-'
  }

  predicate AllIdChars(s: string) {
    forall i :: 0 <= i < |s| ==> IdChar(s[i])
  }

  lemma IdCharsAppend(a: string, b: string)
    requires AllIdChars(a) && AllIdChars(b)
    ensures AllIdChars(a + b)
  {
    forall i | 0 <= i < |a + b|
      ensures IdChar((a + b)[i])
    {
      if i >= |a| {
        assert (a + b)[i] == b[i - |a|];
      }
    }
  }

  /**
   * Ids hold only lower-case ASCII letters, digits, CJK ideographs and `-`:
   * every other character of the prompt is gone.
   */
  lemma IdAlphabet(input: ToolInput, nowMs: nat)
    ensures AllIdChars(AdHocChangeId(input, nowMs))
  {
    PartsIdChars(nowMs);
    if |Cleaned(input)| > 0 {
      SluggedIdChars(input, nowMs);
      SluggedId(input, nowMs);
    } else {
      IdCharsAppend(IdPrefix, NatToString(nowMs));
      assert AdHocChangeId(input, nowMs) == IdPrefix + NatToString(nowMs);
    }
  }

  /** The prefix `ad-hoc-` and the time stamp are made of id characters. */
  lemma PartsIdChars(nowMs: nat)
    ensures AllIdChars(IdPrefix) && AllIdChars(NatToString(nowMs))
  {
    assert AllIdChars(IdPrefix);
    assert AllIdChars(NatToString(nowMs));
  }

  /** An id with a slug is made of id characters. */
  lemma SluggedIdChars(input: ToolInput, nowMs: nat)
    requires |Cleaned(input)| > 0
    ensures AllIdChars(IdPrefix + Slug(Cleaned(input)) + "-" + NatToString(nowMs))
  {
    var slug := Slug(Cleaned(input));
    PartsIdChars(nowMs);
    SlugAlphabet(input);
    IdCharsAppend(IdPrefix, slug);
    IdCharsAppend(IdPrefix + slug, "-");
    IdCharsAppend(IdPrefix + slug + "-", NatToString(nowMs));
  }

  lemma SlugAlphabet(input: ToolInput)
    ensures AllIdChars(Slug(Cleaned(input)))
  {
    CleanedMeaningful(input);
    SlugAlphabetOf(Cleaned(input));
  }

  /** The slug of a text of kept characters is made of id characters. */
  lemma SlugAlphabetOf(w: string)
    requires forall c :: c in w ==> Kept(c)
    ensures AllIdChars(Slug(w))
  {
    var parts := FirstWords(w);
    var joined := Join(parts, "-");
    SplitSpacesChars(w);
    forall c | c in joined
      ensures c == '-' || Meaningful(c)
    {
      JoinChars(parts, "-", c);
      if c != '-' {
        var k :| 0 <= k < |parts| && c in parts[k];
        assert c in SplitSpaces(w)[k];
      }
    }
    forall i | 0 <= i < |joined|
      ensures IdChar(LowerChar(joined[i]))
    {
      assert joined[i] in joined;
    }
  }

  /** A character of a join comes from a piece or from the separator. */
  lemma {:induction false} JoinChars(parts: seq<string>, sep: string, c: char)
    requires c in Join(parts, sep)
    ensures c in sep || exists k :: 0 <= k < |parts| && c in parts[k]
  {
    if |parts| >= 2 {
      if c !in parts[0] && c !in sep {
        JoinChars(parts[1..], sep, c);
        var k :| 0 <= k < |parts[1..]| && c in parts[1..][k];
        assert c in parts[k + 1];
      }
    }
  }

  /**
   * Only the first fifty characters count: a prompt of a hundred `a`
   * gives the slug of fifty `a`, one word.
   */
  lemma LongPromptCut(input: ToolInput, nowMs: nat)
    requires |input.prompt| == 100 && forall i :: 0 <= i < 100 ==> input.prompt[i] == 'a'
    ensures AdHocChangeId(input, nowMs) == IdPrefix + input.prompt[..50] + "-" + NatToString(nowMs)
  {
    var s := input.prompt[..50];
    TakeUnitsOfBmp(input.prompt, MaxPromptLength);
    StripSymbolsKeepsKept(s);
    CleanedIsWord(input, s);
    OneWordSlug(s);
    SluggedId(input, nowMs);
  }

  /** A prompt of at most fifty CJK ideographs is kept whole. */
  lemma CjkPromptKept(input: ToolInput, nowMs: nat)
    requires input.prompt != "" && |input.prompt| <= MaxPromptLength
    requires forall i :: 0 <= i < |input.prompt| ==> IsCjk(input.prompt[i])
    ensures AdHocChangeId(input, nowMs) == IdPrefix + input.prompt + "-" + NatToString(nowMs)
  {
    var s := input.prompt;
    CjkTraits(s);
    TakeUnitsOfBmp(s, MaxPromptLength);
    assert s[..|s|] == s;
    StripSymbolsKeepsKept(s);
    CleanedIsWord(input, s);
    OneWordSlug(s);
    SluggedId(input, nowMs);
  }

  /** CJK ideographs are single code units, meaningful, and neither spaces nor upper-case letters. */
  lemma CjkTraits(s: string)
    requires forall i :: 0 <= i < |s| ==> IsCjk(s[i])
    ensures forall i :: 0 <= i < |s| ==> s[i] as int <= 0xFFFF && Kept(s[i]) && Meaningful(s[i])
    ensures forall i :: 0 <= i < |s| ==> !IsSpace(s[i]) && !IsAsciiUpper(s[i])
  {
  }

  /** When the stripped prompt is one word `s`, the cleaned text is `s`. */
  lemma CleanedIsWord(input: ToolInput, s: string)
    requires StripSymbols(TakeUnits(PromptText(input), MaxPromptLength)) == s != ""
    requires forall i :: 0 <= i < |s| ==> Meaningful(s[i])
    ensures Cleaned(input) == s
  {
    assert Meaningful(s[0]) && Meaningful(s[|s| - 1]);
    TrimUntouched(s);
  }

  /** Text that neither starts nor ends with whitespace is its own trim. */
  lemma TrimUntouched(s: string)
    requires s != [] && !IsSpace(s[0]) && !IsSpace(s[|s| - 1])
    ensures Trim(s) == s
  {
    assert TrimStart(s) == s;
  }

  /** One word with no capitals is its own slug. */
  lemma OneWordSlug(s: string)
    requires forall i :: 0 <= i < |s| ==> !IsSpace(s[i]) && !IsAsciiUpper(s[i])
    ensures Slug(s) == s
  {
    SplitSpacesNoSpace(s);
    assert FirstWords(s) == [s];
    LowerUnchanged(s);
  }

  /** Text without whitespace is one piece. */
  lemma {:induction false} SplitSpacesNoSpace(s: string)
    requires forall i :: 0 <= i < |s| ==> !IsSpace(s[i])
    ensures SplitSpaces(s) == [s]
  {
    if s != [] {
      SplitSpacesNoSpace(s[1..]);
      assert [s[0]] + s[1..] == s;
    }
  }

  // ---------------------------------------------------------------------
  // Resetting the workflow

  /**
   * `resetWorkflowState(changeId)`: the document, plus the top-level
   * fields only this copy writes (`timestamps.created` and the
   * `reviewed`/`tested`/`testFailed` flags).
   */
  datatype ResetDoc = ResetDoc(doc: StateDoc, created: string, reviewed: bool, tested: bool, testFailed: bool)

  function ResetWorkflowState(changeId: string, now: string): ResetDoc {
    var base := StateUpdater.InitialState(now);
    ResetDoc(
      base.(changeId := changeId, metadata := Some(Metadata(None)),
            timestamps := Some(Timestamps(now, now, now, ""))),
      now, false, false, false)
  }

  /**
   * A reset starts a new workflow for `changeId`: IDLE with no previous
   * phase, all flags and counters cleared, and every timestamp the same
   * moment.
   */
  lemma ResetIsFresh(changeId: string, now: string)
    ensures var r := ResetWorkflowState(changeId, now);
      && r.doc.changeId == changeId
      && r.doc.version == "2.0"
      && r.doc.state == Some(Idle) && r.doc.previousState.None?
      && !r.reviewed && !r.tested && !r.testFailed
      && r.doc.mainAgentOps == Some(ZeroOps)
      && r.doc.metadata == Some(Metadata(None))
      && r.doc.timestamps.Some?
      && var ts := r.doc.timestamps.value;
         ts.workflowStarted == ts.stateChanged == ts.lastActivity == r.created == now
  {
  }

  /** A reset keeps the initial document's task counters and nothing of any earlier workflow. */
  lemma ResetKeepsInitialTask(changeId: string, now: string)
    ensures ResetWorkflowState(changeId, now).doc.task == StateUpdater.InitialState(now).task
    ensures ResetWorkflowState(changeId, now).doc.taskSync.None?
    ensures ResetWorkflowState(changeId, now).doc.completion.None?
  {
  }

  /** After a reset the gate lets any Task through: its phase is IDLE. */
  lemma ResetAdmitsEveryTask(changeId: string, now: string, input: ToolInput)
    ensures Gate.CheckStateTransition(Task, input, Gate.CurrentPhase(ResetWorkflowState(changeId, now).doc)) == Gate.Allow
  {
  }

  /** The ids an ad-hoc workflow is reset with are accepted as they are. */
  lemma ResetWithAdHocId(input: ToolInput, nowMs: nat, now: string)
    ensures StartsWith(ResetWorkflowState(AdHocChangeId(input, nowMs), now).doc.changeId, IdPrefix)
  {
    IdShape(input, nowMs);
  }
}
