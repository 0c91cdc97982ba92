/**
 * The status display (`status-display.js`): after a Task tool call it
 * prints a large banner naming the sub-agent that finished.
 *
 * Standard input and its JSON parsing are left to the caller: the hook
 * receives the parsed payload, `None` when it could not be read or parsed
 * (the hook then prints nothing). The result is the `systemMessage` text,
 * `None` when nothing is printed.
 */
module StatusDisplay {
  import opened Text
  import opened Workflow

  /** `AGENT_EMOJI`. */
  const AgentEmoji: map<string, string> := map[
    "architect" := "\U{1F3D7}\U{FE0F}",
    "designer" := "\U{1F3A8}",
    "migration" := "\U{1F500}",
    "developer" := "\U{1F4BB}",
    "skills-agents" := "\U{1F4DA}",
    "reviewer" := "\U{1F50D}",
    "tester" := "\U{1F9EA}",
    "debugger" := "\U{1F41B}",
    "workflow" := "\U{1F504}",
    "main" := "\U{1F916}"
  ]

  /** `AGENT_NAMES`. */
  const AgentNames: map<string, string> := map[
    "architect" := "ARCHITECT",
    "designer" := "DESIGNER",
    "migration" := "MIGRATION",
    "developer" := "DEVELOPER",
    "skills-agents" := "SKILLS",
    "reviewer" := "REVIEWER",
    "tester" := "TESTER",
    "debugger" := "DEBUGGER",
    "workflow" := "WORKFLOW",
    "main" := "MAIN"
  ]

  /** The emoji shown for an agent nobody listed. */
  const RobotEmoji := "\U{1F916}"

  const PluginPrefix := "workflow:"

  /** The rule drawn above and below the title: `'━'.repeat(40)`. */
  const Separator := "━━━━━━━━━━━━━━━━━━━━━━━━━━━━━━━━━━━━━━━━"

  /** The two tables name the same agents. */
  lemma TablesAgree()
    ensures AgentEmoji.Keys == AgentNames.Keys
    ensures forall t :: t in AgentEmoji ==> AgentEmoji[t] != "" && AgentNames[t] != ""
  {
  }

  /**
   * The `subagent_type` as looked up: lower-cased, then one leading
   * `workflow:` removed (plugin agents are named `workflow:<agent>`).
   */
  function Normalize(raw: string): (t: string)
    ensures forall i :: 0 <= i < |t| ==> !IsAsciiUpper(t[i])
  {
    var lowered := Lower(raw);
    if StartsWith(lowered, PluginPrefix) then lowered[|PluginPrefix|..] else lowered
  }

  /** `AGENT_EMOJI[t] || '🤖'`: every listed emoji is non-empty, so only a missing key falls back. */
  function Emoji(t: string): string {
    if t in AgentEmoji then AgentEmoji[t] else RobotEmoji
  }

  /** `AGENT_NAMES[t] || t.toUpperCase()`. */
  function AgentTitle(t: string): string {
    if t in AgentNames then AgentNames[t] else Upper(t)
  }

  /** The banner's middle line. */
  function TitleLine(t: string): (r: string)
    ensures t in AgentNames ==> r == AgentEmoji[t] + " " + AgentNames[t] + " 結束"
    ensures t !in AgentNames ==> r == RobotEmoji + " " + Upper(t) + " 結束"
  {
    Emoji(t) + " " + AgentTitle(t) + " 結束"
  }

  /** `displayTaskComplete`: the whole message. */
  function Banner(t: string): string {
    "\n" + Separator + "\n" + TitleLine(t) + "\n" + Separator
  }

  /** `main()`: only a Task with a non-empty normalised agent type shows a banner. */
  function Display(input: Option<HookInput>): Option<string> {
    if input.None? || input.value.tool != Task then None
    else
      var t := Normalize(input.value.toolInput.subagentType);
      if t == "" then None else Some(Banner(t))
  }

  // ---------------------------------------------------------------------
  // Properties

  /**
   * A banner appears exactly for a readable Task payload whose agent type
   * is non-empty once normalised; it names that normalised type.
   */
  lemma DisplayRule(input: Option<HookInput>)
    ensures Display(input).Some? <==>
      input.Some? && input.value.tool == Task && Normalize(input.value.toolInput.subagentType) != ""
    ensures Display(input).Some? ==> Display(input).value == Banner(Normalize(input.value.toolInput.subagentType))
  {
  }

  /** Other tools never produce output. */
  lemma NonTaskSilent(h: HookInput)
    requires h.tool != Task
    ensures Display(Some(h)).None?
  {
  }

  /**
   * A `workflow:` prefix in any letter case is removed, once: what follows
   * is only lower-cased, even when it starts with `workflow:` again.
   */
  lemma {:induction false} PrefixRemovedOnce(p: string, x: string)
    requires Lower(p) == PluginPrefix
    ensures Normalize(p + x) == Lower(x)
  {
    LowerAppend(p, x);
    assert Lower(p + x)[..|PluginPrefix|] == PluginPrefix;
  }

  /** Without the prefix only the case changes. */
  lemma OtherTypesOnlyLowered(raw: string)
    requires !StartsWith(Lower(raw), PluginPrefix)
    ensures Normalize(raw) == Lower(raw)
  {
  }

  /** `workflow:` alone (in any case) counts as a missing type: no banner. */
  lemma BarePrefixSilent(h: HookInput)
    requires h.tool == Task && Lower(h.toolInput.subagentType) == PluginPrefix
    ensures Display(Some(h)).None?
  {
    assert StartsWith(Lower(h.toolInput.subagentType), PluginPrefix);
  }

  /**
   * The message is four lines: an empty one, the rule, the title, the rule
   * again (for agent types without line breaks).
   */
  lemma BannerLines(t: string)
    requires '\n' !in t
    ensures Split(Banner(t), '\n') == ["", Separator, TitleLine(t), Separator]
  {
    NoLineBreakInTitle(t);
    assert '\n' !in Separator;
    FourLines(Separator, TitleLine(t), Separator);
  }

  /** Three texts without line breaks, each after a line break, split back into four lines. */
  lemma {:induction false} FourLines(a: string, b: string, c: string)
    requires '\n' !in a && '\n' !in b && '\n' !in c
    ensures Split("\n" + a + "\n" + b + "\n" + c, '\n') == ["", a, b, c]
  {
    var parts := ["", a, b, c];
    assert Join(parts[3..], "\n") == c;
    JoinCons(parts[2..], "\n");
    JoinCons(parts[1..], "\n");
    JoinCons(parts, "\n");
    assert "\n" + a + "\n" + b + "\n" + c == Join(parts, "\n");
    SplitJoin(parts, '\n');
  }

  lemma NoLineBreakInTitle(t: string)
    requires '\n' !in t
    ensures '\n' !in TitleLine(t)
  {
    if t in AgentNames {
      TableTextsPlain(t);
    } else {
      assert forall i :: 0 <= i < |t| ==> UpperChar(t[i]) != '\n';
      assert '\n' !in Upper(t);
    }
  }

  /** No emoji or name in the tables holds a line break. */
  lemma TableTextsPlain(t: string)
    requires t in AgentNames
    ensures t in AgentEmoji && '\n' !in AgentEmoji[t] && '\n' !in AgentNames[t]
  {
  }

  /** The rule is forty `━`, as `repeat` builds it. */
  lemma SeparatorShape()
    ensures Separator == Repeat('\U{2501}', 40)
  {
    var r := Repeat('\U{2501}', 40);
    assert |r| == |Separator|;
    assert forall i :: 0 <= i < 40 ==> r[i] == Separator[i];
  }

  /**
   * `workflow:developer` shows the developer's emoji and name, and the
   * banner no longer mentions `workflow:`.
   */
  lemma PluginDeveloper(h: HookInput, p: string, x: string)
    requires h.tool == Task && h.toolInput.subagentType == p + x
    requires Lower(p) == PluginPrefix && x == "developer"
    ensures Display(Some(h)) == Some(Banner(x))
    ensures TitleLine(x) == "\U{1F4BB} DEVELOPER 結束"
    ensures !Contains(Banner(x), PluginPrefix)
  {
    PluginNormalized(p, x);
    DisplayRule(Some(h));
    DeveloperBanner(x);
  }

  lemma PluginNormalized(p: string, x: string)
    requires Lower(p) == PluginPrefix && x == "developer"
    ensures Normalize(p + x) == x != ""
  {
    PrefixRemovedOnce(p, x);
    LowerUnchanged(x);
  }

  lemma DeveloperBanner(x: string)
    requires x == "developer"
    ensures TitleLine(x) == "\U{1F4BB} DEVELOPER 結束"
    ensures !Contains(Banner(x), PluginPrefix)
  {
    DeveloperTitle(x);
    assert 'w' !in "\U{1F4BB} DEVELOPER 結束";
    assert 'w' !in Separator;
    CharNotInBanner('w', x);
    NoCharNoOccurrence(Banner(x), PluginPrefix);
  }

  lemma DeveloperTitle(x: string)
    requires x == "developer"
    ensures TitleLine(x) == "\U{1F4BB} DEVELOPER 結束"
  {
  }

  /** A character found neither in the rule nor in the title, nor a line break, is not in the banner. */
  lemma CharNotInBanner(c: char, t: string)
    requires c != '\n' && c !in Separator && c !in TitleLine(t)
    ensures c !in Banner(t)
  {
  }

  /** A text lacking a pattern's first character does not contain the pattern. */
  lemma NoCharNoOccurrence(s: string, sub: string)
    requires |sub| > 0 && sub[0] !in s
    ensures !Contains(s, sub)
  {
    forall i | 0 <= i <= |s| - |sub|
      ensures !OccursAt(s, sub, i)
    {
      assert s[i] != sub[0];
    }
  }

  /** An agent type missing from the tables shows the robot and its own upper-cased name. */
  lemma UnknownAgentTitle(t: string)
    requires t !in AgentNames
    ensures TitleLine(t) == RobotEmoji + " " + Upper(t) + " 結束"
  {
  }
}
