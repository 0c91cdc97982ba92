/**
 * The pre-invocation gate (`workflow-gate.js`): before a tool runs it
 * decides `allow` or `block`, refusing the main agent's code edits,
 * illegal phase changes and code edits while a review or test is running.
 */
module Gate {
  import opened Text
  import opened Paths
  import opened Workflow

  /** The gate's `CODE_EXTENSIONS`. */
  const CodeExtensions: seq<string> := [
    ".ts", ".tsx", ".js", ".jsx", ".mjs", ".cjs",
    ".py", ".pyw", ".go", ".rs", ".java", ".kt", ".kts",
    ".swift", ".m", ".mm", ".c", ".cpp", ".cc", ".cxx",
    ".h", ".hpp", ".rb", ".php", ".sh", ".bash", ".zsh",
    ".sql", ".vue", ".svelte"]

  /** A code file: its lower-cased extension is one of `CodeExtensions`. */
  predicate IsCodeFile(path: string) {
    IsCodeExtension(Lower(Extname(path)))
  }

  predicate IsCodeExtension(ext: string) {
    ext in CodeExtensions
  }

  /** `VALID_TRANSITIONS`; a phase outside the table admits nothing. */
  function ValidTransitions(p: Phase): seq<Phase> {
    match p
    case Idle => [Planning, Develop, SkillCreate]
    case Planning => [Design, MigrationPlanning, Develop, SkillCreate, Idle]
    case Design => [Develop, Idle]
    case MigrationPlanning => [Develop, Idle]
    case Develop => [Review]
    case SkillCreate => [Validate]
    case Review => [Test, Develop]
    case Test => [Completing, Debug, Develop]
    case Validate => [Completing, SkillCreate]
    case Debug => [Develop, Blocked]
    case Completing => [Done, Idle]
    case LoopPaused => [Develop, Review, Test, Debug]
    case LoopCompleting => [Completing]
    case Paused => [Idle, Develop, Review, Test]
    case Blocked => [Idle]
    case Done => [Idle]
    case Unlisted(_) => []
  }

  function JoinPhases(ps: seq<Phase>): string {
    if ps == [] then ""
    else if |ps| == 1 then PhaseName(ps[0])
    else PhaseName(ps[0]) + ", " + JoinPhases(ps[1..])
  }

  datatype Decision = Allow | Block(reason: string)

  /** `config.mainAgentLimits`. */
  datatype LimitsConfig = LimitsConfig(enabled: bool, testMode: bool)

  /** The parsed `workflow-config.json`, as far as the gate reads it. */
  datatype GateConfig = GateConfig(mainAgentLimits: Option<LimitsConfig>)

  /** `loadConfig`: a missing or unreadable file switches the limits off. */
  function LoadConfig(file: Option<GateConfig>): (c: GateConfig)
    ensures file.None? ==> !LimitsOn(c)
    ensures file.Some? ==> c == file.value
  {
    if file.Some? then file.value else GateConfig(Some(LimitsConfig(false, false)))
  }

  predicate LimitsOn(config: GateConfig) {
    config.mainAgentLimits.Some? && config.mainAgentLimits.value.enabled
  }

  predicate InTestMode(config: GateConfig) {
    config.mainAgentLimits.Some? && config.mainAgentLimits.value.testMode
  }

  function CodeEditReason(path: string): string {
    "Main Agent 不能直接編輯程式碼檔案 (" + Extname(path) + ")。請使用 Task(developer) 委派。"
  }

  const SkipReviewReason :=
    "❌ 違反 D→R→T：開發完成後必須先經過 REVIEW，不能直接跳到 TEST。請先使用 Task(reviewer)。"
  const ReviewFrozenReason :=
    "❌ REVIEW 階段不能修改程式碼。如需修改，請先完成審查（REJECT 回到 DEVELOP）。"
  const TestFrozenReason :=
    "❌ TEST 階段不能修改程式碼。如需修改，請等測試結果後回到 DEVELOP。"

  function TransitionReason(current: Phase, target: Phase): string {
    "當前狀態 " + PhaseName(current) + " 不允許轉換到 " + PhaseName(target)
    + "。允許的目標：" + JoinPhases(ValidTransitions(current))
  }

  /**
   * `checkMainAgentLimit`. `inSubagent` is `CLAUDE_IN_SUBAGENT === 'true'`.
   * With the limits off or in test mode every call passes; otherwise the
   * main agent is refused exactly its Edit/Write calls on code files.
   */
  function CheckMainAgentLimit(tool: Tool, input: ToolInput, config: GateConfig, inSubagent: bool): (d: Decision)
    ensures !LimitsOn(config) || InTestMode(config) ==> d == Allow
    ensures LimitsOn(config) && !InTestMode(config) && !inSubagent ==>
      (d.Block? <==> IsEditTool(tool) && input.filePath != "" && IsCodeFile(input.filePath))
    ensures inSubagent ==> d == Allow
    ensures d.Block? ==> d.reason == CodeEditReason(input.filePath)
  {
    if !LimitsOn(config) then Allow
    else if InTestMode(config) then Allow
    else if !IsEditTool(tool) then Allow
    else if inSubagent then Allow
    else if input.filePath == "" then Allow
    else if IsCodeFile(input.filePath) then Block(CodeEditReason(input.filePath))
    else Allow
  }

  /**
   * `state.state || 'IDLE'`: a missing `state` and the empty string both
   * read as IDLE; any other name is taken as it is.
   */
  function CurrentPhase(doc: StateDoc): (p: Phase)
    ensures doc.state.None? || doc.state == Some(Unlisted("")) ==> p == Idle
    ensures doc.state.Some? && doc.state != Some(Unlisted("")) ==> p == doc.state.value
    ensures p != Unlisted("")
  {
    if doc.state.None? || doc.state == Some(Unlisted("")) then Idle else doc.state.value
  }

  /**
   * `checkStateTransition` for the current phase `current`: a Task for a
   * workflow agent must follow the table (anything goes from IDLE, and
   * DEVELOP → tester is the D→R→T violation); an Edit/Write of a code
   * file is refused during REVIEW and TEST.
   */
  function CheckStateTransition(tool: Tool, input: ToolInput, current: Phase): (d: Decision)
    // a Task for a type that is not a workflow agent always passes, and any
    // Task passes from IDLE
    ensures tool == Task && TaskAgent(input).OtherAgent? ==> d == Allow
    ensures tool == Task && current == Idle ==> d == Allow
    // the D→R→T rule
    ensures tool == Task && current == Develop && TaskAgent(input) == Tester ==> d == Block(SkipReviewReason)
    // the table rule, in both directions
    ensures (tool == Task && !TaskAgent(input).OtherAgent? && current != Idle
             && !(current == Develop && TaskAgent(input) == Tester)) ==>
      (d == Allow <==> AgentPhase(TaskAgent(input)).value in ValidTransitions(current))
    // code is frozen exactly during REVIEW and TEST
    ensures IsEditTool(tool) ==>
      (d.Block? <==> input.filePath != "" && IsCodeFile(input.filePath) && (current == Review || current == Test))
    ensures tool != Task && !IsEditTool(tool) ==> d == Allow
  {
    if tool == Task then
      var agent := TaskAgent(input);
      match AgentPhase(agent)
      case None => Allow
      case Some(target) =>
        if current == Develop && agent == Tester then Block(SkipReviewReason)
        else if target !in ValidTransitions(current) && current != Idle then
          Block(TransitionReason(current, target))
        else Allow
    else if IsEditTool(tool) && input.filePath != "" && IsCodeFile(input.filePath) then
      if current == Review then Block(ReviewFrozenReason)
      else if current == Test then Block(TestFrozenReason)
      else Allow
    else Allow
  }

  /** `loadState` for the gate: a missing or unreadable file reads as `{ state: 'IDLE' }`. */
  function LoadState(stored: Option<StateDoc>): StateDoc {
    if stored.Some? then stored.value else EmptyDoc.(state := Some(Idle))
  }

  /** The state document after one more refused main-agent edit is counted. */
  function CountBlocked(doc: StateDoc): (r: StateDoc)
    ensures r.mainAgentOps.Some?
    ensures r.mainAgentOps.value.blocked == doc.mainAgentOps.GetOr(ZeroOps).blocked + 1
    ensures r.mainAgentOps.value == doc.mainAgentOps.GetOr(ZeroOps).(blocked := r.mainAgentOps.value.blocked)
    ensures r == doc.(mainAgentOps := r.mainAgentOps)
  {
    var ops := doc.mainAgentOps.GetOr(ZeroOps);
    doc.(mainAgentOps := Some(ops.(blocked := ops.blocked + 1)))
  }

  /** The main-agent limit refuses this payload. */
  predicate LimitRefuses(input: Option<HookInput>, config: GateConfig, inSubagent: bool) {
    input.Some? && CheckMainAgentLimit(input.value.tool, input.value.toolInput, config, inSubagent).Block?
  }

  /** The gate's verdict on one payload (`None`: unreadable or unparseable input). */
  function GateDecision(input: Option<HookInput>, stored: Option<StateDoc>, config: GateConfig, inSubagent: bool): (d: Decision)
    ensures input.None? ==> d == Allow
    ensures LimitRefuses(input, config, inSubagent) ==>
      d == CheckMainAgentLimit(input.value.tool, input.value.toolInput, config, inSubagent)
    ensures input.Some? && !LimitRefuses(input, config, inSubagent) ==>
      d == CheckStateTransition(input.value.tool, input.value.toolInput, CurrentPhase(LoadState(stored)))
  {
    match input
    case None => Allow
    case Some(h) =>
      var limit := CheckMainAgentLimit(h.tool, h.toolInput, config, inSubagent);
      if limit.Block? then limit
      else CheckStateTransition(h.tool, h.toolInput, CurrentPhase(LoadState(stored)))
  }

  /**
   * The gate's `main`. Only a refusal by the main-agent limit touches the
   * state file: it reloads the document and counts the refusal in
   * `mainAgentOps.blocked`.
   */
  method Run(file: StateFile, input: Option<HookInput>, configFile: Option<GateConfig>, inSubagent: bool)
    returns (d: Decision)
    modifies file
    ensures d == GateDecision(input, old(file.stored), LoadConfig(configFile), inSubagent)
    ensures LimitRefuses(input, LoadConfig(configFile), inSubagent) ==>
      file.stored == Some(CountBlocked(LoadState(old(file.stored))))
    ensures !LimitRefuses(input, LoadConfig(configFile), inSubagent) ==> file.stored == old(file.stored)
  {
    var config := LoadConfig(configFile);
    if input.None? {
      return Allow;
    }
    var h := input.value;
    var limit := CheckMainAgentLimit(h.tool, h.toolInput, config, inSubagent);
    if limit.Block? {
      var updated := LoadState(file.stored);
      updated := CountBlocked(updated);
      file.Save(updated);
      return limit;
    }
    var state := LoadState(file.stored);
    d := CheckStateTransition(h.tool, h.toolInput, CurrentPhase(state));
  }

  /** From DEVELOP, reviewer is the only workflow agent the gate lets through. */
  lemma FromDevelopOnlyReviewer(input: ToolInput)
    requires !TaskAgent(input).OtherAgent?
    ensures CheckStateTransition(Task, input, Develop) == Allow <==> TaskAgent(input) == Reviewer
  {
  }

  /** From DONE or BLOCKED every workflow agent is refused. */
  lemma TerminalPhasesRefuseAgents(input: ToolInput, current: Phase)
    requires current == Done || current == Blocked
    requires !TaskAgent(input).OtherAgent?
    ensures CheckStateTransition(Task, input, current).Block?
  {
  }

  /** A phase outside the table admits no workflow agent (the empty name is IDLE, see `CurrentPhase`). */
  lemma UnlistedPhaseAdmitsNone(input: ToolInput, name: string)
    requires name != ""
    requires !TaskAgent(input).OtherAgent?
    ensures CheckStateTransition(Task, input, Unlisted(name)).Block?
  {
  }

  /**
   * A missing state file, or one without `state` or with `state: ""`,
   * behaves as IDLE: every Task passes.
   */
  lemma MissingStateIsIdle(input: ToolInput, stored: Option<StateDoc>)
    requires stored.None? || stored.value.state.None? || stored.value.state == Some(PhaseOf(""))
    ensures CurrentPhase(LoadState(stored)) == Idle
    ensures CheckStateTransition(Task, input, CurrentPhase(LoadState(stored))) == Allow
  {
  }

  /** No `workflow:` prefix is stripped: `workflow:developer` is not a workflow agent here. */
  lemma PrefixedAgentPasses(input: ToolInput, current: Phase)
    requires input.subagentType == "workflow:developer"
    ensures CheckStateTransition(Task, input, current) == Allow
  {
    PrefixedNameUnlisted(input.subagentType);
  }

  lemma PrefixedNameUnlisted(s: string)
    requires s == "workflow:developer"
    ensures AgentOf(Lower(s)) == OtherAgent(s)
  {
    assert forall i :: 0 <= i < |s| ==> !IsAsciiUpper(s[i]);
    LowerUnchanged(s);
  }

  /** The gate counts its own refusals only: the counter rises by exactly one. */
  lemma BlockedCountsOnce(doc: StateDoc)
    ensures CountBlocked(doc).mainAgentOps.value.blocked == doc.mainAgentOps.GetOr(ZeroOps).blocked + 1
    ensures CountBlocked(doc).mainAgentOps.value.delegated == doc.mainAgentOps.GetOr(ZeroOps).delegated
    ensures CountBlocked(doc).mainAgentOps.value.directEdits == doc.mainAgentOps.GetOr(ZeroOps).directEdits
    ensures CountBlocked(doc).state == doc.state
  {
  }
}
