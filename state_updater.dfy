/**
 * The post-invocation transition engine (`state-updater.js`): after a
 * sub-agent finishes it classifies the agent's output, moves the workflow
 * phase, and counts delegated calls and the main agent's direct edits.
 */
module StateUpdater {
  import opened Text
  import opened Paths
  import opened Workflow
  import Gate

  /** The state updater's own `CODE_EXTENSIONS`, shorter than the gate's. */
  const CodeExtensions: seq<string> := [
    ".ts", ".tsx", ".js", ".jsx", ".mjs", ".cjs",
    ".py", ".pyw", ".go", ".rs", ".java", ".kt",
    ".swift", ".c", ".cpp", ".h", ".rb", ".php",
    ".sh", ".bash", ".sql", ".vue", ".svelte"]

  predicate IsCodeFile(path: string) {
    IsCodeExtension(Lower(Extname(path)))
  }

  predicate IsCodeExtension(ext: string) {
    ext in CodeExtensions
  }

  /**
   * The two code-file policies disagree: every file the updater treats as
   * code the gate does too, but `.zsh` (and `.kts`, `.m`, `.mm`, `.cc`,
   * `.cxx`, `.hpp`) is code only for the gate.
   */
  lemma CodePoliciesDiffer(path: string)
    ensures IsCodeFile(path) ==> Gate.IsCodeFile(path)
    ensures Lower(Extname(path)) == ".zsh" ==> Gate.IsCodeFile(path) && !IsCodeFile(path)
  {
    ExtensionPoliciesDiffer(Lower(Extname(path)));
  }

  lemma ExtensionPoliciesDiffer(e: string)
    ensures IsCodeExtension(e) ==> Gate.IsCodeExtension(e)
    ensures e == ".zsh" ==> Gate.IsCodeExtension(e) && !IsCodeExtension(e)
  {
    if e in CodeExtensions {
      ListContained(e);
    }
    if e == ".zsh" {
      assert Gate.CodeExtensions[26] == e;
    }
  }

  lemma ListContained(e: string)
    requires e in CodeExtensions
    ensures e in Gate.CodeExtensions
  {
    var g := Gate.CodeExtensions;
    var i :| 0 <= i < |CodeExtensions| && CodeExtensions[i] == e;
    // where each of the updater's extensions sits in the gate's list
    var j := if i < 12 then i else if i == 12 then 13 else if i < 15 then i + 3
             else if i == 15 then 20 else if i < 20 then i + 6 else i + 7;
    assert g[j] == e;
  }

  /** `createInitialState`, with `now` the ISO time of the call. */
  function InitialState(now: string): (s: StateDoc)
    ensures s.state == Some(Idle) && s.previousState.None?
    ensures s.mainAgentOps == Some(ZeroOps)
    ensures s.timestamps == Some(Timestamps("", "", now, ""))
    ensures s.task == Some(TaskInfo("", Some(0), Some(0), false, "", false, "", false, ""))
  {
    StateDoc("2.0", Some(Idle), None, "",
      Some(TaskInfo("", Some(0), Some(0), false, "", false, "", false, "")),
      None, Some(Timestamps("", "", now, "")), Some(ZeroOps), None, None)
  }

  /** `loadState`: a missing or corrupt file reads as the initial state. */
  function LoadState(stored: Option<StateDoc>, now: string): StateDoc {
    if stored.Some? then stored.value else InitialState(now)
  }

  datatype Status = Approve | Reject | Pass | Fail | Fixed | Pending | Unknown

  /** `{ nextState, status }`; `nextState` is `None` for null. */
  datatype Outcome = Outcome(nextState: Option<Phase>, status: Status)

  predicate ReviewerApproves(o: string) {
    Contains(o, "approve") || Contains(o, "通過") || Contains(o, "✅")
  }

  predicate ReviewerRejects(o: string) {
    Contains(o, "reject") || Contains(o, "拒絕") || Contains(o, "❌") || Contains(o, "問題")
  }

  predicate TesterPasses(o: string) {
    Contains(o, "pass") || Contains(o, "通過") || Contains(o, "✅") || Contains(o, "100%")
  }

  predicate TesterFails(o: string) {
    Contains(o, "fail") || Contains(o, "失敗") || Contains(o, "❌")
  }

  /**
   * `analyzeTaskResult` for a lower-cased agent type. Approval is looked
   * for before rejection and a pass before a failure, so an output that
   * says both is an approval (a pass).
   */
  function AnalyzeTaskResult(agent: Agent, output: string): (r: Outcome)
    ensures agent == Reviewer ==>
      (r.status == Approve <==> ReviewerApproves(Lower(output)))
      && (r.status == Reject <==> !ReviewerApproves(Lower(output)) && ReviewerRejects(Lower(output)))
      && (r.status == Approve || r.status == Reject || r.status == Pending)
    ensures agent == Tester ==>
      (r.status == Pass <==> TesterPasses(Lower(output)))
      && (r.status == Fail <==> !TesterPasses(Lower(output)) && TesterFails(Lower(output)))
      && (r.status == Pass || r.status == Fail || r.status == Pending)
    ensures agent == Debugger ==> r == Outcome(Some(Develop), Fixed)
    ensures agent != Reviewer && agent != Tester && agent != Debugger ==> r == Outcome(None, Unknown)
    // the phase each status leads to
    ensures r.status == Approve ==> r.nextState == Some(Test)
    ensures r.status == Reject ==> r.nextState == Some(Develop)
    ensures r.status == Pass ==> r.nextState == Some(Completing)
    ensures r.status == Fail ==> r.nextState == Some(Debug)
    ensures r.status == Pending || r.status == Unknown <==> r.nextState.None?
  {
    var o := Lower(output);
    if agent == Reviewer then
      if ReviewerApproves(o) then Outcome(Some(Test), Approve)
      else if ReviewerRejects(o) then Outcome(Some(Develop), Reject)
      else Outcome(None, Pending)
    else if agent == Tester then
      if TesterPasses(o) then Outcome(Some(Completing), Pass)
      else if TesterFails(o) then Outcome(Some(Debug), Fail)
      else Outcome(None, Pending)
    else if agent == Debugger then Outcome(Some(Develop), Fixed)
    else Outcome(None, Unknown)
  }

  /**
   * Whatever an agent reports, the phase it moves the workflow to is one
   * the gate's table allows from that agent's own phase.
   */
  lemma OutcomesFollowTable(agent: Agent, output: string)
    requires AgentPhase(agent).Some?
    requires AnalyzeTaskResult(agent, output).nextState.Some?
    ensures AnalyzeTaskResult(agent, output).nextState.value in Gate.ValidTransitions(AgentPhase(agent).value)
  {
  }

  /**
   * `updateState`: the old phase becomes `previousState`, `stateChanged`
   * is stamped, and `workflowStarted` is stamped the first time a phase
   * other than IDLE is entered. The source dereferences `timestamps`, so
   * a document without it is outside this function (the hook crashes).
   */
  function UpdateState(doc: StateDoc, next: Phase, now: string): (r: StateDoc)
    requires doc.timestamps.Some?
    ensures r.previousState == doc.state && r.state == Some(next)
    ensures r.timestamps.Some? && r.timestamps.value.stateChanged == now
    ensures r.timestamps.value.workflowStarted ==
      if next != Idle && doc.timestamps.value.workflowStarted == "" then now
      else doc.timestamps.value.workflowStarted
    ensures r.timestamps.value.lastActivity == doc.timestamps.value.lastActivity
    ensures r.timestamps.value.completedAt == doc.timestamps.value.completedAt
    ensures r == doc.(previousState := r.previousState, state := r.state, timestamps := r.timestamps)
  {
    var ts := doc.timestamps.value.(stateChanged := now);
    var ts' := if next != Idle && ts.workflowStarted == "" then ts.(workflowStarted := now) else ts;
    doc.(previousState := doc.state, state := Some(next), timestamps := Some(ts'))
  }

  /** `saveState` stamps `lastActivity` before writing. */
  function Stamped(doc: StateDoc, now: string): (r: StateDoc)
    requires doc.timestamps.Some?
    ensures r.timestamps == Some(doc.timestamps.value.(lastActivity := now))
    ensures r == doc.(timestamps := r.timestamps)
  {
    doc.(timestamps := Some(doc.timestamps.value.(lastActivity := now)))
  }

  /** `mainAgentOps ||= zeros`, then one more delegated call. */
  function CountDelegated(doc: StateDoc): (r: StateDoc)
    ensures r.mainAgentOps == Some(doc.mainAgentOps.GetOr(ZeroOps).(delegated := doc.mainAgentOps.GetOr(ZeroOps).delegated + 1))
    ensures r == doc.(mainAgentOps := r.mainAgentOps)
  {
    var ops := doc.mainAgentOps.GetOr(ZeroOps);
    doc.(mainAgentOps := Some(ops.(delegated := ops.delegated + 1)))
  }

  /** `mainAgentOps ||= zeros`, then one more direct edit. */
  function CountDirectEdit(doc: StateDoc): (r: StateDoc)
    ensures r.mainAgentOps == Some(doc.mainAgentOps.GetOr(ZeroOps).(directEdits := doc.mainAgentOps.GetOr(ZeroOps).directEdits + 1))
    ensures r == doc.(mainAgentOps := r.mainAgentOps)
  {
    var ops := doc.mainAgentOps.GetOr(ZeroOps);
    doc.(mainAgentOps := Some(ops.(directEdits := ops.directEdits + 1)))
  }

  /**
   * The document a finished Task of workflow agent `agent` leaves behind,
   * before `saveState` stamps it: the delegation is counted, and the phase
   * moves to the outcome's phase, or to the agent's own phase when the
   * outcome names none and the workflow is not already there.
   */
  function AfterTask(doc: StateDoc, agent: Agent, output: string, now: string): StateDoc
    requires doc.timestamps.Some?
    requires AgentPhase(agent).Some?
  {
    var counted := CountDelegated(doc);
    var result := AnalyzeTaskResult(agent, output);
    if result.nextState.Some? then UpdateState(counted, result.nextState.value, now)
    else if counted.state != AgentPhase(agent) then UpdateState(counted, AgentPhase(agent).value, now)
    else counted
  }

  /** The tool call is one the updater records. */
  predicate Records(h: HookInput) {
    (h.tool == Task && !TaskAgent(h.toolInput).OtherAgent?)
    || (IsEditTool(h.tool) && h.toolInput.filePath != "" && !IsCodeFile(h.toolInput.filePath))
  }

  /**
   * What the state file holds after the hook has seen `input` at time
   * `now`. A call it does not record, and a loaded document without
   * `timestamps` (the source then throws before saving), leave the file
   * as it was.
   */
  function Effect(stored: Option<StateDoc>, input: Option<HookInput>, now: string): Option<StateDoc> {
    if input.None? || !Records(input.value) then stored
    else
      var h := input.value;
      var doc := LoadState(stored, now);
      if doc.timestamps.None? then stored
      else if h.tool == Task then Some(Stamped(AfterTask(doc, TaskAgent(h.toolInput), h.toolOutput, now), now))
      else Some(Stamped(CountDirectEdit(doc), now))
  }

  /** The hook's `main`, step by step over the state file. */
  method Run(file: StateFile, input: Option<HookInput>, now: string)
    modifies file
    ensures file.stored == Effect(old(file.stored), input, now)
  {
    if input.None? {
      return;
    }
    var h := input.value;
    if h.tool == Task {
      RecordTask(file, h, now);
    }
    if IsEditTool(h.tool) {
      RecordEdit(file, h, now);
    }
  }

  /** The Task branch of `main`: a workflow agent's Task is counted and may move the phase. */
  method RecordTask(file: StateFile, h: HookInput, now: string)
    requires h.tool == Task
    modifies file
    ensures file.stored == Effect(old(file.stored), Some(h), now)
  {
    var state := LoadState(file.stored, now);
    var agent := TaskAgent(h.toolInput);
    var target := AgentPhase(agent);
    if target.Some? {
      ghost var doc := state;
      state := CountDelegated(state);
      var result := AnalyzeTaskResult(agent, h.toolOutput);
      if state.timestamps.None? {
        // `updateState` or `saveState` throws on the missing timestamps
        return;
      }
      if result.nextState.Some? {
        state := UpdateState(state, result.nextState.value, now);
      } else if state.state != target {
        state := UpdateState(state, target.value, now);
      }
      assert state == AfterTask(doc, agent, h.toolOutput, now);
      assert Records(h);
      file.Save(Stamped(state, now));
    }
  }

  /** The Edit/Write branch of `main`: a direct edit of a non-code file is counted. */
  method RecordEdit(file: StateFile, h: HookInput, now: string)
    requires IsEditTool(h.tool)
    modifies file
    ensures file.stored == Effect(old(file.stored), Some(h), now)
  {
    var path := h.toolInput.filePath;
    if path != "" && !IsCodeFile(path) {
      var state := LoadState(file.stored, now);
      state := CountDirectEdit(state);
      if state.timestamps.None? {
        return;
      }
      assert Records(h);
      file.Save(Stamped(state, now));
    }
  }

  /** A missing or corrupt file loads as IDLE with no previous phase and all four counters 0. */
  lemma LoadFallback(now: string)
    ensures LoadState(None, now).state == Some(Idle)
    ensures LoadState(None, now).previousState.None?
    ensures LoadState(None, now).mainAgentOps == Some(Ops(0, 0, 0, 0))
  {
  }

  /** Recording a workflow agent's Task adds exactly one delegation and touches no other counter. */
  lemma DelegatedCountsOnce(stored: Option<StateDoc>, h: HookInput, now: string)
    requires h.tool == Task && !TaskAgent(h.toolInput).OtherAgent?
    requires LoadState(stored, now).timestamps.Some?
    ensures Effect(stored, Some(h), now).Some?
    ensures var before := LoadState(stored, now).mainAgentOps.GetOr(ZeroOps);
      Effect(stored, Some(h), now).value.mainAgentOps ==
        Some(before.(delegated := before.delegated + 1))
  {
    var doc := LoadState(stored, now);
    var agent := TaskAgent(h.toolInput);
    assert Records(h);
    assert Effect(stored, Some(h), now) == Some(Stamped(AfterTask(doc, agent, h.toolOutput, now), now));
    AfterTaskCounts(doc, agent, h.toolOutput, now);
  }

  /** Whatever the outcome, a finished Task leaves the counters as `CountDelegated` set them. */
  lemma AfterTaskCounts(doc: StateDoc, agent: Agent, output: string, now: string)
    requires doc.timestamps.Some?
    requires AgentPhase(agent).Some?
    ensures AfterTask(doc, agent, output, now).mainAgentOps == CountDelegated(doc).mainAgentOps
    ensures AfterTask(doc, agent, output, now).timestamps.Some?
  {
  }

  /** A Task for anything but a workflow agent leaves the state file untouched. */
  lemma UnmappedTaskIgnored(stored: Option<StateDoc>, h: HookInput, now: string)
    requires h.tool == Task && TaskAgent(h.toolInput).OtherAgent?
    ensures Effect(stored, Some(h), now) == stored
  {
  }

  /**
   * An agent whose outcome names no phase moves the workflow to its own
   * phase once; repeating the same call changes the phase no further and
   * keeps `previousState`.
   */
  lemma NullOutcomeIdempotent(stored: Option<StateDoc>, h: HookInput, now: string, later: string)
    requires h.tool == Task
    requires !TaskAgent(h.toolInput).OtherAgent?
    requires AnalyzeTaskResult(TaskAgent(h.toolInput), h.toolOutput).nextState.None?
    requires LoadState(stored, now).timestamps.Some?
    ensures Effect(stored, Some(h), now).Some?
    ensures Effect(stored, Some(h), now).value.state == AgentPhase(TaskAgent(h.toolInput))
    ensures var once := Effect(stored, Some(h), now);
      Effect(once, Some(h), later).Some?
      && Effect(once, Some(h), later).value.state == once.value.state
      && Effect(once, Some(h), later).value.previousState == once.value.previousState
  {
  }

  /** Edit/Write of a present, non-code path counts one direct edit. */
  lemma DirectEditCounted(stored: Option<StateDoc>, h: HookInput, now: string)
    requires IsEditTool(h.tool) && h.toolInput.filePath != "" && !IsCodeFile(h.toolInput.filePath)
    requires LoadState(stored, now).timestamps.Some?
    ensures var before := LoadState(stored, now).mainAgentOps.GetOr(ZeroOps);
      Effect(stored, Some(h), now).Some?
      && Effect(stored, Some(h), now).value.mainAgentOps == Some(before.(directEdits := before.directEdits + 1))
  {
    EditEffect(stored, h, now);
  }

  lemma EditEffect(stored: Option<StateDoc>, h: HookInput, now: string)
    requires IsEditTool(h.tool) && h.toolInput.filePath != "" && !IsCodeFile(h.toolInput.filePath)
    requires LoadState(stored, now).timestamps.Some?
    ensures Effect(stored, Some(h), now) == Some(Stamped(CountDirectEdit(LoadState(stored, now)), now))
  {
    assert h.tool != Task && Records(h);
  }

  /** Edit/Write of a code file, or without a path, leaves the state file as it was. */
  lemma CodeEditsNotCounted(stored: Option<StateDoc>, h: HookInput, now: string)
    requires IsEditTool(h.tool) && (h.toolInput.filePath == "" || IsCodeFile(h.toolInput.filePath))
    ensures Effect(stored, Some(h), now) == stored
  {
    assert !Records(h);
  }
}
