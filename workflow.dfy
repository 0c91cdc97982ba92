/**
 * The vocabulary the workflow hooks share: the phases of the
 * develop → review → test cycle, the sub-agent → phase map, and the
 * workflow-state document (`current.json`) that every hook loads, changes
 * and writes back.
 *
 * JSON fields that the hooks only test for truthiness or replace with a
 * default (`x || 'unknown'`) are modelled with "" or `false` standing for
 * "absent"; fields whose absence matters on its own are `Option`s.
 */
module Workflow {
  import opened Text

  /** The workflow phases (the string values of `state.state`). */
  datatype Phase =
    | Idle | Planning | Design | MigrationPlanning | Develop | SkillCreate
    | Review | Test | Validate | Debug | Completing | LoopPaused
    | LoopCompleting | Paused | Blocked | Done
    | Unlisted(name: string)

  function PhaseName(p: Phase): string {
    match p
    case Idle => "IDLE"
    case Planning => "PLANNING"
    case Design => "DESIGN"
    case MigrationPlanning => "MIGRATION_PLANNING"
    case Develop => "DEVELOP"
    case SkillCreate => "SKILL_CREATE"
    case Review => "REVIEW"
    case Test => "TEST"
    case Validate => "VALIDATE"
    case Debug => "DEBUG"
    case Completing => "COMPLETING"
    case LoopPaused => "LOOP_PAUSED"
    case LoopCompleting => "LOOP_COMPLETING"
    case Paused => "PAUSED"
    case Blocked => "BLOCKED"
    case Done => "DONE"
    case Unlisted(name) => name
  }

  /** Reads a `state` string; a name outside the sixteen is kept as it is. */
  function PhaseOf(name: string): Phase {
    if name == "IDLE" then Idle
    else if name == "PLANNING" then Planning
    else if name == "DESIGN" then Design
    else if name == "MIGRATION_PLANNING" then MigrationPlanning
    else if name == "DEVELOP" then Develop
    else if name == "SKILL_CREATE" then SkillCreate
    else if name == "REVIEW" then Review
    else if name == "TEST" then Test
    else if name == "VALIDATE" then Validate
    else if name == "DEBUG" then Debug
    else if name == "COMPLETING" then Completing
    else if name == "LOOP_PAUSED" then LoopPaused
    else if name == "LOOP_COMPLETING" then LoopCompleting
    else if name == "PAUSED" then Paused
    else if name == "BLOCKED" then Blocked
    else if name == "DONE" then Done
    else Unlisted(name)
  }

  /** A phase value as it can arise from a file: `Unlisted` never carries a listed name. */
  predicate WellFormedPhase(p: Phase) {
    p.Unlisted? ==> PhaseOf(p.name) == p
  }

  /** Reading a `state` string loses nothing: the name comes back unchanged. */
  lemma PhaseNameOf(name: string)
    ensures PhaseName(PhaseOf(name)) == name
    ensures WellFormedPhase(PhaseOf(name))
  {
  }

  /** Every well-formed phase reads back as itself from its name. */
  lemma PhaseOfName(p: Phase)
    requires WellFormedPhase(p)
    ensures PhaseOf(PhaseName(p)) == p
  {
    match p
    case Unlisted(_) =>
    case _ => assert !p.Unlisted?;
  }

  /** The sub-agent types the workflow knows, read from a lower-cased `subagent_type`. */
  datatype Agent =
    | Architect | Designer | Migration | Developer | SkillsAgents
    | Reviewer | Tester | Debugger
    | OtherAgent(name: string)

  function AgentName(a: Agent): string {
    match a
    case Architect => "architect"
    case Designer => "designer"
    case Migration => "migration"
    case Developer => "developer"
    case SkillsAgents => "skills-agents"
    case Reviewer => "reviewer"
    case Tester => "tester"
    case Debugger => "debugger"
    case OtherAgent(name) => name
  }

  /** Exact keys only: `workflow:developer` is `OtherAgent`. */
  function AgentOf(s: string): (a: Agent)
    ensures AgentName(a) == s
  {
    if s == "architect" then Architect
    else if s == "designer" then Designer
    else if s == "migration" then Migration
    else if s == "developer" then Developer
    else if s == "skills-agents" then SkillsAgents
    else if s == "reviewer" then Reviewer
    else if s == "tester" then Tester
    else if s == "debugger" then Debugger
    else OtherAgent(s)
  }

  /** `AGENT_STATE_MAP`: the phase each workflow agent works in. */
  function AgentPhase(a: Agent): (r: Option<Phase>)
    ensures r.Some? <==> !a.OtherAgent?
    ensures r.Some? ==> r.value != Idle && !r.value.Unlisted?
  {
    match a
    case Architect => Some(Planning)
    case Designer => Some(Design)
    case Migration => Some(MigrationPlanning)
    case Developer => Some(Develop)
    case SkillsAgents => Some(SkillCreate)
    case Reviewer => Some(Review)
    case Tester => Some(Test)
    case Debugger => Some(Debug)
    case OtherAgent(_) => None
  }

  /** The tools the hooks tell apart, read from `tool_name`. */
  datatype Tool = Task | Edit | Write | Bash | OtherTool(name: string)

  function ToolOf(s: string): (t: Tool)
    ensures t.OtherTool? ==> t.name == s
  {
    if s == "Task" then Task
    else if s == "Edit" then Edit
    else if s == "Write" then Write
    else if s == "Bash" then Bash
    else OtherTool(s)
  }

  /**
   * The `tool_input` fields the hooks read ("" when absent). The
   * violation tracker reads the same fields from `parameters`/`params`.
   */
  datatype ToolInput = ToolInput(
    filePath: string,
    subagentType: string,
    prompt: string,
    description: string,
    command: string,
    task: string)

  /** A parsed hook payload: `tool_name` (read by `ToolOf`), `tool_input` and `tool_output`. */
  datatype HookInput = HookInput(tool: Tool, toolInput: ToolInput, toolOutput: string)

  /** The agent a Task's `subagent_type` names, lower-cased first. */
  function TaskAgent(input: ToolInput): Agent {
    AgentOf(Lower(input.subagentType))
  }

  predicate IsEditTool(t: Tool) {
    t == Edit || t == Write
  }

  /** `mainAgentOps`: how the main agent's work was split. */
  datatype Ops = Ops(directEdits: int, delegated: int, blocked: int, bypassed: int)

  const ZeroOps := Ops(0, 0, 0, 0)

  /** `state.task`. */
  datatype TaskInfo = TaskInfo(
    current: string,
    total: Option<int>,
    completed: Option<int>,
    reviewed: bool,
    reviewedAt: string,
    testFailed: bool,
    failedAt: string,
    debugged: bool,
    debuggedAt: string)

  /** A task object holding only `current`, as `{ current: id }` builds it. */
  function TaskFor(id: string): TaskInfo {
    TaskInfo(id, None, None, false, "", false, "", false, "")
  }

  /** `state.taskSync`: the counters mirrored from `tasks.md`. */
  datatype TaskSyncInfo = TaskSyncInfo(
    lastSyncAt: string,
    tasksFile: string,
    totalTasks: Option<int>,
    completed: Option<int>,
    inProgress: Option<int>)

  const EmptyTaskSync := TaskSyncInfo("", "", None, None, None)

  /** `state.timestamps` (ISO-8601 strings; "" for null or absent). */
  datatype Timestamps = Timestamps(
    workflowStarted: string,
    stateChanged: string,
    lastActivity: string,
    completedAt: string)

  /** `state.completion`, written by the completion enforcer. */
  datatype CompletionInfo = CompletionInfo(
    checklist: Option<map<string, bool>>,
    allRequiredDone: Option<bool>,
    lastCheckedAt: string,
    deliverableOpened: bool,
    deliverableOpenedAt: string)

  const EmptyCompletion := CompletionInfo(None, None, "", false, "")

  /** One accepted bypass request. */
  datatype BypassRecord = BypassRecord(state: string, skippedState: string, reason: string, timestamp: string)

  /** `state.metadata`. */
  datatype Metadata = Metadata(lastBypass: Option<BypassRecord>)

  /** The workflow-state document. */
  datatype StateDoc = StateDoc(
    version: string,
    state: Option<Phase>,
    previousState: Option<Phase>,
    changeId: string,
    task: Option<TaskInfo>,
    taskSync: Option<TaskSyncInfo>,
    timestamps: Option<Timestamps>,
    mainAgentOps: Option<Ops>,
    completion: Option<CompletionInfo>,
    metadata: Option<Metadata>)

  /** `{}`: a document with no fields at all. */
  const EmptyDoc := StateDoc("", None, None, "", None, None, None, None, None, None)

  /**
   * The file `current.json`. `stored` is the parsed document, or `None`
   * when the file is missing or does not parse (every hook treats the
   * two alike).
   */
  class StateFile {
    var stored: Option<StateDoc>

    constructor (initial: Option<StateDoc>)
      ensures stored == initial
    {
      stored := initial;
    }

    /** Writes `doc` as the new file contents. */
    method Save(doc: StateDoc)
      modifies this
      ensures stored == Some(doc)
    {
      stored := Some(doc);
    }
  }

  /**
   * The text files a hook reads and rewrites by path (`tasks.md` and the
   * like); a path that is not a key does not exist.
   */
  class TextFiles {
    var contents: map<string, string>

    constructor (initial: map<string, string>)
      ensures contents == initial
    {
      contents := initial;
    }

    /** Writes `text` as the contents of `path`. */
    method Put(path: string, text: string)
      modifies this
      ensures contents == old(contents)[path := text]
    {
      contents := contents[path := text];
    }
  }
}
