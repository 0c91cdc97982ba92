# The workflow hooks of claude-workflow-config, in Dafny

The repository is a set of short-lived hook scripts that enforce a
develop → review → test discipline on a coding assistant. Each hook reads
one JSON description of a tool call, consults the persisted workflow
state (`~/.claude/workflow-state/current.json`) and then decides, updates or
reports:

- the **pre-invocation gate** (`workflow-gate.js`) allows or blocks a tool
  call: the main agent may not edit code files itself, a Task may not move
  the workflow to a phase the transition table forbids (in particular
  DEVELOP → TEST without a review), and code is frozen while a review or
  test runs;
- the **transition engine** (`state-updater.js`) reads a finished
  sub-agent's output, moves the phase, and counts delegations and the main
  agent's direct edits;
- the **checklist synchroniser** (`task-sync.js`) parses `tasks.md`,
  rewrites checkbox marks as tasks start and pass, and keeps the
  reviewed / test-failed / debugged bookkeeping;
- the **violation tracker** (`workflow-violation-tracker.js`) keeps a
  JSON-lines event log, folds the recent events into counters of unreviewed
  work, and logs `missing_review` warnings;
- the **parallel-opportunity detector** reads the architect's phases and
  reports those whose work could run in parallel;
- the **completion enforcer** runs the closing checklist (commit, archive
  the OpenSpec change, open the UI deliverable) and moves COMPLETING to DONE;
- smaller pieces: the end-of-session **report**, the archived **bypass
  handler**, the MCP **permission-request** classifier, the
  **loop-recovery** prompt, the **status banner**, and the ad-hoc
  change-id generator and state reset that `tests/test-state-updater.js`
  carries.

Each source file is one Dafny module (`gate.dfy`, `state_updater.dfy`,
`task_sync.dfy` with its line grammar in `task_grammar.dfy` and the proofs that its
checkbox rewrites read back as status changes in `task_reparse.dfy`,
`violation_tracker.dfy`, `parallel_detector.dfy` with `parallel_grammar.dfy`,
`completion_enforcer.dfy`, `session_report.dfy`, `bypass_handler.dfy`,
`permission_request.dfy`, `loop_recovery.dfy`, `status_display.dfy`,
`adhoc_workflow.dfy`). Three modules are shared: `Text` (JavaScript's
character classes and the String methods the hooks use), `Paths`
(`path.extname`) and `Workflow` (phases, agents, the state document and the
state file). Decisions and parsers are functions. Where a hook changes
state step by step, the model does too. Persisted files (the state file,
`tasks.md`, the logs, the bypass records) are classes whose fields the
methods reassign, and the loops of the parsers and folds are `while` loops
proved against the functions that specify them.

Each regular expression of the source is written out as a matcher that
makes the JavaScript engine's choices. Greedy parts give back one character
at a time, lazy parts grow one at a time, and the first way to reach the
end of the line wins.

Where the code and its own comments or tests disagree, the model follows
the code:

- the `agent:` / `depends:` value of the parallel detector is the text
  between the first and second colon (`split(':')[1]`), not everything after
  the first colon;
- the state updater's code-file list is a strict subset of the gate's
  (`.kts .m .mm .cc .cxx .hpp .zsh` are missing);
- a prompt of a hundred `a` yields the slug of fifty `a`, not `a` as the
  test's comment claims (`AdHocWorkflow.LongPromptCut`).

## Model

| member | source | states |
|---|---|---|
| Workflow.PhaseNameOf | hooks/workflow/workflow-gate.js:38-55 | reading a `state` string into a phase loses nothing: its name comes back unchanged, and an unlisted name never hides a listed phase |
| Workflow.PhaseOfName | hooks/workflow/workflow-gate.js:38-55 | every phase a file can hold reads back as itself from its name |
| Workflow.AgentOf | hooks/workflow/workflow-gate.js:154-155 | only the exact lower-case keys are workflow agents; the agent's name is the looked-up text |
| Workflow.AgentPhase | hooks/workflow/workflow-gate.js:58-67 | exactly the eight workflow agents have a phase, never IDLE and never an unlisted one |
| Workflow.StateFile.Save | hooks/workflow/workflow-gate.js:247 | writing the state file replaces its whole contents with the given document |
| Paths.StripTrailingSlashes | hooks/workflow/workflow-gate.js:101 | the path without its trailing slashes is a prefix of it, followed only by slashes and not ending in one |
| Paths.AfterLastSlash | hooks/workflow/workflow-gate.js:101 | the last segment ends the text, holds no slash, and follows a slash when shorter than the text |
| Paths.Basename | hooks/workflow/workflow-gate.js:101 | a base name contains no slash |
| Paths.LastDot | hooks/workflow/workflow-gate.js:101 | the last dot is found exactly when there is one, and no dot follows it |
| Paths.SegmentExt | hooks/workflow/workflow-gate.js:101 | an extension starts with its only dot, ends the base name and is strictly shorter than it |
| Paths.Extname | hooks/workflow/workflow-gate.js:101 | `path.extname`: empty or a dot followed by no dot or slash, a proper suffix of the base name |
| Paths.ExtnameEmpty | hooks/workflow/workflow-gate.js:101 | the extension is empty if and only if the base name has no dot, has its only dot in front, or is `..` |
| Gate.LoadConfig | hooks/workflow/workflow-gate.js:86-95 | a missing or unreadable config switches the main-agent limits off; a readable one is used as it is |
| Gate.CheckMainAgentLimit | hooks/workflow/workflow-gate.js:108-144 | with the limits off or in test mode, or inside a sub-agent, every call passes; otherwise a call is refused if and only if it is an Edit/Write of a non-empty code-file path, with the code-edit reason |
| Gate.CheckStateTransition | hooks/workflow/workflow-gate.js:149-207 | non-workflow agents and anything from IDLE pass; DEVELOP to tester is the skip-review refusal; otherwise a Task passes if and only if the table allows the agent's phase; an Edit/Write is refused if and only if it touches a code file during REVIEW or TEST; other tools pass |
| Gate.ValidTransitions | hooks/workflow/workflow-gate.js:38-55 | the definition of `VALID_TRANSITIONS`, each phase with its allowed targets; a phase outside the table has none (its consequences are stated by `FromDevelopOnlyReviewer`, `TerminalPhasesRefuseAgents` and `UnlistedPhaseAdmitsNone`) |
| Gate.CountBlocked | hooks/workflow/workflow-gate.js:244-247 | the refusal counter rises by one on zeroed counters when there were none, and nothing else in the document changes |
| Gate.GateDecision | hooks/workflow/workflow-gate.js:212-271 | unreadable input passes; a refusal by the main-agent limit wins; otherwise the transition check on the stored phase (IDLE when the file, the `state` field or its text is missing) decides |
| Gate.Run | hooks/workflow/workflow-gate.js:212-271 | the verdict is the gate's decision, and the state file changes only when the main-agent limit refuses, to the reloaded document with one more refusal counted |
| Gate.FromDevelopOnlyReviewer | hooks/workflow/workflow-gate.js:43 | from DEVELOP the reviewer is the only workflow agent let through |
| Gate.TerminalPhasesRefuseAgents | hooks/workflow/workflow-gate.js:53-54 | from DONE or BLOCKED every workflow agent is refused |
| Gate.UnlistedPhaseAdmitsNone | hooks/workflow/workflow-gate.js:170-178 | a non-empty phase name outside the table admits no workflow agent |
| Gate.MissingStateIsIdle | hooks/workflow/workflow-gate.js:72-81 | a missing state file, one without `state`, or one with `state: ""` behaves as IDLE, so every Task passes |
| Gate.CurrentPhase | hooks/workflow/workflow-gate.js:150 | a missing `state` and the empty name both read as IDLE, any other name as itself; the phase is never the empty name |
| Gate.PrefixedAgentPasses | hooks/workflow/workflow-gate.js:154-158 | the gate strips no `workflow:` prefix: `workflow:developer` is not a workflow agent and always passes |
| Gate.BlockedCountsOnce | hooks/workflow/workflow-gate.js:245-246 | a refusal raises the refusal counter by exactly one and leaves the other counters and the phase alone |
| StateUpdater.CodePoliciesDiffer | hooks/workflow/state-updater.js:47-52 | every file the updater treats as code the gate treats as code too, but a `.zsh` file is code only for the gate |
| StateUpdater.ExtensionPoliciesDiffer | hooks/workflow/state-updater.js:47-52 | the same for a bare extension: the updater's list is contained in the gate's, and `.zsh` is only in the gate's |
| StateUpdater.ListContained | hooks/workflow/state-updater.js:47-52 | each of the updater's 23 extensions is in the gate's list |
| StateUpdater.InitialState | hooks/workflow/state-updater.js:71-89 | the initial document is IDLE with no previous phase, zero counters, only `lastActivity` stamped and an empty task of 0 of 0 |
| StateUpdater.AnalyzeTaskResult | hooks/workflow/state-updater.js:138-171 | a reviewer approves if and only if the lower-cased output holds an approval word, and rejects if and only if it holds no approval word but a rejection word; a tester likewise passes or fails, approval and pass taking precedence; a debugger always returns to DEVELOP; any other agent gives no phase. Approve leads to TEST, reject to DEVELOP, pass to COMPLETING, fail to DEBUG, and exactly the pending or unknown outcomes name no phase |
| StateUpdater.OutcomesFollowTable | hooks/workflow/state-updater.js:138-171 | every phase an agent's outcome names is one the gate's table allows from that agent's own phase |
| StateUpdater.UpdateState | hooks/workflow/state-updater.js:125-133 | the old phase becomes `previousState`, `stateChanged` is stamped, `workflowStarted` is stamped only on first entering a phase other than IDLE, and the rest of the document is unchanged |
| StateUpdater.AfterTask | hooks/workflow/state-updater.js:221-246 | the definition of the Task branch before the save: the delegation is counted, then the phase moves to the outcome's phase, or to the agent's own phase when the outcome names none and the workflow is elsewhere (proved about it: `AfterTaskCounts`, `NullOutcomeIdempotent`) |
| StateUpdater.Stamped | hooks/workflow/state-updater.js:94-95 | saving stamps `lastActivity` and changes nothing else |
| StateUpdater.CountDelegated | hooks/workflow/state-updater.js:227-228 | one more delegation on zeroed counters when there were none; nothing else changes |
| StateUpdater.CountDirectEdit | hooks/workflow/state-updater.js:254-255 | one more direct edit on zeroed counters when there were none; nothing else changes |
| StateUpdater.Run | hooks/workflow/state-updater.js:196-259 | the state file afterwards is the effect of the payload on it: a workflow agent's Task is counted and moves the phase, a non-code Edit/Write is counted, anything else leaves the file alone |
| StateUpdater.Effect | hooks/workflow/state-updater.js:196-259 | the definition of the whole hook on the state file: a workflow agent's Task is recorded by `AfterTask` and stamped, a non-code Edit/Write counted and stamped, anything else (and a document without `timestamps`) leaves the file alone; `StateUpdater.Run` is proved to do exactly this |
| StateUpdater.RecordTask | hooks/workflow/state-updater.js:221-246 | the Task branch leaves the file as the effect describes |
| StateUpdater.RecordEdit | hooks/workflow/state-updater.js:249-258 | the Edit/Write branch leaves the file as the effect describes |
| StateUpdater.LoadFallback | hooks/workflow/state-updater.js:57-66 | a missing or corrupt file loads as IDLE with no previous phase and all four counters 0 |
| StateUpdater.DelegatedCountsOnce | hooks/workflow/state-updater.js:225-244 | recording a workflow agent's Task adds exactly one delegation and touches no other counter |
| StateUpdater.AfterTaskCounts | hooks/workflow/state-updater.js:227-242 | whatever the outcome, the phase update leaves the counters as the delegation count set them |
| StateUpdater.UnmappedTaskIgnored | hooks/workflow/state-updater.js:222-225 | a Task for anything but a workflow agent leaves the state file untouched |
| StateUpdater.NullOutcomeIdempotent | hooks/workflow/state-updater.js:236-242 | an agent whose outcome names no phase moves the workflow to its own phase; repeating the same call moves it no further and keeps `previousState` |
| StateUpdater.DirectEditCounted | hooks/workflow/state-updater.js:249-257 | an Edit/Write of a present non-code path counts exactly one direct edit |
| StateUpdater.EditEffect | hooks/workflow/state-updater.js:249-257 | such an edit stores the loaded document with the edit counted and `lastActivity` stamped |
| StateUpdater.CodeEditsNotCounted | hooks/workflow/state-updater.js:252-253 | an Edit/Write of a code file, or without a path, leaves the state file as it was |
| SessionReport.ParsedLinesExactly | hooks/workflow/session-report.js:91-101 | a violation is loaded if and only if some non-empty line of the log parses to it; there are never more violations than lines |
| SessionReport.BlankLogNoViolations | hooks/workflow/session-report.js:91-92 | a log holding only white space yields no violations |
| SessionReport.Tagged | hooks/workflow/session-report.js:121-126 | a record yields one entry per file, in order, each with the record's reason |
| SessionReport.TaggedMember | hooks/workflow/session-report.js:121-126 | an entry comes from a record if and only if its file is one of the record's files and its reason is the record's |
| SessionReport.BlockedOfExactly | hooks/workflow/session-report.js:116-128 | an entry is collected if and only if some refused-edit record (`main_agent_code_edit` or `blocked_edit`) names its file with its reason (`改用 Task(developer)` when it has none) |
| SessionReport.FirstIndex | hooks/workflow/session-report.js:131-139 | the first position of a file: no earlier entry has it, and it is past the end exactly when the file is absent |
| SessionReport.UniqueKeepsFiles | hooks/workflow/session-report.js:131-139 | de-duplication keeps every file |
| SessionReport.UniqueDistinct | hooks/workflow/session-report.js:131-139 | after de-duplication no file is listed twice |
| SessionReport.UniqueFirstWins | hooks/workflow/session-report.js:131-139 | each kept entry is the first entry for its file |
| SessionReport.UniqueKeepsOrder | hooks/workflow/session-report.js:131-139 | kept entries stay in the order their files first appear |
| SessionReport.CollectBlocked | hooks/workflow/session-report.js:114-128 | the first loop builds exactly the collected entries |
| SessionReport.PushTagged | hooks/workflow/session-report.js:121-126 | the inner loop appends one entry per file with the record's reason |
| SessionReport.KeepFirstPerFile | hooks/workflow/session-report.js:131-141 | the second loop, with its `seen` set, keeps exactly the first entry for each file |
| SessionReport.FilterBlockedEdits | hooks/workflow/session-report.js:113-142 | the result is the collected entries with each file kept once |
| SessionReport.ShortenPathShape | hooks/workflow/session-report.js:151-156 | lengths in UTF-16 code units: a shortened path has at most 50; a path of at most 50 is kept, a missing one becomes `(未知檔案)`, a longer one is `...` and the end of it that fits in 47 units (46 when a surrogate pair straddles the cut) |
| SessionReport.ShortenPath | hooks/workflow/session-report.js:151-156 | the definition of `shortenPath` with lengths in UTF-16 code units; its shape is proved by `ShortenPathShape` and `ShortenBmpPath` |
| SessionReport.ShortenBmpPath | hooks/workflow/session-report.js:151-156 | a path inside the Basic Multilingual Plane of more than 50 characters becomes `...` and its last 47 characters, 50 in all |
| SessionReport.FloorDiv | hooks/workflow/session-report.js:170 | integer division rounding down, for a divisor of either sign |
| SessionReport.PercentRounds | hooks/workflow/session-report.js:170 | the percentage is the whole number nearest to 100·delegated/total, halves rounding up |
| SessionReport.Percent | hooks/workflow/session-report.js:170 | the definition of `Math.round(100 * d / t)` as rounding half up of the exact quotient; `PercentRounds` and `PercentBounds` are proved about it |
| SessionReport.PercentBounds | hooks/workflow/session-report.js:170 | a share of a positive total is between 0 and 100 per cent |
| SessionReport.DelegationRateShape | hooks/workflow/session-report.js:164-172 | the rate is `0/0 (N/A)` if and only if there was no work; otherwise it starts with the delegated count over the total |
| SessionReport.RateOverTotal | hooks/workflow/session-report.js:170-171 | with work, the rate begins with delegated over total and is never the no-work text |
| SessionReport.BuildReportLines | hooks/workflow/session-report.js:197-228 | the pushes build exactly the report's lines |
| SessionReport.ReportLines | hooks/workflow/session-report.js:187-230 | the definition of the report's lines in order: title, separator, direct edits, delegations, the blocked section, the bypass line when one was used, the rate, separator; `BuildReportLines` builds exactly these and `ReportFrame`, `BypassLineIff` state their shape |
| SessionReport.BuildBlockedLines | hooks/workflow/session-report.js:204-220 | the blocked section's pushes build exactly that section |
| SessionReport.PushEntries | hooks/workflow/session-report.js:207-212 | the `for` loop keeps the lines already pushed and appends one line per shown entry, in order, each naming the entry's shortened path and reason |
| SessionReport.SectionOf | hooks/workflow/session-report.js:203-217 | the count line, the shown entries and the "more" line when there are more than five make up the blocked section |
| SessionReport.BlockedLinesCount | hooks/workflow/session-report.js:204-220 | with nothing blocked the section is the single zero line; otherwise the count line, at most five entries in order, and one "more" line exactly when there are more than five |
| SessionReport.BypassLineIff | hooks/workflow/session-report.js:222-224 | the report has a bypass line if and only if a bypass was used |
| SessionReport.BlockedLinesPlain | hooks/workflow/session-report.js:204-220 | no line of the blocked section can be taken for the bypass line |
| SessionReport.ReportFrame | hooks/workflow/session-report.js:197-228 | the report has at least seven lines, the separator second and last, and the rate line just before the last |
| SessionReport.Report | hooks/workflow/session-report.js:239-255 | the hook prints the rendered report, and prints nothing if and only if the state file is missing, unreadable or has no counters |
| SessionReport.ReportOf | hooks/workflow/session-report.js:239-255 | the definition of the hook's output: nothing without a state with counters, otherwise the report over the de-duplicated refused edits of the log; `SessionReport.Report` is proved to print exactly this |
| CompletionEnforcer.AnyKeyword | hooks/workflow/completion-enforcer.js:141 | true if and only if some keyword of the list occurs in the content |
| CompletionEnforcer.ColonAfter | hooks/workflow/completion-enforcer.js:126 | after `file`, an optional `s` and a colon are taken; the text resumes just after that colon |
| CompletionEnforcer.PathRun | hooks/workflow/completion-enforcer.js:126 | the greedy run of characters other than whitespace and `\|` stays inside the text |
| CompletionEnforcer.LastHtml | hooks/workflow/completion-enforcer.js:126 | backtracking from the longest run, the chosen length is at least one and is followed by `.html` in either case |
| CompletionEnforcer.SlashAfter | hooks/workflow/completion-enforcer.js:126 | the group opens with `/` or with `~/` |
| CompletionEnforcer.PathSpan | hooks/workflow/completion-enforcer.js:126 | a match tried at one position captures at least seven characters that start with `/` or `~/` and end in `.html` |
| CompletionEnforcer.PathAt | hooks/workflow/completion-enforcer.js:144 | a match found at one position is a piece of the text, starts with `/` or `~/` and ends in `.html` |
| CompletionEnforcer.FirstPath | hooks/workflow/completion-enforcer.js:144 | the leftmost match from a position on, with the same guarantees about the captured path |
| CompletionEnforcer.NoFileWordNoPath | hooks/workflow/completion-enforcer.js:126 | a text without the word `file` in any letter case names no deliverable path |
| CompletionEnforcer.ReplaceFirst | hooks/workflow/completion-enforcer.js:145 | a text without the character is left unchanged |
| CompletionEnforcer.DetectUI | hooks/workflow/completion-enforcer.js:109-151 | a detected UI deliverable always carries its path |
| CompletionEnforcer.UiNeedsBoth | hooks/workflow/completion-enforcer.js:109-151 | a UI deliverable is detected if and only if there is a change id and the change's proposal and tasks hold both a UI keyword and a `files: ….html` path |
| CompletionEnforcer.LowerHtmlPathIsKeyword | hooks/workflow/completion-enforcer.js:119-148 | a captured path ending in lower-case `.html` is itself a UI keyword, so such a path alone makes a deliverable |
| CompletionEnforcer.HtmlTextIsKeyword | hooks/workflow/completion-enforcer.js:119-141 | content holding any text that ends in `.html` holds a UI keyword |
| CompletionEnforcer.ChecklistContents | hooks/workflow/completion-enforcer.js:28-67 | the list is the commit and the archive (required), the clean-up (optional, no detector), then the deliverable (required, with its path) exactly when one is detected; no id appears twice |
| CompletionEnforcer.Checklist | hooks/workflow/completion-enforcer.js:28-67 | the definition of `getCompletionChecklist`; its contents are stated by `ChecklistContents` and `MissingChangeId` |
| CompletionEnforcer.MissingChangeId | hooks/workflow/completion-enforcer.js:93-113 | without a change id the archive counts as done, no deliverable is detected and the list has three items |
| CompletionEnforcer.ResultsOfItems | hooks/workflow/completion-enforcer.js:206-218 | the results hold exactly the items' ids, each mapped to its item's detector |
| CompletionEnforcer.RequiredDoneSnoc | hooks/workflow/completion-enforcer.js:206-218 | one more item keeps every required item done if and only if that item is optional or done; its result is added under its id |
| CompletionEnforcer.CheckCompletionStatus | hooks/workflow/completion-enforcer.js:201-221 | returns the checklist, each item's result and a flag that is true if and only if every required item's detector says done |
| CompletionEnforcer.EvaluateItems | hooks/workflow/completion-enforcer.js:206-218 | the loop records every item's result (`true` for an item without a detector) and clears the flag exactly when some required item is not done |
| CompletionEnforcer.RequiredDoneRule | hooks/workflow/completion-enforcer.js:73-165 | every required item is done if and only if the tree is clean, the change is archived, and a detected deliverable is recorded as opened |
| CompletionEnforcer.CleanupAlwaysDone | hooks/workflow/completion-enforcer.js:214-217 | the clean-up is always recorded as done by the check |
| CompletionEnforcer.Opened | hooks/workflow/completion-enforcer.js:318-320 | the state records the deliverable as opened, keeps its phase, previous phase and change id, and keeps an earlier completion flag |
| CompletionEnforcer.FindItem | hooks/workflow/completion-enforcer.js:305 | an item found is in the list and has the id; none is found only when no item has the id |
| CompletionEnforcer.CommitGrows | hooks/workflow/completion-enforcer.js:242-274 | the commit step undoes nothing, adds only action ids, and lists the commit only when it is then recorded done |
| CompletionEnforcer.ArchiveGrows | hooks/workflow/completion-enforcer.js:276-301 | the archive step undoes nothing, adds only action ids, and lists the archive only when it is then recorded done |
| CompletionEnforcer.OpenGrows | hooks/workflow/completion-enforcer.js:303-328 | the open step undoes nothing, adds only action ids, and lists the opening only when it is then recorded done |
| CompletionEnforcer.CleanupGrows | hooks/workflow/completion-enforcer.js:330-344 | the clean-up undoes nothing, adds only action ids, and is never listed as executed |
| CompletionEnforcer.AutoProgress | hooks/workflow/completion-enforcer.js:237-347 | the actions only turn results to done and add only action ids; every listed action is recorded done; the listed actions appear once each, in the order commit, archive, open |
| CompletionEnforcer.AutoExecuted | hooks/workflow/completion-enforcer.js:237-347 | the definition of the actions in order (commit, archive, open, clean-up), each run only when its item is not yet done; `AutoProgress`, `ArchiveAfterCommit` and `AutoTouchesOnlyDeliverable` are proved about it |
| CompletionEnforcer.ArchiveAfterCommit | hooks/workflow/completion-enforcer.js:276-297 | the change directory is moved only after the commit is recorded done and only for a named change other than `unknown` that exists; it then leaves the changes, and otherwise the changes stay as they were |
| CompletionEnforcer.AfterArchive | hooks/workflow/completion-enforcer.js:303-344 | opening and clean-up leave the world and the commit and archive records alone |
| CompletionEnforcer.AutoTouchesOnlyDeliverable | hooks/workflow/completion-enforcer.js:237-347 | the only change the actions make to the state is the record that the deliverable was opened, and then the opening is listed |
| CompletionEnforcer.RecomputedRule | hooks/workflow/completion-enforcer.js:443-445 | recomputing over the results' entries is true if and only if every required checklist item is recorded done |
| CompletionEnforcer.WithCompletion | hooks/workflow/completion-enforcer.js:226-232 | the record holds the results, the flag and the time of the check; the phase, previous phase and change id are kept |
| CompletionEnforcer.Finished | hooks/workflow/completion-enforcer.js:459-466 | the phase becomes DONE with the old phase as previous, `completedAt` is stamped, the completion record and change id are kept |
| CompletionEnforcer.Enforce | hooks/workflow/completion-enforcer.js:385-499 | the state file, the world and the executed actions after the hook are those of the step-by-step definition of the hook |
| CompletionEnforcer.Enforced | hooks/workflow/completion-enforcer.js:385-499 | the definition of the whole hook over the state file, the world and the actions run; `Enforce` is proved to do exactly this, and `DoneRule`, `TriggerRule` and `OnlyTaskOrBash` state its consequences |
| CompletionEnforcer.OnlyTaskOrBash | hooks/workflow/completion-enforcer.js:401-414 | unreadable input, a tool other than Task or Bash, or no state file: nothing changes and nothing runs |
| CompletionEnforcer.TriggerRule | hooks/workflow/completion-enforcer.js:416-433 | outside COMPLETING, and without an output reading as a pass with every task complete, no action runs, the world is unchanged, and after a Task the state file too |
| CompletionEnforcer.CompletionPassSteps | hooks/workflow/completion-enforcer.js:433-466 | the checking pass saves a state that keeps the phase, or goes from COMPLETING to DONE with every required item recorded done |
| CompletionEnforcer.CompletionPass | hooks/workflow/completion-enforcer.js:433-466 | the definition of the checking pass: the status check, the actions when something required is missing, the re-check, the record, and DONE from COMPLETING when every required item is done; `CompletionPassSteps` is proved about it |
| CompletionEnforcer.BashPassKeeps | hooks/workflow/completion-enforcer.js:469-498 | the Bash pass keeps the phase, and outside COMPLETING keeps the previous phase and the completion flag |
| CompletionEnforcer.DoneRule | hooks/workflow/completion-enforcer.js:385-499 | the hook changes the phase only from COMPLETING to DONE, and then the previous phase is COMPLETING and the recorded flag says every required item is done |
| CompletionEnforcer.CompletingAndDone | hooks/workflow/completion-enforcer.js:433-466 | in COMPLETING with a clean tree, the change archived and any deliverable opened, the hook runs nothing, leaves the world alone and moves to DONE |
| TaskGrammar.KeywordAtReads | hooks/workflow/task-sync.js:82 | a keyword found at a position lies inside the line and reads `sequential` or `parallel` in any letter case |
| TaskGrammar.KeywordAtOf | hooks/workflow/task-sync.js:82 | `sequential` or `parallel` written at a position is found there, with its own length |
| TaskGrammar.MatchHeader | hooks/workflow/task-sync.js:82 | a group header starts with `##` followed by whitespace |
| TaskGrammar.ValueToEnd | hooks/workflow/task-sync.js:90 | a lazily captured value runs to the end of the line, is non-empty and holds no line terminator |
| TaskGrammar.IdEnd | hooks/workflow/task-sync.js:90 | the id `\d+(?:\.\d+)?` ends inside the line, at or after its start |
| TaskGrammar.IdStart | hooks/workflow/task-sync.js:90 | the id of a task item starts after `-`, whitespace, the bracketed mark and more whitespace |
| TaskGrammar.MatchTask | hooks/workflow/task-sync.js:90 | a task item has the `- [m] ` prefix, a mark among ` xX~>` read from the line, and an id of digits with at most one `.` |
| TaskGrammar.IdShape | hooks/workflow/task-sync.js:90 | the captured id has the id shape |
| TaskGrammar.HeaderShapeMatches | hooks/workflow/task-sync.js:82 | a line `## <digits>. <title>` followed by a tail the pattern's optional keyword group accepts matches, capturing the title and the keyword |
| TaskGrammar.SectionHeaderLine | hooks/workflow/task-sync.js:82 | `## <n>. <title> (<keyword>)` with a one-word title matches, capturing the title and the keyword |
| TaskGrammar.TaskShapeMatches | hooks/workflow/task-sync.js:90 | a line `- [m] <id> <title>` without a `|` matches, capturing the mark, the id and the title, with no files or output |
| TaskGrammar.TaskItemLine | hooks/workflow/task-sync.js:90 | `- [m] <major>.<minor> <title>` with a sync mark, digit runs and a title starting with a non-space and holding no `|` matches, capturing the mark, the id `<major>.<minor>` and the title |
| TaskSync.StatusOfMark | hooks/workflow/task-sync.js:92-100 | `x`/`X` is completed, `~`/`>` is in progress and a space is pending, each if and only if |
| TaskSync.ModeOf | hooks/workflow/task-sync.js:85 | the mode is parallel if and only if the keyword reads `parallel` in any case; otherwise sequential |
| TaskSync.TrimAll | hooks/workflow/task-sync.js:104 | one trimmed piece per piece, in order |
| TaskSync.MakeTask | hooks/workflow/task-sync.js:102-115 | the record has the line's id, trimmed title and mark's status, the current group and mode, the trimmed comma-separated files (none without a files clause) and an output only when its trimmed text is non-empty |
| TaskSync.ScanAppend | hooks/workflow/task-sync.js:80-117 | reading two blocks of lines is reading the first, then the second from where the first left off |
| TaskSync.ReadLine | hooks/workflow/task-sync.js:81-116 | one turn of the loop: a header moves the group and mode, a task line adds its record, other lines do nothing |
| TaskSync.ParseTasksMd | hooks/workflow/task-sync.js:73-120 | the loop returns the records `ParseTasks` reads from the lines; `SampleParse` computes those records for the integration test's checklist |
| TaskSync.ParseStep | hooks/workflow/task-sync.js:80-117 | one turn keeps the loop's invariant: the records so far plus those of the rest are the file's records |
| TaskSync.ParseAppend | hooks/workflow/task-sync.js:80-117 | parsing two blocks of lines is parsing the first, then the second with the group and mode the first left |
| TaskSync.KeepsCursor | hooks/workflow/task-sync.js:77-115 | without a header, every record keeps the group and mode in force |
| TaskSync.HeaderLine | hooks/workflow/task-sync.js:82-87 | a header line yields no record and moves to the header's trimmed title and mode |
| TaskSync.NearestHeader | hooks/workflow/task-sync.js:77-115 | every task carries the trimmed title and mode of the nearest header above it |
| TaskSync.OtherMarkIgnored | hooks/workflow/task-sync.js:90-91 | a task-like line with another mark yields no record |
| TaskSync.CountStatus | hooks/workflow/task-sync.js:307-308 | a count is at most the number of records |
| TaskSync.StatusesPartition | hooks/workflow/task-sync.js:303-309 | the pending, in-progress and completed counts add up to the number of records |
| TaskSync.HeaderLineStep | hooks/workflow/task-sync.js:82-87 | a header line `## <n>. <title> (<keyword>)` yields no record and moves to group `title`, parallel exactly for `parallel` |
| TaskSync.TaskLineStep | hooks/workflow/task-sync.js:90-115 | a task line `- [m] <major>.<minor> <title>` yields one record with that id, title and the mark's status, in the group and mode in force, with no files and no output |
| TaskSync.ParseCons | hooks/workflow/task-sync.js:80-117 | reading a line in front of more lines is that line's step, then the rest read from the cursor it leaves |
| TaskSync.SampleSplits | tests/workflow/integration-test.js:23-32 | the test's checklist text splits at `\n` into its eleven lines, the last one empty |
| TaskSync.SampleParse | tests/workflow/integration-test.js:23-104 | the checklist reads into exactly five records: 1.1 pending, 1.2 in progress and 1.3 completed in the sequential group `Setup`, 2.1 pending and 2.2 completed in the parallel group `Features`; two are completed, one in progress, two pending |
| TaskSync.SampleCounts | tests/workflow/integration-test.js:97-104 | the expected records count two completed, one in progress and two pending |
| TaskSync.ConvertToTodoWrite | hooks/workflow/task-sync.js:125-135 | one TodoWrite item per task, in order |
| TaskSync.TodoNamesTask | hooks/workflow/task-sync.js:126-134 | an item reads `Task <id>: …`, keeps the task's status and its active form names the stage |
| TaskSync.FirstMarkLine | hooks/workflow/task-sync.js:149-152 | the leftmost line start where `-\s+[m]\s+ID\s+` matches, and none before it; none at all when it reports none |
| TaskSync.SetMark | hooks/workflow/task-sync.js:155 | only the mark of the first matching line changes, to the new mark; without a match the text is unchanged |
| TaskSync.MarkCompleted | hooks/workflow/task-sync.js:140-174 | the rewrite reports a change exactly when the text changed, which is exactly when a line of the task exists and its mark was not already `x` |
| TaskSync.MarkInProgress | hooks/workflow/task-sync.js:179-207 | only a space mark of the task's first line becomes `~`; a change is reported exactly when there is such a line |
| TaskSync.TaskIdChars | hooks/workflow/task-sync.js:150 | a task id is digits with at most one `.`, so the pasted pattern reads it literally |
| TaskSync.OneIdPerLine | hooks/workflow/task-sync.js:149-152 | the pattern for one id never matches the line of another, e.g. `1.1` against `1.10` |
| TaskSync.PromptTaskIdFrom | hooks/workflow/task-sync.js:352 | a task id found in a prompt has the id shape |
| TaskSync.PromptTaskId | hooks/workflow/task-sync.js:352 | a task id found in a prompt has the id shape |
| TaskSync.TesterTaskId | hooks/workflow/task-sync.js:396-397 | the prompt's task id when there is one, else the current task |
| TaskSync.CompleteInFile | hooks/workflow/task-sync.js:140-174 | a change is reported only for an existing file and a plain id, and it is the completion rewrite |
| TaskSync.AfterPass | hooks/workflow/task-sync.js:431-433 | completed rises by one (from 0 when missing); in-progress falls by one and never below zero; the file, total and time of sync are as stated |
| TaskSync.OnlyTaskCalls | hooks/workflow/task-sync.js:275-277 | a call other than Task writes nothing and prints no TodoWrite items |
| TaskSync.ArchitectCounts | hooks/workflow/task-sync.js:283-318 | the architect saves counts of the file read: its name, the number of records, completed plus in progress at most that, and as many TodoWrite items |
| TaskSync.DebuggerClearsFailure | hooks/workflow/task-sync.js:321-337 | a debugger clears a pending failure, records itself and keeps the current task and its review; without a failure nothing changes |
| TaskSync.DeveloperBlockedWhileFailing | hooks/workflow/task-sync.js:340-348 | with a test failure pending, the developer branch stops the run and writes nothing |
| TaskSync.DeveloperMarksPendingTask | hooks/workflow/task-sync.js:340-368 | a developer changes the tasks file only by turning the space mark of the prompt's task into `~`; the task becomes current and in-progress rises by one |
| TaskSync.DeveloperStartEffect | hooks/workflow/task-sync.js:354-366 | what an allowed start writes to the tasks file and the state |
| TaskSync.DeveloperStep | hooks/workflow/task-sync.js:340-368 | the definition of the developer branch: stopped by a pending test failure, otherwise the prompt's task goes in progress in the tasks file and the state; `TaskSync.Developer` is proved to do exactly this |
| TaskSync.ReviewerRecordsApproval | hooks/workflow/task-sync.js:371-386 | an approval of the current task is recorded and saved; without `taskSync` the run stops before saving; no tasks file changes |
| TaskSync.ReviewerStep | hooks/workflow/task-sync.js:371-386 | the definition of the reviewer branch: an approval is recorded and saved, and without `taskSync` the run stops unsaved; `TaskSync.Reviewer` is proved to do exactly this |
| TaskSync.TesterFailureFirst | hooks/workflow/task-sync.js:398-413 | a reported failure is recorded and saved first, whatever else the output says, and ends the run without touching the tasks file |
| TaskSync.PassNeedsReview | hooks/workflow/task-sync.js:415-426 | a pass on a task not reviewed changes neither the files nor the state |
| TaskSync.PassCompletes | hooks/workflow/task-sync.js:415-439 | the tasks file changes under a tester only for a reviewed task: its line gets `x`, the counts move and the task is dropped |
| TaskSync.TesterStep | hooks/workflow/task-sync.js:389-440 | the definition of the tester branch: a failure is recorded first; a pass on a reviewed task marks it completed and moves the counts; `TaskSync.Tester` is proved to do exactly this |
| TaskSync.FailureNeedsDebugger | hooks/workflow/task-sync.js:321-413 | after a failed test the developer is blocked until a debugger has run |
| TaskSync.Architect | hooks/workflow/task-sync.js:283-318 | the architect branch leaves the state file, the tasks files and the printed items as the step function says |
| TaskSync.Debugger | hooks/workflow/task-sync.js:321-337 | the debugger branch does what the step function says |
| TaskSync.Developer | hooks/workflow/task-sync.js:340-368 | the developer branch does what the step function says, and stops exactly when it does |
| TaskSync.Reviewer | hooks/workflow/task-sync.js:371-386 | the reviewer branch does what the step function says, and stops exactly when it does |
| TaskSync.Tester | hooks/workflow/task-sync.js:389-440 | the tester branch does what the step function says |
| TaskSync.Run | hooks/workflow/task-sync.js:252-441 | the state file, the tasks files and the printed items after the hook are those of the branches run in order, stopped by the first early return |
| TaskSync.Sync | hooks/workflow/task-sync.js:252-441 | the definition of the whole hook: the branches run in order and the first early return ends the run; `TaskSync.Run` is proved to do exactly this |
| Workflow.TextFiles.Put | hooks/workflow/task-sync.js:159-161 | the file's contents become the text; no other file changes |
| ViolationTracker.ComputeCurrentState | hooks/core/workflow-violation-tracker.js:176-223 | the loop returns the fold of the events, with each file listed once |
| ViolationTracker.CurrentState | hooks/core/workflow-violation-tracker.js:176-223 | the definition of the counters: the fold of the events with the file list de-duplicated; `ComputeCurrentState` returns it and `PendingSinceLastClear`, `CounterBounds` state what it means |
| ViolationTracker.CountKind | hooks/core/workflow-violation-tracker.js:176-223 | a count of events of one kind is at most the number of events |
| ViolationTracker.FoldSnoc | hooks/core/workflow-violation-tracker.js:182-215 | one more event is one more turn of the switch |
| ViolationTracker.EventEffects | hooks/core/workflow-violation-tracker.js:183-214 | an edit adds one pending edit and its file; a developer adds one pending developer; a reviewer clears the edits, takes one developer (not below zero) and adds one reviewer; a tester clears the edits and takes one reviewer (not below zero); other types change nothing |
| ViolationTracker.PendingSinceLastClear | hooks/core/workflow-violation-tracker.js:176-223 | the pending edits are exactly the edit events since the last reviewer or tester completion, and the files are theirs in order |
| ViolationTracker.CounterBounds | hooks/core/workflow-violation-tracker.js:191-209 | pending developers and reviewers lie between the unmatched completions and all completions of their kind |
| ViolationTracker.EditFileOrder | hooks/core/workflow-violation-tracker.js:186-221 | the returned file list gains a new file at its end and ignores a repeat |
| ViolationTracker.FullCycle | hooks/core/workflow-violation-tracker.js:182-215 | an edit, developer, reviewer and tester after any history leaves no pending edits and the developer and reviewer counts as they were |
| ViolationTracker.MissingTester | hooks/core/workflow-violation-tracker.js:182-215 | without the tester the cycle leaves one more reviewer pending |
| ViolationTracker.CycleTraces | hooks/core/workflow-violation-tracker.js:182-215 | from an empty log a full cycle leaves all counters at zero and a cycle without the tester leaves one reviewer pending |
| ViolationTracker.LogLines | hooks/core/workflow-violation-tracker.js:147 | the lines kept hold no line break and are not blank |
| ViolationTracker.NonBlankFrom | hooks/core/workflow-violation-tracker.js:147 | the kept lines are non-blank and hold no character the input lines lack |
| ViolationTracker.NonBlankAppend | hooks/core/workflow-violation-tracker.js:147 | filtering two blocks of lines is filtering each |
| ViolationTracker.NonBlankKeeps | hooks/core/workflow-violation-tracker.js:147 | non-blank lines are all kept |
| ViolationTracker.ReadRecentEvents | hooks/core/workflow-violation-tracker.js:140-171 | the loop returns the events of the parsable lines younger than an hour, in order |
| ViolationTracker.RecentAppend | hooks/core/workflow-violation-tracker.js:152-162 | the recent events of two stretches of log are those of each, in order |
| ViolationTracker.RecentExactly | hooks/core/workflow-violation-tracker.js:152-162 | an event is read back if and only if some line decodes to it and it is younger than an hour |
| ViolationTracker.LinesOfJoin | hooks/core/workflow-violation-tracker.js:119-124 | newline-terminated non-blank lines read back as themselves |
| ViolationTracker.TruncationKeepsNewest | hooks/core/workflow-violation-tracker.js:107-135 | a truncated log keeps the newest of its non-blank lines; when it changes, exactly 500 are kept and it ends with a newline |
| ViolationTracker.TruncateIdempotent | hooks/core/workflow-violation-tracker.js:107-135 | truncating twice is truncating once |
| ViolationTracker.TruncationDropsOldest | hooks/core/workflow-violation-tracker.js:107-171 | truncation only forgets the oldest recent events |
| ViolationTracker.LinesAfterAppend | hooks/core/workflow-violation-tracker.js:62-77 | a non-blank line appended to a newline-terminated log is its last non-blank line |
| ViolationTracker.AppendedEventIsNewest | hooks/core/workflow-violation-tracker.js:62-77 | an appended recent event is read back as the newest recent event, truncation or not |
| ViolationTracker.MissingReview | hooks/core/workflow-violation-tracker.js:243-249 | the warning carries the pending edit count and the edited files |
| ViolationTracker.EditEvent | hooks/core/workflow-violation-tracker.js:230-235 | an edit event with the given path, or `unknown` when there is none, stamped now |
| ViolationTracker.TaskEventKind | hooks/core/workflow-violation-tracker.js:303-313 | only the exact names developer, reviewer and tester are recorded, each as its own completion |
| ViolationTracker.EventLog.TruncateIfNeeded | hooks/core/workflow-violation-tracker.js:107-135 | the log becomes its truncation |
| ViolationTracker.Truncated | hooks/core/workflow-violation-tracker.js:107-135 | the definition of the truncated log: over 1 MiB with more than 500 non-blank lines, the newest 500 followed by a newline; `TruncationKeepsNewest` and `TruncateIdempotent` are proved about it |
| ViolationTracker.EventLog.AppendEvent | hooks/core/workflow-violation-tracker.js:62-83 | the event, stamped now, is appended as one line and the log truncated |
| ViolationTracker.ViolationLog.Append | hooks/core/workflow-violation-tracker.js:88-102 | the record is appended to the violations |
| ViolationTracker.HandleEdit | hooks/core/workflow-violation-tracker.js:228-252 | the edit event is appended; a warning is appended exactly when more than one edit of what the log now holds awaits review |
| ViolationTracker.HandleTask | hooks/core/workflow-violation-tracker.js:303-313 | a developer, reviewer or tester completion is appended; any other Task leaves the log alone |
| ViolationTracker.Track | hooks/core/workflow-violation-tracker.js:318-412 | unreadable input and other tools leave both logs alone; Edit and Write go to the edit handler; Task to the task handler, which appends no violation |
| ViolationTracker.RecordedEditCounted | hooks/core/workflow-violation-tracker.js:228-252 | the edit just recorded is always counted, so a warning is appended if and only if an earlier edit still awaits review |
| BypassHandler.RecordLog.Save | hooks/_archived/workflow-20260120/bypass-handler.js:113-122 | the records file holds the given records |
| BypassHandler.LoadState | hooks/_archived/workflow-20260120/bypass-handler.js:53-73 | a state loads if and only if the file exists and has a non-empty `state` string, and then it is the file's document |
| BypassHandler.InitOps | hooks/_archived/workflow-20260120/bypass-handler.js:133-141 | the counters and the metadata are present afterwards |
| BypassHandler.InitOpsFillsMissing | hooks/_archived/workflow-20260120/bypass-handler.js:133-141 | only missing counters (as zero) and missing metadata (as empty) are filled in, nothing else changes, and a second call changes nothing |
| BypassHandler.WithBypass | hooks/_archived/workflow-20260120/bypass-handler.js:202-204 | the bypass count is one higher and the record is kept as the last bypass; phase and change id are kept |
| BypassHandler.RequestBypass | hooks/_archived/workflow-20260120/bypass-handler.js:148-222 | the reply and both files after the request are those of the request's definition |
| BypassHandler.Request | hooks/_archived/workflow-20260120/bypass-handler.js:148-222 | the definition of `requestBypass` over the two files and the write results; `RequestBypass` is proved to do exactly this and `GrantedEffect`, `LimitHolds`, `RefusalsWriteNothing` state its consequences |
| BypassHandler.InvalidReasonRefused | hooks/_archived/workflow-20260120/bypass-handler.js:150-160 | a missing, empty or over-500-unit reason is refused and nothing is written |
| BypassHandler.ClosingPhasesRefused | hooks/_archived/workflow-20260120/bypass-handler.js:171-176 | COMPLETING and DONE cannot be skipped, and both files are left alone |
| BypassHandler.LimitHolds | hooks/_archived/workflow-20260120/bypass-handler.js:180-187 | from three bypasses on a request is refused and the state is left alone |
| BypassHandler.GrantedEffect | hooks/_archived/workflow-20260120/bypass-handler.js:189-221 | an accepted bypass needs a count below three, raises it by one, appends one record skipping the current phase, keeps it as the last bypass and reports the remaining count |
| BypassHandler.RefusalsWriteNothing | hooks/_archived/workflow-20260120/bypass-handler.js:148-212 | a refusal never changes the state file; only a failed state write comes after the records were written |
| BypassHandler.Status | hooks/_archived/workflow-20260120/bypass-handler.js:228-246 | a status exists if and only if the state loads; used and remaining add up to three |
| BypassHandler.Cleared | hooks/_archived/workflow-20260120/bypass-handler.js:262-266 | the count is zero and no last bypass is kept; the phase is kept |
| BypassHandler.ResetBypassRecords | hooks/_archived/workflow-20260120/bypass-handler.js:252-275 | the reply and both files after the reset are those of the reset's definition |
| BypassHandler.Reset | hooks/_archived/workflow-20260120/bypass-handler.js:252-275 | the definition of `resetBypassRecords` over the two files and the write results; `ResetBypassRecords` is proved to do exactly this and `ResetEffect`, `ResetRestoresBudget` state its consequences |
| BypassHandler.ResetEffect | hooks/_archived/workflow-20260120/bypass-handler.js:252-275 | a reset empties the records; a loadable state then counts no bypass and keeps no last bypass; a second reset changes nothing more |
| BypassHandler.ResetRestoresBudget | hooks/_archived/workflow-20260120/bypass-handler.js:252-275 | after a reset whose writes succeed, three bypasses remain |
| PermissionRequest.Settings.constructor | hooks/core/permission-request.js:76-83 | the settings start enabled, with auto-approval on, logging off and the built-in patterns |
| PermissionRequest.Settings.Load | hooks/core/permission-request.js:89-135 | the settings become those loaded from the section: flags default to on, on and off; custom patterns are appended to the built-in ones |
| PermissionRequest.CustomPatternsAppended | hooks/core/permission-request.js:113-120 | the built-in patterns are always kept as a prefix; custom ones follow them; without custom ones the built-in lists are unchanged |
| PermissionRequest.LineTerminatorBlocks | hooks/core/permission-request.js:225 | a line terminator inside the server name rules out every prefix reaching past it |
| PermissionRequest.LazyEnd | hooks/core/permission-request.js:225 | the lazy server name grows until the first `__` that ends a prefix, and none shorter exists |
| PermissionRequest.PrefixEnd | hooks/core/permission-request.js:225 | the end found is the shortest `mcp__<server>__` prefix; when none is found there is no such prefix |
| PermissionRequest.ExtractToolName | hooks/core/permission-request.js:217-229 | the name after the shortest `mcp__<server>__` prefix, case kept; a name without the prefix is returned unchanged; the result always ends the name |
| PermissionRequest.ShortestEndsAtFirstDoubleUnderscore | hooks/core/permission-request.js:220-226 | the shortest prefix ends at the first `__` after the server's first character |
| PermissionRequest.ServerWithUnderscore | hooks/core/permission-request.js:220-226 | `mcp__my_srv__get_data` becomes `get_data` |
| PermissionRequest.LazyStopsEarly | hooks/core/permission-request.js:224-226 | the lazy match stops at the earliest `__`, even inside a run of three underscores |
| PermissionRequest.NoPrefixKept | hooks/core/permission-request.js:225-226 | an empty server name is no prefix, and a name without the prefix is kept |
| PermissionRequest.WithSeparators | hooks/core/permission-request.js:247 | inserting separators never shortens the name |
| PermissionRequest.WithoutBoundaryUnchanged | hooks/core/permission-request.js:247 | a name without a lower-then-upper letter pair is left as it is |
| PermissionRequest.WithSeparatorsCons | hooks/core/permission-request.js:247 | a separator goes between a lower-case and an upper-case letter, one pair at a time |
| PermissionRequest.WithSeparatorsAppend | hooks/core/permission-request.js:247 | inserting separators is local: joining two texts adds at most one `_` at the seam |
| PermissionRequest.SplitWords | hooks/core/permission-request.js:248 | at least one part, none holding `_` or `-` |
| PermissionRequest.SplitWordsPlain | hooks/core/permission-request.js:248 | a text without separators is one part |
| PermissionRequest.SplitWordsAt | hooks/core/permission-request.js:248 | a separator ends the part before it |
| PermissionRequest.SplitWordsChars | hooks/core/permission-request.js:248 | every character of a part is a character of the text |
| PermissionRequest.PartsAreLowerWords | hooks/core/permission-request.js:247-248 | no part holds a separator or an upper-case ASCII letter |
| PermissionRequest.WordParts | hooks/core/permission-request.js:247-248 | a word is a single part, lower-cased |
| PermissionRequest.SnakeParts | hooks/core/permission-request.js:248 | a separator after a word ends it |
| PermissionRequest.CamelParts | hooks/core/permission-request.js:247-248 | a capital after a word ending in lower case starts the next part |
| PermissionRequest.StatusCheckWords | hooks/core/permission-request.js:237 | `statusCheck` splits into `status`, `check` |
| PermissionRequest.GetDataWords | hooks/core/permission-request.js:238 | `GetData` splits into `get`, `data` |
| PermissionRequest.GetUpdatedRecordsWords | hooks/core/permission-request.js:236 | `get_updated_records` splits into `get`, `updated`, `records` |
| PermissionRequest.IsSafeTool | hooks/core/permission-request.js:240-266 | true if and only if the name is non-empty, no part equals a destructive pattern and some part equals a safe pattern |
| PermissionRequest.Safe | hooks/core/permission-request.js:240-266 | the independent statement of the judgement: a non-empty name with no destructive part and some safe part; `IsSafeTool` is proved equal to it |
| PermissionRequest.SafeByWords | hooks/core/permission-request.js:250-262 | a name without destructive parts and with a safe part is safe |
| PermissionRequest.EmptyNameUnsafe | hooks/core/permission-request.js:241-243 | an empty name is never safe |
| PermissionRequest.DestructiveWins | hooks/core/permission-request.js:250-255 | a destructive part wins over any safe part beside it |
| PermissionRequest.UnknownUnsafe | hooks/core/permission-request.js:257-265 | a name without a safe part is not safe |
| PermissionRequest.ExactWordMatch | hooks/core/permission-request.js:231-236 | parts match whole words: `get_updated_records` is safe because `updated` is not `update` |
| PermissionRequest.DestructiveBesideSafe | hooks/core/permission-request.js:250-255 | in `statusUpdate` the destructive `update` wins over the safe `status` |
| PermissionRequest.MorePatternsMonotone | hooks/core/permission-request.js:113-120 | extra safe patterns can only make more names safe, extra destructive patterns only fewer |
| PermissionRequest.OutputDecision | hooks/core/permission-request.js:271-287 | the decision has the behaviour; metadata is attached if and only if there is some and the behaviour is not prompt |
| PermissionRequest.HandleRequest | hooks/core/permission-request.js:144-200 | the hook's output is the decision its definition gives for the settings and payload |
| PermissionRequest.Decision | hooks/core/permission-request.js:144-200 | the definition of the hook's output from the settings and the payload; `HandleRequest` is proved to produce it and `FailClosed` states when it allows |
| PermissionRequest.FailClosed | hooks/core/permission-request.js:144-200 | the hook allows exactly when it is enabled, auto-approval is on, the payload is an MCP tool call and the stripped name is safe; otherwise it prompts; it never denies; only an allow carries metadata, naming the tool |
| LoopRecovery.IdleMinutes | hooks/core/loop-recovery-detector.js:61-88 | an idle time, when there is one, is between 0 and 43200 minutes (thirty days) |
| LoopRecovery.IdleUndefined | hooks/core/loop-recovery-detector.js:61-74 | there is no idle time exactly when the heartbeat is not a valid date or lies in the future |
| LoopRecovery.IdleIsWholeMinutes | hooks/core/loop-recovery-detector.js:76-84 | otherwise the idle time is the whole minutes elapsed, rounded down, and 43200 once more than thirty days have passed |
| LoopRecovery.UnderAnHour | hooks/core/loop-recovery-detector.js:93-96 | under an hour the text is the minutes alone |
| LoopRecovery.FormatTimeDiff | hooks/core/loop-recovery-detector.js:93-105 | the definition of `formatTimeDiff`; `UnderAnHour`, `UnderADay` and `ADayOrMore` state its three shapes |
| LoopRecovery.UnderADay | hooks/core/loop-recovery-detector.js:97-100 | under a day the text is hours and minutes that add up to the input, without a zero minutes part |
| LoopRecovery.ADayOrMore | hooks/core/loop-recovery-detector.js:102-104 | from a day on the text is days and the remaining hours, without a zero hours part, and minutes no longer show |
| LoopRecovery.PromptRule | hooks/core/loop-recovery-detector.js:110-150 | the prompt appears if and only if persistence and auto-recovery are on, the loop is neither completed nor cancelled, the heartbeat is valid and not in the future, the idle time exceeds the limit (30 when unset) and prompting is on; its idle line shows the formatted idle time |
| LoopRecovery.Detect | hooks/core/loop-recovery-detector.js:110-157 | the definition of the hook's prompt lines, or none; `PromptRule` and `RecentLoopNotOffered` state when it prompts |
| LoopRecovery.RecentLoopNotOffered | hooks/core/loop-recovery-detector.js:136-137 | with the default limit, a loop idle for less than 31 minutes is never offered |
| ParallelGrammar.HeaderEnd | hooks/workflow/parallel-opportunity-detector.js:45 | the optional `\s+\((.*?)\)$` tail matches an empty rest with no options, and any options it captures hold no line break and end the line before a `)` |
| ParallelGrammar.MatchPhaseHeader | hooks/workflow/parallel-opportunity-detector.js:45 | a phase header starts with `##` and whitespace and captures a decimal number and a non-empty one-line name |
| ParallelGrammar.MatchPhaseTask | hooks/workflow/parallel-opportunity-detector.js:62 | a task line starts with `-`, its mark is one of space, `x` and `~`, its id is two dot-separated digit runs and its name is non-empty |
| ParallelGrammar.OptionsEnd | hooks/workflow/parallel-opportunity-detector.js:45 | a rest ` (<options>)` ending the line is the options tail, capturing everything between the parentheses |
| ParallelGrammar.PhaseHeaderLine | hooks/workflow/parallel-opportunity-detector.js:45 | `## <n>. <name> (<options>)` with a name of no `(`, no line break and no outer whitespace matches, capturing the number, the name and the options |
| ParallelGrammar.PhaseTaskShapeMatches | hooks/workflow/parallel-opportunity-detector.js:62 | a line `- [m] <major>.<minor> <name>` matches, capturing the mark, the id and the rest of the line as the name |
| ParallelGrammar.PhaseTaskItemLine | hooks/workflow/parallel-opportunity-detector.js:62 | `- [m] <major>.<minor> <name>` with a mark among space, `x` and `~`, digit runs and a name starting with a non-space and holding no `|` matches, capturing the mark, the id and the name |
| ParallelDetector.TrimStartAll | hooks/workflow/parallel-opportunity-detector.js:50 | every option piece loses its leading whitespace and nothing else |
| ParallelDetector.OptionParts | hooks/workflow/parallel-opportunity-detector.js:50 | splitting at a comma and the whitespace after it gives one part per comma-separated piece, none holding a comma and none after the first starting with whitespace |
| ParallelDetector.FirstPrefixed | hooks/workflow/parallel-opportunity-detector.js:55-56 | `find` returns the first part whose lower-cased text starts with the option name, and none when no part does |
| ParallelDetector.FieldPresent | hooks/workflow/parallel-opportunity-detector.js:55-56 | an `agent:` or `depends:` value exists exactly when some part starts with the name; it holds no colon and no outer whitespace |
| ParallelDetector.HeaderInfo | hooks/workflow/parallel-opportunity-detector.js:51-57 | the phase record keeps the header's name |
| ParallelDetector.PlainHeader | hooks/workflow/parallel-opportunity-detector.js:48-56 | a header without options is neither parallel nor sequential and names no agent or dependency |
| ParallelDetector.Keys | hooks/workflow/parallel-opportunity-detector.js:41 | the table's keys are listed in insertion order |
| ParallelDetector.Lookup | hooks/workflow/parallel-opportunity-detector.js:51 | a phase can be looked up exactly when its key is in the table |
| ParallelDetector.Store | hooks/workflow/parallel-opportunity-detector.js:51 | storing a phase makes it map to the new record and leaves every other phase's record as it was |
| ParallelDetector.StoreKeys | hooks/workflow/parallel-opportunity-detector.js:51 | a re-declared phase keeps its place in the key order; a new one goes last |
| ParallelDetector.StoreDistinct | hooks/workflow/parallel-opportunity-detector.js:51 | storing never lists a key twice |
| ParallelDetector.Insert | hooks/workflow/parallel-opportunity-detector.js:93 | inserting a numeric key keeps the keys sorted by value and adds exactly that key |
| ParallelDetector.SortByValue | hooks/workflow/parallel-opportunity-detector.js:93 | the integer-like keys come out as a permutation sorted by numeric value |
| ParallelDetector.IndexKeys | hooks/workflow/parallel-opportunity-detector.js:93 | the first group holds only canonical array-index keys |
| ParallelDetector.OtherKeys | hooks/workflow/parallel-opportunity-detector.js:93 | the second group holds no array-index key |
| ParallelDetector.KeysPartition | hooks/workflow/parallel-opportunity-detector.js:93 | the two groups share the keys out between them, each exactly once |
| ParallelDetector.ObjectKeysOrder | hooks/workflow/parallel-opportunity-detector.js:93 | `Object.keys` lists every phase once: array indices first in numeric order, then the other keys in insertion order |
| ParallelDetector.ObjectKeysMember | hooks/workflow/parallel-opportunity-detector.js:93 | a phase is iterated exactly when it is in the table |
| ParallelDetector.StatusOfPhaseMark | hooks/workflow/parallel-opportunity-detector.js:68 | `x` and only `x` is completed; `~` and only `~` is in progress |
| ParallelDetector.StatusAgrees | hooks/workflow/parallel-opportunity-detector.js:68 | on the marks this pattern admits the detector and the checklist synchroniser read the same status |
| ParallelDetector.ParseTasksForParallel | hooks/workflow/parallel-opportunity-detector.js:36-75 | the loop over the lines returns the tasks and the phase table of the line-by-line reading |
| ParallelDetector.Parse | hooks/workflow/parallel-opportunity-detector.js:36-75 | the definition of `parseTasksForParallel` as a fold over the lines; `ParseTasksForParallel` returns it and `ParseWellFormed`, `HeaderOwnsItems` state what it means |
| ParallelDetector.FoldLast | hooks/workflow/parallel-opportunity-detector.js:43 | reading lines in order is reading all but the last, then one more step |
| ParallelDetector.ParseWellFormed | hooks/workflow/parallel-opportunity-detector.js:43-72 | after any prefix of the document each phase is listed once and every task and the current phase belong to a listed phase |
| ParallelDetector.NoHeaderNoTasks | hooks/workflow/parallel-opportunity-detector.js:63 | task lines before the first header are dropped and leave the table empty |
| ParallelDetector.StepWithoutHeader | hooks/workflow/parallel-opportunity-detector.js:61-71 | a line that is not a header leaves the table and the current phase unchanged and can only add a task of the current phase |
| ParallelDetector.NoHeaderExtends | hooks/workflow/parallel-opportunity-detector.js:43-72 | lines without a header only append tasks of the current phase |
| ParallelDetector.HeaderOwnsItems | hooks/workflow/parallel-opportunity-detector.js:46-70 | after a header, the items up to the next header are filed under its number and earlier tasks stay as they were |
| ParallelDetector.UpperMarkNotATask | hooks/workflow/parallel-opportunity-detector.js:62 | `- [X] 1.1 Build` and `- [>] 1.1 Build` are not tasks for the detector |
| ParallelDetector.PhaseTasks | hooks/workflow/parallel-opportunity-detector.js:84-90 | a phase's group holds only tasks of that phase |
| ParallelDetector.PendingIds | hooks/workflow/parallel-opportunity-detector.js:100-106 | no more ids are listed than there are tasks |
| ParallelDetector.PendingIdsExactly | hooks/workflow/parallel-opportunity-detector.js:100-106 | an id is listed exactly when some pending task of the phase has it |
| ParallelDetector.Siblings | hooks/workflow/parallel-opportunity-detector.js:114-118 | the siblings are exactly the phases with the same agent, no dependency and another key |
| ParallelDetector.GroupByPhase | hooks/workflow/parallel-opportunity-detector.js:84-90 | `tasksByPhase` has an entry exactly for the phases with tasks, holding their tasks in document order |
| ParallelDetector.PhaseTurn | hooks/workflow/parallel-opportunity-detector.js:95-128 | one turn of the loop over the phases adds what the reference reading says for that phase |
| ParallelDetector.OverSnoc | hooks/workflow/parallel-opportunity-detector.js:94 | one more turn appends that phase's reports |
| ParallelDetector.AnalyzeParallelOpportunities | hooks/workflow/parallel-opportunity-detector.js:80-132 | the two loops return the reference list of reports |
| ParallelDetector.Opportunities | hooks/workflow/parallel-opportunity-detector.js:80-132 | the definition of the reports, phase by phase in `Object.keys` order; `AnalyzeParallelOpportunities` returns it and `ExplicitExactly`, `SameAgentExactly` state which phases are reported |
| ParallelDetector.TurnExplicit | hooks/workflow/parallel-opportunity-detector.js:99-110 | a turn reports its own phase as explicitly parallel exactly when that is wanted |
| ParallelDetector.OverExplicit | hooks/workflow/parallel-opportunity-detector.js:94-110 | over any run of phases the explicit reports are exactly the wanted phases among them |
| ParallelDetector.ExplicitExactly | hooks/workflow/parallel-opportunity-detector.js:99-110 | a phase is reported explicitly parallel if and only if its header says `parallel` and more than one of its tasks is pending; the report carries its name and pending ids |
| ParallelDetector.TurnSameAgent | hooks/workflow/parallel-opportunity-detector.js:113-128 | a turn leads a same-agent report with its own phase exactly when that is wanted |
| ParallelDetector.OverSameAgent | hooks/workflow/parallel-opportunity-detector.js:94-128 | over any run of phases the same-agent reports are led by exactly the wanted phases |
| ParallelDetector.SameAgentExactly | hooks/workflow/parallel-opportunity-detector.js:113-128 | a phase leads a same-agent report if and only if it names an agent, depends on nothing and another phase has the same agent and no dependency |
| ParallelDetector.SameAgentLists | hooks/workflow/parallel-opportunity-detector.js:114-125 | a same-agent report names its lead phase's agent and lists every sibling once and nothing else |
| ParallelDetector.ShapeExcludesDepends | hooks/workflow/parallel-opportunity-detector.js:113-117 | a report of that shape leaves out every phase with a dependency |
| ParallelDetector.DependsExcludes | hooks/workflow/parallel-opportunity-detector.js:113-117 | a phase with `depends:` is in no same-agent report |
| ParallelDetector.Detect | hooks/workflow/parallel-opportunity-detector.js:189-215 | reports come only from a Task call whose lower-cased agent type contains `architect` |
| ParallelDetector.NeedsTasksFile | hooks/workflow/parallel-opportunity-detector.js:203-208 | without a tasks file in the state, or when it is missing, nothing is reported |
| ParallelDetector.SuggestedCalls | hooks/workflow/parallel-opportunity-detector.js:156-158 | one suggested call per id, for at most the first three, each naming its id |
| ParallelDetector.OpportunitiesLines | hooks/workflow/parallel-opportunity-detector.js:148-163 | each report prints at least two lines |
| ParallelDetector.Reminder | hooks/workflow/parallel-opportunity-detector.js:137-168 | nothing is printed exactly when there is nothing to report; otherwise at least the banner, the footer and two lines per report |
| AdHocWorkflow.TakeUnits | tests/test-state-updater.js:27 | `slice(0, 50)` keeps a prefix of the prompt of at most fifty UTF-16 code units, stopping only where the next character would not fit |
| AdHocWorkflow.TakeUnitsOfBmp | tests/test-state-updater.js:27 | for text inside the Basic Multilingual Plane the slice is the first fifty characters |
| AdHocWorkflow.StripSymbols | tests/test-state-updater.js:27 | after the replace only ASCII letters and digits, CJK ideographs and whitespace remain |
| AdHocWorkflow.StripSymbolsMembers | tests/test-state-updater.js:27 | a character survives exactly when it was in the text and is one of those kept |
| AdHocWorkflow.StripSymbolsKeepsKept | tests/test-state-updater.js:27 | text made only of kept characters is left unchanged |
| AdHocWorkflow.SplitSpaces | tests/test-state-updater.js:31 | `split(/\s+/)` gives at least one piece and no piece holds whitespace |
| AdHocWorkflow.SplitSpacesConcat | tests/test-state-updater.js:31 | the pieces, put back together, are the text without its whitespace |
| AdHocWorkflow.SplitSpacesPiecesNonEmpty | tests/test-state-updater.js:31 | a text that neither starts nor ends with whitespace splits into non-empty pieces |
| AdHocWorkflow.SplitSpacesChars | tests/test-state-updater.js:31 | every character of a piece comes from the text and is not whitespace |
| AdHocWorkflow.Lowered | tests/test-state-updater.js:31 | each word is lower-cased in place |
| AdHocWorkflow.FirstWords | tests/test-state-updater.js:31 | at most three words are used |
| AdHocWorkflow.IdShape | tests/test-state-updater.js:25-36 | every id starts with `ad-hoc-` and ends with `-` and the time in milliseconds |
| AdHocWorkflow.AdHocChangeId | tests/test-state-updater.js:25-36 | the definition of `generateAdHocChangeId`; `IdShape`, `SluggedId`, `Fallback` and `IdAlphabet` state its shape |
| AdHocWorkflow.SluggedId | tests/test-state-updater.js:30-33 | with cleaned text left the id is the prefix, the slug, `-` and the time |
| AdHocWorkflow.Fallback | tests/test-state-updater.js:30-35 | the id is the bare `ad-hoc-<time>` if and only if the first fifty code units of the prompt, else the description, hold no letter, digit or CJK ideograph |
| AdHocWorkflow.BlankStripped | tests/test-state-updater.js:27-30 | the stripped text is blank exactly when nothing meaningful was in it |
| AdHocWorkflow.LowerJoin | tests/test-state-updater.js:31 | lower-casing the joined words lower-cases each word |
| AdHocWorkflow.SlugWords | tests/test-state-updater.js:30-33 | the slug is the first one to three non-empty lower-cased words joined by `-`, and splitting it at `-` gives those words back |
| AdHocWorkflow.SlugSplits | tests/test-state-updater.js:31 | splitting the slug at `-` returns its words |
| AdHocWorkflow.CleanedMeaningful | tests/test-state-updater.js:27 | the cleaned text consists only of meaningful characters and whitespace |
| AdHocWorkflow.IdAlphabet | tests/test-state-updater.js:25-36 | ids hold only lower-case ASCII letters, digits, CJK ideographs and `-`; every other character of the prompt is gone |
| AdHocWorkflow.LongPromptCut | tests/test-state-updater.js:160-166 | a prompt of a hundred `a` gives a slug of the first fifty, as one word |
| AdHocWorkflow.CjkPromptKept | tests/test-state-updater.js:179-193 | a prompt of at most fifty CJK ideographs is kept whole in the id |
| AdHocWorkflow.OneWordSlug | tests/test-state-updater.js:31 | one word with no capitals is its own slug |
| AdHocWorkflow.ResetIsFresh | tests/test-state-updater.js:58-75 | a reset is IDLE for the given change id with no previous phase, the review and test flags cleared, zero counters, empty metadata and every timestamp the same moment |
| AdHocWorkflow.ResetWorkflowState | tests/test-state-updater.js:58-75 | the definition of `resetWorkflowState`; `ResetIsFresh`, `ResetKeepsInitialTask` and `ResetAdmitsEveryTask` state what it produces |
| AdHocWorkflow.ResetKeepsInitialTask | tests/test-state-updater.js:58-75 | a reset keeps the initial task counters and nothing of an earlier workflow's task sync or completion records |
| AdHocWorkflow.ResetAdmitsEveryTask | tests/test-state-updater.js:58-75 | after a reset the gate lets every Task call through |
| AdHocWorkflow.ResetWithAdHocId | tests/test-state-updater.js:58-75 | a reset with a generated id stores an id starting with `ad-hoc-` |
| Text.Lower | hooks/workflow/status-display.js:100 | `toLowerCase` keeps the length and maps every character through the ASCII lower-case mapping |
| Text.Upper | hooks/workflow/status-display.js:62 | `toUpperCase` keeps the length and maps every character through the ASCII upper-case mapping |
| Text.LowerAppend | hooks/workflow/state-updater.js:139 | lower-casing distributes over concatenation |
| Text.LowerUnchanged | hooks/workflow/workflow-gate.js:154 | a text without upper-case letters is its own lower case |
| Text.Overwrite | hooks/workflow/task-sync.js:159-161 | replacing one character changes that position and no other |
| Text.TrimStart | hooks/workflow/parallel-opportunity-detector.js:50 | the longest whitespace prefix is removed: what remains is a suffix not starting with whitespace |
| Text.TrimEnd | hooks/workflow/task-sync.js:103 | the longest whitespace suffix is removed: what remains is a prefix not ending with whitespace |
| Text.Trim | hooks/workflow/task-sync.js:103 | the trimmed text neither starts nor ends with whitespace |
| Text.TrimEmpty | hooks/core/workflow-violation-tracker.js:120 | a text trims to the empty string if and only if it is all whitespace |
| Text.SpaceRun | hooks/workflow/task-sync.js:82 | the run of `\s` at a position is maximal |
| Text.DigitRun | hooks/workflow/parallel-opportunity-detector.js:45 | the run of `\d` at a position is maximal |
| Text.Split | hooks/workflow/parallel-opportunity-detector.js:38 | `split` gives at least one piece and no piece holds the separator |
| Text.JoinSplit | hooks/core/workflow-violation-tracker.js:123 | joining the pieces of a split with the separator gives back the text |
| Text.SplitNoSeparator | hooks/workflow/task-sync.js:104 | a text without the separator is one piece |
| Text.SplitAtSeparator | hooks/workflow/parallel-opportunity-detector.js:55 | a text holding the separator splits into at least two pieces |
| Text.SplitAppend | hooks/core/workflow-violation-tracker.js:120 | splitting a concatenation joins the last piece of the first part to the first piece of the second |
| Text.SplitTerminated | hooks/core/workflow-violation-tracker.js:123 | a trailing line break splits off an empty last line |
| Text.SplitAfterSeparator | hooks/core/workflow-violation-tracker.js:120 | a leading separator splits off an empty first piece |
| Text.SplitJoin | hooks/workflow/session-report.js:231 | splitting a join of separator-free pieces gives the pieces back |
| Text.Utf16Length | tests/test-state-updater.js:27 | JavaScript's length counts one or two code units per character |
| Text.Utf16LengthOfBmp | tests/test-state-updater.js:27 | inside the Basic Multilingual Plane the length is the character count |
| Text.Utf16Units | tests/test-state-updater.js:27 | each character takes one or two UTF-16 code units |
| Text.Utf16LengthAppend | hooks/workflow/session-report.js:152 | `length` adds up over a concatenation |
| Text.LastUnits | hooks/workflow/session-report.js:155 | `slice(-n)` keeps a suffix of at most `n` UTF-16 code units, stopping only where the next character would not fit |
| Text.LastUnitsOfBmp | hooks/workflow/session-report.js:155 | for text inside the Basic Multilingual Plane the slice is the last `n` characters |
| Text.NatToString | tests/test-state-updater.js:32 | a rendered number is a non-empty run of digits, starting with `0` only for zero |
| Text.Repeat | hooks/workflow/session-report.js:41 | `repeat(n)` gives `n` copies of the character |
| Text.Dedup | hooks/core/workflow-violation-tracker.js:221 | `[...new Set(xs)]` holds the same elements, each once |
| Text.DedupSnoc | hooks/core/workflow-violation-tracker.js:221 | one more element is appended to the deduplicated list if it is new and ignored otherwise |
| Text.DedupAfter | hooks/workflow/session-report.js:132 | skipping the elements already seen leaves each other element once |
| StatusDisplay.TablesAgree | hooks/workflow/status-display.js:21-46 | the emoji and name tables list the same ten agents, with no empty entry |
| StatusDisplay.Normalize | hooks/workflow/status-display.js:100-102 | the normalised agent type holds no upper-case letter |
| StatusDisplay.TitleLine | hooks/workflow/status-display.js:61-66 | a listed agent's title is its table emoji and name followed by 結束; any other type gets the robot emoji and its own upper-cased text |
| StatusDisplay.Banner | hooks/workflow/status-display.js:60-69 | the definition of the banner: an empty line, the rule, the title line and the rule; `BannerLines` proves its four lines |
| StatusDisplay.DisplayRule | hooks/workflow/status-display.js:92-109 | a banner appears if and only if the payload is readable, the tool is Task and the normalised type is non-empty; the banner is that type's |
| StatusDisplay.Display | hooks/workflow/status-display.js:74-110 | the definition of the hook's output; `DisplayRule` states exactly when a banner appears and which |
| StatusDisplay.NonTaskSilent | hooks/workflow/status-display.js:95-98 | no other tool ever produces output |
| StatusDisplay.PrefixRemovedOnce | hooks/workflow/status-display.js:100-102 | a leading `workflow:` in any letter case is removed once; what follows is only lower-cased |
| StatusDisplay.OtherTypesOnlyLowered | hooks/workflow/status-display.js:100-102 | a type without that prefix is only lower-cased |
| StatusDisplay.BarePrefixSilent | hooks/workflow/status-display.js:102-106 | `workflow:` alone counts as a missing type, so no banner appears |
| StatusDisplay.BannerLines | hooks/workflow/status-display.js:65-66 | the message splits into four lines: an empty one, the rule, the title and the rule again |
| StatusDisplay.TableTextsPlain | hooks/workflow/status-display.js:21-46 | no table entry holds a line break |
| TaskReparse.MarkCompletedReparse | hooks/workflow/task-sync.js:140-177 | completing a task and parsing `tasks.md` again changes at most one record, only in its status, which becomes completed, and only a record of that id |
| TaskReparse.MarkInProgressReparse | hooks/workflow/task-sync.js:179-205 | starting a task and parsing `tasks.md` again changes at most one record, a pending one of that id, which becomes in progress and is otherwise unchanged |
| TaskReparse.SetMarkReparse | hooks/workflow/task-sync.js:149-155 | the checkbox rewrite, read back by the parser: every record but at most one is unchanged, and that one only takes the new mark's status |
| TaskReparse.RemarkAt | hooks/workflow/task-sync.js:149-155 | overwriting the mark the rewrite pattern found changes the parsed records at most in the record of that line |
| TaskReparse.RemarkLaterLine | hooks/workflow/task-sync.js:149-152 | when `\s+` before the bracket spans a line break, the rewritten mark sits on a line that is neither a header nor a task line |
| TaskReparse.LineOfMatch | hooks/workflow/task-sync.js:149-152 | on the line where the rewrite matched, the mark sits where the match put it, and a task line there carries the id the pattern was built from |
| TaskReparse.MarkIgnored | hooks/workflow/task-sync.js:90 | the task pattern reads the mark only to check it is one of ` xX~>`: with another such mark the line matches the same way and captures the new mark, and neither line is a header |
| TaskReparse.IdStartAgree | hooks/workflow/task-sync.js:90 | the `- [m] ` prefix ends in the same place whatever the mark |
| TaskReparse.AfterIdAgree | hooks/workflow/task-sync.js:90 | two lines that agree from the id on read the same id and the same whitespace after it |
| TaskReparse.IdEndOf | hooks/workflow/task-sync.js:90 | an id of the task shape followed by whitespace or the end of the line is read whole as the id |
| TaskReparse.TaskIdLiteral | hooks/workflow/task-sync.js:150 | in the pasted pattern a task id matches exactly itself |
| TaskReparse.SplitAround | hooks/workflow/task-sync.js:75 | a line between line breaks is one piece of `split('\n')`, between the pieces of the text before and after it |
| TaskReparse.ParseAround | hooks/workflow/task-sync.js:73-120 | rewriting one line that stays a non-header, and either stays a non-task line or keeps every field but its mark, changes the parsed records at most in that line's record |
| TaskReparse.RemarkedConcat | hooks/workflow/task-sync.js:80-117 | records that change at most in one middle record, with unchanged records before and after it, change at most in one record overall |
| StatusDisplay.SeparatorShape | hooks/workflow/status-display.js:65 | the rule is exactly forty `━` |
| StatusDisplay.PluginDeveloper | hooks/workflow/status-display.js:100-109 | `workflow:developer` in any case shows the developer's emoji and name, and the banner no longer contains `workflow:` |
| StatusDisplay.DeveloperTitle | hooks/workflow/status-display.js:61-66 | the developer's title line is `💻 DEVELOPER 結束` |
| StatusDisplay.UnknownAgentTitle | hooks/workflow/status-display.js:61-62 | a type missing from the tables shows the robot and its upper-cased own name |

## Left out

- Reading standard input, reading and writing files, and `JSON.parse` / `JSON.stringify`: payloads, state documents, file contents and log lines arrive already parsed. A parse failure or a missing file is `None`. Only the bypass handler's two writes take their success or failure as an input (`recordsWritable`, `stateWritable`); every other write (`StateFile.Save`, `TextFiles.Put`, the event and violation logs) always succeeds.
- The timeouts on the completion enforcer's external commands, concurrency between hooks, and the temp-file-plus-rename atomicity of state writes: these are properties of the process and the file system.
- The clock: `Date.now()` and `new Date().toISOString()` are parameters, one value per invocation. Date parsing is outside the model; the loop-recovery detector receives the parsed heartbeat.
- `process.env.CLAUDE_IN_SUBAGENT` is the gate's parameter `inSubagent`.
- Console output that carries no decision: the transition messages, and the reminders and banners other than the status banner, the session report, the parallel detector's reminder and the loop-recovery prompt.
- ParallelDetector.Reminder: its body builds the box-drawn reminder line by line, but its contract states only when it prints (exactly when there is an opportunity) and a lower bound on the number of lines, not their text.
- LoopRecovery.Detect: its body builds the prompt's lines, but its contract and `PromptRule` state only when it prompts and that the idle line shows the formatted idle time; the other lines' text is not stated.
- External commands and their effects in the completion enforcer (`git status`, `git add` / `git commit`, `open`, `mv`, `rm`): the clean tree, the directories under `openspec/changes` and each action's outcome are inputs, and a successful commit counts as a clean tree.
- The architect branch's search for the tasks file (the path regex on the output and `findTasksFile`) is the input `tasksPath`.
- TaskSync.Developer: `updateTasksMdToInProgress` returns false when writing or renaming `tasks.md` throws, and the state is then neither changed nor saved; the model's write always succeeds, so that branch is not modelled.
- TaskSync.Tester: the same for `updateTasksMdCheckbox`: a failed `tasks.md` write, after which the source leaves the state unchanged, is not modelled.
- BypassHandler.InitOps: the source fills a missing `mainAgentOps` with `{ directCode: 0, bypassed: 0 }`, which has none of `directEdits`, `delegated` or `blocked`; the model fills in zero counters (`ZeroOps`). Later readers of such a document see undefined counters in the source (the session report prints `undefined`, the state updater's `delegated++` gives NaN, saved as null) and zeros in the model.
- BypassHandler.InitOpsFillsMissing: states the zero counters of `InitOps`, not the source's two-field object, for the reason on the `InitOps` line.
- BypassHandler.RequestBypass: a first bypass on a document without counters saves `Ops(0, 0, 0, 1)`, where the source saves `{ directCode: 0, bypassed: 1 }`, for the reason on the `InitOps` line.
- BypassHandler.ResetBypassRecords: a reset of a document without counters saves zero counters, where the source saves `{ directCode: 0, bypassed: 0 }`, for the reason on the `InitOps` line.
- Text.Lower: `toLowerCase` and `toUpperCase` are modelled on the ASCII letters only; other Unicode case mappings are not modelled.
- SessionReport.Percent: `Math.round` on a float quotient is modelled as exact rounding half up of the rational number; a floating-point error at an exact half (such as 29/200) is not modelled.
- TaskReparse.MarkCompletedReparse: proved only for texts in which every `-` that follows a line terminator follows `\n`. Under the `m` flag, `^` also matches after `\r`, U+2028 and U+2029, but `parseTasksMd` splits at `\n` only. In `- [ ] 1.2\r- [ ] 1.1 x`, completing 1.1 rewrites a mark inside the title of record 1.2.
- TaskReparse.MarkInProgressReparse: proved under the same condition on line terminators, for the same reason.
- TaskSync.CompleteInFile: a task id that is not plain (one holding whitespace or regular-expression syntax, possible only in a hand-edited state file) is treated as matching no line, where the source would build a regular expression from it.
- Values of the wrong JSON type: the hooks' `typeof` checks and JavaScript's truthiness of non-boolean flags are modelled for the types the files are documented to hold. The permission hook's non-boolean `enabled` / `autoApprove` flags and non-string custom patterns are not modelled.
- Property lookups that hit `Object.prototype` (an agent type such as `constructor` in the status display's tables): lookups are plain map lookups.
- Lone UTF-16 surrogates: Dafny strings hold whole code points, so `slice(0, 50)` that would cut a surrogate pair drops the whole character (the source keeps half, which the symbol strip then removes, with the same result).
- SessionReport.ShortenPath: when `slice(-47)` cuts a surrogate pair, the source prints the lone low surrogate after `...`; the model drops that character whole, so its suffix is 46 code units long.
- The violation tracker reads its parameters from `parameters`, else `params`, of the payload, as the code does; the `tool_input` field other hooks read is not consulted.
- State-updater documents without `timestamps`: the source dereferences `state.timestamps` and throws; the model saves nothing in that case.
- The memory hooks (`session-lifecycle.js`), process clean-up (`session-start-cleanup.js`), the test harnesses and the shared modules that the tests import are not part of this model.
- The test file's "should initialize" checks (the DONE / IDLE trigger) are test-only logic with no source function behind them.
