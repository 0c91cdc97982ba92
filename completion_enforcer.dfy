/**
 * The completion enforcer (`completion-enforcer.js`): once the workflow is
 * COMPLETING, or a tester has just passed the last task, it checks the
 * closing checklist (a clean git tree, the OpenSpec change archived, the
 * UI deliverable opened when there is one), runs what is missing, records
 * the outcome in `state.completion`, and moves COMPLETING to DONE when
 * every required item is done.
 *
 * The world outside the state file is a value: whether `git status` is
 * clean, which change directories exist under `openspec/changes` (with
 * their `proposal.md` and `tasks.md`), and `$HOME`. The outcome of each
 * external action (the commit, the rename, `open`, the clean-up) is an
 * input.
 */
module CompletionEnforcer {
  import opened Text
  import opened Workflow

  // ---------------------------------------------------------------------
  // The world the detectors look at

  /** A directory `openspec/changes/<id>`: its two documents, if present. */
  datatype ChangeDir = ChangeDir(proposal: Option<string>, tasks: Option<string>)

  /**
   * `gitClean`: `git status --porcelain` printed nothing, or git could not
   * run (both count as committed).
   */
  datatype World = World(gitClean: bool, changes: map<string, ChangeDir>, home: string)

  // ---------------------------------------------------------------------
  // UI detection

  /** `uiKeywords`. */
  const UiKeywords: seq<string> := [
    "index.html", ".html", "UI", "ui", "介面", "界面",
    "前端", "frontend", "web app", "webapp", "網頁",
    "calculator", "計算機", "dashboard", "儀表板"]

  /** `keywords.some(kw => content.includes(kw))`. */
  function AnyKeyword(content: string, keywords: seq<string>): (b: bool)
    ensures b <==> exists k :: 0 <= k < |keywords| && Contains(content, keywords[k])
  {
    if keywords == [] then false
    else if Contains(content, keywords[0]) then true
    else
      var b := AnyKeyword(content, keywords[1..]);
      assert forall k :: 1 <= k < |keywords| ==> keywords[k] == keywords[1..][k - 1];
      b
  }

  predicate HasUIKeyword(content: string) {
    AnyKeyword(content, UiKeywords)
  }

  // The path pattern /files?:\s*(~?\/[^\s|]+\.html)/i, written out with
  // the engine's choices. Its letters match either case.

  /** `file` in either case at `i`. */
  predicate FileWordAt(s: string, i: nat) {
    i + 4 <= |s| && LowerChar(s[i]) == 'f' && LowerChar(s[i + 1]) == 'i'
      && LowerChar(s[i + 2]) == 'l' && LowerChar(s[i + 3]) == 'e'
  }

  /** `.html` in either case at `i`. */
  predicate HtmlAt(s: string, i: nat) {
    i + 5 <= |s| && s[i] == '.' && LowerChar(s[i + 1]) == 'h' && LowerChar(s[i + 2]) == 't'
      && LowerChar(s[i + 3]) == 'm' && LowerChar(s[i + 4]) == 'l'
  }

  /** `s?:` at `q`: where the text after the colon starts. */
  function ColonAfter(s: string, q: nat): (r: Option<nat>)
    ensures r.Some? ==> q < r.value <= |s| && s[r.value - 1] == ':'
  {
    if q + 1 < |s| && LowerChar(s[q]) == 's' && s[q + 1] == ':' then Some(q + 2)
    else if q < |s| && s[q] == ':' then Some(q + 1)
    else None
  }

  /** A character `[^\s|]` admits. */
  predicate IsPathChar(c: char) {
    !IsSpace(c) && c != '|'
  }

  /** The length of the run of `[^\s|]` characters from `p`. */
  function PathRun(s: string, p: nat): (n: nat)
    requires p <= |s|
    ensures p + n <= |s|
    decreases |s| - p
  {
    if p < |s| && IsPathChar(s[p]) then 1 + PathRun(s, p + 1) else 0
  }

  /** `[^\s|]+\.html` with `m` characters taken, then fewer. */
  function LastHtml(s: string, p: nat, m: nat): (r: Option<nat>)
    requires p + m <= |s|
    ensures r.Some? ==> 1 <= r.value <= m && HtmlAt(s, p + r.value)
    decreases m
  {
    if m == 0 then None
    else if HtmlAt(s, p + m) then Some(m)
    else LastHtml(s, p, m - 1)
  }

  /** Where `~?\/` ends, with the group starting at `g`. */
  function SlashAfter(s: string, g: nat): (p: Option<nat>)
    ensures p.Some? ==> g < p.value <= |s| && s[p.value - 1] == '/' && (p.value == g + 1 || (p.value == g + 2 && s[g] == '~'))
  {
    if g + 1 < |s| && s[g] == '~' && s[g + 1] == '/' then Some(g + 2)
    else if g < |s| && s[g] == '/' then Some(g + 1)
    else None
  }

  /** Where a captured group starts and ends in the text. */
  datatype Span = Span(start: nat, end: nat)

  /** The path pattern tried at `i`: where its captured group lies, if it matches there. */
  function PathSpan(s: string, i: nat): (r: Option<Span>)
    ensures r.Some? ==> r.value.start + 7 <= r.value.end <= |s| && HtmlAt(s, r.value.end - 5)
    ensures r.Some? ==> s[r.value.start] == '/' || (s[r.value.start] == '~' && s[r.value.start + 1] == '/')
  {
    if !FileWordAt(s, i) then None
    else
      match ColonAfter(s, i + 4)
      case None => None
      case Some(c) =>
        var g := c + SpaceRun(s, c);
        match SlashAfter(s, g)
        case None => None
        case Some(p) =>
          match LastHtml(s, p, PathRun(s, p))
          case None => None
          case Some(m) => Some(Span(g, p + m + 5))
  }

  /** `.html` at the end of a slice that ends where it does in the text. */
  lemma HtmlInSlice(s: string, g: nat, e: nat)
    requires g + 5 <= e <= |s| && HtmlAt(s, e - 5)
    ensures HtmlAt(s[g..e], e - g - 5)
  {
    var v := s[g..e];
    assert v[e - g - 5] == s[e - 5] && v[e - g - 4] == s[e - 4] && v[e - g - 3] == s[e - 3];
    assert v[e - g - 2] == s[e - 2] && v[e - g - 1] == s[e - 1];
  }

  /**
   * A text the pattern can capture: a `/` or `~/` start, at least one
   * character before `.html` (in either case), which ends it.
   */
  predicate CapturedPath(v: string) {
    |v| >= 7 && (v[0] == '/' || (v[0] == '~' && v[1] == '/')) && HtmlAt(v, |v| - 5)
  }

  /** The pattern tried at `i`: the captured group, if it matches there. */
  function PathAt(s: string, i: nat): (r: Option<string>)
    ensures r.Some? ==> Contains(s, r.value) && CapturedPath(r.value)
  {
    var sp := PathSpan(s, i);
    if sp.None? then None
    else
      SpanSlice(s, sp.value.start, sp.value.end);
      Some(s[sp.value.start..sp.value.end])
  }

  /** The text a span covers is a path of the shape the pattern captures. */
  lemma SpanSlice(s: string, g: nat, e: nat)
    requires g + 7 <= e <= |s| && HtmlAt(s, e - 5)
    requires s[g] == '/' || (s[g] == '~' && s[g + 1] == '/')
    ensures Contains(s, s[g..e]) && CapturedPath(s[g..e])
  {
    var v := s[g..e];
    assert |v| == e - g && v[0] == s[g] && v[1] == s[g + 1];
    assert OccursAt(s, v, g);
    HtmlInSlice(s, g, e);
  }

  /** `content.match(filePathPattern)`: the leftmost match from `i` on. */
  function FirstPath(s: string, i: nat): (r: Option<string>)
    ensures r.Some? ==> Contains(s, r.value) && CapturedPath(r.value)
    decreases |s| - i
  {
    if i >= |s| then None
    else
      match PathAt(s, i)
      case Some(v) => Some(v)
      case None => FirstPath(s, i + 1)
  }

  /** A text without the word `file` (in any case) names no deliverable path. */
  lemma {:induction false} NoFileWordNoPath(s: string, i: nat)
    requires forall j :: i <= j < |s| ==> !FileWordAt(s, j)
    ensures FirstPath(s, i).None?
    decreases |s| - i
  {
    if i < |s| {
      NoFileWordNoPath(s, i + 1);
    }
  }

  /** `str.replace('~', home)`: the first `~` only. */
  function ReplaceFirst(s: string, c: char, repl: string): (r: string)
    ensures c !in s ==> r == s
  {
    if s == [] then []
    else if s[0] == c then repl + s[1..]
    else [s[0]] + ReplaceFirst(s[1..], c, repl)
  }

  /** `proposal.md` followed by `tasks.md`, each only if it exists. */
  function ChangeContent(id: string, w: World): string {
    if id in w.changes then w.changes[id].proposal.GetOr("") + w.changes[id].tasks.GetOr("") else ""
  }

  datatype UiInfo = UiInfo(hasUI: bool, deliverablePath: Option<string>)

  /** `detectHasUIDeliverable(state)`. */
  function DetectUI(doc: StateDoc, w: World): (u: UiInfo)
    ensures u.hasUI ==> u.deliverablePath.Some?
  {
    if doc.changeId == "" then UiInfo(false, None)
    else
      var content := ChangeContent(doc.changeId, w);
      var path := FirstPath(content, 0);
      var deliverable := if path.Some? then Some(ReplaceFirst(path.value, '~', w.home)) else None;
      UiInfo(HasUIKeyword(content) && deliverable.Some?, deliverable)
  }

  /** A UI deliverable needs both a keyword and a `files: ….html` path in the change's documents. */
  lemma UiNeedsBoth(doc: StateDoc, w: World)
    ensures DetectUI(doc, w).hasUI <==>
      doc.changeId != "" && HasUIKeyword(ChangeContent(doc.changeId, w))
      && FirstPath(ChangeContent(doc.changeId, w), 0).Some?
  {
  }

  /** What ends a text that occurs in `s` occurs in `s` too. */
  lemma SuffixOccurs(s: string, v: string, suffix: string)
    requires Contains(s, v) && EndsWith(v, suffix)
    ensures Contains(s, suffix)
  {
    var j :| 0 <= j <= |s| - |v| && OccursAt(s, v, j);
    var q := j + |v| - |suffix|;
    assert s[q..q + |suffix|] == s[j..j + |v|][|v| - |suffix|..];
    assert OccursAt(s, suffix, q);
  }

  /**
   * The keyword list holds `.html` itself, so a path whose suffix is
   * written in lower case is its own keyword: the keyword test only
   * matters for paths ending in `.HTML` or another mixed case.
   */
  lemma LowerHtmlPathIsKeyword(content: string)
    requires FirstPath(content, 0).Some? && EndsWith(FirstPath(content, 0).value, ".html")
    ensures HasUIKeyword(content)
  {
    HtmlTextIsKeyword(content, FirstPath(content, 0).value);
  }

  lemma HtmlTextIsKeyword(content: string, v: string)
    requires Contains(content, v) && EndsWith(v, ".html")
    ensures HasUIKeyword(content)
  {
    SuffixOccurs(content, v, ".html");
    assert UiKeywords[1] == ".html";
    KeywordAt(content, UiKeywords, 1);
  }

  lemma KeywordAt(content: string, keywords: seq<string>, k: nat)
    requires k < |keywords| && Contains(content, keywords[k])
    ensures AnyKeyword(content, keywords)
  {
  }

  // ---------------------------------------------------------------------
  // The checklist

  datatype Detector = GitCommit | OpenSpecArchive | DeliverableOpened | NoDetector

  datatype ChecklistItem = ChecklistItem(
    id: string,
    description: string,
    command: string,
    required: bool,
    detector: Detector,
    deliverablePath: Option<string>)

  const GitCommitItem := ChecklistItem("git_commit", "提交程式碼變更", "git add . && git commit -m \"...\"", true, GitCommit, None)
  const ArchiveItem := ChecklistItem("archive_openspec", "歸檔 OpenSpec 變更目錄", "mv openspec/changes/[change-id] openspec/archive/", true, OpenSpecArchive, None)
  const CleanupItem := ChecklistItem("cleanup_temp", "清理臨時檔案（如有）", "rm -rf __pycache__ .pytest_cache node_modules/.cache", false, NoDetector, None)

  function DeliverableItem(path: string): ChecklistItem {
    ChecklistItem("open_deliverable", "開啟 UI 成品讓用戶驗收", "open " + path, true, DeliverableOpened, Some(path))
  }

  /** `getCompletionChecklist(state)`. */
  function Checklist(doc: StateDoc, w: World): seq<ChecklistItem> {
    var ui := DetectUI(doc, w);
    [GitCommitItem, ArchiveItem, CleanupItem] + (if ui.hasUI then [DeliverableItem(ui.deliverablePath.value)] else [])
  }

  predicate DistinctIds(items: seq<ChecklistItem>) {
    forall i, j :: 0 <= i < j < |items| ==> items[i].id != items[j].id
  }

  /**
   * The checklist: the commit and the archive (required), the clean-up
   * (optional, never checked), and the deliverable (required) exactly
   * when a UI deliverable is detected; no id twice.
   */
  lemma ChecklistContents(doc: StateDoc, w: World)
    ensures var c := Checklist(doc, w);
      && |c| == (if DetectUI(doc, w).hasUI then 4 else 3)
      && c[0].id == "git_commit" && c[0].required && c[0].detector == GitCommit
      && c[1].id == "archive_openspec" && c[1].required && c[1].detector == OpenSpecArchive
      && c[2].id == "cleanup_temp" && !c[2].required && c[2].detector == NoDetector
      && (|c| == 4 ==> c[3].id == "open_deliverable" && c[3].required
                       && c[3].deliverablePath == DetectUI(doc, w).deliverablePath)
      && DistinctIds(c)
  {
  }

  /** `detectOpenSpecArchive`: no change id, or its directory is gone. */
  predicate ArchiveDone(doc: StateDoc, w: World) {
    doc.changeId == "" || doc.changeId !in w.changes
  }

  /** `detectDeliverableOpened`: no deliverable, or the state records it opened. */
  predicate OpenedDone(doc: StateDoc, w: World) {
    !DetectUI(doc, w).hasUI || (doc.completion.Some? && doc.completion.value.deliverableOpened)
  }

  /** An item's detector; an item without one counts as done. */
  predicate Detect(item: ChecklistItem, doc: StateDoc, w: World) {
    match item.detector
    case GitCommit => w.gitClean
    case OpenSpecArchive => ArchiveDone(doc, w)
    case DeliverableOpened => OpenedDone(doc, w)
    case NoDetector => true
  }

  /** Without a change id nothing waits to be archived and there is no deliverable. */
  lemma MissingChangeId(doc: StateDoc, w: World)
    requires doc.changeId == ""
    ensures ArchiveDone(doc, w) && !DetectUI(doc, w).hasUI && |Checklist(doc, w)| == 3
  {
  }

  // ---------------------------------------------------------------------
  // Checking the items

  /** `results` after the items `items`, one by one. */
  function ResultsOf(items: seq<ChecklistItem>, doc: StateDoc, w: World): map<string, bool> {
    if items == [] then map[]
    else
      var last := items[|items| - 1];
      ResultsOf(items[..|items| - 1], doc, w)[last.id := Detect(last, doc, w)]
  }

  /** Every required item's detector says done. */
  predicate RequiredDoneIn(items: seq<ChecklistItem>, doc: StateDoc, w: World) {
    forall i :: 0 <= i < |items| && items[i].required ==> Detect(items[i], doc, w)
  }

  /** Each item's result is its detector's, and the results hold exactly the items' ids. */
  lemma {:induction false} ResultsOfItems(items: seq<ChecklistItem>, doc: StateDoc, w: World)
    requires DistinctIds(items)
    ensures forall k :: k in ResultsOf(items, doc, w) <==> exists i :: 0 <= i < |items| && items[i].id == k
    ensures forall i :: 0 <= i < |items| ==> ResultsOf(items, doc, w)[items[i].id] == Detect(items[i], doc, w)
  {
    if items != [] {
      var init := items[..|items| - 1];
      var last := items[|items| - 1];
      assert DistinctIds(init);
      ResultsOfItems(init, doc, w);
      var r0 := ResultsOf(init, doc, w);
      var r := ResultsOf(items, doc, w);
      assert r == r0[last.id := Detect(last, doc, w)];
      forall k | k in r
        ensures exists i :: 0 <= i < |items| && items[i].id == k
      {
        if k != last.id {
          assert k in r0;
          var i :| 0 <= i < |init| && init[i].id == k;
          assert items[i].id == k;
        }
      }
      forall k | exists i :: 0 <= i < |items| && items[i].id == k
        ensures k in r
      {
        var i :| 0 <= i < |items| && items[i].id == k;
        if i < |init| {
          assert init[i].id == k;
        }
      }
      forall i | 0 <= i < |items|
        ensures r[items[i].id] == Detect(items[i], doc, w)
      {
        if i < |init| {
          assert items[i] == init[i] && items[i].id != last.id;
        }
      }
    }
  }

  /** One more item is done-required exactly when it, too, is done or optional. */
  lemma RequiredDoneSnoc(items: seq<ChecklistItem>, item: ChecklistItem, doc: StateDoc, w: World)
    ensures RequiredDoneIn(items + [item], doc, w) <==> RequiredDoneIn(items, doc, w) && (item.required ==> Detect(item, doc, w))
    ensures ResultsOf(items + [item], doc, w) == ResultsOf(items, doc, w)[item.id := Detect(item, doc, w)]
  {
    assert (items + [item])[..|items|] == items;
    if RequiredDoneIn(items, doc, w) && (item.required ==> Detect(item, doc, w)) {
      forall i | 0 <= i < |items| + 1 && (items + [item])[i].required
        ensures Detect((items + [item])[i], doc, w)
      {
        if i < |items| {
          assert (items + [item])[i] == items[i];
        }
      }
    }
    if RequiredDoneIn(items + [item], doc, w) {
      forall i | 0 <= i < |items| && items[i].required
        ensures Detect(items[i], doc, w)
      {
        assert (items + [item])[i] == items[i];
      }
      assert (items + [item])[|items|] == item;
    }
  }

  /** `checkCompletionStatus(state)`: the loop over the checklist. */
  method CheckCompletionStatus(doc: StateDoc, w: World)
    returns (results: map<string, bool>, allRequiredDone: bool, checklist: seq<ChecklistItem>)
    ensures checklist == Checklist(doc, w)
    ensures results == ResultsOf(checklist, doc, w)
    ensures allRequiredDone <==> RequiredDoneIn(checklist, doc, w)
  {
    checklist := Checklist(doc, w);
    results, allRequiredDone := EvaluateItems(checklist, doc, w);
  }

  /** The loop of `checkCompletionStatus`: each item's detector, with the clean-up counted done. */
  method EvaluateItems(checklist: seq<ChecklistItem>, doc: StateDoc, w: World)
    returns (results: map<string, bool>, allRequiredDone: bool)
    ensures results == ResultsOf(checklist, doc, w)
    ensures allRequiredDone <==> RequiredDoneIn(checklist, doc, w)
  {
    results := map[];
    allRequiredDone := true;
    for i := 0 to |checklist|
      invariant results == ResultsOf(checklist[..i], doc, w)
      invariant allRequiredDone <==> RequiredDoneIn(checklist[..i], doc, w)
    {
      var item := checklist[i];
      ghost var before := checklist[..i];
      assert checklist[..i + 1] == before + [item];
      RequiredDoneSnoc(before, item, doc, w);
      if item.detector != NoDetector {
        var done := Detect(item, doc, w);
        results := results[item.id := done];
        if item.required && !done {
          allRequiredDone := false;
        }
      } else {
        assert Detect(item, doc, w);
        results := results[item.id := true];
      }
    }
    assert checklist[..|checklist|] == checklist;
  }

  /**
   * The required items decide: done exactly when the tree is clean, the
   * change is archived, and a detected deliverable has been opened.
   */
  lemma RequiredDoneRule(doc: StateDoc, w: World)
    ensures RequiredDoneIn(Checklist(doc, w), doc, w) <==> w.gitClean && ArchiveDone(doc, w) && OpenedDone(doc, w)
  {
    ChecklistContents(doc, w);
    var c := Checklist(doc, w);
    if !DetectUI(doc, w).hasUI {
      assert OpenedDone(doc, w);
    } else {
      assert Detect(c[3], doc, w) == OpenedDone(doc, w);
    }
  }

  /** The clean-up item has no detector, so the check always records it done. */
  lemma CleanupAlwaysDone(doc: StateDoc, w: World)
    ensures "cleanup_temp" in ResultsOf(Checklist(doc, w), doc, w)
    ensures ResultsOf(Checklist(doc, w), doc, w)["cleanup_temp"]
  {
    ChecklistContents(doc, w);
    ResultsOfItems(Checklist(doc, w), doc, w);
    assert Checklist(doc, w)[2].id == "cleanup_temp";
  }

  // ---------------------------------------------------------------------
  // Running what is missing

  datatype CommitOutcome = Committed | NothingToCommit | CommitFailed

  /**
   * What the external actions do when they run: the commit (succeeds,
   * fails saying there is nothing to commit, or fails otherwise), the
   * move into the archive, `open`, and the clean-up.
   */
  datatype Outcomes = Outcomes(commit: CommitOutcome, renameOk: bool, openOk: bool, cleanupOk: bool)

  /** `results[id]` read as a JavaScript condition (a missing key is falsy). */
  predicate Flag(results: map<string, bool>, id: string) {
    id in results && results[id]
  }

  /** `state.changeId || 'unknown'`. */
  function ChangeName(doc: StateDoc): string {
    if doc.changeId == "" then "unknown" else doc.changeId
  }

  /** Records that the deliverable was opened at `now`. */
  function Opened(doc: StateDoc, now: string): (r: StateDoc)
    ensures r.completion.Some? && r.completion.value.deliverableOpened
    ensures r.state == doc.state && r.previousState == doc.previousState && r.changeId == doc.changeId
    ensures doc.completion.Some? ==> r.completion.value.allRequiredDone == doc.completion.value.allRequiredDone
  {
    doc.(completion := Some(doc.completion.GetOr(EmptyCompletion).(deliverableOpened := true, deliverableOpenedAt := now)))
  }

  /** The locals of `autoExecuteCompletionActions` and the world it acts on. */
  datatype AutoRun = AutoRun(executed: seq<string>, results: map<string, bool>, doc: StateDoc, world: World)

  /** Step 1: commit when the tree is not clean. A commit leaves the tree clean. */
  function CommitStep(a: AutoRun, outcomes: Outcomes): AutoRun {
    if Flag(a.results, "git_commit") then a
    else
      match outcomes.commit
      case Committed =>
        a.(executed := a.executed + ["git_commit"], results := a.results["git_commit" := true],
           world := a.world.(gitClean := true))
      case NothingToCommit => a.(results := a.results["git_commit" := true])
      case CommitFailed => a
  }

  /** Step 2: archive, only after the commit and only for a named change. */
  function ArchiveStep(a: AutoRun, id: string, outcomes: Outcomes): AutoRun {
    if Flag(a.results, "git_commit") && !Flag(a.results, "archive_openspec") && id != "unknown"
       && id in a.world.changes && outcomes.renameOk
    then
      a.(executed := a.executed + ["archive_openspec"], results := a.results["archive_openspec" := true],
         world := a.world.(changes := a.world.changes - {id}))
    else a
  }

  /** `checklist.find(i => i.id === id)`. */
  function FindItem(items: seq<ChecklistItem>, id: string): (r: Option<ChecklistItem>)
    ensures r.Some? ==> r.value in items && r.value.id == id
    ensures r.None? ==> forall i :: 0 <= i < |items| ==> items[i].id != id
  {
    if items == [] then None
    else if items[0].id == id then Some(items[0])
    else FindItem(items[1..], id)
  }

  /** Step 3: open the deliverable the checklist names. */
  function OpenStep(a: AutoRun, checklist: seq<ChecklistItem>, outcomes: Outcomes, now: string): AutoRun {
    var item := FindItem(checklist, "open_deliverable");
    if !Flag(a.results, "open_deliverable") && item.Some? && Truthy(item.value.deliverablePath) && outcomes.openOk then
      a.(executed := a.executed + ["open_deliverable"], results := a.results["open_deliverable" := true],
         doc := Opened(a.doc, now))
    else a
  }

  predicate Truthy(v: Option<string>) {
    v.Some? && v.value != ""
  }

  /** Step 4: the optional clean-up. */
  function CleanupStep(a: AutoRun, outcomes: Outcomes): AutoRun {
    if !Flag(a.results, "cleanup_temp") && outcomes.cleanupOk then a.(results := a.results["cleanup_temp" := true])
    else a
  }

  /** `autoExecuteCompletionActions(state, completionStatus)`. */
  function AutoExecuted(doc: StateDoc, results: map<string, bool>, checklist: seq<ChecklistItem>,
                        w: World, outcomes: Outcomes, now: string): AutoRun {
    var a1 := CommitStep(AutoRun([], results, doc, w), outcomes);
    var a2 := ArchiveStep(a1, ChangeName(doc), outcomes);
    var a3 := OpenStep(a2, checklist, outcomes, now);
    CleanupStep(a3, outcomes)
  }

  /** The order the actions are listed in. */
  function Rank(action: string): nat {
    if action == "git_commit" then 0
    else if action == "archive_openspec" then 1
    else if action == "open_deliverable" then 2
    else 3
  }

  /** The action ids, and the clean-up that takes part without being listed. */
  const Actions: set<string> := {"git_commit", "archive_openspec", "open_deliverable", "cleanup_temp"}

  /** From `a` to `b` no done item is undone and only action ids are added. */
  ghost predicate Grows(a: AutoRun, b: AutoRun) {
    && (forall k :: Flag(a.results, k) ==> Flag(b.results, k))
    && (forall k :: k in b.results ==> k in a.results || k in Actions)
  }

  lemma GrowsTrans(a: AutoRun, b: AutoRun, c: AutoRun)
    requires Grows(a, b) && Grows(b, c)
    ensures Grows(a, c)
  {
  }

  /** Listed actions rank below `bound`, each once and in rank order. */
  predicate Ordered(executed: seq<string>, bound: nat) {
    && (forall i :: 0 <= i < |executed| ==> Rank(executed[i]) < bound)
    && (forall i, j :: 0 <= i < j < |executed| ==> Rank(executed[i]) < Rank(executed[j]))
  }

  /** Every listed action is recorded as done. */
  predicate Recorded(a: AutoRun) {
    forall i :: 0 <= i < |a.executed| ==> Flag(a.results, a.executed[i])
  }

  /** One step that lists at most `action`, and only once it is done. */
  lemma StepKeeps(a: AutoRun, b: AutoRun, action: string)
    requires Grows(a, b) && Ordered(a.executed, Rank(action)) && Recorded(a)
    requires b.executed == a.executed || (b.executed == a.executed + [action] && Flag(b.results, action))
    ensures Ordered(b.executed, Rank(action) + 1) && Recorded(b)
  {
  }

  lemma CommitGrows(a: AutoRun, outcomes: Outcomes)
    ensures var b := CommitStep(a, outcomes);
      Grows(a, b) && (b.executed == a.executed || (b.executed == a.executed + ["git_commit"] && Flag(b.results, "git_commit")))
  {
  }

  lemma ArchiveGrows(a: AutoRun, id: string, outcomes: Outcomes)
    ensures var b := ArchiveStep(a, id, outcomes);
      Grows(a, b) && (b.executed == a.executed || (b.executed == a.executed + ["archive_openspec"] && Flag(b.results, "archive_openspec")))
  {
  }

  lemma OpenGrows(a: AutoRun, checklist: seq<ChecklistItem>, outcomes: Outcomes, now: string)
    ensures var b := OpenStep(a, checklist, outcomes, now);
      Grows(a, b) && (b.executed == a.executed || (b.executed == a.executed + ["open_deliverable"] && Flag(b.results, "open_deliverable")))
  {
  }

  lemma CleanupGrows(a: AutoRun, outcomes: Outcomes)
    ensures var b := CleanupStep(a, outcomes);
      Grows(a, b) && b.executed == a.executed
  {
  }

  /**
   * The actions only turn items to done and add no other keys; each
   * action listed as executed is recorded as done, and the actions are
   * listed once each, in the order commit, archive, open.
   */
  lemma AutoProgress(doc: StateDoc, results: map<string, bool>, checklist: seq<ChecklistItem>,
                     w: World, outcomes: Outcomes, now: string)
    ensures var a := AutoExecuted(doc, results, checklist, w, outcomes, now);
      && (forall k :: Flag(results, k) ==> Flag(a.results, k))
      && (forall k :: k in a.results ==> k in results || k in Actions)
      && (forall x :: x in a.executed ==> Flag(a.results, x))
      && Ordered(a.executed, 3)
  {
    var a0 := AutoRun([], results, doc, w);
    var a1 := CommitStep(a0, outcomes);
    var a2 := ArchiveStep(a1, ChangeName(doc), outcomes);
    var a3 := OpenStep(a2, checklist, outcomes, now);
    var a4 := CleanupStep(a3, outcomes);
    CommitGrows(a0, outcomes);
    StepKeeps(a0, a1, "git_commit");
    ArchiveGrows(a1, ChangeName(doc), outcomes);
    StepKeeps(a1, a2, "archive_openspec");
    OpenGrows(a2, checklist, outcomes, now);
    StepKeeps(a2, a3, "open_deliverable");
    CleanupGrows(a3, outcomes);
    GrowsTrans(a0, a1, a2);
    GrowsTrans(a0, a2, a3);
    GrowsTrans(a0, a3, a4);
    forall x | x in a4.executed
      ensures Flag(a4.results, x)
    {
      var i :| 0 <= i < |a4.executed| && a4.executed[i] == x;
    }
  }

  /**
   * The archive is moved only once the commit is done and only for a change
   * that has a name other than `unknown`; its directory then leaves
   * `openspec/changes`, and nothing else in the world changes.
   */
  lemma ArchiveAfterCommit(doc: StateDoc, results: map<string, bool>, checklist: seq<ChecklistItem>,
                           w: World, outcomes: Outcomes, now: string)
    ensures var a := AutoExecuted(doc, results, checklist, w, outcomes, now);
      && ("archive_openspec" in a.executed ==>
            Flag(a.results, "git_commit") && doc.changeId != "" && doc.changeId != "unknown"
            && doc.changeId in w.changes && a.world.changes == w.changes - {doc.changeId})
      && ("archive_openspec" !in a.executed ==> a.world.changes == w.changes)
      && a.world.home == w.home
  {
    var a1 := CommitStep(AutoRun([], results, doc, w), outcomes);
    var a2 := ArchiveStep(a1, ChangeName(doc), outcomes);
    assert "archive_openspec" !in a1.executed && a1.world.changes == w.changes && a1.world.home == w.home;
    assert "archive_openspec" in a2.executed <==> a2 != a1;
    AfterArchive(a2, checklist, outcomes, now);
  }

  /** Opening the deliverable and the clean-up leave the world and the commit and archive records alone. */
  lemma AfterArchive(a: AutoRun, checklist: seq<ChecklistItem>, outcomes: Outcomes, now: string)
    ensures var b := CleanupStep(OpenStep(a, checklist, outcomes, now), outcomes);
      && b.world == a.world
      && ("archive_openspec" in b.executed <==> "archive_openspec" in a.executed)
      && (Flag(a.results, "git_commit") ==> Flag(b.results, "git_commit"))
  {
  }

  /** The only change to the state is the record that the deliverable was opened. */
  lemma AutoTouchesOnlyDeliverable(doc: StateDoc, results: map<string, bool>, checklist: seq<ChecklistItem>,
                                   w: World, outcomes: Outcomes, now: string)
    ensures var a := AutoExecuted(doc, results, checklist, w, outcomes, now);
      a.doc == doc || (a.doc == Opened(doc, now) && "open_deliverable" in a.executed)
  {
  }

  /**
   * The flag recomputed after the actions:
   * `Object.entries(results).filter(required).every(done)`.
   */
  predicate Recomputed(results: map<string, bool>, checklist: seq<ChecklistItem>) {
    forall k :: k in results && FindItem(checklist, k).Some? && FindItem(checklist, k).value.required ==> results[k]
  }

  /**
   * Recomputing over the results' entries asks the same as asking every
   * required item of the checklist, when the results hold the checklist's ids.
   */
  lemma RecomputedRule(results: map<string, bool>, checklist: seq<ChecklistItem>)
    requires DistinctIds(checklist)
    requires forall i :: 0 <= i < |checklist| ==> checklist[i].id in results
    ensures Recomputed(results, checklist) <==>
      forall i :: 0 <= i < |checklist| && checklist[i].required ==> results[checklist[i].id]
  {
    if Recomputed(results, checklist) {
      forall i | 0 <= i < |checklist| && checklist[i].required
        ensures results[checklist[i].id]
      {
        var k := checklist[i].id;
        var found := FindItem(checklist, k);
        var j :| 0 <= j < |checklist| && checklist[j] == found.value;
        assert checklist[j].id == checklist[i].id;
      }
    }
    if forall i :: 0 <= i < |checklist| && checklist[i].required ==> results[checklist[i].id] {
      forall k | k in results && FindItem(checklist, k).Some? && FindItem(checklist, k).value.required
        ensures results[k]
      {
        var found := FindItem(checklist, k).value;
        var j :| 0 <= j < |checklist| && checklist[j] == found;
      }
    }
  }

  // ---------------------------------------------------------------------
  // The hook

  /** `updateCompletionState`: the results, the flag and the time of the check. */
  function WithCompletion(doc: StateDoc, results: map<string, bool>, flag: bool, now: string): (r: StateDoc)
    ensures r.state == doc.state && r.previousState == doc.previousState && r.changeId == doc.changeId
    ensures r.completion.Some? && r.completion.value.allRequiredDone == Some(flag)
    ensures r.completion.value.checklist == Some(results) && r.completion.value.lastCheckedAt == now
  {
    var c := doc.completion.GetOr(EmptyCompletion);
    doc.(completion := Some(c.(checklist := Some(results), allRequiredDone := Some(flag), lastCheckedAt := now)))
  }

  /** COMPLETING → DONE, stamping `completedAt`. */
  function Finished(doc: StateDoc, now: string): (r: StateDoc)
    ensures r.state == Some(Done) && r.previousState == doc.state
    ensures r.timestamps.Some? && r.timestamps.value.completedAt == now
    ensures r.completion == doc.completion && r.changeId == doc.changeId
  {
    var ts := doc.timestamps.GetOr(Timestamps("", "", "", ""));
    doc.(previousState := doc.state, state := Some(Done), timestamps := Some(ts.(completedAt := now)))
  }

  /** `testerJustPassed`. */
  predicate TesterJustPassed(output: string) {
    Contains(Lower(output), "pass") || Contains(output, "通過") || Contains(output, "✅")
  }

  /** `allTasksComplete`: both counts are numbers, the total is positive, and they agree. */
  predicate AllTasksComplete(doc: StateDoc) {
    && doc.taskSync.Some?
    && doc.taskSync.value.completed.Some? && doc.taskSync.value.totalTasks.Some?
    && doc.taskSync.value.totalTasks.value > 0
    && doc.taskSync.value.completed.value == doc.taskSync.value.totalTasks.value
  }

  /** When the checklist is checked at all. */
  predicate Triggered(doc: StateDoc, output: string) {
    doc.state == Some(Completing) || (TesterJustPassed(output) && AllTasksComplete(doc))
  }

  /** What one run leaves behind: the state file, the world and the actions run. */
  datatype Run = Run(stored: Option<StateDoc>, world: World, executed: seq<string>)

  /** The check, the actions when something is missing, the record, and DONE. */
  function CompletionPass(doc: StateDoc, w: World, outcomes: Outcomes, now: string): Run {
    var checklist := Checklist(doc, w);
    var results := ResultsOf(checklist, doc, w);
    var flag := RequiredDoneIn(checklist, doc, w);
    var a := if flag then AutoRun([], results, doc, w) else AutoExecuted(doc, results, checklist, w, outcomes, now);
    var done := if flag then true else Recomputed(a.results, checklist);
    var recorded := WithCompletion(a.doc, a.results, done, now);
    var final := if done && recorded.state == Some(Completing) then Finished(recorded, now) else recorded;
    Run(Some(final), a.world, a.executed)
  }

  /** `command.startsWith('open ') || command.includes(' open ')`. */
  predicate OpensSomething(command: string) {
    StartsWith(command, "open ") || Contains(command, " open ")
  }

  /** After a Bash call: record an didOpen deliverable, then check again while COMPLETING. */
  function BashPass(r: Run, doc: StateDoc, command: string, now: string): Run {
    var ui := DetectUI(doc, r.world);
    var didOpen := OpensSomething(command) && ui.hasUI && Contains(command, ui.deliverablePath.value);
    var doc1 := if didOpen then Opened(doc, now) else doc;
    var stored1 := if didOpen then Some(doc1) else r.stored;
    if doc1.state == Some(Completing) then
      var checklist := Checklist(doc1, r.world);
      r.(stored := Some(WithCompletion(doc1, ResultsOf(checklist, doc1, r.world), RequiredDoneIn(checklist, doc1, r.world), now)))
    else r.(stored := stored1)
  }

  /** The whole hook. */
  function Enforced(stored: Option<StateDoc>, w: World, input: Option<HookInput>, outcomes: Outcomes, now: string): Run {
    if input.None? || (input.value.tool != Task && input.value.tool != Bash) || stored.None? then Run(stored, w, [])
    else
      var h := input.value;
      var doc := stored.value;
      var r1 := if Triggered(doc, h.toolOutput) then CompletionPass(doc, w, outcomes, now) else Run(stored, w, []);
      if h.tool == Bash then BashPass(r1, r1.stored.value, h.toolInput.command, now) else r1
  }

  /** The hook's `main`, step by step over the state file. */
  method Enforce(file: StateFile, w: World, input: Option<HookInput>, outcomes: Outcomes, now: string)
    returns (world: World, executed: seq<string>)
    modifies file
    ensures Run(file.stored, world, executed) == Enforced(old(file.stored), w, input, outcomes, now)
  {
    world := w;
    executed := [];
    if input.None? || (input.value.tool != Task && input.value.tool != Bash) || file.stored.None? {
      return;
    }
    var h := input.value;
    var state := file.stored.value;
    if Triggered(state, h.toolOutput) {
      var results, allRequiredDone, checklist := CheckCompletionStatus(state, world);
      if !allRequiredDone {
        var a := AutoExecuted(state, results, checklist, world, outcomes, now);
        executed, results, state, world := a.executed, a.results, a.doc, a.world;
        allRequiredDone := Recomputed(results, checklist);
      }
      state := WithCompletion(state, results, allRequiredDone, now);
      file.Save(state);
      if allRequiredDone && state.state == Some(Completing) {
        state := Finished(state, now);
        file.Save(state);
      }
    }
    if h.tool == Bash {
      var ui := DetectUI(state, world);
      if OpensSomething(h.toolInput.command) && ui.hasUI && Contains(h.toolInput.command, ui.deliverablePath.value) {
        state := Opened(state, now);
        file.Save(state);
      }
      if state.state == Some(Completing) {
        var results, allRequiredDone, checklist := CheckCompletionStatus(state, world);
        state := WithCompletion(state, results, allRequiredDone, now);
        file.Save(state);
      }
    }
  }

  // ---------------------------------------------------------------------
  // What a run keeps

  /** Only Task and Bash calls are looked at, and only with a readable state file. */
  lemma OnlyTaskOrBash(stored: Option<StateDoc>, w: World, input: Option<HookInput>, outcomes: Outcomes, now: string)
    requires input.None? || (input.value.tool != Task && input.value.tool != Bash) || stored.None?
    ensures Enforced(stored, w, input, outcomes, now) == Run(stored, w, [])
  {
  }

  /**
   * Enforcement runs exactly when the state is COMPLETING, or the output
   * reads as a pass and every task is complete; otherwise no action is
   * taken and the world is left alone.
   */
  lemma TriggerRule(stored: Option<StateDoc>, w: World, input: Option<HookInput>, outcomes: Outcomes, now: string)
    requires input.Some? && (input.value.tool == Task || input.value.tool == Bash) && stored.Some?
    requires !Triggered(stored.value, input.value.toolOutput)
    ensures Enforced(stored, w, input, outcomes, now).executed == []
    ensures Enforced(stored, w, input, outcomes, now).world == w
    ensures input.value.tool == Task ==> Enforced(stored, w, input, outcomes, now).stored == stored
  {
  }

  /**
   * From `before` to `after` the state is kept, or it goes from COMPLETING
   * to DONE with the previous state COMPLETING and the recorded flag
   * saying every required item is done.
   */
  predicate StepsToDone(before: StateDoc, after: StateDoc) {
    || after.state == before.state
    || (&& before.state == Some(Completing) && after.state == Some(Done)
        && after.previousState == Some(Completing)
        && after.completion.Some? && after.completion.value.allRequiredDone == Some(true))
  }

  /** The completion pass keeps the state or finishes it by the rule. */
  lemma CompletionPassSteps(doc: StateDoc, w: World, outcomes: Outcomes, now: string)
    ensures CompletionPass(doc, w, outcomes, now).stored.Some?
    ensures StepsToDone(doc, CompletionPass(doc, w, outcomes, now).stored.value)
  {
    var checklist := Checklist(doc, w);
    var results := ResultsOf(checklist, doc, w);
    AutoTouchesOnlyDeliverable(doc, results, checklist, w, outcomes, now);
  }

  /** The Bash pass keeps the state, and it rewrites no finished record. */
  lemma BashPassKeeps(r: Run, command: string, now: string)
    requires r.stored.Some?
    ensures var d, e := r.stored.value, BashPass(r, r.stored.value, command, now).stored;
      && e.Some? && e.value.state == d.state
      && (d.state != Some(Completing) && d.completion.Some? ==>
            e.value.previousState == d.previousState && e.value.completion.Some?
            && e.value.completion.value.allRequiredDone == d.completion.value.allRequiredDone)
  {
  }

  /**
   * The state moves only from COMPLETING to DONE, and then the previous
   * state is COMPLETING and the recorded flag says every required item
   * is done.
   */
  lemma DoneRule(stored: Option<StateDoc>, w: World, input: Option<HookInput>, outcomes: Outcomes, now: string)
    requires stored.Some?
    ensures Enforced(stored, w, input, outcomes, now).stored.Some?
    ensures StepsToDone(stored.value, Enforced(stored, w, input, outcomes, now).stored.value)
  {
    if input.Some? && (input.value.tool == Task || input.value.tool == Bash) {
      var h := input.value;
      var doc := stored.value;
      var r1 := if Triggered(doc, h.toolOutput) then CompletionPass(doc, w, outcomes, now) else Run(stored, w, []);
      CompletionPassSteps(doc, w, outcomes, now);
      assert r1.stored.Some? && StepsToDone(doc, r1.stored.value);
      if h.tool == Bash {
        BashPassKeeps(r1, h.toolInput.command, now);
      }
    }
  }

  /** With every required item done, a COMPLETING run ends in DONE without running anything. */
  lemma CompletingAndDone(doc: StateDoc, w: World, outcomes: Outcomes, now: string)
    requires doc.state == Some(Completing)
    requires w.gitClean && ArchiveDone(doc, w) && OpenedDone(doc, w)
    ensures var r := CompletionPass(doc, w, outcomes, now);
      r.executed == [] && r.world == w && r.stored.Some? && r.stored.value.state == Some(Done)
  {
    RequiredDoneRule(doc, w);
  }
}
