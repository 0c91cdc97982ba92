/**
 * The loop-recovery detector (`loop-recovery-detector.js`): at session
 * start, when a persisted loop is unfinished and has been idle for longer
 * than the configured limit, it prints a prompt offering to resume it.
 *
 * Reading the clock and parsing the heartbeat timestamp are left to the
 * caller: `nowMs` is `Date.now()` and `heartbeatMs` is the parsed
 * `lastHeartbeat` in milliseconds, `None` when it is not a valid date.
 */
module LoopRecovery {
  import opened Text

  const MillisPerMinute := 60000
  /** `MAX_IDLE_MS`: thirty days. */
  const MaxIdleMillis := 30 * 24 * 60 * 60 * 1000
  const MaxIdleMinutes := 43200
  const DefaultMaxIdleMinutes := 30

  /** `calculateIdleMinutes(lastHeartbeat)`. */
  function IdleMinutes(heartbeatMs: Option<int>, nowMs: int): (r: Option<int>)
    ensures r.Some? ==> 0 <= r.value <= MaxIdleMinutes
  {
    if heartbeatMs.None? then None
    else if heartbeatMs.value > nowMs then None
    else
      var diff := nowMs - heartbeatMs.value;
      if diff > MaxIdleMillis then Some(MaxIdleMillis / MillisPerMinute)
      else Some(diff / MillisPerMinute)
  }

  /** An invalid heartbeat, or one in the future, gives no idle time. */
  lemma IdleUndefined(heartbeatMs: Option<int>, nowMs: int)
    ensures IdleMinutes(heartbeatMs, nowMs).None? <==> heartbeatMs.None? || heartbeatMs.value > nowMs
  {
  }

  /**
   * Otherwise the idle time is the whole minutes elapsed, capped at thirty
   * days (43200 minutes).
   */
  lemma IdleIsWholeMinutes(heartbeatMs: Option<int>, nowMs: int)
    requires heartbeatMs.Some? && heartbeatMs.value <= nowMs
    ensures var m := IdleMinutes(heartbeatMs, nowMs).value;
      var diff := nowMs - heartbeatMs.value;
      && 0 <= m <= MaxIdleMinutes
      && (diff > MaxIdleMillis ==> m == MaxIdleMinutes)
      && (diff <= MaxIdleMillis ==> m * MillisPerMinute <= diff < (m + 1) * MillisPerMinute)
  {
  }

  // ---------------------------------------------------------------------
  // The idle time as text

  /** `formatTimeDiff(minutes)`. */
  function FormatTimeDiff(minutes: nat): string {
    if minutes < 60 then NatToString(minutes) + " 分鐘"
    else
      var hours := minutes / 60;
      var mins := minutes % 60;
      if hours < 24 then
        (if mins > 0 then NatToString(hours) + " 小時 " + NatToString(mins) + " 分鐘"
         else NatToString(hours) + " 小時")
      else
        var days := hours / 24;
        var remainHours := hours % 24;
        if remainHours > 0 then NatToString(days) + " 天 " + NatToString(remainHours) + " 小時"
        else NatToString(days) + " 天"
  }

  /** Under an hour, the minutes alone. */
  lemma UnderAnHour(m: nat)
    requires m < 60
    ensures FormatTimeDiff(m) == NatToString(m) + " 分鐘"
  {
  }

  /**
   * Under a day, hours and minutes that add up to `m`, the minutes left out
   * when there are none.
   */
  lemma UnderADay(m: nat)
    requires 60 <= m < 1440
    ensures exists h: nat, n: nat ::
              (&& 1 <= h < 24 && n < 60 && h * 60 + n == m
               && FormatTimeDiff(m) == (if n > 0 then NatToString(h) + " 小時 " + NatToString(n) + " 分鐘"
                                        else NatToString(h) + " 小時"))
  {
    var h, n := m / 60, m % 60;
    assert h * 60 + n == m && 1 <= h < 24;
    assert FormatTimeDiff(m) == (if n > 0 then NatToString(h) + " 小時 " + NatToString(n) + " 分鐘"
                                 else NatToString(h) + " 小時");
  }

  /**
   * From a day on, days and the remaining hours, the hours left out when
   * there are none; minutes no longer show.
   */
  lemma ADayOrMore(m: nat)
    requires m >= 1440
    ensures exists d: nat, h: nat ::
              (&& d >= 1 && h < 24 && d * 1440 + h * 60 <= m < d * 1440 + h * 60 + 60
               && FormatTimeDiff(m) == (if h > 0 then NatToString(d) + " 天 " + NatToString(h) + " 小時"
                                        else NatToString(d) + " 天"))
  {
    var hours := m / 60;
    var d, h := hours / 24, hours % 24;
    assert hours * 60 <= m < hours * 60 + 60;
    assert d * 24 + h == hours && d >= 1;
    assert d * 1440 + h * 60 == hours * 60;
    assert FormatTimeDiff(m) == (if h > 0 then NatToString(d) + " 天 " + NatToString(h) + " 小時"
                                 else NatToString(d) + " 天");
  }

  // ---------------------------------------------------------------------
  // The session-start check

  /** `config.autoRecovery`; a `maxIdleMinutes` of 0 stands for a missing one. */
  datatype AutoRecovery = AutoRecovery(enabled: bool, maxIdleMinutes: int, promptOnSessionStart: bool)

  /** `config.loopPersistence`, `{ enabled: false }` when the file or the section is missing. */
  datatype LoopConfig = LoopConfig(enabled: bool, autoRecovery: Option<AutoRecovery>)

  /** `~/.claude/loop-state/current.json`; `stateFile` is "" when `loopConfig.stateFile` is missing. */
  datatype LoopState = LoopState(loopId: string, projectPath: string, status: string,
                                 lastHeartbeat: string, heartbeatMs: Option<int>, stateFile: string)

  /** The lines of the prompt that depend on the loop (the banner and the advice are fixed text). */
  function PromptLines(state: LoopState, idle: nat): (lines: seq<string>) {
    ["📋 Loop ID: " + state.loopId,
     "📁 專案路徑: " + state.projectPath,
     "⏰ 最後活動: " + state.lastHeartbeat,
     "⏳ 已閒置: " + FormatTimeDiff(idle),
     "📊 狀態: " + state.status]
    + (if state.stateFile != "" then ["📄 狀態檔案: " + state.stateFile] else [])
  }

  /** `main()`: the prompt's loop-specific lines, or `None` when nothing is printed. */
  function Detect(config: LoopConfig, state: Option<LoopState>, nowMs: int): Option<seq<string>> {
    if !config.enabled || config.autoRecovery.None? || !config.autoRecovery.value.enabled then None
    else if state.None? then None
    else if state.value.status == "completed" || state.value.status == "cancelled" then None
    else
      var idle := IdleMinutes(state.value.heartbeatMs, nowMs);
      if idle.None? then None
      else
        var auto := config.autoRecovery.value;
        var maxIdle := if auto.maxIdleMinutes != 0 then auto.maxIdleMinutes else DefaultMaxIdleMinutes;
        if idle.value > maxIdle && auto.promptOnSessionStart then Some(PromptLines(state.value, idle.value))
        else None
  }

  /**
   * The prompt appears exactly when persistence and auto-recovery are on,
   * the loop is neither completed nor cancelled, its heartbeat is valid and
   * not in the future, it has been idle longer than the limit (30 minutes
   * unless configured), and prompting at session start is on; it then
   * shows the idle time as text.
   */
  lemma PromptRule(config: LoopConfig, state: Option<LoopState>, nowMs: int)
    ensures Detect(config, state, nowMs).Some? <==>
      && config.enabled && config.autoRecovery.Some? && config.autoRecovery.value.enabled
      && state.Some? && state.value.status != "completed" && state.value.status != "cancelled"
      && state.value.heartbeatMs.Some? && state.value.heartbeatMs.value <= nowMs
      && IdleMinutes(state.value.heartbeatMs, nowMs).value
           > (if config.autoRecovery.value.maxIdleMinutes != 0 then config.autoRecovery.value.maxIdleMinutes
              else DefaultMaxIdleMinutes)
      && config.autoRecovery.value.promptOnSessionStart
    ensures Detect(config, state, nowMs).Some? ==>
      Detect(config, state, nowMs).value[3]
        == "⏳ 已閒置: " + FormatTimeDiff(IdleMinutes(state.value.heartbeatMs, nowMs).value)
  {
  }

  /** With the default limit, a loop idle for at most 30 minutes is never offered. */
  lemma RecentLoopNotOffered(config: LoopConfig, state: LoopState, nowMs: int)
    requires config.autoRecovery.Some? && config.autoRecovery.value.maxIdleMinutes == 0
    requires state.heartbeatMs.Some? && nowMs - state.heartbeatMs.value < 31 * MillisPerMinute
    ensures Detect(config, Some(state), nowMs).None?
  {
  }
}
