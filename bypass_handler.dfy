/**
 * The bypass handler (`bypass-handler.js`): the escape hatch that lets a
 * user skip the current workflow phase with a stated reason, at most three
 * times, never from COMPLETING or DONE. Each accepted request is appended
 * to `bypass-records.json` and counted in `mainAgentOps.bypassed` of the
 * state file; a reset empties the records and the count.
 *
 * Whether writing each file succeeds is an input, and a failed write
 * leaves that file as it was.
 */
module BypassHandler {
  import opened Text
  import opened Workflow

  const MaxBypassCount := 3
  const MaxReasonLength := 500

  /**
   * `bypass-records.json`: its record list, or `None` when the file is
   * missing or does not parse (loading then yields no records).
   */
  class RecordLog {
    var stored: Option<seq<BypassRecord>>

    constructor (initial: Option<seq<BypassRecord>>)
      ensures stored == initial
    {
      stored := initial;
    }

    /** Writes `records` as the new file contents. */
    method Save(records: seq<BypassRecord>)
      modifies this
      ensures stored == Some(records)
    {
      stored := Some(records);
    }
  }

  // ---------------------------------------------------------------------
  // Loading and initialising the state

  /** The check `loadState` makes: a `state` field holding a non-empty string. */
  predicate ValidState(doc: StateDoc) {
    doc.state.Some? && PhaseName(doc.state.value) != ""
  }

  /** `loadState()`: the document, or `None` when it is missing or invalid. */
  function LoadState(stored: Option<StateDoc>): (r: Option<StateDoc>)
    ensures r.Some? <==> stored.Some? && ValidState(stored.value)
    ensures r.Some? ==> r == stored
  {
    if stored.Some? && ValidState(stored.value) then stored else None
  }

  /**
   * `initMainAgentOps(state)`: fills in missing counters and metadata. The
   * source's new counters object holds only `directCode` and `bypassed`;
   * zero counters stand for it here.
   */
  function InitOps(doc: StateDoc): (r: StateDoc)
    ensures r.mainAgentOps.Some? && r.metadata.Some?
  {
    doc.(mainAgentOps := Some(doc.mainAgentOps.GetOr(ZeroOps)), metadata := Some(doc.metadata.GetOr(Metadata(None))))
  }

  /** Initialising fills in only what is missing, and a second time changes nothing. */
  lemma InitOpsFillsMissing(doc: StateDoc)
    ensures doc.mainAgentOps.Some? ==> InitOps(doc).mainAgentOps == doc.mainAgentOps
    ensures doc.mainAgentOps.None? ==> InitOps(doc).mainAgentOps == Some(ZeroOps)
    ensures doc.metadata.Some? ==> InitOps(doc).metadata == doc.metadata
    ensures doc.metadata.None? ==> InitOps(doc).metadata == Some(Metadata(None))
    ensures InitOps(doc).(mainAgentOps := doc.mainAgentOps, metadata := doc.metadata) == doc
    ensures InitOps(InitOps(doc)) == InitOps(doc)
  {
  }

  /** `state.mainAgentOps?.bypassed || 0`. */
  function CurrentCount(doc: StateDoc): int {
    if doc.mainAgentOps.Some? then doc.mainAgentOps.value.bypassed else 0
  }

  // ---------------------------------------------------------------------
  // Requesting a bypass

  datatype BypassResult =
    | Refused(message: string)
    | Granted(message: string, reason: string, remaining: int)

  /** What a call returns and leaves in the two files. */
  datatype Outcome<R> = Outcome(result: R, state: Option<StateDoc>, records: Option<seq<BypassRecord>>)

  /** The state after an accepted bypass: the count one higher and the record kept as the last one. */
  function WithBypass(doc: StateDoc, record: BypassRecord): (r: StateDoc)
    ensures r.mainAgentOps.Some? && r.metadata.Some? && r.metadata.value.lastBypass == Some(record)
    ensures r.mainAgentOps.value.bypassed == CurrentCount(doc) + 1
    ensures r.state == doc.state && r.changeId == doc.changeId
  {
    var d := InitOps(doc);
    d.(mainAgentOps := Some(d.mainAgentOps.value.(bypassed := d.mainAgentOps.value.bypassed + 1)),
       metadata := Some(d.metadata.value.(lastBypass := Some(record))))
  }

  /** Why `requestBypass` refuses before it writes anything, if it does. */
  function EarlyRefusal(stored: Option<StateDoc>, reason: Option<string>): Option<string> {
    if reason.None? || reason.value == "" then Some("❌ 請提供有效的 bypass 原因")
    else if Utf16Length(reason.value) > MaxReasonLength then Some("❌ 原因長度不可超過 500 字元")
    else if LoadState(stored).None? then Some("無法載入工作流狀態")
    else
      var current := stored.value.state.value;
      if current == Completing || current == Done then Some("❌ Bypass 失敗：" + PhaseName(current) + " 階段不可跳過")
      else if CurrentCount(stored.value) >= MaxBypassCount then
        Some("❌ Bypass 失敗：已達最大次數限制 (" + IntToString(CurrentCount(stored.value)) + "/3)")
      else None
  }

  /** `requestBypass(reason)`. */
  function Request(stored: Option<StateDoc>, records: Option<seq<BypassRecord>>, reason: Option<string>,
                   now: string, recordsWritable: bool, stateWritable: bool): Outcome<BypassResult> {
    match EarlyRefusal(stored, reason)
    case Some(message) => Outcome(Refused(message), stored, records)
    case None =>
      var doc := stored.value;
      var name := PhaseName(doc.state.value);
      var record := BypassRecord(name, name, reason.value, now);
      var newRecords := records.GetOr([]) + [record];
      var newDoc := WithBypass(doc, record);
      if !recordsWritable then Outcome(Refused("儲存 bypass 記錄失敗"), stored, records)
      else if !stateWritable then Outcome(Refused("更新狀態檔案失敗"), stored, Some(newRecords))
      else
        Outcome(Granted("✅ Bypass 成功：跳過 " + name + " 階段", reason.value,
                        MaxBypassCount - newDoc.mainAgentOps.value.bypassed),
                Some(newDoc), Some(newRecords))
  }

  /** `requestBypass(reason)`, step by step over the two files. */
  method RequestBypass(file: StateFile, log: RecordLog, reason: Option<string>, now: string,
                       recordsWritable: bool, stateWritable: bool) returns (result: BypassResult)
    modifies file, log
    ensures Outcome(result, file.stored, log.stored)
      == Request(old(file.stored), old(log.stored), reason, now, recordsWritable, stateWritable)
  {
    if reason.None? || reason.value == "" {
      return Refused("❌ 請提供有效的 bypass 原因");
    }
    if Utf16Length(reason.value) > MaxReasonLength {
      return Refused("❌ 原因長度不可超過 500 字元");
    }
    var loaded := LoadState(file.stored);
    if loaded.None? {
      return Refused("無法載入工作流狀態");
    }
    var state := loaded.value;
    var currentState := state.state.value;
    if currentState == Completing || currentState == Done {
      return Refused("❌ Bypass 失敗：" + PhaseName(currentState) + " 階段不可跳過");
    }
    var bypassRecords := log.stored.GetOr([]);
    var currentCount := CurrentCount(state);
    if currentCount >= MaxBypassCount {
      return Refused("❌ Bypass 失敗：已達最大次數限制 (" + IntToString(currentCount) + "/3)");
    }
    var skippedState := PhaseName(currentState);
    var bypassRecord := BypassRecord(PhaseName(currentState), skippedState, reason.value, now);
    bypassRecords := bypassRecords + [bypassRecord];
    state := InitOps(state);
    state := state.(mainAgentOps := Some(state.mainAgentOps.value.(bypassed := state.mainAgentOps.value.bypassed + 1)));
    state := state.(metadata := Some(state.metadata.value.(lastBypass := Some(bypassRecord))));
    if !recordsWritable {
      return Refused("儲存 bypass 記錄失敗");
    }
    log.Save(bypassRecords);
    if !stateWritable {
      return Refused("更新狀態檔案失敗");
    }
    file.Save(state);
    result := Granted("✅ Bypass 成功：跳過 " + skippedState + " 階段", reason.value,
                      MaxBypassCount - state.mainAgentOps.value.bypassed);
  }

  /** A missing, empty or over-long reason is refused, and nothing is written. */
  lemma InvalidReasonRefused(stored: Option<StateDoc>, records: Option<seq<BypassRecord>>, reason: Option<string>,
                             now: string, recordsWritable: bool, stateWritable: bool)
    requires reason.None? || reason.value == "" || Utf16Length(reason.value) > MaxReasonLength
    ensures Request(stored, records, reason, now, recordsWritable, stateWritable)
      == Outcome(Refused(EarlyRefusal(stored, reason).value), stored, records)
  {
  }

  /** COMPLETING and DONE cannot be skipped. */
  lemma ClosingPhasesRefused(stored: Option<StateDoc>, records: Option<seq<BypassRecord>>, reason: Option<string>,
                             now: string, recordsWritable: bool, stateWritable: bool)
    requires stored.Some? && (stored.value.state == Some(Completing) || stored.value.state == Some(Done))
    ensures Request(stored, records, reason, now, recordsWritable, stateWritable).result.Refused?
    ensures Request(stored, records, reason, now, recordsWritable, stateWritable).state == stored
    ensures Request(stored, records, reason, now, recordsWritable, stateWritable).records == records
  {
  }

  /**
   * The limit: from three (or more) bypasses the request is refused, and
   * an accepted one lifts a count below three by exactly one, so the count
   * never passes three.
   */
  lemma LimitHolds(stored: Option<StateDoc>, records: Option<seq<BypassRecord>>, reason: Option<string>,
                   now: string, recordsWritable: bool, stateWritable: bool)
    requires stored.Some? && CurrentCount(stored.value) >= MaxBypassCount
    ensures Request(stored, records, reason, now, recordsWritable, stateWritable).result.Refused?
    ensures Request(stored, records, reason, now, recordsWritable, stateWritable).state == stored
  {
  }

  /**
   * An accepted bypass counts one more, appends one record whose skipped
   * state is the current state, keeps it as the last bypass, and reports
   * how many remain.
   */
  lemma GrantedEffect(stored: Option<StateDoc>, records: Option<seq<BypassRecord>>, reason: Option<string>,
                      now: string, recordsWritable: bool, stateWritable: bool)
    requires Request(stored, records, reason, now, recordsWritable, stateWritable).result.Granted?
    ensures var o := Request(stored, records, reason, now, recordsWritable, stateWritable);
      && stored.Some? && stored.value.state.Some? && reason.Some?
      && CurrentCount(stored.value) < MaxBypassCount
      && o.state.Some? && o.state.value.mainAgentOps.Some?
      && o.state.value.mainAgentOps.value.bypassed == CurrentCount(stored.value) + 1 <= MaxBypassCount
      && o.state.value.state == stored.value.state
      && o.records.Some? && |o.records.value| == |records.GetOr([])| + 1
      && o.records.value[..|o.records.value| - 1] == records.GetOr([])
      && o.records.value[|o.records.value| - 1] == BypassRecord(PhaseName(stored.value.state.value), PhaseName(stored.value.state.value), reason.value, now)
      && o.state.value.metadata.Some? && o.state.value.metadata.value.lastBypass == Some(o.records.value[|o.records.value| - 1])
      && o.result.remaining == MaxBypassCount - o.state.value.mainAgentOps.value.bypassed
  {
  }

  /**
   * Every refusal made before the first write leaves both files as they
   * were; only a failed state write comes after the records were written.
   */
  lemma RefusalsWriteNothing(stored: Option<StateDoc>, records: Option<seq<BypassRecord>>, reason: Option<string>,
                             now: string, recordsWritable: bool, stateWritable: bool)
    ensures var o := Request(stored, records, reason, now, recordsWritable, stateWritable);
      o.result.Refused? ==> o.state == stored
    ensures var o := Request(stored, records, reason, now, recordsWritable, stateWritable);
      o.result.Refused? && o.records != records ==> o.result.message == "更新狀態檔案失敗" && EarlyRefusal(stored, reason).None?
    ensures EarlyRefusal(stored, reason).Some? ==>
      Request(stored, records, reason, now, recordsWritable, stateWritable) == Outcome(Refused(EarlyRefusal(stored, reason).value), stored, records)
  {
  }

  // ---------------------------------------------------------------------
  // Status and reset

  datatype BypassStatus = BypassStatus(currentCount: int, remaining: int, maxCount: int,
                                       records: seq<BypassRecord>, currentState: string)

  /** `getBypassStatus()`: `None` when the state cannot be loaded. */
  function Status(stored: Option<StateDoc>, records: Option<seq<BypassRecord>>): (s: Option<BypassStatus>)
    ensures s.Some? <==> LoadState(stored).Some?
    ensures s.Some? ==> s.value.currentCount + s.value.remaining == MaxBypassCount == s.value.maxCount
  {
    match LoadState(stored)
    case None => None
    case Some(doc) =>
      var count := CurrentCount(doc);
      Some(BypassStatus(count, MaxBypassCount - count, MaxBypassCount, records.GetOr([]), PhaseName(doc.state.value)))
  }

  datatype ResetResult = ResetResult(success: bool, message: string)

  /** The state after a reset: no bypasses counted and no last bypass. */
  function Cleared(doc: StateDoc): (r: StateDoc)
    ensures r.mainAgentOps.Some? && r.mainAgentOps.value.bypassed == 0
    ensures r.metadata == Some(Metadata(None))
    ensures r.state == doc.state
  {
    var d := InitOps(doc);
    d.(mainAgentOps := Some(d.mainAgentOps.value.(bypassed := 0)), metadata := Some(d.metadata.value.(lastBypass := None)))
  }

  /** `resetBypassRecords()`: the state is rewritten only if it loads, and a failed state write goes unreported. */
  function Reset(stored: Option<StateDoc>, records: Option<seq<BypassRecord>>,
                 recordsWritable: bool, stateWritable: bool): Outcome<ResetResult> {
    if !recordsWritable then Outcome(ResetResult(false, "重置記錄失敗"), stored, records)
    else
      var loaded := LoadState(stored);
      var newState := if loaded.Some? && stateWritable then Some(Cleared(loaded.value)) else stored;
      Outcome(ResetResult(true, "✅ Bypass 記錄已重置"), newState, Some([]))
  }

  /** `resetBypassRecords()`, step by step over the two files. */
  method ResetBypassRecords(file: StateFile, log: RecordLog, recordsWritable: bool, stateWritable: bool)
    returns (result: ResetResult)
    modifies file, log
    ensures Outcome(result, file.stored, log.stored) == Reset(old(file.stored), old(log.stored), recordsWritable, stateWritable)
  {
    if !recordsWritable {
      return ResetResult(false, "重置記錄失敗");
    }
    log.Save([]);
    var loaded := LoadState(file.stored);
    if loaded.Some? {
      var state := InitOps(loaded.value);
      state := state.(mainAgentOps := Some(state.mainAgentOps.value.(bypassed := 0)));
      if state.metadata.value.lastBypass.Some? {
        state := state.(metadata := Some(state.metadata.value.(lastBypass := None)));
      }
      if stateWritable {
        file.Save(state);
      }
    }
    result := ResetResult(true, "✅ Bypass 記錄已重置");
  }

  /**
   * A reset empties the records; a loadable state then counts no bypass
   * and keeps no last bypass, and a second reset changes nothing more.
   */
  lemma ResetEffect(stored: Option<StateDoc>, records: Option<seq<BypassRecord>>, stateWritable: bool)
    ensures var o := Reset(stored, records, true, stateWritable);
      && o.result.success && o.records == Some([])
      && (LoadState(stored).Some? && stateWritable ==>
            o.state.Some? && CurrentCount(o.state.value) == 0 && o.state.value.metadata == Some(Metadata(None))
            && o.state.value.state == stored.value.state)
    ensures var o := Reset(stored, records, true, stateWritable);
      Reset(o.state, o.records, true, stateWritable) == o
  {
  }

  /** After a reset whose writes succeed, a loadable state can take three bypasses again. */
  lemma ResetRestoresBudget(stored: Option<StateDoc>, records: Option<seq<BypassRecord>>)
    requires LoadState(stored).Some?
    ensures Status(Reset(stored, records, true, true).state, Reset(stored, records, true, true).records).Some?
    ensures Status(Reset(stored, records, true, true).state, Reset(stored, records, true, true).records).value.remaining == MaxBypassCount
  {
  }
}
