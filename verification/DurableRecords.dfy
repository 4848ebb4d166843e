/** Durable run records and the pure helpers that build one record from another. */
module DurableRecords {
  import opened Contracts
  import opened History

  datatype RunStatus =
    | StatusCompleted | StatusRejected | InvalidModelResponse | ModelFailure | ToolFailure
    | LimitReached | TimedOut | StatusCancelled | RecoveryRequired | ExecutionInFlight

  datatype DurableState =
    | Running | ToolPrepared | ToolInFlight | ToolCompleted
    | RunRecoveryRequired | RunCompleted | RunFailed | RunCancelled

  predicate Terminal(state: DurableState) {
    state in {RunCompleted, RunFailed, RunCancelled, RunRecoveryRequired}
  }

  predicate PendingTool(state: DurableState) {
    state in {ToolPrepared, ToolInFlight, ToolCompleted}
  }

  datatype EventKind =
    | RunStartedEvent | ModelTurnEvent | ModelResponseEvent | ToolRequestedEvent
    | ToolCompletedEvent | ToolRejectedEvent | RunCompletedEvent | RunFailedEvent

  datatype RunEvent = RunEvent(kind: EventKind, step: nat, requestId: Option<string>)

  datatype RunLimits = RunLimits(
    maxTaskChars: nat,
    maxModelTextChars: nat,
    maxObservationChars: nat,
    maxContextMessages: nat,
    maxOutputTokens: nat)

  /** An agent profile without its free metadata: exactly what the profile
      fingerprint covers, so it stands for the fingerprint as well. */
  datatype Profile = Profile(
    agentId: string,
    instructions: string,
    modelRoute: string,
    permitted: set<string>,
    maxModelTurns: nat,
    maxToolCalls: nat,
    timeoutSeconds: real,
    knowledgeRequiredForTools: bool,
    limits: RunLimits)

  /** The eight `pending_*` fields of a stored record. */
  datatype Pending = Pending(
    requestId: Option<string> := None,
    idempotencyKey: Option<string> := None,
    action: Option<Action> := None,
    toolCallId: Option<string> := None,
    toolName: Option<string> := None,
    status: Option<ExecutionStatus> := None,
    output: Option<string> := None,
    reason: Option<string> := None)

  const NOTHING_PENDING := Pending()

  datatype StoredRunRecord = StoredRunRecord(
    version: nat,
    runId: string,
    state: DurableState,
    fingerprint: Profile,
    task: string,
    nextStep: nat,
    toolCalls: nat,
    modelTurns: nat,
    messages: seq<Message>,
    events: seq<RunEvent>,
    pending: Pending,
    terminalStatus: Option<RunStatus>,
    finalText: Option<string>)

  datatype RunResult = RunResult(
    runId: string,
    status: RunStatus,
    finalText: Option<string>,
    toolCalls: nat,
    modelTurns: nat,
    events: seq<RunEvent>)

  function NewRunningRecord(
    runId: string, profile: Profile, task: string, messages: seq<Message>, events: seq<RunEvent>): StoredRunRecord
  {
    StoredRunRecord(
      0, runId, Running, profile, task, 1, 0, 0, messages, events,
      NOTHING_PENDING, None, None)
  }

  /** The keyword arguments of `persist_record`: an absent one keeps the stored value. */
  datatype RecordUpdate = RecordUpdate(
    state: Option<DurableState> := None,
    events: Option<seq<RunEvent>> := None,
    messages: Option<seq<Message>> := None,
    toolCalls: Option<nat> := None,
    modelTurns: Option<nat> := None,
    nextStep: Option<nat> := None,
    pending: Pending := NOTHING_PENDING,
    clearPending: bool := false)

  function KeepUnless<T>(update: Option<T>, stored: T): T {
    if update.Some? then update.value else stored
  }

  function KeepSome<T>(update: Option<T>, stored: Option<T>): Option<T> {
    if update.Some? then update else stored
  }

  function KeepPending(update: Pending, stored: Pending): Pending {
    Pending(
      KeepSome(update.requestId, stored.requestId),
      KeepSome(update.idempotencyKey, stored.idempotencyKey),
      KeepSome(update.action, stored.action),
      KeepSome(update.toolCallId, stored.toolCallId),
      KeepSome(update.toolName, stored.toolName),
      KeepSome(update.status, stored.status),
      KeepSome(update.output, stored.output),
      KeepSome(update.reason, stored.reason))
  }

  function PersistRecord(r: StoredRunRecord, u: RecordUpdate): StoredRunRecord {
    r.(
    state := KeepUnless(u.state, r.state),
    events := KeepUnless(u.events, r.events),
    messages := KeepUnless(u.messages, r.messages),
    toolCalls := KeepUnless(u.toolCalls, r.toolCalls),
    modelTurns := KeepUnless(u.modelTurns, r.modelTurns),
    nextStep := KeepUnless(u.nextStep, r.nextStep),
    pending := if u.clearPending then NOTHING_PENDING else KeepPending(u.pending, r.pending))
  }

  /** `finalize_durable_record`: a terminal record drops every pending field. */
  function FinalizeRecord(
    r: StoredRunRecord, state: DurableState, status: RunStatus, finalText: Option<string>,
    events: seq<RunEvent>, messages: seq<Message>, toolCalls: nat, modelTurns: nat): StoredRunRecord
  {
    StoredRunRecord(
      r.version, r.runId, state, r.fingerprint, r.task, r.nextStep, toolCalls, modelTurns, messages, events,
      NOTHING_PENDING, Some(status), finalText)
  }

  /** `_validate_state_fields`: what a loaded record must satisfy. */
  predicate ValidStateFields(r: StoredRunRecord) {
    if Terminal(r.state) then r.terminalStatus.Some?
    else
      && r.terminalStatus.None?
      && (PendingTool(r.state) ==>
            && r.pending.requestId.Some? && r.pending.idempotencyKey.Some? && r.pending.action.Some?
            && r.pending.toolCallId.Some? && r.pending.toolName.Some?)
      && (r.state == ToolCompleted ==> r.pending.status.Some?)
  }

  predicate NoPendingExecution(r: StoredRunRecord) {
    r.pending.status.None? && r.pending.output.None? && r.pending.reason.None?
  }

  /** `restore_tool_call`: the saved assistant turn, checked against the pending fields. */
  ghost function RestoreToolCall(r: StoredRunRecord): Option<ToolCall> {
    if r.pending.toolCallId.None? || r.pending.toolName.None? || r.pending.action.None? then None
    else if !ValidHistory(r.messages, true) || !EndsWithCall(r.messages) then None
    else
      var call := r.messages[|r.messages|-1].call;
      if call == ToolCall(r.pending.toolCallId.value, r.pending.toolName.value, r.pending.action.value.arguments)
      then Some(call) else None
  }

  /** `restore_execution`: only four facts of the execution were stored. */
  function RestoreExecution(r: StoredRunRecord): Option<GovernedExecution> {
    if r.pending.status.None? || r.pending.requestId.None? then None
    else
      Some(GovernedExecution(
             r.pending.status.value, r.pending.requestId.value, ExpectedToolExecuted(r.pending.status.value),
             KeepUnless(r.pending.reason, ""), r.pending.output, false))
  }

  function RecordToResult(r: StoredRunRecord): RunResult
    requires r.terminalStatus.Some?
  {
    RunResult(r.runId, r.terminalStatus.value, r.finalText, r.toolCalls, r.modelTurns, r.events)
  }

  function InFlightResult(r: StoredRunRecord): RunResult {
    RunResult(r.runId, ExecutionInFlight, None, r.toolCalls, r.modelTurns, r.events)
  }
}
