/** One worker of the durable agent loop as a state machine. Each step is the local
    code between two store operations followed by one store operation, so a crash
    between any two store operations falls between two steps. */
module DurableWorker {
  import opened Contracts
  import opened History
  import opened DurableRecords

  /** What a deployment fixes for every worker of a run: the request id factory, the
      text of a tool observation and which proposed calls make a valid action. */
  datatype Deployment = Deployment(
    requestId: (string, nat) -> string,
    render: (string, Option<string>) -> string,
    captures: (ToolCall, string) -> bool)

  ghost predicate ValidDeployment(d: Deployment) {
    forall runId, step :: !Blank(d.requestId(runId, step))
  }

  /** One call of `run`: its input, the agent's profile and tools, and what the
      knowledge source answered this time. */
  datatype Session = Session(
    runId: string,
    task: string,
    profile: Profile,
    tools: map<string, string>,
    knowledge: Option<string>,
    toolsBlocked: bool)

  predicate ToolsRegistered(s: Session) {
    s.profile.permitted <= s.tools.Keys
  }

  datatype ModelOutput = TextOutput(text: string) | CallOutput(call: ToolCall) | Unsupported

  datatype ModelReply = Fails | Replies(output: ModelOutput)

  /** Everything a step reads from outside: cancellation and deadline checks in the
      order the code makes them, the model's reply, the runtime's result. */
  datatype Input = Input(
    cancelled: bool,
    expired: bool,
    cancelledAtDispatch: bool,
    expiredAtDispatch: bool,
    reply: ModelReply,
    execution: GovernedExecution)

  datatype Context = Context(
    record: StoredRunRecord,
    events: seq<RunEvent>,
    messages: seq<Message>,
    toolCalls: nat,
    modelTurns: nat)

  datatype Phase = Fresh | ResumePrepared | ResumeCompleted

  /** A tool call in progress: the local variables of `_execute_durable_tool`. */
  datatype Job = Job(step: nat, call: ToolCall, requestId: string, resumed: bool)

  datatype Point =
    | LoopTop(step: nat, phase: Phase)
    | ModelReturned(step: nat, output: ModelOutput)
    | ToClaim(job: Job, action: Action)
    | HoldsClaim(job: Job, action: Action)
    | Dispatched(job: Job, execution: GovernedExecution)
    | ToMerge(job: Job, execution: GovernedExecution)

  datatype WorkerOutcome = Returned(result: RunResult) | Raised

  datatype Stage =
    | Loading
    | Creating
    | Active(ctx: Context, point: Point)
    | Observing
    | Ended(outcome: WorkerOutcome)

  /** The two events a run is audited by: winning a claim, and handing the claimed
      action to the governed runtime. */
  datatype Effect =
    | NoEffect
    | WonClaim(step: nat, action: Action)
    | Dispatch(step: nat, action: Action, execution: GovernedExecution)

  type Store = Option<StoredRunRecord>

  datatype StepResult = StepResult(store: Store, stage: Stage, effect: Effect)

  function TerminalState(status: RunStatus): DurableState {
    match status
    case StatusCompleted => RunCompleted
    case StatusCancelled => RunCancelled
    case RecoveryRequired => RunRecoveryRequired
    case _ => RunFailed
  }

  /** Compare-and-swap; a conflict raises and ends the worker. */
  function Write(store: Store, record: StoredRunRecord, ctx: Context, point: Point): StepResult {
    if store.None? || store.value.version != ctx.record.version then StepResult(store, Ended(Raised), NoEffect)
    else
      var saved := record.(version := ctx.record.version + 1);
      StepResult(Some(saved), Active(ctx.(record := saved), point), NoEffect)
  }

  function TerminalRecord(ctx: Context, status: RunStatus, finalText: Option<string>): StoredRunRecord {
    var kind := if status == StatusCompleted then RunCompletedEvent else RunFailedEvent;
    FinalizeRecord(
      ctx.record, TerminalState(status), status, finalText,
      ctx.events + [RunEvent(kind, |ctx.events|, None)], ctx.messages, ctx.toolCalls, ctx.modelTurns)
  }

  function Finish(store: Store, ctx: Context, status: RunStatus, finalText: Option<string> := None): StepResult {
    if store.None? || store.value.version != ctx.record.version then StepResult(store, Ended(Raised), NoEffect)
    else
      var saved := TerminalRecord(ctx, status, finalText).(version := ctx.record.version + 1);
      StepResult(Some(saved), Ended(Returned(RecordToResult(saved))), NoEffect)
  }

  function Raise(store: Store): StepResult {
    StepResult(store, Ended(Raised), NoEffect)
  }

  function AddKnowledge(s: Session, messages: seq<Message>): seq<Message> {
    if s.knowledge.Some? then messages + [Text(UserRole, s.knowledge.value)] else messages
  }

  /** The start of the loop: knowledge is added unless a tool call is pending. */
  function EnterLoop(s: Session, r: StoredRunRecord): Stage {
    var messages := if r.state == Running then AddKnowledge(s, r.messages) else r.messages;
    var phase :=
      if r.state == ToolPrepared then ResumePrepared
      else if r.state == ToolCompleted then ResumeCompleted
      else Fresh;
    Active(Context(r, r.events, messages, r.toolCalls, r.modelTurns), LoopTop(r.nextStep, phase))
  }

  function Resume(s: Session, r: StoredRunRecord): Stage {
    if r.fingerprint != s.profile || Strip(s.task) != Strip(r.task) then Ended(Raised)
    else if Terminal(r.state) then
      if r.terminalStatus.Some? then Ended(Returned(RecordToResult(r))) else Ended(Raised)
    else if r.state == ToolInFlight then Ended(Returned(InFlightResult(r)))
    else EnterLoop(s, r)
  }

  function FirstRecord(s: Session): StoredRunRecord {
    NewRunningRecord(
      s.runId, s.profile, s.task,
      [Text(SystemRole, s.profile.instructions), Text(UserRole, s.task)],
      [RunEvent(RunStartedEvent, 0, None)])
  }

  function TaskTooLong(s: Session): RunResult {
    RunResult(s.runId, InvalidModelResponse, None, 0, 0, [RunEvent(RunFailedEvent, 0, None)])
  }

  function RequestIdFor(d: Deployment, r: StoredRunRecord, step: nat): string {
    if r.pending.requestId.Some? && r.pending.requestId.value != "" then r.pending.requestId.value
    else d.requestId(r.runId, step)
  }

  ghost function StepLoopTop(
    d: Deployment, s: Session, store: Store, ctx: Context, step: nat, phase: Phase, i: Input): StepResult
  {
    if !ToolsRegistered(s) then Finish(store, ctx, ModelFailure)
    else if step > s.profile.maxModelTurns then Finish(store, ctx, LimitReached)
    else if i.cancelled then Finish(store, ctx, StatusCancelled)
    else if i.expired then Finish(store, ctx, TimedOut)
    else if |ctx.messages| > s.profile.limits.maxContextMessages then Finish(store, ctx, LimitReached)
    else
      match phase
      case Fresh => CallModel(store, ctx, step, i.reply)
      case ResumePrepared => ResumeToClaim(d, s, store, ctx, step, i)
      case ResumeCompleted => ResumeToMerge(d, s, store, ctx, step)
  }

  /** A request is only sent with a complete history; a model error is terminal. */
  ghost function CallModel(store: Store, ctx: Context, step: nat, reply: ModelReply): StepResult {
    var asked := ctx.(events := ctx.events + [RunEvent(ModelTurnEvent, step, None)]);
    if !ValidHistory(ctx.messages, false) || reply.Fails? then Finish(store, asked, ModelFailure)
    else
      var turned := asked.(modelTurns := ctx.modelTurns + 1);
      Write(
        store,
        PersistRecord(ctx.record, RecordUpdate(
                        state := Some(Running), events := Some(turned.events), messages := Some(turned.messages),
                        modelTurns := Some(turned.modelTurns), nextStep := Some(step))),
        turned, ModelReturned(step, reply.output))
  }

  ghost function ResumeToClaim(
    d: Deployment, s: Session, store: Store, ctx: Context, step: nat, i: Input): StepResult
  {
    var restored := RestoreToolCall(ctx.record);
    if restored.None? || restored.value.name !in s.tools then Raise(store)
    else if s.toolsBlocked then Finish(store, ctx, ToolFailure)
    else if i.cancelledAtDispatch then Finish(store, ctx, StatusCancelled)
    else if i.expiredAtDispatch then Finish(store, ctx, TimedOut)
    else
      var job := Job(step, restored.value, RequestIdFor(d, ctx.record, step), true);
      StepResult(store, Active(ctx, ToClaim(job, ctx.record.pending.action.value)), NoEffect)
  }

  ghost function ResumeToMerge(d: Deployment, s: Session, store: Store, ctx: Context, step: nat): StepResult {
    var restored := RestoreToolCall(ctx.record);
    var execution := RestoreExecution(ctx.record);
    if restored.None? || restored.value.name !in s.tools || execution.None? || !WellFormed(execution.value) then
      Raise(store)
    else
      var job := Job(step, restored.value, RequestIdFor(d, ctx.record, step), true);
      StepResult(store, Active(ctx, ToMerge(job, execution.value)), NoEffect)
  }

  ghost function StepModelReturned(
    d: Deployment, s: Session, store: Store, ctx: Context, step: nat, output: ModelOutput, i: Input): StepResult
  {
    if i.cancelled then Finish(store, ctx, StatusCancelled)
    else if i.expired then Finish(store, ctx, TimedOut)
    else
      match output
      case TextOutput(text) =>
        if |text| > s.profile.limits.maxModelTextChars then Finish(store, ctx, InvalidModelResponse)
        else
          Finish(
            store, ctx.(events := ctx.events + [RunEvent(ModelResponseEvent, step, None)]),
            StatusCompleted, Some(text))
      case Unsupported => Finish(store, ctx, InvalidModelResponse)
      case CallOutput(call) =>
        if call.name !in s.profile.permitted || call.name !in s.tools then Finish(store, ctx, InvalidModelResponse)
        else if ctx.toolCalls >= s.profile.maxToolCalls then Finish(store, ctx, LimitReached)
        else Prepare(d, s, store, ctx, step, call, i)
  }

  function ActionFor(s: Session, runId: string, call: ToolCall, requestId: string): Action
    requires call.name in s.tools
  {
    Action(
      s.profile.agentId, call.name, s.tools[call.name], call.arguments, requestId, requestId, runId, call.callId)
  }

  ghost function Prepare(
    d: Deployment, s: Session, store: Store, ctx: Context, step: nat, call: ToolCall, i: Input): StepResult
    requires call.name in s.tools
  {
    var requestId := RequestIdFor(d, ctx.record, step);
    if s.toolsBlocked then Finish(store, ctx, ToolFailure)
    else if i.cancelledAtDispatch then Finish(store, ctx, StatusCancelled)
    else if i.expiredAtDispatch then Finish(store, ctx, TimedOut)
    else if !ValidHistory(ctx.messages + [Call(call)], true) || !d.captures(call, requestId) then
      Finish(store, ctx, InvalidModelResponse)
    else
      var action := ActionFor(s, ctx.record.runId, call, requestId);
      var asked := ctx.(
      messages := ctx.messages + [Call(call)],
      events := ctx.events + [RunEvent(ToolRequestedEvent, step, Some(requestId))]);
      Write(
        store,
        PersistRecord(ctx.record, RecordUpdate(
                        state := Some(ToolPrepared), events := Some(asked.events), messages := Some(asked.messages),
                        modelTurns := Some(asked.modelTurns), nextStep := Some(step),
                        pending := Pending(
                          requestId := Some(requestId), idempotencyKey := Some(requestId), action := Some(action),
                          toolCallId := Some(call.callId), toolName := Some(call.name)))),
        asked, ToClaim(Job(step, call, requestId, false), action))
  }

  function StepToClaim(store: Store, ctx: Context, job: Job, action: Action): StepResult {
    if store.None? then Raise(store)
    else if store.value.version != ctx.record.version || store.value.state != ToolPrepared then
      StepResult(store, Observing, NoEffect)
    else
      var claimed := store.value.(version := store.value.version + 1, state := ToolInFlight);
      StepResult(Some(claimed), Active(ctx.(record := claimed), HoldsClaim(job, action)), WonClaim(job.step, action))
  }

  /** `resolve_claim_conflict`: report the stored run, never change it. */
  function StepObserving(store: Store): StepResult {
    if store.None? then Raise(store)
    else if Terminal(store.value.state) then
      if store.value.terminalStatus.Some?
      then StepResult(store, Ended(Returned(RecordToResult(store.value))), NoEffect)
      else Raise(store)
    else StepResult(store, Ended(Returned(InFlightResult(store.value))), NoEffect)
  }

  /** The governed runtime returns a well-formed result for the action's request id
      (`GovernedRuntime.Execute`); other inputs are not runtime results. */
  function StepHoldsClaim(store: Store, ctx: Context, job: Job, action: Action, e: GovernedExecution): StepResult {
    if !WellFormed(e) || e.requestId != action.requestId then
      StepResult(store, Active(ctx, HoldsClaim(job, action)), NoEffect)
    else
      StepResult(
        store, Active(ctx.(toolCalls := ctx.toolCalls + 1), Dispatched(job, e)), Dispatch(job.step, action, e))
  }

  function StepDispatched(store: Store, ctx: Context, job: Job, e: GovernedExecution): StepResult {
    Write(
      store,
      PersistRecord(ctx.record, RecordUpdate(
                      state := Some(ToolCompleted), events := Some(ctx.events), messages := Some(ctx.messages),
                      toolCalls := Some(ctx.toolCalls), modelTurns := Some(ctx.modelTurns),
                      nextStep := Some(job.step),
                      pending := Pending(status := Some(e.status), output := e.output, reason := Some(e.reason)))),
      ctx, ToMerge(job, e))
  }

  function RejectionStatus(status: ExecutionStatus): RunStatus {
    if status == Blocked || status == ReviewRequired then StatusRejected else ToolFailure
  }

  function StepToMerge(
    d: Deployment, s: Session, store: Store, ctx: Context, job: Job, e: GovernedExecution): StepResult
  {
    if e.status != Executed then
      var rejected := ctx.(events := ctx.events + [RunEvent(ToolRejectedEvent, job.step, Some(job.requestId))]);
      Finish(store, rejected, RejectionStatus(e.status))
    else
      var observation := d.render(job.requestId, e.output);
      if |observation| > s.profile.limits.maxObservationChars then Finish(store, ctx, LimitReached)
      else
        var answered := ctx.messages + [Result(observation, job.call.callId, job.call.name)];
        var merged := ctx.(
        events := ctx.events + [RunEvent(ToolCompletedEvent, job.step, Some(job.requestId))],
        messages := if job.resumed then AddKnowledge(s, answered) else answered);
        Write(
          store,
          PersistRecord(ctx.record, RecordUpdate(
                          state := Some(Running), events := Some(merged.events), messages := Some(merged.messages),
                          toolCalls := Some(merged.toolCalls), modelTurns := Some(merged.modelTurns),
                          nextStep := Some(job.step + 1), clearPending := true)),
          merged, LoopTop(job.step + 1, Fresh))
  }

  ghost function StepPoint(
    d: Deployment, s: Session, store: Store, ctx: Context, point: Point, i: Input): StepResult
  {
    match point
    case LoopTop(step, phase) => StepLoopTop(d, s, store, ctx, step, phase, i)
    case ModelReturned(step, output) => StepModelReturned(d, s, store, ctx, step, output, i)
    case ToClaim(job, action) => StepToClaim(store, ctx, job, action)
    case HoldsClaim(job, action) => StepHoldsClaim(store, ctx, job, action, i.execution)
    case Dispatched(job, e) => StepDispatched(store, ctx, job, e)
    case ToMerge(job, e) => StepToMerge(d, s, store, ctx, job, e)
  }

  ghost function WorkerStep(d: Deployment, s: Session, store: Store, stage: Stage, i: Input): StepResult {
    match stage
    case Loading =>
      if Blank(s.task) then Raise(store)
      else if |s.task| > s.profile.limits.maxTaskChars then
        StepResult(store, Ended(Returned(TaskTooLong(s))), NoEffect)
      else if store.Some? then StepResult(store, Resume(s, store.value), NoEffect)
      else StepResult(store, Creating, NoEffect)
    case Creating =>
      if store.Some? then Raise(store)
      else StepResult(Some(FirstRecord(s)), EnterLoop(s, FirstRecord(s)), NoEffect)
    case Active(ctx, point) => StepPoint(d, s, store, ctx, point, i)
    case Observing => StepObserving(store)
    case Ended(_) => StepResult(store, stage, NoEffect)
  }
}
