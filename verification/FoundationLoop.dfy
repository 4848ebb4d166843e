/** The two loops of the foundation agent as they are written: the ephemeral one over
    local variables, and the durable one over a run store. Both are shown to compute
    the reference run, and the durable one to take exactly the worker's steps. */
module FoundationLoop {
  import opened Contracts
  import opened History
  import opened DurableRecords
  import opened RunStores
  import opened DurableWorker
  import opened DurableInvariant
  import opened AgentReference
  import opened DurableRefinement

  /** The part of `_run_ephemeral` that executes a proposed call. It does not check for
      cancellation or the deadline again before the dispatch. */
  method ExecuteProposal(
    d: Deployment, o: Oracle, s: Session, step: nat, messages: seq<Message>, toolCalls: nat, modelTurns: nat,
    call: ToolCall)
    returns (end: Option<Summary>, messages': seq<Message>)
    requires step <= s.profile.maxModelTurns && ValidHistory(messages, false) && o.signals(step).returned == Go
    ensures var rest := AfterReply(d, NoDispatchCheck(o), s, step, messages, toolCalls, modelTurns, CallOutput(call));
            if end.Some? then rest == end.value
            else
              && ValidHistory(messages', false)
              && rest == TurnFrom(d, NoDispatchCheck(o), s, step + 1, messages', toolCalls + 1, modelTurns)
    ensures var requestId := d.requestId(s.runId, step);
            && call.name in s.profile.permitted && call.name in s.tools && toolCalls < s.profile.maxToolCalls
            && !s.toolsBlocked && d.captures(call, requestId) && ValidHistory(messages + [Call(call)], true) ==>
              var e := o.runtime(
                         Action(
                           s.profile.agentId, call.name, s.tools[call.name], call.arguments, requestId, requestId,
                           s.runId, call.callId));
              match e.status
              case Blocked => end == Some(Summary(StatusRejected, None, toolCalls + 1, modelTurns))
              case ReviewRequired => end == Some(Summary(StatusRejected, None, toolCalls + 1, modelTurns))
              case ControlFailure => end == Some(Summary(ToolFailure, None, toolCalls + 1, modelTurns))
              case Indeterminate => end == Some(Summary(ToolFailure, None, toolCalls + 1, modelTurns))
              case Executed =>
                var observation := d.render(requestId, e.output);
                if |observation| > s.profile.limits.maxObservationChars
                then end == Some(Summary(LimitReached, None, toolCalls + 1, modelTurns))
                else end == None && messages' == messages + [Call(call), Result(observation, call.callId, call.name)]
  {
    messages' := messages;
    if call.name !in s.profile.permitted || call.name !in s.tools {
      return Some(Summary(InvalidModelResponse, None, toolCalls, modelTurns)), messages';
    }
    if toolCalls >= s.profile.maxToolCalls {
      return Some(Summary(LimitReached, None, toolCalls, modelTurns)), messages';
    }
    var requestId := d.requestId(s.runId, step);
    if s.toolsBlocked {
      return Some(Summary(ToolFailure, None, toolCalls, modelTurns)), messages';
    }
    if !d.captures(call, requestId) {
      return Some(Summary(InvalidModelResponse, None, toolCalls, modelTurns)), messages';
    }
    var action := ActionFor(s, s.runId, call, requestId);
    var admissible := ValidateHistory(messages + [Call(call)], true);
    if !admissible {
      return Some(Summary(InvalidModelResponse, None, toolCalls, modelTurns)), messages';
    }
    messages' := messages + [Call(call)];
    var execution := o.runtime(action);
    assert AfterReply(d, NoDispatchCheck(o), s, step, messages, toolCalls, modelTurns, CallOutput(call))
        == AfterExecution(
             d, NoDispatchCheck(o), s, step, messages', call, execution.status, execution.output, toolCalls + 1,
             modelTurns, false);
    if execution.status != Executed {
      return Some(Summary(RejectionStatus(execution.status), None, toolCalls + 1, modelTurns)), messages';
    }
    var observation := d.render(requestId, execution.output);
    if |observation| > s.profile.limits.maxObservationChars {
      return Some(Summary(LimitReached, None, toolCalls + 1, modelTurns)), messages';
    }
    ResultClosesHistory(messages', Result(observation, call.callId, call.name));
    assert messages' + [Result(observation, call.callId, call.name)]
        == messages + [Call(call), Result(observation, call.callId, call.name)];
    return None, messages' + [Result(observation, call.callId, call.name)];
  }

  /** `_run_ephemeral`, for any model, runtime and signals; None where it raises. It computes
      the reference run of a loop that does not check before a dispatch. */
  method RunEphemeral(d: Deployment, o: Oracle, s: Session) returns (r: Option<Summary>)
    ensures r == if Blank(s.task) then None
                 else if |s.task| > s.profile.limits.maxTaskChars then Some(Summary(InvalidModelResponse, None, 0, 0))
                 else Some(AgentRun(d, NoDispatchCheck(o), s))
  {
    if Blank(s.task) {
      return None;
    }
    if |s.task| > s.profile.limits.maxTaskChars {
      return Some(Summary(InvalidModelResponse, None, 0, 0));
    }
    var messages := [Text(SystemRole, s.profile.instructions), Text(UserRole, s.task)];
    FirstRecordGood(d, s);
    KnowledgeKeepsHistory(s, messages);
    if s.knowledge.Some? {
      messages := messages + [Text(UserRole, s.knowledge.value)];
    }
    var toolCalls, modelTurns := 0, 0;
    if !(s.profile.permitted <= s.tools.Keys) {
      return Some(Summary(ModelFailure, None, toolCalls, modelTurns));
    }
    ghost var run := AgentRun(d, NoDispatchCheck(o), s);
    var step := 1;
    while step <= s.profile.maxModelTurns
      invariant 1 <= step <= s.profile.maxModelTurns + 1 && ValidHistory(messages, false)
      invariant run == TurnFrom(d, NoDispatchCheck(o), s, step, messages, toolCalls, modelTurns)
    {
      var end: Option<Summary>;
      end, messages, toolCalls, modelTurns := RunTurn(d, o, s, step, messages, toolCalls, modelTurns);
      if end.Some? {
        return end;
      }
      step := step + 1;
    }
    return Some(Summary(LimitReached, None, toolCalls, modelTurns));
  }

  /** One pass of the loop of `_run_ephemeral`. */
  method RunTurn(
    d: Deployment, o: Oracle, s: Session, step: nat, messages: seq<Message>, toolCalls: nat, modelTurns: nat)
    returns (end: Option<Summary>, messages': seq<Message>, toolCalls': nat, modelTurns': nat)
    requires step <= s.profile.maxModelTurns && ValidHistory(messages, false)
    ensures var rest := TurnFrom(d, NoDispatchCheck(o), s, step, messages, toolCalls, modelTurns);
            if end.Some? then rest == end.value
            else
              && ValidHistory(messages', false)
              && rest == TurnFrom(d, NoDispatchCheck(o), s, step + 1, messages', toolCalls', modelTurns')
  {
    messages', toolCalls', modelTurns' := messages, toolCalls, modelTurns;
    var signals := o.signals(step);
    if signals.top != Go {
      end := Some(Summary(HaltStatus(signals.top), None, toolCalls, modelTurns));
      return;
    }
    if |messages| > s.profile.limits.maxContextMessages {
      end := Some(Summary(LimitReached, None, toolCalls, modelTurns));
      return;
    }
    var complete := ValidateHistory(messages, false);
    var reply := if complete then o.model(messages) else Fails;
    if reply.Fails? {
      end := Some(Summary(ModelFailure, None, toolCalls, modelTurns));
      return;
    }
    modelTurns' := modelTurns + 1;
    if signals.returned != Go {
      end := Some(Summary(HaltStatus(signals.returned), None, toolCalls, modelTurns'));
      return;
    }
    match reply.output {
      case TextOutput(text) =>
        if |text| > s.profile.limits.maxModelTextChars {
          end := Some(Summary(InvalidModelResponse, None, toolCalls, modelTurns'));
        } else {
          end := Some(Summary(StatusCompleted, Some(text), toolCalls, modelTurns'));
        }
      case Unsupported =>
        end := Some(Summary(InvalidModelResponse, None, toolCalls, modelTurns'));
      case CallOutput(call) =>
        end, messages' := ExecuteProposal(d, o, s, step, messages, toolCalls, modelTurns', call);
        toolCalls' := toolCalls + 1;
    }
  }

  function Lookup(records: Records, runId: string): Store {
    if runId in records then Some(records[runId]) else None
  }

  /** The run store now shows the result of one worker step, and no other run changed. */
  ghost predicate Performed(before: Records, after: Records, runId: string, res: StepResult) {
    Lookup(after, runId) == res.store && after - {runId} == before - {runId}
  }

  /** `_persist_terminal`. */
  method PersistTerminal(store: InMemoryRunStore, ctx: Context, status: RunStatus, finalText: Option<string>)
    returns (outcome: WorkerOutcome)
    modifies store
    ensures var res := Finish(Lookup(old(store.records), ctx.record.runId), ctx, status, finalText);
            Performed(old(store.records), store.records, ctx.record.runId, res) && res.stage == Ended(outcome)
  {
    var kind := if status == StatusCompleted then RunCompletedEvent else RunFailedEvent;
    var terminal := FinalizeRecord(
      ctx.record, TerminalState(status), status, finalText,
      ctx.events + [RunEvent(kind, |ctx.events|, None)], ctx.messages, ctx.toolCalls, ctx.modelTurns);
    var saved := store.Save(terminal, ctx.record.version);
    if saved.Err? {
      return Raised;
    }
    return Returned(RecordToResult(saved.value));
  }

  /** `persist_record` and the assignment of its result to the context. */
  method PersistContext(
    store: InMemoryRunStore, ctx: Context, update: RecordUpdate, point: Point) returns (stage: Stage)
    modifies store
    ensures var res := Write(
                         Lookup(old(store.records), ctx.record.runId), PersistRecord(ctx.record, update), ctx, point);
            Performed(old(store.records), store.records, ctx.record.runId, res) && res.stage == stage
  {
    var saved := store.Save(PersistRecord(ctx.record, update), ctx.record.version);
    if saved.Err? {
      return Ended(Raised);
    }
    return Active(ctx.(record := saved.value), point);
  }

  /** The model turn at the top of the loop. */
  method AskModel(o: Oracle, store: InMemoryRunStore, ctx: Context, step: nat) returns (stage: Stage)
    modifies store
    ensures var res := CallModel(Lookup(old(store.records), ctx.record.runId), ctx, step, o.model(ctx.messages));
            Performed(old(store.records), store.records, ctx.record.runId, res) && res.stage == stage
  {
    var asked := ctx.(events := ctx.events + [RunEvent(ModelTurnEvent, step, None)]);
    var complete := ValidateHistory(ctx.messages, false);
    var reply := if complete then o.model(ctx.messages) else Fails;
    if reply.Fails? {
      var outcome := PersistTerminal(store, asked, ModelFailure, None);
      return Ended(outcome);
    }
    asked := asked.(modelTurns := asked.modelTurns + 1);
    stage := PersistContext(
      store, asked,
      RecordUpdate(
        state := Some(Running), events := Some(asked.events), messages := Some(asked.messages),
        modelTurns := Some(asked.modelTurns), nextStep := Some(step)),
      ModelReturned(step, reply.output));
  }

  function QuietInput(reply: ModelReply, execution: GovernedExecution): Input {
    Input(false, false, false, false, reply, execution)
  }

  /** The input of a step whose checks find these. */
  function InputAt(first: Halt, dispatch: Halt, reply: ModelReply): Input {
    Input(first == Cancel, first == Expire, dispatch == Cancel, dispatch == Expire, reply, NoExecution())
  }

  function TopInput(o: Oracle, ctx: Context, step: nat): Input {
    InputAt(o.signals(step).top, o.signals(step).dispatch, o.model(ctx.messages))
  }

  function OutputInput(signals: TurnSignals): Input {
    InputAt(signals.returned, signals.dispatch, Fails)
  }

  function NoExecution(): GovernedExecution {
    GovernedExecution(Blocked, "none", Some(false), "none", None, false)
  }

  /** Checking the output, and preparing a proposed call. */
  method ActOnOutput(
    d: Deployment, s: Session, store: InMemoryRunStore, ctx: Context, step: nat, output: ModelOutput,
    signals: TurnSignals)
    returns (stage: Stage)
    modifies store
    ensures var res := StepModelReturned(
                         d, s, Lookup(old(store.records), ctx.record.runId), ctx, step, output,
                         OutputInput(signals));
            Performed(old(store.records), store.records, ctx.record.runId, res) && res.stage == stage
  {
    var outcome: WorkerOutcome;
    if signals.returned != Go {
      outcome := PersistTerminal(store, ctx, HaltStatus(signals.returned), None);
      return Ended(outcome);
    }
    match output {
      case TextOutput(text) =>
        if |text| > s.profile.limits.maxModelTextChars {
          outcome := PersistTerminal(store, ctx, InvalidModelResponse, None);
        } else {
          var spoke := ctx.(events := ctx.events + [RunEvent(ModelResponseEvent, step, None)]);
          outcome := PersistTerminal(store, spoke, StatusCompleted, Some(text));
        }
        return Ended(outcome);
      case Unsupported =>
        outcome := PersistTerminal(store, ctx, InvalidModelResponse, None);
        return Ended(outcome);
      case CallOutput(call) =>
        if call.name !in s.profile.permitted || call.name !in s.tools {
          outcome := PersistTerminal(store, ctx, InvalidModelResponse, None);
          return Ended(outcome);
        }
        if ctx.toolCalls >= s.profile.maxToolCalls {
          outcome := PersistTerminal(store, ctx, LimitReached, None);
          return Ended(outcome);
        }
        stage := PrepareTool(d, s, store, ctx, step, call, signals);
    }
  }

  method PrepareTool(
    d: Deployment, s: Session, store: InMemoryRunStore, ctx: Context, step: nat, call: ToolCall,
    signals: TurnSignals)
    returns (stage: Stage)
    requires call.name in s.tools
    modifies store
    ensures var res := Prepare(
                         d, s, Lookup(old(store.records), ctx.record.runId), ctx, step, call,
                         OutputInput(signals));
            Performed(old(store.records), store.records, ctx.record.runId, res) && res.stage == stage
  {
    var outcome: WorkerOutcome;
    var requestId := RequestIdFor(d, ctx.record, step);
    if s.toolsBlocked {
      outcome := PersistTerminal(store, ctx, ToolFailure, None);
      return Ended(outcome);
    }
    if signals.dispatch != Go {
      outcome := PersistTerminal(store, ctx, HaltStatus(signals.dispatch), None);
      return Ended(outcome);
    }
    var admissible := ValidateHistory(ctx.messages + [Call(call)], true);
    if !admissible || !d.captures(call, requestId) {
      outcome := PersistTerminal(store, ctx, InvalidModelResponse, None);
      return Ended(outcome);
    }
    var action := ActionFor(s, ctx.record.runId, call, requestId);
    var asked := ctx.(
    messages := ctx.messages + [Call(call)],
    events := ctx.events + [RunEvent(ToolRequestedEvent, step, Some(requestId))]);
    stage := PersistContext(
      store, asked,
      RecordUpdate(
        state := Some(ToolPrepared), events := Some(asked.events), messages := Some(asked.messages),
        modelTurns := Some(asked.modelTurns), nextStep := Some(step),
        pending := Pending(
          requestId := Some(requestId), idempotencyKey := Some(requestId), action := Some(action),
          toolCallId := Some(call.callId), toolName := Some(call.name))),
      ToClaim(Job(step, call, requestId, false), action));
  }

  method ClaimTool(store: InMemoryRunStore, ctx: Context, job: Job, action: Action) returns (stage: Stage)
    modifies store
    ensures var res := StepToClaim(Lookup(old(store.records), ctx.record.runId), ctx, job, action);
            Performed(old(store.records), store.records, ctx.record.runId, res) && res.stage == stage
  {
    var claimed := store.ClaimToolDispatch(ctx.record.runId, ctx.record.version);
    if claimed.Err? {
      return Ended(Raised);
    }
    if claimed.value.None? {
      return Observing;
    }
    return Active(ctx.(record := claimed.value.value), HoldsClaim(job, action));
  }

  method CompleteTool(store: InMemoryRunStore, ctx: Context, job: Job, execution: GovernedExecution)
    returns (stage: Stage)
    modifies store
    ensures var res := StepDispatched(Lookup(old(store.records), ctx.record.runId), ctx, job, execution);
            Performed(old(store.records), store.records, ctx.record.runId, res) && res.stage == stage
  {
    stage := PersistContext(
      store, ctx,
      RecordUpdate(
        state := Some(ToolCompleted), events := Some(ctx.events), messages := Some(ctx.messages),
        toolCalls := Some(ctx.toolCalls), modelTurns := Some(ctx.modelTurns), nextStep := Some(job.step),
        pending := Pending(
          status := Some(execution.status), output := execution.output, reason := Some(execution.reason))),
      ToMerge(job, execution));
  }

  method MergeTool(
    d: Deployment, s: Session, store: InMemoryRunStore, ctx: Context, job: Job, execution: GovernedExecution)
    returns (stage: Stage)
    modifies store
    ensures var res := StepToMerge(d, s, Lookup(old(store.records), ctx.record.runId), ctx, job, execution);
            Performed(old(store.records), store.records, ctx.record.runId, res) && res.stage == stage
    ensures stage.Ended? && stage.outcome.Returned? ==>
              && ctx.record.runId in store.records
              && store.records[ctx.record.runId].terminalStatus == Some(stage.outcome.result.status)
              && stage.outcome.result.status ==
                 match execution.status
                 case Blocked => StatusRejected
                 case ReviewRequired => StatusRejected
                 case ControlFailure => ToolFailure
                 case Indeterminate => ToolFailure
                 case Executed => LimitReached
    ensures execution.status != Executed ==> stage.Ended?
  {
    var outcome: WorkerOutcome;
    if execution.status != Executed {
      var rejected := ctx.(events := ctx.events + [RunEvent(ToolRejectedEvent, job.step, Some(job.requestId))]);
      outcome := PersistTerminal(store, rejected, RejectionStatus(execution.status), None);
      return Ended(outcome);
    }
    var observation := d.render(job.requestId, execution.output);
    if |observation| > s.profile.limits.maxObservationChars {
      outcome := PersistTerminal(store, ctx, LimitReached, None);
      return Ended(outcome);
    }
    var merged := ctx.(
    events := ctx.events + [RunEvent(ToolCompletedEvent, job.step, Some(job.requestId))],
    messages := ctx.messages + [Result(observation, job.call.callId, job.call.name)]);
    if job.resumed {
      merged := merged.(messages := AddKnowledge(s, merged.messages));
    }
    stage := PersistContext(
      store, merged,
      RecordUpdate(
        state := Some(Running), events := Some(merged.events), messages := Some(merged.messages),
        toolCalls := Some(merged.toolCalls), modelTurns := Some(merged.modelTurns),
        nextStep := Some(job.step + 1), clearPending := true),
      LoopTop(job.step + 1, Fresh));
  }

  /** The worker took the steps `inputs` from `start`, and still expects `expected`. */
  ghost predicate OnTrack(
    d: Deployment, o: Oracle, s: Session, start: Driven, inputs: seq<Input>, expected: Summary,
    records: Records, stage: Stage)
  {
    && Drive(d, s, start, inputs) == Driven(Lookup(records, s.runId), stage)
    && Keeps(d, o, s, expected, StepResult(Lookup(records, s.runId), stage, NoEffect))
  }

  lemma Track(
    d: Deployment, o: Oracle, s: Session, start: Driven, inputs: seq<Input>, expected: Summary,
    before: Records, ctx: Context, point: Point, after: Records, i: Input, res: StepResult)
    requires ValidDeployment(d) && ValidOracle(o) && Follows(o, ctx, point, i)
    requires OnTrack(d, o, s, start, inputs, expected, before, Active(ctx, point))
    requires res == WorkerStep(d, s, Some(ctx.record), Active(ctx, point), i)
    requires Performed(before, after, s.runId, res)
    ensures OnTrack(d, o, s, start, inputs + [i], expected, after, res.stage)
  {
    StepKeepsRest(d, o, s, ctx, point, i);
    DriveExtend(d, s, start, inputs, i);
  }

  /** Claim, dispatch, record and merge one prepared call. */
  method FinishJob(
    d: Deployment, o: Oracle, s: Session, store: InMemoryRunStore, ctx: Context, job: Job, action: Action,
    ghost start: Driven, ghost inputs: seq<Input>, ghost expected: Summary)
    returns (stage: Stage, ghost inputs': seq<Input>)
    requires ValidDeployment(d) && ValidOracle(o)
    requires OnTrack(d, o, s, start, inputs, expected, store.records, Active(ctx, ToClaim(job, action)))
    modifies store
    ensures OnTrack(d, o, s, start, inputs', expected, store.records, stage)
    ensures stage.Ended? || (stage.Active? && stage.point == LoopTop(job.step + 1, Fresh))
    ensures store.records - {s.runId} == old(store.records) - {s.runId}
  {
    ghost var quiet := QuietInput(Fails, NoExecution());
    stage := ClaimTool(store, ctx, job, action);
    Track(d, o, s, start, inputs, expected, old(store.records), ctx, ToClaim(job, action), store.records, quiet,
          StepToClaim(Some(ctx.record), ctx, job, action));
    inputs' := inputs + [quiet];
    var held := stage.ctx;
    var execution := o.runtime(action);
    var dispatched := held.(toolCalls := held.toolCalls + 1);
    ghost var ran := QuietInput(Fails, execution);
    Track(d, o, s, start, inputs', expected, store.records, held, HoldsClaim(job, action), store.records, ran,
          StepHoldsClaim(Some(held.record), held, job, action, execution));
    inputs' := inputs' + [ran];
    ghost var before := store.records;
    stage := CompleteTool(store, dispatched, job, execution);
    Track(d, o, s, start, inputs', expected, before, dispatched, Dispatched(job, execution), store.records, quiet,
          StepDispatched(Some(dispatched.record), dispatched, job, execution));
    inputs' := inputs' + [quiet];
    before := store.records;
    var completed := stage.ctx;
    stage := MergeTool(d, s, store, completed, job, execution);
    Track(d, o, s, start, inputs', expected, before, completed, ToMerge(job, execution), store.records, quiet,
          StepToMerge(d, s, Some(completed.record), completed, job, execution));
    inputs' := inputs' + [quiet];
  }

  /** `restore_tool_call`. */
  method RestoreCall(r: StoredRunRecord) returns (call: Option<ToolCall>)
    ensures call == RestoreToolCall(r)
  {
    if r.pending.toolCallId.None? || r.pending.toolName.None? || r.pending.action.None? {
      return None;
    }
    var valid := ValidateHistory(r.messages, true);
    if !valid || !EndsWithCall(r.messages) {
      return None;
    }
    var saved := r.messages[|r.messages|-1].call;
    if saved != ToolCall(r.pending.toolCallId.value, r.pending.toolName.value, r.pending.action.value.arguments) {
      return None;
    }
    return Some(saved);
  }

  /** One pass of the loop that asks the model. */
  method FreshTurn(
    d: Deployment, o: Oracle, s: Session, store: InMemoryRunStore, ctx: Context, step: nat,
    ghost start: Driven, ghost inputs: seq<Input>, ghost expected: Summary)
    returns (stage: Stage, ghost inputs': seq<Input>)
    requires ValidDeployment(d) && ValidOracle(o) && ToolsRegistered(s) && step <= s.profile.maxModelTurns
    requires |ctx.messages| <= s.profile.limits.maxContextMessages && o.signals(step).top == Go
    requires OnTrack(d, o, s, start, inputs, expected, store.records, Active(ctx, LoopTop(step, Fresh)))
    modifies store
    ensures OnTrack(d, o, s, start, inputs', expected, store.records, stage)
    ensures stage.Ended? || (stage.Active? && stage.point == LoopTop(step + 1, Fresh))
    ensures store.records - {s.runId} == old(store.records) - {s.runId}
  {
    ghost var asked := TopInput(o, ctx, step);
    stage := AskModel(o, store, ctx, step);
    Track(d, o, s, start, inputs, expected, old(store.records), ctx, LoopTop(step, Fresh), store.records, asked,
          CallModel(Some(ctx.record), ctx, step, o.model(ctx.messages)));
    inputs' := inputs + [asked];
    if stage.Active? {
      stage, inputs' := HandleOutput(
        d, o, s, store, stage.ctx, step, stage.point.output, start, inputs', expected);
    }
  }

  /** The rest of that pass, from the model's output on. */
  method HandleOutput(
    d: Deployment, o: Oracle, s: Session, store: InMemoryRunStore, ctx: Context, step: nat, output: ModelOutput,
    ghost start: Driven, ghost inputs: seq<Input>, ghost expected: Summary)
    returns (stage: Stage, ghost inputs': seq<Input>)
    requires ValidDeployment(d) && ValidOracle(o)
    requires OnTrack(d, o, s, start, inputs, expected, store.records, Active(ctx, ModelReturned(step, output)))
    modifies store
    ensures OnTrack(d, o, s, start, inputs', expected, store.records, stage)
    ensures stage.Ended? || (stage.Active? && stage.point == LoopTop(step + 1, Fresh))
    ensures store.records - {s.runId} == old(store.records) - {s.runId}
  {
    ghost var acted := OutputInput(o.signals(step));
    stage := ActOnOutput(d, s, store, ctx, step, output, o.signals(step));
    Track(d, o, s, start, inputs, expected, old(store.records), ctx, ModelReturned(step, output), store.records,
          acted, StepModelReturned(d, s, Some(ctx.record), ctx, step, output, acted));
    inputs' := inputs + [acted];
    if stage.Active? {
      stage, inputs' := FinishJob(
        d, o, s, store, stage.ctx, stage.point.job, stage.point.action, start, inputs', expected);
    }
  }

  /** The first pass of a worker that resumes a pending call. */
  method ResumedTurn(
    d: Deployment, o: Oracle, s: Session, store: InMemoryRunStore, ctx: Context, step: nat, phase: Phase,
    ghost start: Driven, ghost inputs: seq<Input>, ghost expected: Summary)
    returns (stage: Stage, ghost inputs': seq<Input>)
    requires ValidDeployment(d) && ValidOracle(o) && ToolsRegistered(s) && step <= s.profile.maxModelTurns
    requires |ctx.messages| <= s.profile.limits.maxContextMessages && phase != Fresh && o.signals(step).top == Go
    requires OnTrack(d, o, s, start, inputs, expected, store.records, Active(ctx, LoopTop(step, phase)))
    modifies store
    ensures OnTrack(d, o, s, start, inputs', expected, store.records, stage)
    ensures stage.Ended? || (stage.Active? && stage.point == LoopTop(step + 1, Fresh))
    ensures store.records - {s.runId} == old(store.records) - {s.runId}
  {
    ghost var quiet := QuietInput(Fails, NoExecution());
    ghost var resume := TopInput(o, ctx, step);
    ghost var res := StepLoopTop(d, s, Some(ctx.record), ctx, step, phase, resume);
    PendingRestores(d, ctx.record);
    inputs' := inputs + [resume];
    var restored := RestoreCall(ctx.record);
    var job := Job(step, restored.value, RequestIdFor(d, ctx.record, step), true);
    if phase == ResumeCompleted {
      var execution := RestoreExecution(ctx.record).value;
      Track(d, o, s, start, inputs, expected, store.records, ctx, LoopTop(step, phase), store.records, resume, res);
      stage := MergeTool(d, s, store, ctx, job, execution);
      Track(d, o, s, start, inputs', expected, old(store.records), ctx, ToMerge(job, execution), store.records,
            quiet, StepToMerge(d, s, Some(ctx.record), ctx, job, execution));
      inputs' := inputs' + [quiet];
    } else if s.toolsBlocked || o.signals(step).dispatch != Go {
      var status := if s.toolsBlocked then ToolFailure else HaltStatus(o.signals(step).dispatch);
      var outcome := PersistTerminal(store, ctx, status, None);
      Track(d, o, s, start, inputs, expected, old(store.records), ctx, LoopTop(step, phase), store.records,
            resume, res);
      stage := Ended(outcome);
    } else {
      var action := ctx.record.pending.action.value;
      Track(d, o, s, start, inputs, expected, store.records, ctx, LoopTop(step, phase), store.records, resume, res);
      stage, inputs' := FinishJob(d, o, s, store, ctx, job, action, start, inputs', expected);
    }
  }

  /** A terminal write at the top of the loop. */
  method EndAtTop(
    d: Deployment, o: Oracle, s: Session, store: InMemoryRunStore, ctx: Context, step: nat, phase: Phase,
    status: RunStatus, ghost start: Driven, ghost inputs: seq<Input>, ghost expected: Summary)
    returns (outcome: WorkerOutcome, ghost inputs': seq<Input>)
    requires ValidDeployment(d) && ValidOracle(o)
    requires OnTrack(d, o, s, start, inputs, expected, store.records, Active(ctx, LoopTop(step, phase)))
    requires StepLoopTop(d, s, Some(ctx.record), ctx, step, phase, TopInput(o, ctx, step))
             == Finish(Some(ctx.record), ctx, status)
    modifies store
    ensures OnTrack(d, o, s, start, inputs', expected, store.records, Ended(outcome))
    ensures store.records - {s.runId} == old(store.records) - {s.runId}
  {
    ghost var top := TopInput(o, ctx, step);
    outcome := PersistTerminal(store, ctx, status, None);
    Track(d, o, s, start, inputs, expected, old(store.records), ctx, LoopTop(step, phase), store.records, top,
          Finish(Some(ctx.record), ctx, status, None));
    inputs' := inputs + [top];
  }

  /** The loop of `_run_durable`, from a context that matches the store. */
  method RunLoop(
    d: Deployment, o: Oracle, s: Session, store: InMemoryRunStore, first: Context, firstStep: nat, firstPhase: Phase,
    ghost start: Driven, ghost inputs: seq<Input>, ghost expected: Summary)
    returns (outcome: WorkerOutcome, ghost inputs': seq<Input>)
    requires ValidDeployment(d) && ValidOracle(o)
    requires OnTrack(d, o, s, start, inputs, expected, store.records, Active(first, LoopTop(firstStep, firstPhase)))
    modifies store
    ensures OnTrack(d, o, s, start, inputs', expected, store.records, Ended(outcome))
    ensures store.records - {s.runId} == old(store.records) - {s.runId}
  {
    var ctx, step, phase := first, firstStep, firstPhase;
    inputs' := inputs;
    if !ToolsRegistered(s) {
      outcome, inputs' := EndAtTop(d, o, s, store, ctx, step, phase, ModelFailure, start, inputs', expected);
      return;
    }
    while step <= s.profile.maxModelTurns
      invariant OnTrack(d, o, s, start, inputs', expected, store.records, Active(ctx, LoopTop(step, phase)))
      invariant store.records - {s.runId} == old(store.records) - {s.runId}
    {
      if o.signals(step).top != Go {
        outcome, inputs' := EndAtTop(
          d, o, s, store, ctx, step, phase, HaltStatus(o.signals(step).top), start, inputs', expected);
        return;
      }
      if |ctx.messages| > s.profile.limits.maxContextMessages {
        outcome, inputs' := EndAtTop(d, o, s, store, ctx, step, phase, LimitReached, start, inputs', expected);
        return;
      }
      var stage: Stage;
      if phase == Fresh {
        stage, inputs' := FreshTurn(d, o, s, store, ctx, step, start, inputs', expected);
      } else {
        stage, inputs' := ResumedTurn(d, o, s, store, ctx, step, phase, start, inputs', expected);
      }
      if stage.Ended? {
        outcome := stage.outcome;
        return;
      }
      ctx, step, phase := stage.ctx, step + 1, Fresh;
    }
    outcome, inputs' := EndAtTop(d, o, s, store, ctx, step, phase, LimitReached, start, inputs', expected);
  }

  /** The worker may continue the stored run: same profile, same task, nothing in flight. */
  ghost predicate Continuable(d: Deployment, s: Session, r: StoredRunRecord) {
    Resumable(d, s, r) && Strip(s.task) == Strip(r.task)
  }

  /** `_run_durable`, for any model, runtime and signals. It takes exactly the steps of one
      protocol worker, touches no other run, and a run it starts ends with the status,
      final text, tool calls and model turns of the reference run, which is the ephemeral
      one exactly unless a check before a dispatch stops it (`LoopsAgreeExactly`); a run it
      resumes continues the stored one; a finished or in-flight run is only reported; another
      profile or task, or a blank task, raises; an over-long task is refused. */
  method RunDurable(d: Deployment, o: Oracle, s: Session, store: InMemoryRunStore)
    returns (outcome: WorkerOutcome, ghost inputs: seq<Input>)
    requires ValidDeployment(d) && ValidOracle(o)
    requires StoreOK(d, s.runId, Lookup(store.records, s.runId))
    modifies store
    ensures store.records - {s.runId} == old(store.records) - {s.runId}
    ensures Drive(d, s, Driven(Lookup(old(store.records), s.runId), Loading), inputs)
            == Driven(Lookup(store.records, s.runId), Ended(outcome))
    ensures Blank(s.task) ==> outcome == Raised && store.records == old(store.records)
    ensures s.runId !in old(store.records) && !Blank(s.task) && |s.task| <= s.profile.limits.maxTaskChars ==>
              && outcome.Returned? && SummaryOf(outcome.result) == AgentRun(d, o, s)
              && s.runId in store.records && Terminal(store.records[s.runId].state)
              && store.records[s.runId].terminalStatus == Some(outcome.result.status)
    ensures s.runId in old(store.records) && !Blank(s.task) && |s.task| <= s.profile.limits.maxTaskChars
            && Continuable(d, s, old(store.records)[s.runId]) ==>
              && outcome.Returned?
              && SummaryOf(outcome.result) == ResumeSummary(d, o, s, old(store.records)[s.runId])
              && s.runId in store.records && Terminal(store.records[s.runId].state)
    ensures !Blank(s.task) && |s.task| > s.profile.limits.maxTaskChars ==>
              && store.records == old(store.records)
              && outcome == Returned(
                              RunResult(s.runId, InvalidModelResponse, None, 0, 0, [RunEvent(RunFailedEvent, 0, None)]))
    ensures s.runId in old(store.records) && !Blank(s.task) && |s.task| <= s.profile.limits.maxTaskChars
            && !Continuable(d, s, old(store.records)[s.runId]) ==>
              && store.records == old(store.records)
              && var r := old(store.records)[s.runId];
                 if r.fingerprint != s.profile || Strip(s.task) != Strip(r.task) then outcome == Raised
                 else if r.terminalStatus.Some?
                 then
                   outcome == Returned(
                                RunResult(
                                  s.runId, r.terminalStatus.value, r.finalText, r.toolCalls, r.modelTurns, r.events))
                 else
                   && r.state == ToolInFlight
                   && outcome == Returned(
                                   RunResult(s.runId, ExecutionInFlight, None, r.toolCalls, r.modelTurns, r.events))
  {
    ghost var begun := Driven(Lookup(store.records, s.runId), Loading);
    ghost var quiet := QuietInput(Fails, NoExecution());
    DriveExtend(d, s, begun, [], quiet);
    assert [] + [quiet] == [quiet];
    inputs := [quiet];
    if Blank(s.task) {
      return Raised, inputs;
    }
    if |s.task| > s.profile.limits.maxTaskChars {
      return Returned(TaskTooLong(s)), inputs;
    }
    var stored := store.Load(s.runId);
    var stage: Stage;
    ghost var expected: Summary;
    if stored.Ok? {
      stage := Resume(s, stored.value);
      if stage.Ended? {
        return stage.outcome, inputs;
      }
      EnterExpects(d, o, s, stored.value);
      expected := ResumeSummary(d, o, s, stored.value);
    } else {
      var created := store.Create(FirstRecord(s));
      stage := EnterLoop(s, FirstRecord(s));
      FreshRunExpects(d, o, s);
      EnterExpects(d, o, s, FirstRecord(s));
      DriveExtend(d, s, begun, inputs, quiet);
      inputs := inputs + [quiet];
      expected := AgentRun(d, o, s);
    }
    outcome, inputs := RunLoop(
      d, o, s, store, stage.ctx, stage.point.step, stage.point.phase, begun, inputs, expected);
  }
}
