/** What every record of a run satisfies, what every worker knows about its copy,
    and that each worker step keeps both. */
module DurableInvariant {
  import opened Contracts
  import opened History
  import opened DurableRecords
  import opened DurableWorker

  /** Claims won so far, read off the stored record. */
  function ClaimsOf(r: StoredRunRecord): nat {
    r.toolCalls + if r.state == ToolInFlight then 1 else 0
  }

  /** The pending fields describe exactly the unanswered call that ends the history. */
  ghost predicate PendingMatches(d: Deployment, r: StoredRunRecord) {
    && ValidHistory(r.messages, true) && EndsWithCall(r.messages)
    && var call := r.messages[|r.messages|-1].call;
    && var requestId := d.requestId(r.runId, r.nextStep);
    && call.name in r.fingerprint.permitted
    && r.pending.requestId == Some(requestId) && r.pending.idempotencyKey == Some(requestId)
    && r.pending.toolCallId == Some(call.callId) && r.pending.toolName == Some(call.name)
    && r.pending.action.Some?
    && r.pending.action.value ==
       Action(r.fingerprint.agentId, call.name, r.pending.action.value.capability, call.arguments,
              requestId, requestId, r.runId, call.callId)
  }

  ghost predicate GoodRunning(r: StoredRunRecord) {
    && r.pending == NOTHING_PENDING && ValidHistory(r.messages, false)
    && CountResults(r.messages) == r.toolCalls == r.nextStep - 1
    && r.nextStep <= r.fingerprint.maxModelTurns + 1 && r.toolCalls <= r.fingerprint.maxToolCalls
  }

  ghost predicate GoodUndispatched(d: Deployment, r: StoredRunRecord) {
    && PendingMatches(d, r) && NoPendingExecution(r)
    && CountResults(r.messages) == r.toolCalls == r.nextStep - 1
    && r.nextStep <= r.fingerprint.maxModelTurns && r.toolCalls < r.fingerprint.maxToolCalls
  }

  ghost predicate GoodToolCompleted(d: Deployment, r: StoredRunRecord) {
    && PendingMatches(d, r) && r.pending.status.Some? && r.pending.reason.Some? && !Blank(r.pending.reason.value)
    && CountResults(r.messages) + 1 == r.toolCalls == r.nextStep
    && r.nextStep <= r.fingerprint.maxModelTurns && r.toolCalls <= r.fingerprint.maxToolCalls
  }

  ghost predicate GoodTerminal(r: StoredRunRecord) {
    && r.pending == NOTHING_PENDING && ValidHistory(r.messages, true)
    && r.terminalStatus.Some? && r.state == TerminalState(r.terminalStatus.value)
    && (r.finalText.Some? <==> r.state == RunCompleted)
    && r.toolCalls <= r.fingerprint.maxToolCalls && r.toolCalls <= r.fingerprint.maxModelTurns
  }

  ghost predicate GoodRecord(d: Deployment, r: StoredRunRecord) {
    && r.nextStep >= 1
    && (Terminal(r.state) ==> GoodTerminal(r))
    && (!Terminal(r.state) ==> r.terminalStatus.None? && r.finalText.None?)
    && (r.state == Running ==> GoodRunning(r))
    && (r.state == ToolPrepared || r.state == ToolInFlight ==> GoodUndispatched(d, r))
    && (r.state == ToolCompleted ==> GoodToolCompleted(d, r))
  }

  predicate AllowedStates(old': DurableState, new': DurableState) {
    match old'
    case Running => new' == Running || new' == ToolPrepared || Terminal(new')
    case ToolPrepared => new' == ToolInFlight || Terminal(new')
    case ToolInFlight => new' == ToolCompleted
    case ToolCompleted => new' == Running || Terminal(new')
    case _ => false
  }

  /** One write of the protocol: history only grows, steps are taken in order, and
      claims change only by winning one. */
  ghost predicate Successor(d: Deployment, r: StoredRunRecord, r': StoredRunRecord) {
    && r'.version == r.version + 1
    && r'.runId == r.runId && r'.fingerprint == r.fingerprint && r'.task == r.task
    && AllowedStates(r.state, r'.state)
    && r.messages <= r'.messages && r.events <= r'.events && r.modelTurns <= r'.modelTurns
    && ClaimsOf(r') == ClaimsOf(r) + (if r'.state == ToolInFlight then 1 else 0)
    && r'.nextStep == r.nextStep + (if r.state == ToolCompleted && r'.state == Running then 1 else 0)
    && (!Terminal(r'.state) && r.state != Running && r'.state != Running ==>
          r'.messages == r.messages && r'.pending.action == r.pending.action)
    && GoodRecord(d, r')
  }

  ghost predicate JobMatches(d: Deployment, r: StoredRunRecord, job: Job) {
    && job.step == r.nextStep && job.requestId == d.requestId(r.runId, r.nextStep)
    && EndsWithCall(r.messages) && r.messages[|r.messages|-1].call == job.call
  }

  /** The stored facts of an execution are those of the execution performed. */
  ghost predicate Recorded(r: StoredRunRecord, e: GovernedExecution) {
    && r.pending.status == Some(e.status) && r.pending.output == e.output && r.pending.reason == Some(e.reason)
    && r.pending.requestId == Some(e.requestId) && e.toolExecuted == ExpectedToolExecuted(e.status)
  }

  predicate SameCounters(ctx: Context) {
    ctx.toolCalls == ctx.record.toolCalls && ctx.modelTurns == ctx.record.modelTurns
  }

  ghost predicate PointOK(d: Deployment, ctx: Context, point: Point) {
    var r := ctx.record;
    match point
    case LoopTop(step, phase) =>
      && step == r.nextStep && SameCounters(ctx)
      && (phase == Fresh ==> r.state == Running && ValidHistory(ctx.messages, false)
                             && CountResults(ctx.messages) == r.toolCalls)
      && (phase == ResumePrepared ==> r.state == ToolPrepared && ctx.messages == r.messages)
      && (phase == ResumeCompleted ==> r.state == ToolCompleted && ctx.messages == r.messages)
    case ModelReturned(step, _) =>
      && step == r.nextStep && SameCounters(ctx) && r.state == Running
      && ctx.messages == r.messages && step <= r.fingerprint.maxModelTurns
    case ToClaim(job, action) =>
      && r.state == ToolPrepared && JobMatches(d, r, job) && r.pending.action == Some(action)
      && ctx.messages == r.messages && SameCounters(ctx)
    case HoldsClaim(job, action) =>
      && r.state == ToolInFlight && JobMatches(d, r, job) && r.pending.action == Some(action)
      && ctx.messages == r.messages && SameCounters(ctx)
    case Dispatched(job, e) =>
      && r.state == ToolInFlight && JobMatches(d, r, job) && WellFormed(e) && e.requestId == job.requestId
      && ctx.messages == r.messages && ctx.toolCalls == r.toolCalls + 1 && ctx.modelTurns == r.modelTurns
    case ToMerge(job, e) =>
      && r.state == ToolCompleted && JobMatches(d, r, job) && Recorded(r, e)
      && ctx.messages == r.messages && SameCounters(ctx)
  }

  ghost predicate ContextOK(d: Deployment, s: Session, ctx: Context, point: Point) {
    && GoodRecord(d, ctx.record) && ctx.record.fingerprint == s.profile && ctx.record.runId == s.runId
    && ctx.record.messages <= ctx.messages && ctx.record.events <= ctx.events
    && PointOK(d, ctx, point)
  }

  predicate OwnsFlight(point: Point) {
    point.HoldsClaim? || point.Dispatched?
  }

  /** A worker's version is at most the store's, and at the store's version its copy is
      the stored record; a claim holder is always at the store's version. */
  predicate Current(store: Store, ctx: Context, point: Point) {
    && store.Some? && ctx.record.version <= store.value.version
    && (ctx.record.version == store.value.version ==> ctx.record == store.value)
    && (OwnsFlight(point) ==> ctx.record.version == store.value.version)
  }

  ghost predicate StageOK(d: Deployment, s: Session, store: Store, stage: Stage) {
    && (stage.Active? ==> Current(store, stage.ctx, stage.point) && ContextOK(d, s, stage.ctx, stage.point))
    && (stage.Observing? ==> store.Some?)
  }

  ghost predicate StoreOK(d: Deployment, runId: string, store: Store) {
    store.Some? ==> GoodRecord(d, store.value) && store.value.runId == runId
  }

  /** What one worker step may do to the store, and what it must have known. */
  ghost predicate StoreStep(d: Deployment, s: Session, store: Store, stage: Stage, res: StepResult) {
    || (res.store == store && !res.effect.WonClaim?)
    || (store.None? && stage.Creating? && res.store == Some(FirstRecord(s)) && res.effect.NoEffect?)
    || (&& store.Some? && res.store.Some? && stage.Active?
        && stage.ctx.record == store.value && Successor(d, store.value, res.store.value)
        && (store.value.state == ToolInFlight ==>
              stage.point.Dispatched? && Recorded(res.store.value, stage.point.execution))
        && (res.effect.WonClaim? <==> res.store.value.state == ToolInFlight)
        && !res.effect.Dispatch?)
  }

  ghost predicate EffectOK(d: Deployment, s: Session, stage: Stage, res: StepResult) {
    && (res.effect.WonClaim? ==>
          && stage.Active? && stage.point.ToClaim? && res.stage.Active? && res.stage.point.HoldsClaim?
          && res.store.Some? && res.effect.step == res.store.value.nextStep
          && res.effect.action == res.stage.point.action
          && res.store.value.pending.action == Some(res.effect.action))
    && (res.effect.Dispatch? <==>
          stage.Active? && stage.point.HoldsClaim? && res.stage.Active? && res.stage.point.Dispatched?)
    && (res.effect.Dispatch? ==>
          && res.effect.step == stage.point.job.step && res.effect.action == stage.point.action
          && WellFormed(res.effect.execution) && res.effect.execution.requestId == res.effect.action.requestId
          && res.stage.point.execution == res.effect.execution)
    && (res.effect.NoEffect? && res.stage.Active? && OwnsFlight(res.stage.point) ==> res.stage == stage)
    && (res.effect.WonClaim? ==> !OwnsFlight(stage.point))
  }

  ghost predicate StepKeeps(d: Deployment, s: Session, store: Store, stage: Stage, res: StepResult) {
    StoreStep(d, s, store, stage, res) && StageOK(d, s, res.store, res.stage) && EffectOK(d, s, stage, res)
  }

  /** Any terminal write from a state without a claim in flight is a legal one. */
  lemma FinishKeeps(
    d: Deployment, s: Session, store: Store, ctx: Context, point: Point,
    ended: Context, status: RunStatus, finalText: Option<string>)
    requires StageOK(d, s, store, Active(ctx, point)) && !OwnsFlight(point)
    requires ended.record == ctx.record && ended.messages == ctx.messages && ctx.events <= ended.events
    requires ended.toolCalls == ctx.toolCalls && ended.modelTurns == ctx.modelTurns
    requires finalText.Some? <==> status == StatusCompleted
    ensures StepKeeps(d, s, store, Active(ctx, point), Finish(store, ended, status, finalText))
  {
    var r := ctx.record;
    var t := TerminalRecord(ended, status, finalText);
    assert r.events <= t.events;
    assert !OwnsFlight(point) ==> r.state != ToolInFlight;
    assert Terminal(t.state);
    assert ValidHistory(t.messages, true);
  }

  lemma CallModelKeeps(d: Deployment, s: Session, store: Store, ctx: Context, step: nat, reply: ModelReply)
    requires StageOK(d, s, store, Active(ctx, LoopTop(step, Fresh))) && step <= s.profile.maxModelTurns
    ensures StepKeeps(d, s, store, Active(ctx, LoopTop(step, Fresh)), CallModel(store, ctx, step, reply))
  {
    var asked := ctx.(events := ctx.events + [RunEvent(ModelTurnEvent, step, None)]);
    if reply.Fails? {
      FinishKeeps(d, s, store, ctx, LoopTop(step, Fresh), asked, ModelFailure, None);
    }
  }

  lemma PrepareKeeps(
    d: Deployment, s: Session, store: Store, ctx: Context, step: nat, output: ModelOutput, call: ToolCall, i: Input)
    requires StageOK(d, s, store, Active(ctx, ModelReturned(step, output)))
    requires call.name in s.tools && call.name in s.profile.permitted && ctx.toolCalls < s.profile.maxToolCalls
    ensures StepKeeps(
              d, s, store, Active(ctx, ModelReturned(step, output)), Prepare(d, s, store, ctx, step, call, i))
  {
    var point := ModelReturned(step, output);
    var requestId := RequestIdFor(d, ctx.record, step);
    if s.toolsBlocked {
      FinishKeeps(d, s, store, ctx, point, ctx, ToolFailure, None);
    } else if i.cancelledAtDispatch {
      FinishKeeps(d, s, store, ctx, point, ctx, StatusCancelled, None);
    } else if i.expiredAtDispatch {
      FinishKeeps(d, s, store, ctx, point, ctx, TimedOut, None);
    } else if !ValidHistory(ctx.messages + [Call(call)], true) || !d.captures(call, requestId) {
      FinishKeeps(d, s, store, ctx, point, ctx, InvalidModelResponse, None);
    } else if Prepare(d, s, store, ctx, step, call, i).stage.Active? {
      PreparedSucceeds(d, s, ctx, step, call, Prepare(d, s, store, ctx, step, call, i).store.value);
    }
  }

  lemma PreparedSucceeds(
    d: Deployment, s: Session, ctx: Context, step: nat, call: ToolCall, r': StoredRunRecord)
    requires GoodRecord(d, ctx.record) && ctx.record.state == Running && ctx.record.fingerprint == s.profile
    requires ctx.messages == ctx.record.messages && step == ctx.record.nextStep <= s.profile.maxModelTurns
    requires SameCounters(ctx) && ctx.toolCalls < s.profile.maxToolCalls && ctx.record.events <= ctx.events
    requires call.name in s.tools && call.name in s.profile.permitted
    requires ValidHistory(ctx.messages + [Call(call)], true)
    requires var requestId := d.requestId(ctx.record.runId, step);
             r' == ctx.record.(
             version := ctx.record.version + 1, state := ToolPrepared,
             messages := ctx.messages + [Call(call)],
             events := ctx.events + [RunEvent(ToolRequestedEvent, step, Some(requestId))],
             pending := Pending(
               Some(requestId), Some(requestId), Some(ActionFor(s, ctx.record.runId, call, requestId)),
               Some(call.callId), Some(call.name), None, None, None))
    ensures Successor(d, ctx.record, r') && r'.messages[|r'.messages|-1] == Call(call)
  {
    CountResultsAppend(ctx.messages, Call(call));
  }

  lemma ModelReturnedKeeps(
    d: Deployment, s: Session, store: Store, ctx: Context, step: nat, output: ModelOutput, i: Input)
    requires StageOK(d, s, store, Active(ctx, ModelReturned(step, output)))
    ensures StepKeeps(
              d, s, store, Active(ctx, ModelReturned(step, output)),
              StepModelReturned(d, s, store, ctx, step, output, i))
  {
    var point := ModelReturned(step, output);
    if i.cancelled {
      FinishKeeps(d, s, store, ctx, point, ctx, StatusCancelled, None);
    } else if i.expired {
      FinishKeeps(d, s, store, ctx, point, ctx, TimedOut, None);
    } else {
      match output
      case TextOutput(text) =>
        if |text| > s.profile.limits.maxModelTextChars {
          FinishKeeps(d, s, store, ctx, point, ctx, InvalidModelResponse, None);
        } else {
          var spoke := ctx.(events := ctx.events + [RunEvent(ModelResponseEvent, step, None)]);
          FinishKeeps(d, s, store, ctx, point, spoke, StatusCompleted, Some(text));
        }
      case Unsupported => FinishKeeps(d, s, store, ctx, point, ctx, InvalidModelResponse, None);
      case CallOutput(call) =>
        if call.name !in s.profile.permitted || call.name !in s.tools {
          FinishKeeps(d, s, store, ctx, point, ctx, InvalidModelResponse, None);
        } else if ctx.toolCalls >= s.profile.maxToolCalls {
          FinishKeeps(d, s, store, ctx, point, ctx, LimitReached, None);
        } else {
          PrepareKeeps(d, s, store, ctx, step, output, call, i);
        }
    }
  }

  /** A pending record of the protocol always restores its call, and a completed one
      its execution: resuming never fails on a record the protocol wrote. */
  lemma PendingRestores(d: Deployment, r: StoredRunRecord)
    requires ValidDeployment(d) && GoodRecord(d, r)
    ensures PendingTool(r.state) ==> RestoreToolCall(r) == Some(r.messages[|r.messages|-1].call)
    ensures r.state == ToolCompleted ==>
      RestoreExecution(r).Some? && WellFormed(RestoreExecution(r).value) && Recorded(r, RestoreExecution(r).value)
  {
  }

  lemma LoopTopKeeps(
    d: Deployment, s: Session, store: Store, ctx: Context, step: nat, phase: Phase, i: Input)
    requires ValidDeployment(d) && StageOK(d, s, store, Active(ctx, LoopTop(step, phase)))
    ensures StepKeeps(
              d, s, store, Active(ctx, LoopTop(step, phase)), StepLoopTop(d, s, store, ctx, step, phase, i))
  {
    var point := LoopTop(step, phase);
    if !ToolsRegistered(s) {
      FinishKeeps(d, s, store, ctx, point, ctx, ModelFailure, None);
    } else if step > s.profile.maxModelTurns {
      FinishKeeps(d, s, store, ctx, point, ctx, LimitReached, None);
    } else if i.cancelled {
      FinishKeeps(d, s, store, ctx, point, ctx, StatusCancelled, None);
    } else if i.expired {
      FinishKeeps(d, s, store, ctx, point, ctx, TimedOut, None);
    } else if |ctx.messages| > s.profile.limits.maxContextMessages {
      FinishKeeps(d, s, store, ctx, point, ctx, LimitReached, None);
    } else {
      match phase
      case Fresh => CallModelKeeps(d, s, store, ctx, step, i.reply);
      case ResumePrepared => ResumeToClaimKeeps(d, s, store, ctx, step, i);
      case ResumeCompleted => ResumeToMergeKeeps(d, s, store, ctx, step);
    }
  }

  lemma ResumeToClaimKeeps(d: Deployment, s: Session, store: Store, ctx: Context, step: nat, i: Input)
    requires ValidDeployment(d) && StageOK(d, s, store, Active(ctx, LoopTop(step, ResumePrepared)))
    ensures StepKeeps(
              d, s, store, Active(ctx, LoopTop(step, ResumePrepared)), ResumeToClaim(d, s, store, ctx, step, i))
  {
    PendingRestores(d, ctx.record);
    if s.toolsBlocked {
      FinishKeeps(d, s, store, ctx, LoopTop(step, ResumePrepared), ctx, ToolFailure, None);
    } else if i.cancelledAtDispatch {
      FinishKeeps(d, s, store, ctx, LoopTop(step, ResumePrepared), ctx, StatusCancelled, None);
    } else if i.expiredAtDispatch {
      FinishKeeps(d, s, store, ctx, LoopTop(step, ResumePrepared), ctx, TimedOut, None);
    }
  }

  lemma ResumeToMergeKeeps(d: Deployment, s: Session, store: Store, ctx: Context, step: nat)
    requires ValidDeployment(d) && StageOK(d, s, store, Active(ctx, LoopTop(step, ResumeCompleted)))
    ensures StepKeeps(
              d, s, store, Active(ctx, LoopTop(step, ResumeCompleted)), ResumeToMerge(d, s, store, ctx, step))
  {
    PendingRestores(d, ctx.record);
  }

  lemma ClaimKeeps(d: Deployment, s: Session, store: Store, ctx: Context, job: Job, action: Action)
    requires StageOK(d, s, store, Active(ctx, ToClaim(job, action))) && StoreOK(d, s.runId, store)
    ensures StepKeeps(
              d, s, store, Active(ctx, ToClaim(job, action)), StepToClaim(store, ctx, job, action))
  {
  }

  lemma DispatchKeeps(
    d: Deployment, s: Session, store: Store, ctx: Context, job: Job, action: Action, e: GovernedExecution)
    requires StageOK(d, s, store, Active(ctx, HoldsClaim(job, action)))
    ensures StepKeeps(
              d, s, store, Active(ctx, HoldsClaim(job, action)), StepHoldsClaim(store, ctx, job, action, e))
  {
  }

  lemma DispatchedKeeps(d: Deployment, s: Session, store: Store, ctx: Context, job: Job, e: GovernedExecution)
    requires StageOK(d, s, store, Active(ctx, Dispatched(job, e)))
    ensures StepKeeps(d, s, store, Active(ctx, Dispatched(job, e)), StepDispatched(store, ctx, job, e))
  {
  }

  lemma MergeKeeps(d: Deployment, s: Session, store: Store, ctx: Context, job: Job, e: GovernedExecution)
    requires StageOK(d, s, store, Active(ctx, ToMerge(job, e)))
    ensures StepKeeps(d, s, store, Active(ctx, ToMerge(job, e)), StepToMerge(d, s, store, ctx, job, e))
  {
    var point := ToMerge(job, e);
    if e.status != Executed {
      var rejected := ctx.(events := ctx.events + [RunEvent(ToolRejectedEvent, job.step, Some(job.requestId))]);
      FinishKeeps(d, s, store, ctx, point, rejected, RejectionStatus(e.status), None);
    } else if |d.render(job.requestId, e.output)| > s.profile.limits.maxObservationChars {
      FinishKeeps(d, s, store, ctx, point, ctx, LimitReached, None);
    } else if store.value.version == ctx.record.version {
      MergeWriteKeeps(d, s, store, ctx, job, e);
    }
  }

  lemma MergeWriteKeeps(d: Deployment, s: Session, store: Store, ctx: Context, job: Job, e: GovernedExecution)
    requires StageOK(d, s, store, Active(ctx, ToMerge(job, e)))
    requires e.status == Executed && |d.render(job.requestId, e.output)| <= s.profile.limits.maxObservationChars
    requires store.value.version == ctx.record.version
    ensures StepKeeps(d, s, store, Active(ctx, ToMerge(job, e)), StepToMerge(d, s, store, ctx, job, e))
  {
    MergeIsNext(d, s, store, ctx, job, e);
    WriteKeeps(d, s, store, Active(ctx, ToMerge(job, e)), StepToMerge(d, s, store, ctx, job, e));
  }

  lemma MergeIsNext(d: Deployment, s: Session, store: Store, ctx: Context, job: Job, e: GovernedExecution)
    requires ContextOK(d, s, ctx, ToMerge(job, e)) && store == Some(ctx.record)
    requires e.status == Executed && |d.render(job.requestId, e.output)| <= s.profile.limits.maxObservationChars
    ensures var res := StepToMerge(d, s, store, ctx, job, e);
            && res.store.Some? && Successor(d, ctx.record, res.store.value) && res.store.value.state == Running
            && res.stage.Active? && res.stage.ctx.record == res.store.value && res.stage.point.LoopTop?
            && ContextOK(d, s, res.stage.ctx, res.stage.point)
  {
    var res := StepToMerge(d, s, store, ctx, job, e);
    MergedMessages(s, ctx.messages, job, d.render(job.requestId, e.output));
    MergedSucceeds(d, ctx, job, res.store.value);
    RunningContextOK(d, s, res.stage.ctx);
  }

  /** A successful write that takes no flight and continues in order. */
  lemma WriteKeeps(d: Deployment, s: Session, store: Store, stage: Stage, res: StepResult)
    requires stage.Active? && store == Some(stage.ctx.record) && res.store.Some?
    requires Successor(d, store.value, res.store.value) && store.value.state != ToolInFlight
    requires res.effect.NoEffect? && res.store.value.state != ToolInFlight && !OwnsFlight(stage.point)
    requires res.stage.Active? && res.stage.ctx.record == res.store.value && !OwnsFlight(res.stage.point)
    requires ContextOK(d, s, res.stage.ctx, res.stage.point)
    ensures StepKeeps(d, s, store, stage, res)
  {
  }

  lemma RunningContextOK(d: Deployment, s: Session, ctx: Context)
    requires GoodRecord(d, ctx.record) && ctx.record.state == Running && SameCounters(ctx)
    requires ctx.record.fingerprint == s.profile && ctx.record.runId == s.runId
    requires ctx.messages == ctx.record.messages && ctx.events == ctx.record.events
    ensures ContextOK(d, s, ctx, LoopTop(ctx.record.nextStep, Fresh))
  {
  }

  lemma MergedMessages(s: Session, messages: seq<Message>, job: Job, observation: string)
    requires ValidHistory(messages, true) && EndsWithCall(messages) && messages[|messages|-1].call == job.call
    ensures var answered := messages + [Result(observation, job.call.callId, job.call.name)];
            var merged := if job.resumed then AddKnowledge(s, answered) else answered;
            messages <= merged && ValidHistory(merged, false) && CountResults(merged) == CountResults(messages) + 1
  {
    var result := Result(observation, job.call.callId, job.call.name);
    ResultClosesHistory(messages, result);
    CountResultsAppend(messages, result);
    KnowledgeKeepsHistory(s, messages + [result]);
  }

  lemma MergedSucceeds(d: Deployment, ctx: Context, job: Job, r': StoredRunRecord)
    requires GoodRecord(d, ctx.record) && ctx.record.state == ToolCompleted && job.step == ctx.record.nextStep
    requires SameCounters(ctx) && ctx.record.events <= ctx.events
    requires ctx.record.messages <= r'.messages && ValidHistory(r'.messages, false)
    requires CountResults(r'.messages) == CountResults(ctx.record.messages) + 1
    requires r' == ctx.record.(
                   version := ctx.record.version + 1, state := Running, nextStep := job.step + 1,
                   messages := r'.messages,
                   events := ctx.events + [RunEvent(ToolCompletedEvent, job.step, Some(job.requestId))],
                   pending := NOTHING_PENDING)
    ensures Successor(d, ctx.record, r')
  {
  }

  lemma KnowledgeKeepsHistory(s: Session, ms: seq<Message>)
    requires ValidHistory(ms, false)
    ensures ms <= AddKnowledge(s, ms) && ValidHistory(AddKnowledge(s, ms), false)
    ensures CountResults(AddKnowledge(s, ms)) == CountResults(ms)
  {
    if s.knowledge.Some? {
      TextKeepsHistory(ms, Text(UserRole, s.knowledge.value));
      CountResultsAppend(ms, Text(UserRole, s.knowledge.value));
    }
  }

  lemma FirstRecordGood(d: Deployment, s: Session)
    ensures GoodRecord(d, FirstRecord(s)) && FirstRecord(s).runId == s.runId
  {
    var ms := FirstRecord(s).messages;
    CountResultsAppend([ms[0]], ms[1]);
    CountResultsAppend([], ms[0]);
    PairedAppend([ms[0]], ms[1]);
    PairedAppend([], ms[0]);
    assert [] + [ms[0]] == [ms[0]] && [ms[0]] + [ms[1]] == ms;
  }

  lemma EnterLoopOK(d: Deployment, s: Session, r: StoredRunRecord)
    requires GoodRecord(d, r) && r.fingerprint == s.profile && r.runId == s.runId
    requires !Terminal(r.state) && r.state != ToolInFlight
    ensures StageOK(d, s, Some(r), EnterLoop(s, r)) && !OwnsFlight(EnterLoop(s, r).point)
  {
    if r.state == Running {
      KnowledgeKeepsHistory(s, r.messages);
    }
  }

  /** Every step of every worker, whatever it reads from outside. */
  lemma WorkerStepKeeps(d: Deployment, s: Session, store: Store, stage: Stage, i: Input)
    requires ValidDeployment(d) && StoreOK(d, s.runId, store) && StageOK(d, s, store, stage)
    ensures StepKeeps(d, s, store, stage, WorkerStep(d, s, store, stage, i))
  {
    FirstRecordGood(d, s);
    match stage
    case Loading =>
      if store.Some? && Resume(s, store.value).Active? {
        EnterLoopOK(d, s, store.value);
      }
    case Creating =>
      EnterLoopOK(d, s, FirstRecord(s));
    case Active(ctx, point) =>
      match point {
        case LoopTop(step, phase) => LoopTopKeeps(d, s, store, ctx, step, phase, i);
        case ModelReturned(step, output) => ModelReturnedKeeps(d, s, store, ctx, step, output, i);
        case ToClaim(job, action) => ClaimKeeps(d, s, store, ctx, job, action);
        case HoldsClaim(job, action) => DispatchKeeps(d, s, store, ctx, job, action, i.execution);
        case Dispatched(job, e) => DispatchedKeeps(d, s, store, ctx, job, e);
        case ToMerge(job, e) => MergeKeeps(d, s, store, ctx, job, e);
      }
    case Observing =>
    case Ended(_) =>
  }
}
