/** A worker that runs alone and undisturbed computes the reference run, from a fresh
    start and from any record the protocol may have stored. */
module DurableRefinement {
  import opened Contracts
  import opened History
  import opened DurableRecords
  import opened DurableWorker
  import opened DurableInvariant
  import opened AgentReference

  datatype Driven = Driven(store: Store, stage: Stage)

  /** One worker driven by a sequence of inputs. */
  ghost function Drive(d: Deployment, s: Session, start: Driven, inputs: seq<Input>): Driven
    decreases |inputs|, 1
  {
    if inputs == [] then start else DriveLast(d, s, start, inputs)
  }

  ghost function DriveLast(d: Deployment, s: Session, start: Driven, inputs: seq<Input>): Driven
    requires inputs != []
    decreases |inputs|, 0
  {
    DriveOne(d, s, Drive(d, s, start, inputs[..|inputs|-1]), inputs[|inputs|-1])
  }

  ghost function DriveOne(d: Deployment, s: Session, now: Driven, i: Input): Driven {
    var res := WorkerStep(d, s, now.store, now.stage, i);
    Driven(res.store, res.stage)
  }

  lemma DriveExtend(d: Deployment, s: Session, start: Driven, inputs: seq<Input>, i: Input)
    ensures Drive(d, s, start, inputs + [i]) == DriveOne(d, s, Drive(d, s, start, inputs), i)
  {
    assert (inputs + [i])[..|inputs|] == inputs;
  }

  /** The summary an undisturbed worker is still going to return. */
  ghost function Rest(d: Deployment, o: Oracle, s: Session, ctx: Context, point: Point): Summary
    requires ContextOK(d, s, ctx, point)
  {
    match point
    case LoopTop(step, phase) =>
      if phase != Fresh then ResumeSummary(d, o, s, ctx.record)
      else if !ToolsRegistered(s) then Summary(ModelFailure, None, ctx.toolCalls, ctx.modelTurns)
      else TurnFrom(d, o, s, step, ctx.messages, ctx.toolCalls, ctx.modelTurns)
    case ModelReturned(step, output) =>
      AfterReply(d, o, s, step, ctx.messages, ctx.toolCalls, ctx.modelTurns, output)
    case ToClaim(job, action) => RestOfJob(d, o, s, ctx, job, o.runtime(action), ctx.toolCalls + 1)
    case HoldsClaim(job, action) => RestOfJob(d, o, s, ctx, job, o.runtime(action), ctx.toolCalls + 1)
    case Dispatched(job, e) => RestOfJob(d, o, s, ctx, job, e, ctx.toolCalls)
    case ToMerge(job, e) => RestOfJob(d, o, s, ctx, job, e, ctx.toolCalls)
  }

  ghost function RestOfJob(
    d: Deployment, o: Oracle, s: Session, ctx: Context, job: Job, e: GovernedExecution, calls: nat): Summary
    requires job.step <= s.profile.maxModelTurns
  {
    AfterExecution(
      d, o, s, job.step, ctx.messages, job.call, e.status, e.output, calls, ctx.modelTurns, job.resumed)
  }

  function SummaryOf(r: RunResult): Summary {
    Summary(r.status, r.finalText, r.toolCalls, r.modelTurns)
  }

  /** What the two flags of a check amount to: a cancellation is looked for first. */
  function HaltOf(cancelled: bool, expired: bool): Halt {
    if cancelled then Cancel else if expired then Expire else Go
  }

  /** The input is what the oracle gives at this point of the run. */
  ghost predicate Follows(o: Oracle, ctx: Context, point: Point, i: Input) {
    match point
    case LoopTop(step, _) =>
      && HaltOf(i.cancelled, i.expired) == o.signals(step).top
      && HaltOf(i.cancelledAtDispatch, i.expiredAtDispatch) == o.signals(step).dispatch
      && i.reply == o.model(ctx.messages)
    case ModelReturned(step, _) =>
      && HaltOf(i.cancelled, i.expired) == o.signals(step).returned
      && HaltOf(i.cancelledAtDispatch, i.expiredAtDispatch) == o.signals(step).dispatch
    case HoldsClaim(_, action) => i.execution == o.runtime(action)
    case _ => true
  }

  ghost predicate Alone(
    d: Deployment, o: Oracle, s: Session, ctx: Context, point: Point, i: Input)
  {
    && ValidDeployment(d) && ValidOracle(o) && StageOK(d, s, Some(ctx.record), Active(ctx, point))
    && Follows(o, ctx, point, i) && (point.LoopTop? || ToolsRegistered(s))
  }

  /** The step ends with the summary expected, or goes on expecting it. */
  ghost predicate Keeps(d: Deployment, o: Oracle, s: Session, expected: Summary, res: StepResult) {
    match res.stage
    case Active(ctx, point) =>
      && res.store == Some(ctx.record) && (point.LoopTop? || ToolsRegistered(s))
      && ContextOK(d, s, ctx, point) && Rest(d, o, s, ctx, point) == expected
    case Ended(Returned(r)) =>
      SummaryOf(r) == expected && res.store.Some? && Terminal(res.store.value.state)
      && res.store.value.terminalStatus.Some? && RecordToResult(res.store.value) == r
    case _ => false
  }

  lemma EndKeeps(d: Deployment, o: Oracle, s: Session, ctx: Context, status: RunStatus, finalText: Option<string>)
    ensures Keeps(
              d, o, s, Summary(status, finalText, ctx.toolCalls, ctx.modelTurns),
              Finish(Some(ctx.record), ctx, status, finalText))
  {
  }

  lemma FreshTurnKeeps(d: Deployment, o: Oracle, s: Session, ctx: Context, step: nat, i: Input)
    requires Alone(d, o, s, ctx, LoopTop(step, Fresh), i)
    ensures Keeps(
              d, o, s, Rest(d, o, s, ctx, LoopTop(step, Fresh)),
              StepLoopTop(d, s, Some(ctx.record), ctx, step, Fresh, i))
  {
    WorkerStepKeeps(d, s, Some(ctx.record), Active(ctx, LoopTop(step, Fresh)), i);
    if !ToolsRegistered(s) {
      EndKeeps(d, o, s, ctx, ModelFailure, None);
    } else if step > s.profile.maxModelTurns {
      EndKeeps(d, o, s, ctx, LimitReached, None);
    } else if o.signals(step).top != Go {
      EndKeeps(d, o, s, ctx, HaltStatus(o.signals(step).top), None);
    } else if |ctx.messages| > s.profile.limits.maxContextMessages {
      EndKeeps(d, o, s, ctx, LimitReached, None);
    } else if i.reply.Fails? {
      EndKeeps(d, o, s, ctx.(events := ctx.events + [RunEvent(ModelTurnEvent, step, None)]), ModelFailure, None);
    }
  }

  lemma ResumeTurnKeeps(d: Deployment, o: Oracle, s: Session, ctx: Context, step: nat, phase: Phase, i: Input)
    requires Alone(d, o, s, ctx, LoopTop(step, phase), i) && phase != Fresh
    ensures Keeps(
              d, o, s, Rest(d, o, s, ctx, LoopTop(step, phase)),
              StepLoopTop(d, s, Some(ctx.record), ctx, step, phase, i))
  {
    WorkerStepKeeps(d, s, Some(ctx.record), Active(ctx, LoopTop(step, phase)), i);
    PendingRestores(d, ctx.record);
    if !ToolsRegistered(s) {
      EndKeeps(d, o, s, ctx, ModelFailure, None);
    } else if o.signals(step).top != Go {
      EndKeeps(d, o, s, ctx, HaltStatus(o.signals(step).top), None);
    } else if |ctx.messages| > s.profile.limits.maxContextMessages {
      EndKeeps(d, o, s, ctx, LimitReached, None);
    } else if phase == ResumePrepared && s.toolsBlocked {
      EndKeeps(d, o, s, ctx, ToolFailure, None);
    } else if phase == ResumePrepared && o.signals(step).dispatch != Go {
      EndKeeps(d, o, s, ctx, HaltStatus(o.signals(step).dispatch), None);
    }
  }

  lemma TextKeeps(d: Deployment, o: Oracle, s: Session, ctx: Context, step: nat, output: ModelOutput, i: Input)
    requires Alone(d, o, s, ctx, ModelReturned(step, output), i)
    requires o.signals(step).returned != Go || !output.CallOutput?
    ensures Keeps(
              d, o, s, Rest(d, o, s, ctx, ModelReturned(step, output)),
              StepModelReturned(d, s, Some(ctx.record), ctx, step, output, i))
  {
    if o.signals(step).returned != Go {
      EndKeeps(d, o, s, ctx, HaltStatus(o.signals(step).returned), None);
    } else if output.Unsupported? || |output.text| > s.profile.limits.maxModelTextChars {
      EndKeeps(d, o, s, ctx, InvalidModelResponse, None);
    } else {
      EndKeeps(
        d, o, s, ctx.(events := ctx.events + [RunEvent(ModelResponseEvent, step, None)]),
        StatusCompleted, Some(output.text));
    }
  }

  lemma CallKeeps(d: Deployment, o: Oracle, s: Session, ctx: Context, step: nat, call: ToolCall, i: Input)
    requires Alone(d, o, s, ctx, ModelReturned(step, CallOutput(call)), i) && o.signals(step).returned == Go
    ensures Keeps(
              d, o, s, Rest(d, o, s, ctx, ModelReturned(step, CallOutput(call))),
              StepModelReturned(d, s, Some(ctx.record), ctx, step, CallOutput(call), i))
  {
    match Refusal(d, s, step, ctx.messages, ctx.toolCalls, call, o.signals(step).dispatch)
    case Some(status) => EndKeeps(d, o, s, ctx, status, None);
    case None => AcceptedCallKeeps(d, o, s, ctx, step, call, i);
  }

  lemma AcceptedCallKeeps(d: Deployment, o: Oracle, s: Session, ctx: Context, step: nat, call: ToolCall, i: Input)
    requires Alone(d, o, s, ctx, ModelReturned(step, CallOutput(call)), i) && o.signals(step).returned == Go
    requires Refusal(d, s, step, ctx.messages, ctx.toolCalls, call, o.signals(step).dispatch) == None
    ensures Keeps(
              d, o, s, Rest(d, o, s, ctx, ModelReturned(step, CallOutput(call))),
              StepModelReturned(d, s, Some(ctx.record), ctx, step, CallOutput(call), i))
  {
    AcceptedStage(d, o, s, ctx, step, call, i);
    WorkerStepKeeps(d, s, Some(ctx.record), Active(ctx, ModelReturned(step, CallOutput(call))), i);
    AcceptedRest(d, o, s, ctx, step, call);
  }

  /** Where an accepted call leads. */
  lemma AcceptedStage(d: Deployment, o: Oracle, s: Session, ctx: Context, step: nat, call: ToolCall, i: Input)
    requires Alone(d, o, s, ctx, ModelReturned(step, CallOutput(call)), i) && o.signals(step).returned == Go
    requires Refusal(d, s, step, ctx.messages, ctx.toolCalls, call, o.signals(step).dispatch) == None
    ensures var res := StepModelReturned(d, s, Some(ctx.record), ctx, step, CallOutput(call), i);
            && res.stage.Active? && res.store == Some(res.stage.ctx.record)
            && res.stage.ctx.messages == ctx.messages + [Call(call)]
            && res.stage.ctx.toolCalls == ctx.toolCalls && res.stage.ctx.modelTurns == ctx.modelTurns
            && res.stage.point == ToClaim(
                                    Job(step, call, d.requestId(s.runId, step), false),
                                    ActionFor(s, s.runId, call, d.requestId(s.runId, step)))
  {
  }

  lemma AcceptedRest(d: Deployment, o: Oracle, s: Session, ctx: Context, step: nat, call: ToolCall)
    requires ContextOK(d, s, ctx, ModelReturned(step, CallOutput(call))) && o.signals(step).returned == Go
    requires Refusal(d, s, step, ctx.messages, ctx.toolCalls, call, o.signals(step).dispatch) == None
    ensures Rest(d, o, s, ctx, ModelReturned(step, CallOutput(call)))
            == DispatchFrom(d, o, s, step, ctx.messages + [Call(call)], call, ctx.toolCalls, ctx.modelTurns)
  {
  }

  lemma OutputKeeps(d: Deployment, o: Oracle, s: Session, ctx: Context, step: nat, output: ModelOutput, i: Input)
    requires Alone(d, o, s, ctx, ModelReturned(step, output), i)
    ensures Keeps(
              d, o, s, Rest(d, o, s, ctx, ModelReturned(step, output)),
              StepModelReturned(d, s, Some(ctx.record), ctx, step, output, i))
  {
    if o.signals(step).returned != Go || !output.CallOutput? {
      TextKeeps(d, o, s, ctx, step, output, i);
    } else {
      CallKeeps(d, o, s, ctx, step, output.call, i);
    }
  }

  lemma ToolKeeps(d: Deployment, o: Oracle, s: Session, ctx: Context, point: Point, i: Input)
    requires Alone(d, o, s, ctx, point, i) && (point.ToClaim? || point.HoldsClaim? || point.Dispatched?)
    ensures Keeps(d, o, s, Rest(d, o, s, ctx, point), StepPoint(d, s, Some(ctx.record), ctx, point, i))
  {
    WorkerStepKeeps(d, s, Some(ctx.record), Active(ctx, point), i);
  }

  lemma MergeKeepsRest(d: Deployment, o: Oracle, s: Session, ctx: Context, job: Job, e: GovernedExecution, i: Input)
    requires Alone(d, o, s, ctx, ToMerge(job, e), i)
    ensures Keeps(
              d, o, s, Rest(d, o, s, ctx, ToMerge(job, e)),
              StepToMerge(d, s, Some(ctx.record), ctx, job, e))
  {
    WorkerStepKeeps(d, s, Some(ctx.record), Active(ctx, ToMerge(job, e)), i);
    if e.status != Executed {
      EndKeeps(
        d, o, s, ctx.(events := ctx.events + [RunEvent(ToolRejectedEvent, job.step, Some(job.requestId))]),
        RejectionStatus(e.status), None);
    } else if |d.render(job.requestId, e.output)| > s.profile.limits.maxObservationChars {
      EndKeeps(d, o, s, ctx, LimitReached, None);
    }
  }

  /** One step of a worker that is alone. */
  lemma StepKeepsRest(d: Deployment, o: Oracle, s: Session, ctx: Context, point: Point, i: Input)
    requires Alone(d, o, s, ctx, point, i)
    ensures Keeps(
              d, o, s, Rest(d, o, s, ctx, point), WorkerStep(d, s, Some(ctx.record), Active(ctx, point), i))
  {
    match point
    case LoopTop(step, Fresh) => FreshTurnKeeps(d, o, s, ctx, step, i);
    case LoopTop(step, phase) => ResumeTurnKeeps(d, o, s, ctx, step, phase, i);
    case ModelReturned(step, output) => OutputKeeps(d, o, s, ctx, step, output, i);
    case ToMerge(job, e) => MergeKeepsRest(d, o, s, ctx, job, e, i);
    case _ => ToolKeeps(d, o, s, ctx, point, i);
  }

  ghost predicate Resumable(d: Deployment, s: Session, r: StoredRunRecord) {
    && GoodRecord(d, r) && r.fingerprint == s.profile && r.runId == s.runId
    && !Terminal(r.state) && r.state != ToolInFlight
  }

  lemma EnterExpects(d: Deployment, o: Oracle, s: Session, r: StoredRunRecord)
    requires Resumable(d, s, r)
    ensures var stage := EnterLoop(s, r);
            ContextOK(d, s, stage.ctx, stage.point)
            && Rest(d, o, s, stage.ctx, stage.point) == ResumeSummary(d, o, s, r)
  {
    EnterLoopOK(d, s, r);
  }

  /** A new run is the resumption of its first record. */
  lemma FreshRunExpects(d: Deployment, o: Oracle, s: Session)
    ensures Resumable(d, s, FirstRecord(s))
    ensures ResumeSummary(d, o, s, FirstRecord(s)) == AgentRun(d, o, s)
  {
    FirstRecordGood(d, s);
  }
}
