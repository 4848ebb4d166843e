/** How runs end: what each step of an up-to-date worker writes, spelled out, and what the
    stored end of a run says about the tool calls it made, over every execution. */
module RunEndings {
  import opened Contracts
  import opened History
  import opened DurableRecords
  import opened DurableWorker
  import opened DurableInvariant
  import opened DurableProtocol

  /** The record of a run that ended without a text, after some last events. */
  function Closed(ctx: Context, last: seq<RunEvent>, state: DurableState, status: RunStatus): StoredRunRecord {
    var events := ctx.events + last;
    StoredRunRecord(
      ctx.record.version + 1, ctx.record.runId, state, ctx.record.fingerprint, ctx.record.task, ctx.record.nextStep,
      ctx.toolCalls, ctx.modelTurns, ctx.messages, events + [RunEvent(RunFailedEvent, |events|, None)],
      Pending(None, None, None, None, None, None, None, None), Some(status), None)
  }

  /** The worker's copy is the stored record. */
  ghost predicate UpToDate(d: Deployment, s: Session, ctx: Context, point: Point) {
    StageOK(d, s, Some(ctx.record), Active(ctx, point))
  }

  ghost function StepOf(d: Deployment, s: Session, ctx: Context, point: Point, i: Input): StepResult {
    WorkerStep(d, s, Some(ctx.record), Active(ctx, point), i)
  }

  // ---- What a step writes ----

  /** The checks at the top of the loop let the worker go on. */
  predicate TopPasses(s: Session, ctx: Context, step: nat, i: Input) {
    && s.profile.permitted <= s.tools.Keys && step <= s.profile.maxModelTurns && !i.cancelled && !i.expired
    && |ctx.messages| <= s.profile.limits.maxContextMessages
  }

  /** At the top of the loop: unregistered tools, the turn limit, cancellation, the deadline
      and the context limit end the run, in this order. */
  lemma TopEnds(d: Deployment, s: Session, ctx: Context, step: nat, phase: Phase, i: Input)
    requires UpToDate(d, s, ctx, LoopTop(step, phase)) && !TopPasses(s, ctx, step, i)
    ensures StepOf(d, s, ctx, LoopTop(step, phase), i).store ==
            Some(if !(s.profile.permitted <= s.tools.Keys) then Closed(ctx, [], RunFailed, ModelFailure)
                 else if step > s.profile.maxModelTurns then Closed(ctx, [], RunFailed, LimitReached)
                 else if i.cancelled then Closed(ctx, [], RunCancelled, StatusCancelled)
                 else if i.expired then Closed(ctx, [], RunFailed, TimedOut)
                 else Closed(ctx, [], RunFailed, LimitReached))
  {
    assert ctx.events + [] == ctx.events;
  }

  /** A new turn asks the model: an error ends the run, a reply is counted and noted. */
  lemma TopAsks(d: Deployment, s: Session, ctx: Context, step: nat, i: Input)
    requires UpToDate(d, s, ctx, LoopTop(step, Fresh)) && TopPasses(s, ctx, step, i)
    ensures var turn := RunEvent(ModelTurnEvent, step, None);
            var res := StepOf(d, s, ctx, LoopTop(step, Fresh), i);
            if i.reply.Fails? then res.store == Some(Closed(ctx, [turn], RunFailed, ModelFailure))
            else
              && res.store == Some(ctx.record.(
                                   version := ctx.record.version + 1, messages := ctx.messages,
                                   events := ctx.events + [turn], modelTurns := ctx.modelTurns + 1))
              && res.stage.Active? && res.stage.point == ModelReturned(step, i.reply.output)
  {
  }

  /** A worker that resumes a prepared call goes on to claim it, unless tools are blocked,
      the run is cancelled or late. */
  lemma TopResumes(d: Deployment, s: Session, ctx: Context, step: nat, phase: Phase, i: Input)
    requires ValidDeployment(d)
    requires UpToDate(d, s, ctx, LoopTop(step, phase)) && TopPasses(s, ctx, step, i) && phase != Fresh
    ensures var res := StepOf(d, s, ctx, LoopTop(step, phase), i);
            if phase == ResumePrepared && s.toolsBlocked
            then res.store == Some(Closed(ctx, [], RunFailed, ToolFailure))
            else if phase == ResumePrepared && i.cancelledAtDispatch
            then res.store == Some(Closed(ctx, [], RunCancelled, StatusCancelled))
            else if phase == ResumePrepared && i.expiredAtDispatch
            then res.store == Some(Closed(ctx, [], RunFailed, TimedOut))
            else
              && res.store == Some(ctx.record) && res.stage.Active? && res.stage.ctx == ctx
              && var job := Job(step, ctx.messages[|ctx.messages|-1].call, d.requestId(s.runId, step), true);
              if phase == ResumePrepared then res.stage.point == ToClaim(job, ctx.record.pending.action.value)
              else
                && res.stage.point.ToMerge? && res.stage.point.job == job
                && Some(res.stage.point.execution.status) == ctx.record.pending.status
                && res.stage.point.execution.output == ctx.record.pending.output
  {
    PendingRestores(d, ctx.record);
    assert ctx.events + [] == ctx.events;
  }

  /** What the model said ends the run: a text within the limit completes it, and anything
      that cannot be dispatched fails it. */
  lemma TextEnds(d: Deployment, s: Session, ctx: Context, step: nat, output: ModelOutput, i: Input)
    requires UpToDate(d, s, ctx, ModelReturned(step, output)) && (output.CallOutput? ==> i.cancelled || i.expired)
    ensures var failed := Closed(ctx, [], RunFailed, InvalidModelResponse);
            StepOf(d, s, ctx, ModelReturned(step, output), i).store ==
            Some(if i.cancelled then Closed(ctx, [], RunCancelled, StatusCancelled)
                 else if i.expired then Closed(ctx, [], RunFailed, TimedOut)
                 else if output == Unsupported || |output.text| > s.profile.limits.maxModelTextChars
                 then Closed(ctx, [], RunFailed, InvalidModelResponse)
                 else
                   var said := ctx.events + [RunEvent(ModelResponseEvent, step, None)];
                   failed.(state := RunCompleted, terminalStatus := Some(StatusCompleted),
                           finalText := Some(output.text),
                           events := said + [RunEvent(RunCompletedEvent, |said|, None)]))
  {
    assert ctx.events + [] == ctx.events;
  }

  /** The action of a call: the agent, the tool and its registered capability, the proposed
      arguments, and the request id of the step, which is also the idempotency key. */
  function Proposed(d: Deployment, s: Session, step: nat, call: ToolCall): Action
    requires call.name in s.tools
  {
    Action(
      agentId := s.profile.agentId, toolName := call.name, capability := s.tools[call.name],
      arguments := call.arguments, requestId := d.requestId(s.runId, step),
      idempotencyKey := d.requestId(s.runId, step), runId := s.runId, callId := call.callId)
  }

  /** A proposed call is prepared, or ends the run. */
  lemma CallEnds(d: Deployment, s: Session, ctx: Context, step: nat, call: ToolCall, i: Input)
    requires UpToDate(d, s, ctx, ModelReturned(step, CallOutput(call))) && !i.cancelled && !i.expired
    ensures var requestId := d.requestId(s.runId, step);
            StepOf(d, s, ctx, ModelReturned(step, CallOutput(call)), i).store ==
            Some(if call.name !in s.profile.permitted || call.name !in s.tools
                 then Closed(ctx, [], RunFailed, InvalidModelResponse)
                 else if ctx.toolCalls >= s.profile.maxToolCalls then Closed(ctx, [], RunFailed, LimitReached)
                 else if s.toolsBlocked then Closed(ctx, [], RunFailed, ToolFailure)
                 else if i.cancelledAtDispatch then Closed(ctx, [], RunCancelled, StatusCancelled)
                 else if i.expiredAtDispatch then Closed(ctx, [], RunFailed, TimedOut)
                 else if !ValidHistory(ctx.messages + [Call(call)], true) || !d.captures(call, requestId)
                 then Closed(ctx, [], RunFailed, InvalidModelResponse)
                 else
                   ctx.record.(
                   version := ctx.record.version + 1, state := ToolPrepared,
                   messages := ctx.messages + [Call(call)],
                   events := ctx.events + [RunEvent(ToolRequestedEvent, step, Some(requestId))],
                   pending := Pending(
                     Some(requestId), Some(requestId), Some(Proposed(d, s, step, call)), Some(call.callId),
                     Some(call.name), None, None, None)))
  {
    assert ctx.events + [] == ctx.events;
  }

  /** The claim, and the facts of the execution, are stored in the prepared record. */
  lemma ClaimAndCompletionStore(d: Deployment, s: Session, ctx: Context, point: Point, i: Input)
    requires UpToDate(d, s, ctx, point) && (point.ToClaim? || point.Dispatched?)
    ensures StepOf(d, s, ctx, point, i).store ==
            Some(if point.ToClaim? then ctx.record.(version := ctx.record.version + 1, state := ToolInFlight)
                 else
                   ctx.record.(
                   version := ctx.record.version + 1, state := ToolCompleted, events := ctx.events,
                   toolCalls := ctx.record.toolCalls + 1,
                   pending := ctx.record.pending.(
                   status := Some(point.execution.status), output := point.execution.output,
                   reason := Some(point.execution.reason))))
  {
  }

  /** A finished call: blocked or sent to review, the run is rejected; failed or unknown, it
      is a tool failure; executed, the observation is merged or exceeds its limit. */
  lemma MergeEnds(d: Deployment, s: Session, ctx: Context, job: Job, e: GovernedExecution, i: Input)
    requires UpToDate(d, s, ctx, ToMerge(job, e))
    ensures var rejected := RunEvent(ToolRejectedEvent, job.step, Some(job.requestId));
            var observation := d.render(job.requestId, e.output);
            StepOf(d, s, ctx, ToMerge(job, e), i).store ==
            Some(match e.status
                 case Blocked => Closed(ctx, [rejected], RunFailed, StatusRejected)
                 case ReviewRequired => Closed(ctx, [rejected], RunFailed, StatusRejected)
                 case ControlFailure => Closed(ctx, [rejected], RunFailed, ToolFailure)
                 case Indeterminate => Closed(ctx, [rejected], RunFailed, ToolFailure)
                 case Executed =>
                   if |observation| > s.profile.limits.maxObservationChars
                   then Closed(ctx, [], RunFailed, LimitReached)
                   else
                     ctx.record.(
                     version := ctx.record.version + 1, state := Running, nextStep := job.step + 1,
                     messages := ctx.messages + [Result(observation, job.call.callId, job.call.name)]
                                 + (if job.resumed && s.knowledge.Some?
                                    then [Text(UserRole, s.knowledge.value)] else []),
                     events := ctx.events + [RunEvent(ToolCompletedEvent, job.step, Some(job.requestId))],
                     pending := Pending(None, None, None, None, None, None, None, None)))
  {
    assert ctx.events + [] == ctx.events;
    var answered := ctx.messages + [Result(d.render(job.requestId, e.output), job.call.callId, job.call.name)];
    assert answered + [] == answered;
  }

  /** A new run starts with the agent's instructions and the task. */
  lemma FirstStored(d: Deployment, s: Session, i: Input)
    ensures WorkerStep(d, s, None, Creating, i).store ==
            Some(StoredRunRecord(
                   0, s.runId, Running, s.profile, s.task, 1, 0, 0,
                   [Text(SystemRole, s.profile.instructions), Text(UserRole, s.task)],
                   [RunEvent(RunStartedEvent, 0, None)],
                   Pending(None, None, None, None, None, None, None, None), None, None))
  {
  }

  /** A worker that starts: a blank task, another profile or another task raises, a task
      over its limit is refused, a finished run and one in flight are reported as they are
      stored, and only a run that can go on is entered. */
  lemma StartAnswers(d: Deployment, s: Session, store: Store, i: Input)
    requires StoreOK(d, s.runId, store)
    ensures var res := WorkerStep(d, s, store, Loading, i);
            && res.store == store && res.effect == NoEffect
            && if Blank(s.task) then res.stage == Ended(Raised)
               else if |s.task| > s.profile.limits.maxTaskChars
               then
                 res.stage == Ended(Returned(
                                      RunResult(s.runId, InvalidModelResponse, None, 0, 0,
                                                [RunEvent(RunFailedEvent, 0, None)])))
               else if store.None? then res.stage == Creating
               else
                 var r := store.value;
                 if r.fingerprint != s.profile || Strip(r.task) != Strip(s.task) then res.stage == Ended(Raised)
                 else if r.terminalStatus.Some? || r.state == ToolInFlight then res.stage == Ended(Reported(r))
                 else
                   && res.stage.Active? && res.stage.ctx.record == r && res.stage.ctx.events == r.events
                   && res.stage.ctx.messages ==
                      r.messages + (if r.state == Running && s.knowledge.Some?
                                    then [Text(UserRole, s.knowledge.value)] else [])
                   && res.stage.point ==
                      LoopTop(
                        r.nextStep,
                        if r.state == Running then Fresh
                        else if r.state == ToolPrepared then ResumePrepared else ResumeCompleted)
  {
    if store.Some? {
      assert store.value.messages + [] == store.value.messages;
    }
  }

  /** What is said about a stored run by somebody who does not drive it. */
  function Reported(r: StoredRunRecord): WorkerOutcome {
    Returned(
      RunResult(
        r.runId, if r.terminalStatus.Some? then r.terminalStatus.value else ExecutionInFlight,
        if r.terminalStatus.Some? then r.finalText else None, r.toolCalls, r.modelTurns, r.events))
  }

  /** A worker that loses the race for a claim reports the stored run and changes nothing. */
  lemma LostClaimIsReported(d: Deployment, s: Session, r: StoredRunRecord, i: Input)
    requires GoodRecord(d, r)
    ensures var res := WorkerStep(d, s, Some(r), Observing, i);
            res.store == Some(r) && res.effect == NoEffect && res.stage == Ended(Reported(r))
  {
  }

  // ---- What the end of a run says, over every execution ----

  /** A write of the protocol, seen from the execution that was stored before it. */
  ghost predicate Caused(r: StoredRunRecord, r': StoredRunRecord) {
    && (r'.nextStep != r.nextStep ==>
          r'.nextStep == r.nextStep + 1 && r.state == ToolCompleted && r.pending.status == Some(Executed))
    && (r'.terminalStatus == Some(StatusCompleted) ==> r.state == Running)
    && (r'.terminalStatus == Some(StatusRejected) ==>
          r.state == ToolCompleted && (r.pending.status == Some(Blocked) || r.pending.status == Some(ReviewRequired)))
    && (r'.terminalStatus == Some(ToolFailure) && r.state == ToolCompleted ==>
          r.pending.status == Some(ControlFailure) || r.pending.status == Some(Indeterminate))
    && r'.terminalStatus != Some(RecoveryRequired) && r'.terminalStatus != Some(ExecutionInFlight)
  }

  lemma WritesAreCaused(d: Deployment, s: Session, ctx: Context, point: Point, i: Input)
    requires ValidDeployment(d) && UpToDate(d, s, ctx, point)
    requires StepOf(d, s, ctx, point, i).store != Some(ctx.record)
    ensures StepOf(d, s, ctx, point, i).store.Some?
    ensures Caused(ctx.record, StepOf(d, s, ctx, point, i).store.value)
    ensures StepOf(d, s, ctx, point, i).store.value.nextStep != ctx.record.nextStep ==> point.ToMerge?
    ensures var action := StepOf(d, s, ctx, point, i).store.value.pending.action;
            || action == None || action == ctx.record.pending.action
            || (&& point.ModelReturned? && point.output.CallOutput? && point.output.call.name in s.tools
                && action == Some(Proposed(d, s, point.step, point.output.call)))
  {
    match point
    case LoopTop(step, phase) =>
      if !TopPasses(s, ctx, step, i) {
        TopEnds(d, s, ctx, step, phase, i);
      } else if phase == Fresh {
        TopAsks(d, s, ctx, step, i);
      } else {
        TopResumes(d, s, ctx, step, phase, i);
      }
    case ModelReturned(step, output) =>
      if output.CallOutput? && !i.cancelled && !i.expired {
        CallEnds(d, s, ctx, step, output.call, i);
      } else {
        TextEnds(d, s, ctx, step, output, i);
      }
    case ToClaim(_, _) => ClaimAndCompletionStore(d, s, ctx, point, i);
    case HoldsClaim(_, _) =>
    case Dispatched(_, _) => ClaimAndCompletionStore(d, s, ctx, point, i);
    case ToMerge(job, e) => MergeEnds(d, s, ctx, job, e, i);
  }

  /** Every merged call was executed, and the end of the run fits the last dispatch. */
  ghost predicate Verdicts(store: Store, dispatches: seq<DispatchEntry>) {
    store.Some? ==>
      var r, n := store.value, |dispatches|;
      && n <= r.nextStep
      && (forall k :: 0 <= k < n && k < r.nextStep - 1 ==> dispatches[k].execution.status == Executed)
      && (r.terminalStatus == Some(StatusCompleted) ==> n < r.nextStep)
      && (r.terminalStatus == Some(StatusRejected) ==>
            0 < n == r.nextStep && dispatches[n-1].execution.status in {Blocked, ReviewRequired})
      && (r.terminalStatus == Some(ToolFailure) && 0 < n == r.nextStep ==>
            dispatches[n-1].execution.status in {ControlFailure, Indeterminate})
      && r.terminalStatus != Some(RecoveryRequired) && r.terminalStatus != Some(ExecutionInFlight)
  }

  lemma QuietKeepsVerdicts(d: Deployment, runId: string, sys: System, id: nat, res: StepResult)
    requires Inv(d, runId, sys) && Verdicts(sys.store, sys.dispatches) && id in sys.workers && res.store == sys.store
    requires StepKeeps(d, sys.workers[id].session, sys.store, sys.workers[id].stage, res)
    ensures var sys' := Record(sys, id, sys.workers[id].session, res); Verdicts(sys'.store, sys'.dispatches)
  {
    if res.effect.Dispatch? {
      FlightOwnerIsInFlight(d, runId, sys, id);
    }
  }

  /** Seen from the stored execution, a write leaves the verdicts in order. */
  lemma CausedKeepsVerdicts(d: Deployment, sys: System, r': StoredRunRecord)
    requires sys.store.Some? && GoodRecord(d, sys.store.value) && !Terminal(sys.store.value.state)
    requires Verdicts(sys.store, sys.dispatches) && LogMatchesStore(sys) && Caused(sys.store.value, r')
    requires sys.store.value.state == ToolInFlight ==> r'.terminalStatus.None?
    ensures Verdicts(Some(r'), sys.dispatches)
  {
    var r := sys.store.value;
    assert r.state == ToolInFlight || |sys.dispatches| == ClaimsOf(r);
  }

  lemma WriteKeepsVerdicts(d: Deployment, runId: string, sys: System, id: nat, i: Input)
    requires ValidDeployment(d) && Inv(d, runId, sys) && Verdicts(sys.store, sys.dispatches) && id in sys.workers
    requires sys.store.Some?
    requires WorkerStep(d, sys.workers[id].session, sys.store, sys.workers[id].stage, i).store != sys.store
    ensures var res := WorkerStep(d, sys.workers[id].session, sys.store, sys.workers[id].stage, i);
            !res.effect.Dispatch? && Verdicts(res.store, sys.dispatches)
  {
    var w := sys.workers[id];
    WorkerStepKeeps(d, w.session, sys.store, w.stage, i);
    var res := WorkerStep(d, w.session, sys.store, w.stage, i);
    WriteIsSuccessor(d, w.session, sys.store, w.stage, res);
    WritesAreCaused(d, w.session, w.stage.ctx, w.stage.point, i);
    CausedKeepsVerdicts(d, sys, res.store.value);
  }

  lemma WriteIsSuccessor(d: Deployment, s: Session, store: Store, stage: Stage, res: StepResult)
    requires StepKeeps(d, s, store, stage, res) && store.Some? && res.store != store
    ensures res.store.Some? && stage.Active? && stage.ctx.record == store.value && !res.effect.Dispatch?
    ensures AllowedStates(store.value.state, res.store.value.state) && GoodRecord(d, res.store.value)
  {
  }

  lemma WorkKeepsVerdicts(d: Deployment, runId: string, sys: System, id: nat, i: Input)
    requires ValidDeployment(d) && Inv(d, runId, sys) && Verdicts(sys.store, sys.dispatches) && id in sys.workers
    ensures var sys' := Apply(d, runId, sys, Work(id, i)); Verdicts(sys'.store, sys'.dispatches)
  {
    var w := sys.workers[id];
    var res := WorkerStep(d, w.session, sys.store, w.stage, i);
    WorkerStepKeeps(d, w.session, sys.store, w.stage, i);
    if res.store == sys.store {
      QuietKeepsVerdicts(d, runId, sys, id, res);
    } else if sys.store.Some? {
      WriteKeepsVerdicts(d, runId, sys, id, i);
    }
  }

  lemma {:induction false} ExecVerdicts(d: Deployment, runId: string, moves: seq<Move>)
    requires ValidDeployment(d)
    ensures var sys := Exec(d, runId, moves); Verdicts(sys.store, sys.dispatches)
  {
    if moves != [] {
      var before, move := moves[..|moves|-1], moves[|moves|-1];
      var sys := Exec(d, runId, before);
      ExecVerdicts(d, runId, before);
      ExecInv(d, runId, before);
      if move.Work? && move.id in sys.workers {
        WorkKeepsVerdicts(d, runId, sys, move.id, move.input);
      }
    }
  }

  /** However a run was driven: only its last tool call can have been refused or have failed.
      A completed run has executed every call. A rejected one ends with a call that was
      blocked or sent to review, and a run that ends with a call that failed is a tool
      failure. The state always tells completed, cancelled and failed runs apart. */
  lemma RunsEndForACause(d: Deployment, runId: string, moves: seq<Move>)
    requires ValidDeployment(d) && Exec(d, runId, moves).store.Some?
    ensures var sys := Exec(d, runId, moves);
            var r, n := sys.store.value, |sys.dispatches|;
            && (forall k :: 0 <= k < n - 1 ==> sys.dispatches[k].execution.status == Executed)
            && (r.state == RunCompleted <==> r.terminalStatus == Some(StatusCompleted))
            && (r.state == RunCancelled <==> r.terminalStatus == Some(StatusCancelled))
            && (r.state == RunFailed <==>
                  && r.terminalStatus.Some?
                  && r.terminalStatus.value in {StatusRejected, InvalidModelResponse, ModelFailure, ToolFailure,
                                                LimitReached, TimedOut})
            && r.state != RunRecoveryRequired && (r.finalText.Some? <==> r.state == RunCompleted)
            && (r.state == RunCompleted ==>
                  forall k :: 0 <= k < n ==> sys.dispatches[k].execution.status == Executed)
            && (r.terminalStatus == Some(StatusRejected) ==>
                  n > 0 && sys.dispatches[n-1].execution.status in {Blocked, ReviewRequired})
            && (r.terminalStatus == Some(ToolFailure) && n > 0 ==>
                  sys.dispatches[n-1].execution.status in {Executed, ControlFailure, Indeterminate})
  {
    ExecVerdicts(d, runId, moves);
    ExecInv(d, runId, moves);
    var sys := Exec(d, runId, moves);
    var r := sys.store.value;
    StateTells(d, r);
  }

  lemma StateTells(d: Deployment, r: StoredRunRecord)
    requires GoodRecord(d, r)
    requires r.terminalStatus != Some(RecoveryRequired) && r.terminalStatus != Some(ExecutionInFlight)
    ensures r.state == RunCompleted <==> r.terminalStatus == Some(StatusCompleted)
    ensures r.state == RunCancelled <==> r.terminalStatus == Some(StatusCancelled)
    ensures r.state == RunFailed <==>
            && r.terminalStatus.Some?
            && r.terminalStatus.value in {StatusRejected, InvalidModelResponse, ModelFailure, ToolFailure,
                                          LimitReached, TimedOut}
    ensures r.state != RunRecoveryRequired
  {
    if r.terminalStatus.Some? {
      match r.terminalStatus.value
      case StatusCompleted | StatusRejected | InvalidModelResponse | ModelFailure | ToolFailure | LimitReached
        | TimedOut | StatusCancelled | RecoveryRequired | ExecutionInFlight =>
    }
  }
}
