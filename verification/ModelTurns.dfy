/** How often the model is asked. The stored count of model turns can exceed the limit of the
    profile, because a worker that resumes a RUNNING record asks again; the number of starts
    bounds how far. */
module ModelTurns {
  import opened Contracts
  import opened History
  import opened DurableRecords
  import opened DurableWorker
  import opened DurableInvariant
  import opened DurableProtocol

  /** The number of times a worker was started. */
  function Starts(moves: seq<Move>): nat {
    if moves == [] then 0 else Starts(moves[..|moves|-1]) + if moves[|moves|-1].Start? then 1 else 0
  }

  lemma StartsAppend(moves: seq<Move>, move: Move)
    ensures Starts(moves + [move]) == Starts(moves) + if move.Start? then 1 else 0
  {
    assert (moves + [move])[..|moves|] == moves;
  }

  // ---- What one step does to the count ----

  /** The worker's copy is the stored record. */
  predicate UpToDate(store: Store, stage: Stage) {
    stage.Active? && store == Some(stage.ctx.record)
  }

  predicate AboutToAsk(store: Store, stage: Stage) {
    UpToDate(store, stage) && stage.point.LoopTop? && stage.point.phase == Fresh
  }

  predicate HasAsked(store: Store, stage: Stage) {
    UpToDate(store, stage) && stage.point.ModelReturned?
  }

  predicate Waits(stage: Stage) {
    stage.Loading? || stage.Creating?
  }

  /** Nothing is written; only a worker that was waiting gets ready to ask. */
  ghost predicate NoWrite(store: Store, stage: Stage, res: StepResult) {
    && res.store == store && (Waits(res.stage) ==> Waits(stage)) && !HasAsked(store, res.stage)
    && (AboutToAsk(store, res.stage) ==> Waits(stage))
  }

  ghost predicate FirstWrite(store: Store, stage: Stage, res: StepResult) {
    && store.None? && res.store.Some? && Waits(stage) && !Waits(res.stage) && !HasAsked(res.store, res.stage)
    && res.store.value.modelTurns == 0 && res.store.value.nextStep == 1 && res.store.value.state == Running
  }

  /** The model was asked in the current step. */
  ghost predicate Asked(store: Store, stage: Stage, res: StepResult) {
    && AboutToAsk(store, stage) && res.store.Some? && res.stage.Active? && res.stage.point.ModelReturned?
    && var r, r' := store.value, res.store.value;
    && r'.modelTurns == r.modelTurns + 1 && r'.nextStep == r.nextStep <= r.fingerprint.maxModelTurns
    && r.state == r'.state == Running && r'.version == r.version + 1 && r'.fingerprint == r.fingerprint
  }

  /** A result was merged and the next step begins. */
  ghost predicate SteppedOn(store: Store, stage: Stage, res: StepResult) {
    && UpToDate(store, stage) && res.store.Some? && res.stage.Active? && res.stage.point.LoopTop?
    && var r, r' := store.value, res.store.value;
    && r.state == ToolCompleted && r'.state == Running && r'.modelTurns == r.modelTurns
    && r'.nextStep == r.nextStep + 1 && r.nextStep <= r.fingerprint.maxModelTurns
    && r'.version == r.version + 1 && r'.fingerprint == r.fingerprint
  }

  /** Some other write, out of RUNNING or between pending states. */
  ghost predicate WroteOther(store: Store, stage: Stage, res: StepResult) {
    && UpToDate(store, stage) && res.store.Some? && !Waits(res.stage)
    && !AboutToAsk(res.store, res.stage) && !HasAsked(res.store, res.stage)
    && var r, r' := store.value, res.store.value;
    && r'.state != Running && r'.modelTurns == r.modelTurns && r'.nextStep == r.nextStep
    && r'.version == r.version + 1 && r'.fingerprint == r.fingerprint
    && (PendingTool(r'.state) ==> PendingTool(r.state) || stage.point.ModelReturned?)
  }

  ghost predicate TurnEffect(store: Store, stage: Stage, res: StepResult) {
    || NoWrite(store, stage, res) || FirstWrite(store, stage, res) || Asked(store, stage, res)
    || SteppedOn(store, stage, res) || WroteOther(store, stage, res)
  }

  lemma FinishEffect(store: Store, stage: Stage, ended: Context, status: RunStatus, finalText: Option<string>)
    requires stage.Active? && Current(store, stage.ctx, stage.point) && ended.record == stage.ctx.record
    requires ended.modelTurns == ended.record.modelTurns
    ensures TurnEffect(store, stage, Finish(store, ended, status, finalText))
  {
    var res := Finish(store, ended, status, finalText);
    if store.value.version == ended.record.version {
      assert WroteOther(store, stage, res);
    } else {
      assert NoWrite(store, stage, res);
    }
  }

  lemma LoopTopEffect(
    d: Deployment, s: Session, store: Store, ctx: Context, step: nat, phase: Phase, i: Input)
    requires StageOK(d, s, store, Active(ctx, LoopTop(step, phase)))
    ensures TurnEffect(
              store, Active(ctx, LoopTop(step, phase)), StepLoopTop(d, s, store, ctx, step, phase, i))
  {
    var stage := Active(ctx, LoopTop(step, phase));
    var res := StepLoopTop(d, s, store, ctx, step, phase, i);
    if !ToolsRegistered(s) {
      FinishEffect(store, stage, ctx, ModelFailure, None);
    } else if step > s.profile.maxModelTurns {
      FinishEffect(store, stage, ctx, LimitReached, None);
    } else if i.cancelled {
      FinishEffect(store, stage, ctx, StatusCancelled, None);
    } else if i.expired {
      FinishEffect(store, stage, ctx, TimedOut, None);
    } else if |ctx.messages| > s.profile.limits.maxContextMessages {
      FinishEffect(store, stage, ctx, LimitReached, None);
    } else if phase == Fresh {
      AskEffect(d, s, store, ctx, step, i);
    } else {
      ResumeEffect(d, s, store, ctx, step, phase, i);
    }
  }

  lemma AskEffect(d: Deployment, s: Session, store: Store, ctx: Context, step: nat, i: Input)
    requires StageOK(d, s, store, Active(ctx, LoopTop(step, Fresh))) && step <= s.profile.maxModelTurns
    ensures TurnEffect(store, Active(ctx, LoopTop(step, Fresh)), CallModel(store, ctx, step, i.reply))
  {
    var stage := Active(ctx, LoopTop(step, Fresh));
    var res := CallModel(store, ctx, step, i.reply);
    if !ValidHistory(ctx.messages, false) || i.reply.Fails? {
      var asked := ctx.(events := ctx.events + [RunEvent(ModelTurnEvent, step, None)]);
      FinishEffect(store, stage, asked, ModelFailure, None);
    } else if store.value.version == ctx.record.version {
      assert Asked(store, stage, res);
    } else {
      assert NoWrite(store, stage, res);
    }
  }

  lemma ResumeEffect(d: Deployment, s: Session, store: Store, ctx: Context, step: nat, phase: Phase, i: Input)
    requires StageOK(d, s, store, Active(ctx, LoopTop(step, phase))) && phase != Fresh
    ensures TurnEffect(
              store, Active(ctx, LoopTop(step, phase)),
              if phase == ResumePrepared then ResumeToClaim(d, s, store, ctx, step, i)
              else ResumeToMerge(d, s, store, ctx, step))
  {
    var stage := Active(ctx, LoopTop(step, phase));
    if phase == ResumePrepared {
      if s.toolsBlocked {
        FinishEffect(store, stage, ctx, ToolFailure, None);
      } else if i.cancelledAtDispatch {
        FinishEffect(store, stage, ctx, StatusCancelled, None);
      } else if i.expiredAtDispatch {
        FinishEffect(store, stage, ctx, TimedOut, None);
      }
    }
  }

  lemma OutputEffect(
    d: Deployment, s: Session, store: Store, ctx: Context, step: nat, output: ModelOutput, i: Input)
    requires StageOK(d, s, store, Active(ctx, ModelReturned(step, output)))
    ensures TurnEffect(
              store, Active(ctx, ModelReturned(step, output)), StepModelReturned(d, s, store, ctx, step, output, i))
  {
    var stage := Active(ctx, ModelReturned(step, output));
    var res := StepModelReturned(d, s, store, ctx, step, output, i);
    if store.value.version == ctx.record.version {
      assert WroteOther(store, stage, res);
    } else {
      assert NoWrite(store, stage, res);
    }
  }

  lemma MergeEffect(d: Deployment, s: Session, store: Store, ctx: Context, job: Job, e: GovernedExecution)
    requires StageOK(d, s, store, Active(ctx, ToMerge(job, e)))
    ensures TurnEffect(store, Active(ctx, ToMerge(job, e)), StepToMerge(d, s, store, ctx, job, e))
  {
    var stage := Active(ctx, ToMerge(job, e));
    var res := StepToMerge(d, s, store, ctx, job, e);
    if e.status != Executed {
      var rejected := ctx.(events := ctx.events + [RunEvent(ToolRejectedEvent, job.step, Some(job.requestId))]);
      FinishEffect(store, stage, rejected, RejectionStatus(e.status), None);
    } else if |d.render(job.requestId, e.output)| > s.profile.limits.maxObservationChars {
      FinishEffect(store, stage, ctx, LimitReached, None);
    } else if store.value.version == ctx.record.version {
      assert SteppedOn(store, stage, res);
    } else {
      assert NoWrite(store, stage, res);
    }
  }

  lemma ToolEffect(d: Deployment, s: Session, store: Store, ctx: Context, point: Point, i: Input)
    requires StageOK(d, s, store, Active(ctx, point)) && (point.ToClaim? || point.HoldsClaim? || point.Dispatched?)
    ensures TurnEffect(store, Active(ctx, point), StepPoint(d, s, store, ctx, point, i))
  {
    var res := StepPoint(d, s, store, ctx, point, i);
    if res.store == store {
      assert NoWrite(store, Active(ctx, point), res);
    } else {
      assert WroteOther(store, Active(ctx, point), res);
    }
  }

  lemma IdleEffect(d: Deployment, s: Session, store: Store, stage: Stage, i: Input)
    requires !stage.Active? && StageOK(d, s, store, stage)
    ensures TurnEffect(store, stage, WorkerStep(d, s, store, stage, i))
  {
    var res := WorkerStep(d, s, store, stage, i);
    if res.store == store {
      assert NoWrite(store, stage, res);
    } else {
      assert FirstWrite(store, stage, res);
    }
  }

  /** Every step of every worker has one of five effects on the count. */
  lemma StepEffect(d: Deployment, s: Session, store: Store, stage: Stage, i: Input)
    requires StageOK(d, s, store, stage)
    ensures TurnEffect(store, stage, WorkerStep(d, s, store, stage, i))
  {
    if stage.Active? {
      var ctx := stage.ctx;
      match stage.point
      case LoopTop(step, phase) => LoopTopEffect(d, s, store, ctx, step, phase, i);
      case ModelReturned(step, output) => OutputEffect(d, s, store, ctx, step, output, i);
      case ToMerge(job, e) => MergeEffect(d, s, store, ctx, job, e);
      case _ => ToolEffect(d, s, store, ctx, stage.point, i);
    } else {
      IdleEffect(d, s, store, stage, i);
    }
  }

  // ---- A budget of starts ----

  ghost function Waiting(sys: System): set<nat> {
    set id | id in sys.workers && Waits(sys.workers[id].stage)
  }

  ghost predicate SomeoneAboutToAsk(sys: System) {
    exists id :: id in sys.workers && AboutToAsk(sys.store, sys.workers[id].stage)
  }

  ghost predicate NobodyHasAsked(sys: System) {
    forall id :: id in sys.workers ==> !HasAsked(sys.store, sys.workers[id].stage)
  }

  function UntouchedAfter(before: Store, after: Store, untouched: bool): bool {
    if before.None? || after.None? then true
    else if after.value.modelTurns > before.value.modelTurns then false
    else if after.value.nextStep > before.value.nextStep then true
    else untouched
  }

  /** The model has not been asked in the current step yet. */
  ghost function Untouched(d: Deployment, runId: string, moves: seq<Move>): bool {
    moves == [] ||
    UntouchedAfter(
      Exec(d, runId, moves[..|moves|-1]).store, Exec(d, runId, moves).store,
      Untouched(d, runId, moves[..|moves|-1]))
  }

  /** The starts that turns have used up: one for the first turn of each step together, and
      one for every further turn. */
  function Used(r: StoredRunRecord, untouched: bool): int {
    r.modelTurns - (r.nextStep - 1) + if untouched then 1 else 0
  }

  /** Of the starts, some are used up, some workers still wait with theirs, and one may be
      about to be used. */
  ghost predicate Budget(sys: System, untouched: bool, starts: nat) {
    if sys.store.None? then |Waiting(sys)| <= starts
    else
      var r := sys.store.value;
      && Used(r, untouched) + |Waiting(sys)| + (if !untouched && SomeoneAboutToAsk(sys) then 1 else 0) <= starts
      && (untouched ==> !PendingTool(r.state) && NobodyHasAsked(sys))
      && r.nextStep <= r.fingerprint.maxModelTurns + 1
      && (r.nextStep > r.fingerprint.maxModelTurns ==> untouched)
  }

  lemma WaitingAfter(sys: System, id: nat, session: Session, res: StepResult)
    requires id in sys.workers && (Waits(res.stage) ==> Waits(sys.workers[id].stage))
    ensures |Waiting(Record(sys, id, session, res))| ==
            |Waiting(sys)| - if Waits(sys.workers[id].stage) && !Waits(res.stage) then 1 else 0
  {
    var sys' := Record(sys, id, session, res);
    if Waits(sys.workers[id].stage) && !Waits(res.stage) {
      assert Waiting(sys) == Waiting(sys') + {id};
    } else {
      assert Waiting(sys) == Waiting(sys');
    }
  }

  /** A write leaves every other worker behind. */
  lemma OthersAreLate(d: Deployment, runId: string, sys: System, id: nat, session: Session, res: StepResult)
    requires Inv(d, runId, sys) && id in sys.workers && res.store.Some?
    requires sys.store.Some? ==> res.store.value.version == sys.store.value.version + 1
    ensures var sys' := Record(sys, id, session, res);
            forall x :: x in sys'.workers && x != id ==> !UpToDate(sys'.store, sys'.workers[x].stage)
  {
    var sys' := Record(sys, id, session, res);
    forall x | x in sys'.workers && x != id ensures !UpToDate(sys'.store, sys'.workers[x].stage) {
      assert StageOK(d, sys.workers[x].session, sys.store, sys.workers[x].stage);
    }
  }

  lemma BudgetWithoutWrite(sys: System, id: nat, session: Session, res: StepResult, untouched: bool, starts: nat)
    requires Budget(sys, untouched, starts) && id in sys.workers
    requires NoWrite(sys.store, sys.workers[id].stage, res)
    ensures Budget(Record(sys, id, session, res), UntouchedAfter(sys.store, res.store, untouched), starts)
  {
    var sys' := Record(sys, id, session, res);
    WaitingAfter(sys, id, session, res);
    if SomeoneAboutToAsk(sys') && !SomeoneAboutToAsk(sys) {
      var x :| x in sys'.workers && AboutToAsk(sys'.store, sys'.workers[x].stage);
      assert x == id;
    }
  }

  lemma BudgetAfterWrite(
    d: Deployment, runId: string, sys: System, id: nat, session: Session, res: StepResult, untouched: bool, starts: nat)
    requires Inv(d, runId, sys) && Budget(sys, untouched, starts) && id in sys.workers
    requires var stage := sys.workers[id].stage;
             || FirstWrite(sys.store, stage, res) || Asked(sys.store, stage, res)
             || SteppedOn(sys.store, stage, res) || WroteOther(sys.store, stage, res)
    ensures Budget(Record(sys, id, session, res), UntouchedAfter(sys.store, res.store, untouched), starts)
  {
    var sys' := Record(sys, id, session, res);
    WaitingAfter(sys, id, session, res);
    OthersAreLate(d, runId, sys, id, session, res);
    assert AboutToAsk(sys.store, sys.workers[id].stage) ==> SomeoneAboutToAsk(sys);
    assert SomeoneAboutToAsk(sys') ==> AboutToAsk(sys'.store, sys'.workers[id].stage);
  }

  lemma BudgetStart(sys: System, id: nat, session: Session, untouched: bool, starts: nat)
    requires Budget(sys, untouched, starts) && id !in sys.workers
    ensures Budget(sys.(workers := sys.workers[id := Worker(session, Loading)]), untouched, starts + 1)
  {
    var sys' := sys.(workers := sys.workers[id := Worker(session, Loading)]);
    assert Waiting(sys') == Waiting(sys) + {id};
  }

  lemma BudgetCrash(sys: System, id: nat, untouched: bool, starts: nat)
    requires Budget(sys, untouched, starts)
    ensures Budget(sys.(workers := sys.workers - {id}), untouched, starts)
  {
    var sys' := sys.(workers := sys.workers - {id});
    assert Waiting(sys') == Waiting(sys) - {id};
  }

  lemma {:induction false} StartsPayForTurns(d: Deployment, runId: string, moves: seq<Move>)
    requires ValidDeployment(d)
    ensures Budget(Exec(d, runId, moves), Untouched(d, runId, moves), Starts(moves))
  {
    if moves == [] {
      assert Waiting(INITIAL) == {};
    } else {
      var init, move := moves[..|moves|-1], moves[|moves|-1];
      StartsPayForTurns(d, runId, init);
      ExecInv(d, runId, init);
      MovePays(d, runId, Exec(d, runId, init), move, Untouched(d, runId, init), Starts(init));
    }
  }

  lemma MovePays(d: Deployment, runId: string, sys: System, move: Move, untouched: bool, starts: nat)
    requires Inv(d, runId, sys) && Budget(sys, untouched, starts)
    ensures var sys' := Apply(d, runId, sys, move);
            Budget(
              sys', UntouchedAfter(sys.store, sys'.store, untouched), starts + if move.Start? then 1 else 0)
  {
    match move
    case Start(id, session) =>
      if id !in sys.workers && session.runId == runId {
        BudgetStart(sys, id, session, untouched, starts);
      }
    case Crash(id) => BudgetCrash(sys, id, untouched, starts);
    case Work(id, i) =>
      if id in sys.workers {
        var w := sys.workers[id];
        var res := WorkerStep(d, w.session, sys.store, w.stage, i);
        StepEffect(d, w.session, sys.store, w.stage, i);
        if NoWrite(sys.store, w.stage, res) {
          BudgetWithoutWrite(sys, id, w.session, res, untouched, starts);
        } else {
          BudgetAfterWrite(d, runId, sys, id, w.session, res, untouched, starts);
        }
      }
  }

  /** Over every interleaving, with any crashes and any inputs: each start beyond the first
      costs at most one model turn more than the profile allows. One start keeps the limit. */
  lemma TurnsAreBoundedByStarts(d: Deployment, runId: string, moves: seq<Move>)
    requires ValidDeployment(d) && Exec(d, runId, moves).store.Some?
    ensures var r := Exec(d, runId, moves).store.value;
            r.modelTurns <= r.fingerprint.maxModelTurns + Starts(moves) - 1
    ensures Starts(moves) >= 1
  {
    StartsPayForTurns(d, runId, moves);
    StartedBeforeStored(d, runId, moves);
  }

  lemma {:induction false} StartedBeforeStored(d: Deployment, runId: string, moves: seq<Move>)
    ensures Starts(moves) == 0 ==> Exec(d, runId, moves) == INITIAL
  {
    if moves != [] {
      StartedBeforeStored(d, runId, moves[..|moves|-1]);
    }
  }
}
