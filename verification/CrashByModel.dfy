/** Crash transparency for one model and one runtime: restarts are invisible exactly if the
    uninterrupted run itself never holds an open call in an overfull context. */
module CrashByModel {
  import opened Contracts
  import opened History
  import opened DurableRecords
  import opened DurableWorker
  import opened DurableInvariant
  import opened DurableProtocol
  import opened AgentReference
  import opened FullContext
  import opened CrashTransparency
  import opened CrashCorner

  /** The uninterrupted run never prepares a call in an overfull context. */
  ghost predicate ReferenceHasRoom(d: Deployment, o: Oracle, s: Session) {
    TaskAccepted(s) ==>
      forall k: nat :: RefAt(d, o, s, k).record.state == ToolPrepared ==>
        |RefAt(d, o, s, k).record.messages| <= s.profile.limits.maxContextMessages
  }

  /** No schedule of workers and crashes can make a restart show. */
  ghost predicate InvisibleFor(d: Deployment, o: Oracle, s: Session) {
    forall moves :: FaithfulRun(d, o, s, moves) ==> OnReference(d, o, s, Exec(d, s.runId, moves))
  }

  // ---- With room on the reference, every run has room ----

  lemma {:induction false} PendingOnReferenceHasRoom(d: Deployment, o: Oracle, s: Session, k: nat)
    requires ReferenceHasRoom(d, o, s) && TaskAccepted(s) && PendingTool(RefAt(d, o, s, k).record.state)
    ensures |RefAt(d, o, s, k).record.messages| <= s.profile.limits.maxContextMessages
  {
    if k > 0 && RefAt(d, o, s, k).record.state != ToolPrepared {
      RefAtNext(d, o, s, k - 1);
      PendingStep(d, o, s, RefAt(d, o, s, k - 1));
      PendingOnReferenceHasRoom(d, o, s, k - 1);
    }
  }

  lemma PendingStep(d: Deployment, o: Oracle, s: Session, ref: RefState)
    requires RefNext(d, o, s, ref).record.state in {ToolInFlight, ToolCompleted}
    ensures PendingTool(ref.record.state) && RefNext(d, o, s, ref).record.messages == ref.record.messages
  {
  }

  lemma {:induction false} RoomyOnReference(d: Deployment, o: Oracle, s: Session, moves: seq<Move>)
    requires Setting(d, o, s) && ReferenceHasRoom(d, o, s) && FaithfulRun(d, o, s, moves)
    ensures RoomyRun(d, s, moves)
  {
    if moves != [] {
      var init, move := moves[..|moves|-1], moves[|moves|-1];
      RoomyOnReference(d, o, s, init);
      var k := RoomyRunFollows(d, o, s, init);
      FaithfulRunSteady(d, o, s, init);
      ExecInv(d, s.runId, init);
      RoomyMoveOnReference(d, o, s, Exec(d, s.runId, init), move, k);
    }
  }

  lemma RoomyMoveOnReference(d: Deployment, o: Oracle, s: Session, sys: System, move: Move, k: nat)
    requires ReferenceHasRoom(d, o, s) && Inv(d, s.runId, sys) && SteadySystem(o, s, sys)
    requires sys.store.Some? ==> At(d, o, s, sys, k)
    ensures RoomyMove(s, sys, move)
  {
    if move.Work? && move.id in sys.workers {
      var stage := sys.workers[move.id].stage;
      if stage.Active? && stage.point.LoopTop? && stage.point.phase != Fresh && sys.store == Some(stage.ctx.record) {
        PendingOnReferenceHasRoom(d, o, s, k);
      }
    }
  }

  // ---- A lone worker gets to every point of the reference ----

  /** Worker 0 is alone and either at work with the stored record or done with it. */
  ghost predicate Driving(s: Session, sys: System) {
    && 0 in sys.workers && 1 !in sys.workers && sys.workers[0].session == s && sys.store.Some?
    && var stage := sys.workers[0].stage;
    && (stage.Active? || Terminal(sys.store.value.state))
    && (stage.Active? ==> sys.store == Some(stage.ctx.record) && (stage.point.LoopTop? ==> stage.point.phase == Fresh))
  }

  predicate HalfWay(stage: Stage) {
    stage.Active? && (stage.point.ModelReturned? || stage.point.Dispatched?)
  }

  /** The step goes on with the stored record or ends the run, and it changes the state or is
      the first half of a step that does. */
  ghost predicate GoesOn(store: Store, stage: Stage, res: StepResult) {
    && store.Some? && res.store.Some? && (res.stage.Active? || Terminal(res.store.value.state))
    && (res.stage.Active? ==> res.store == Some(res.stage.ctx.record))
    && (res.stage.Active? && res.stage.point.LoopTop? ==> res.stage.point.phase == Fresh)
    && (res.store.value.state != store.value.state || (HalfWay(res.stage) && !HalfWay(stage)))
  }

  lemma TopGoesOn(d: Deployment, s: Session, ctx: Context, step: nat, i: Input)
    requires StageOK(d, s, Some(ctx.record), Active(ctx, LoopTop(step, Fresh)))
    ensures GoesOn(
              Some(ctx.record), Active(ctx, LoopTop(step, Fresh)),
              StepLoopTop(d, s, Some(ctx.record), ctx, step, Fresh, i))
  {
  }

  lemma OutputGoesOn(d: Deployment, s: Session, ctx: Context, step: nat, output: ModelOutput, i: Input)
    requires StageOK(d, s, Some(ctx.record), Active(ctx, ModelReturned(step, output)))
    ensures GoesOn(
              Some(ctx.record), Active(ctx, ModelReturned(step, output)),
              StepModelReturned(d, s, Some(ctx.record), ctx, step, output, i))
  {
  }

  lemma ToolGoesOn(d: Deployment, s: Session, ctx: Context, point: Point, i: Input)
    requires StageOK(d, s, Some(ctx.record), Active(ctx, point))
    requires point.ToClaim? || point.HoldsClaim? || point.Dispatched? || point.ToMerge?
    requires point.HoldsClaim? ==> WellFormed(i.execution) && i.execution.requestId == point.action.requestId
    ensures GoesOn(Some(ctx.record), Active(ctx, point), StepPoint(d, s, Some(ctx.record), ctx, point, i))
  {
  }

  ghost predicate MovedOn(sys: System, sys': System) {
    && sys.store.Some? && sys'.store.Some? && 0 in sys.workers && 0 in sys'.workers
    && (|| sys'.store.value.state != sys.store.value.state
        || (HalfWay(sys'.workers[0].stage) && !HalfWay(sys.workers[0].stage)))
  }

  lemma StageGoesOn(d: Deployment, o: Oracle, s: Session, sys: System)
    requires Setting(d, o, s) && Inv(d, s.runId, sys) && Driving(s, sys) && sys.workers[0].stage.Active?
    ensures var stage := sys.workers[0].stage;
            GoesOn(sys.store, stage, WorkerStep(d, s, sys.store, stage, SoloInput(o, stage)))
  {
    var stage := sys.workers[0].stage;
    var ctx, i := stage.ctx, SoloInput(o, stage);
    assert StageOK(d, s, sys.store, stage);
    match stage.point
    case LoopTop(step, phase) => TopGoesOn(d, s, ctx, step, i);
    case ModelReturned(step, output) => OutputGoesOn(d, s, ctx, step, output, i);
    case HoldsClaim(job, action) =>
      HeldActionIsNamed(d, s, sys, job, action);
      ToolGoesOn(d, s, ctx, stage.point, i);
    case _ => ToolGoesOn(d, s, ctx, stage.point, i);
  }

  lemma RecordDrives(s: Session, sys: System, res: StepResult)
    requires Driving(s, sys) && GoesOn(sys.store, sys.workers[0].stage, res)
    ensures Driving(s, Record(sys, 0, s, res)) && MovedOn(sys, Record(sys, 0, s, res))
  {
  }

  lemma DriveStep(d: Deployment, o: Oracle, s: Session, sys: System)
    requires Setting(d, o, s) && Inv(d, s.runId, sys) && Driving(s, sys) && sys.workers[0].stage.Active?
    ensures Driving(s, Stepped(d, o, s, sys, 0)) && MovedOn(sys, Stepped(d, o, s, sys, 0))
  {
    var stage := sys.workers[0].stage;
    StageGoesOn(d, o, s, sys);
    RecordDrives(s, sys, WorkerStep(d, s, sys.store, stage, SoloInput(o, stage)));
  }

  lemma HeldActionIsNamed(d: Deployment, s: Session, sys: System, job: Job, action: Action)
    requires ValidDeployment(d) && Inv(d, s.runId, sys) && Driving(s, sys)
    requires sys.workers[0].stage.Active? && sys.workers[0].stage.point == HoldsClaim(job, action)
    ensures !Blank(action.requestId)
  {
    assert StageOK(d, s, sys.store, sys.workers[0].stage);
  }

  lemma TakeStep(d: Deployment, o: Oracle, s: Session, moves: seq<Move>, k: nat) returns (moves': seq<Move>)
    requires Setting(d, o, s) && SoloRun(d, o, s, moves) && Driving(s, Exec(d, s.runId, moves))
    requires At(d, o, s, Exec(d, s.runId, moves), k) && !Terminal(Exec(d, s.runId, moves).store.value.state)
    ensures SoloRun(d, o, s, moves') && Driving(s, Exec(d, s.runId, moves'))
    ensures At(d, o, s, Exec(d, s.runId, moves'), k) || At(d, o, s, Exec(d, s.runId, moves'), k + 1)
    ensures MovedOn(Exec(d, s.runId, moves), Exec(d, s.runId, moves'))
  {
    ExecInv(d, s.runId, moves);
    DriveStep(d, o, s, Exec(d, s.runId, moves));
    var move := Advance(d, o, s, moves, 0);
    moves' := moves + [move];
    SoloIsStartedOnce(d, o, s, moves');
    OneStartIsRoomy(d, s, moves');
    assert moves'[..|moves'|-1] == moves;
    MoveFollows(d, o, s, moves, move, k);
  }

  lemma SoloIsStartedOnce(d: Deployment, o: Oracle, s: Session, moves: seq<Move>)
    requires SoloRun(d, o, s, moves)
    ensures StartedOnce(moves)
  {
  }

  /** At most two steps of the worker are one step of the reference. */
  lemma NextPoint(d: Deployment, o: Oracle, s: Session, moves: seq<Move>, k: nat) returns (moves': seq<Move>)
    requires Setting(d, o, s) && SoloRun(d, o, s, moves) && Driving(s, Exec(d, s.runId, moves))
    requires At(d, o, s, Exec(d, s.runId, moves), k)
    ensures SoloRun(d, o, s, moves') && Driving(s, Exec(d, s.runId, moves'))
    ensures At(d, o, s, Exec(d, s.runId, moves'), k + 1)
  {
    moves' := moves;
    if Terminal(Exec(d, s.runId, moves).store.value.state) {
      EndedIsFixed(d, o, s, RefAt(d, o, s, k));
      RefAtNext(d, o, s, k);
    } else {
      moves' := TakeStep(d, o, s, moves, k);
      if !At(d, o, s, Exec(d, s.runId, moves'), k + 1) {
        moves' := TakeStep(d, o, s, moves', k);
      }
    }
  }

  lemma {:induction false} LoneWorkerReaches(d: Deployment, o: Oracle, s: Session, k: nat) returns (moves: seq<Move>)
    requires Setting(d, o, s) && TaskAccepted(s)
    ensures SoloRun(d, o, s, moves) && Driving(s, Exec(d, s.runId, moves)) && At(d, o, s, Exec(d, s.runId, moves), k)
  {
    if k == 0 {
      moves := [Start(0, s)];
      assert moves == [] + [Start(0, s)];
      ExtendFaithful(d, o, s, [], Start(0, s));
      moves := StepOn(d, o, s, moves);
      moves := StepOn(d, o, s, moves);
    } else {
      moves := LoneWorkerReaches(d, o, s, k - 1);
      moves := NextPoint(d, o, s, moves, k - 1);
    }
  }

  // ---- Exactly ----

  lemma {:induction false} ReferenceKeepsTask(d: Deployment, o: Oracle, s: Session, k: nat)
    ensures RefAt(d, o, s, k).record.task == s.task
  {
    if k > 0 {
      ReferenceKeepsTask(d, o, s, k - 1);
      RefAtNext(d, o, s, k - 1);
    }
  }

  /** A call prepared in an overfull context shows a restart. */
  lemma OverfullReferenceShows(d: Deployment, o: Oracle, s: Session, k: nat) returns (moves: seq<Move>)
    requires Setting(d, o, s) && TaskAccepted(s) && RefAt(d, o, s, k).record.state == ToolPrepared
    requires |RefAt(d, o, s, k).record.messages| > s.profile.limits.maxContextMessages
    ensures FaithfulRun(d, o, s, moves) && !OnReference(d, o, s, Exec(d, s.runId, moves))
  {
    var solo := LoneWorkerReaches(d, o, s, k);
    var sys := Exec(d, s.runId, solo);
    ReferenceKeepsTask(d, o, s, k);
    FaithfulRunSteady(d, o, s, solo);
    ExecInv(d, s.runId, solo);
    assert Stuck(s, sys);
    var restart := ResumeCutsShort(d, o, s, solo);
    moves := solo + restart;
    CutShortIsOffReference(d, o, s, sys, Exec(d, s.runId, moves), k);
  }

  /** For every deployment, profile, model and runtime: no schedule makes a restart show if and
      only if the uninterrupted run never prepares a call in an overfull context. */
  lemma InvisibleExactly(d: Deployment, o: Oracle, s: Session)
    requires Setting(d, o, s)
    ensures InvisibleFor(d, o, s) <==> ReferenceHasRoom(d, o, s)
  {
    if ReferenceHasRoom(d, o, s) {
      forall moves | FaithfulRun(d, o, s, moves) ensures OnReference(d, o, s, Exec(d, s.runId, moves)) {
        RoomyOnReference(d, o, s, moves);
        var k := RoomyRunFollows(d, o, s, moves);
      }
    } else {
      var k: nat :| RefAt(d, o, s, k).record.state == ToolPrepared
                    && |RefAt(d, o, s, k).record.messages| > s.profile.limits.maxContextMessages;
      var moves := OverfullReferenceShows(d, o, s, k);
    }
  }
}
