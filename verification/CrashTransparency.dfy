/** With a deterministic model and runtime, and no cancellation, deadline or knowledge
    source, any interleaving of workers with any crashes walks the one uninterrupted
    run, as long as no conversation can fill the context with a call still open. */
module CrashTransparency {
  import opened Contracts
  import opened History
  import opened DurableRecords
  import opened DurableWorker
  import opened DurableInvariant
  import opened DurableProtocol
  import opened AgentReference
  import opened FullContext

  /** A record without what repeated attempts may change: version, turn count, events. */
  function Core(r: StoredRunRecord): StoredRunRecord {
    r.(version := 0, modelTurns := 0, events := [])
  }

  function Actions(claims: seq<ClaimEntry>): seq<Action> {
    seq(|claims|, k requires 0 <= k < |claims| => claims[k].action)
  }

  datatype RefState = RefState(record: StoredRunRecord, claimed: seq<Action>)

  function RefEnd(c: StoredRunRecord, status: RunStatus, finalText: Option<string> := None): StoredRunRecord {
    FinalizeRecord(c, TerminalState(status), status, finalText, [], c.messages, c.toolCalls, 0)
  }

  function RefTurn(d: Deployment, o: Oracle, s: Session, c: StoredRunRecord): StoredRunRecord {
    if !ToolsRegistered(s) then RefEnd(c, ModelFailure)
    else if c.nextStep > s.profile.maxModelTurns || |c.messages| > s.profile.limits.maxContextMessages then
      RefEnd(c, LimitReached)
    else
      match o.model(c.messages)
      case Fails => RefEnd(c, ModelFailure)
      case Replies(TextOutput(text)) =>
        if |text| > s.profile.limits.maxModelTextChars then RefEnd(c, InvalidModelResponse)
        else RefEnd(c, StatusCompleted, Some(text))
      case Replies(Unsupported) => RefEnd(c, InvalidModelResponse)
      case Replies(CallOutput(call)) =>
        match Refusal(d, s, c.nextStep, c.messages, c.toolCalls, call, Go)
        case Some(status) => RefEnd(c, status)
        case None =>
          var requestId := d.requestId(s.runId, c.nextStep);
          c.(state := ToolPrepared, messages := c.messages + [Call(call)],
          pending := Pending(
            Some(requestId), Some(requestId), Some(ActionFor(s, s.runId, call, requestId)),
            Some(call.callId), Some(call.name), None, None, None))
  }

  function RefComplete(o: Oracle, c: StoredRunRecord, action: Action): StoredRunRecord {
    var e := o.runtime(action);
    c.(state := ToolCompleted, toolCalls := c.toolCalls + 1,
    pending := c.pending.(status := Some(e.status), output := e.output, reason := Some(e.reason)))
  }

  function RefMerge(d: Deployment, s: Session, c: StoredRunRecord): StoredRunRecord
    requires EndsWithCall(c.messages) && c.pending.status.Some?
  {
    var call := c.messages[|c.messages|-1].call;
    var observation := d.render(d.requestId(s.runId, c.nextStep), c.pending.output);
    if c.pending.status.value != Executed then RefEnd(c, RejectionStatus(c.pending.status.value))
    else if |observation| > s.profile.limits.maxObservationChars then RefEnd(c, LimitReached)
    else
      c.(state := Running, nextStep := c.nextStep + 1, pending := NOTHING_PENDING,
      messages := c.messages + [Result(observation, call.callId, call.name)])
  }

  /** One durable step of the uninterrupted run. */
  function RefNext(d: Deployment, o: Oracle, s: Session, ref: RefState): RefState {
    var c := ref.record;
    match c.state
    case Running => RefState(RefTurn(d, o, s, c), ref.claimed)
    case ToolPrepared =>
      RefState(c.(state := ToolInFlight),
               if c.pending.action.Some? then ref.claimed + [c.pending.action.value] else ref.claimed)
    case ToolInFlight =>
      if c.pending.action.None? then ref else RefState(RefComplete(o, c, c.pending.action.value), ref.claimed)
    case ToolCompleted =>
      if !EndsWithCall(c.messages) || c.pending.status.None? then ref
      else RefState(RefMerge(d, s, c), ref.claimed)
    case _ => ref
  }

  function Iterate<T>(f: T -> T, x: T, n: nat): T
    decreases n, 1
  {
    if n == 0 then x else IterateLast(f, x, n)
  }

  function IterateLast<T>(f: T -> T, x: T, n: nat): T
    requires n > 0
    decreases n, 0
  {
    f(Iterate(f, x, n - 1))
  }

  function Stepper(d: Deployment, o: Oracle, s: Session): RefState -> RefState {
    ref => RefNext(d, o, s, ref)
  }

  function RefIter(d: Deployment, o: Oracle, s: Session, ref: RefState, n: nat): RefState {
    Iterate(Stepper(d, o, s), ref, n)
  }

  /** The uninterrupted run after `k` durable steps. */
  function RefAt(d: Deployment, o: Oracle, s: Session, k: nat): RefState {
    RefIter(d, o, s, RefState(Core(FirstRecord(s)), []), k)
  }

  /** The system shows the uninterrupted run after `k` durable steps. */
  ghost predicate At(d: Deployment, o: Oracle, s: Session, sys: System, k: nat) {
    sys.store.Some? && RefAt(d, o, s, k) == RefState(Core(sys.store.value), Actions(sys.claims))
  }

  ghost predicate OnReference(d: Deployment, o: Oracle, s: Session, sys: System) {
    sys.store.None? || exists k: nat :: At(d, o, s, sys, k)
  }

  /** Inputs as the oracle gives them, with no cancellation and no deadline. */
  ghost predicate Faithful(o: Oracle, stage: Stage, i: Input) {
    && !i.cancelled && !i.expired && !i.cancelledAtDispatch && !i.expiredAtDispatch
    && (stage.Active? && stage.point.LoopTop? ==> i.reply == o.model(stage.ctx.messages))
    && (stage.Active? && stage.point.HoldsClaim? ==> i.execution == o.runtime(stage.point.action))
  }

  ghost predicate FaithfulMove(o: Oracle, s: Session, sys: System, move: Move) {
    && (move.Start? ==> move.session == s)
    && (move.Work? && move.id in sys.workers ==> Faithful(o, sys.workers[move.id].stage, move.input))
  }

  ghost predicate FaithfulRun(d: Deployment, o: Oracle, s: Session, moves: seq<Move>) {
    moves == [] ||
    (&& FaithfulRun(d, o, s, moves[..|moves|-1])
     && FaithfulMove(o, s, Exec(d, s.runId, moves[..|moves|-1]), moves[|moves|-1]))
  }

  ghost predicate Steady(s: Session, r: StoredRunRecord) {
    && r.fingerprint == s.profile && r.runId == s.runId
    && (r.state == Running ==> |r.messages| == 2 * r.nextStep)
    && (PendingTool(r.state) ==>
          && |r.messages| == 2 * r.nextStep + 1 && 2 * r.nextStep <= s.profile.limits.maxContextMessages
          && ToolsRegistered(s) && !s.toolsBlocked && TaskAccepted(s))
  }

  ghost predicate SteadyStage(o: Oracle, s: Session, stage: Stage) {
    stage.Active? ==>
      var ctx := stage.ctx;
      && Steady(s, ctx.record) && ctx.messages == ctx.record.messages && TaskAccepted(s)
      && match stage.point
         case ModelReturned(step, output) =>
           && o.model(ctx.messages) == Replies(output) && ToolsRegistered(s)
           && |ctx.messages| <= s.profile.limits.maxContextMessages
         case Dispatched(_, e) =>
           ctx.record.pending.action.Some? && e == o.runtime(ctx.record.pending.action.value)
         case _ => true
  }

  /** What a step leaves behind is steady again. */
  ghost predicate StepSteady(o: Oracle, s: Session, res: StepResult) {
    res.store.Some? && Steady(s, res.store.value) && SteadyStage(o, s, res.stage)
  }

  ghost predicate StepFollows(
    d: Deployment, o: Oracle, s: Session, store: Store, claimed: seq<Action>, res: StepResult)
    requires store.Some?
  {
    && StepSteady(o, s, res)
    && var claimed' := if res.effect.WonClaim? then claimed + [res.effect.action] else claimed;
    && var ref, ref' := RefState(Core(store.value), claimed), RefState(Core(res.store.value), claimed');
    && (ref' == ref || ref' == RefNext(d, o, s, ref))
  }

  ghost predicate Ready(d: Deployment, o: Oracle, s: Session, store: Store, ctx: Context, point: Point) {
    && StageOK(d, s, store, Active(ctx, point)) && StoreOK(d, s.runId, store) && Steady(s, store.value)
    && SteadyStage(o, s, Active(ctx, point)) && ValidDeployment(d) && ValidOracle(o) && s.knowledge.None?
  }

  lemma EndFollows(
    d: Deployment, o: Oracle, s: Session, store: Store, ctx: Context, point: Point, claimed: seq<Action>,
    ended: Context, status: RunStatus, finalText: Option<string>)
    requires Current(store, ctx, point) && Steady(s, store.value) && SameCounters(ctx)
    requires ctx.messages == ctx.record.messages
    requires ended.record == ctx.record && ended.messages == ctx.messages && ended.toolCalls == ctx.toolCalls
    requires RefNext(d, o, s, RefState(Core(ctx.record), claimed))
             == RefState(RefEnd(Core(ctx.record), status, finalText), claimed)
    ensures StepFollows(d, o, s, store, claimed, Finish(store, ended, status, finalText))
  {
    if store.value.version == ctx.record.version {
      var saved := Finish(store, ended, status, finalText).store.value;
      assert Core(saved) == RefEnd(Core(ctx.record), status, finalText);
      assert Terminal(saved.state);
    }
  }

  /** A worker that resumes a pending call finds room for it in the context, or comes late. */
  predicate HasRoom(s: Session, store: Store, stage: Stage) {
    stage.Active? && stage.point.LoopTop? && stage.point.phase != Fresh && store == Some(stage.ctx.record) ==>
      |stage.ctx.messages| <= s.profile.limits.maxContextMessages
  }

  lemma LoopTopFollows(
    d: Deployment, o: Oracle, s: Session, store: Store, ctx: Context, step: nat, phase: Phase, i: Input,
    claimed: seq<Action>)
    requires Ready(d, o, s, store, ctx, LoopTop(step, phase))
    requires HasRoom(s, store, Active(ctx, LoopTop(step, phase)))
    requires Faithful(o, Active(ctx, LoopTop(step, phase)), i)
    ensures StepFollows(d, o, s, store, claimed, StepLoopTop(d, s, store, ctx, step, phase, i))
  {
    PendingRestores(d, ctx.record);
    var point := LoopTop(step, phase);
    if phase == Fresh && !ToolsRegistered(s) {
      EndFollows(d, o, s, store, ctx, point, claimed, ctx, ModelFailure, None);
    } else if phase == Fresh
              && (step > s.profile.maxModelTurns || |ctx.messages| > s.profile.limits.maxContextMessages) {
      EndFollows(d, o, s, store, ctx, point, claimed, ctx, LimitReached, None);
    } else if phase == Fresh && i.reply.Fails? {
      var asked := ctx.(events := ctx.events + [RunEvent(ModelTurnEvent, step, None)]);
      EndFollows(d, o, s, store, ctx, point, claimed, asked, ModelFailure, None);
    }
  }

  /** Without room the run ends, which is steady but off the reference. */
  lemma NoRoomIsSteady(
    d: Deployment, o: Oracle, s: Session, store: Store, ctx: Context, step: nat, phase: Phase, i: Input)
    requires Ready(d, o, s, store, ctx, LoopTop(step, phase))
    requires !HasRoom(s, store, Active(ctx, LoopTop(step, phase)))
    requires Faithful(o, Active(ctx, LoopTop(step, phase)), i)
    ensures var res := StepLoopTop(d, s, store, ctx, step, phase, i);
            && StepSteady(o, s, res) && res.store.value.messages == store.value.messages
  {
  }

  lemma ModelReturnedFollows(
    d: Deployment, o: Oracle, s: Session, store: Store, ctx: Context, step: nat, output: ModelOutput, i: Input,
    claimed: seq<Action>)
    requires Ready(d, o, s, store, ctx, ModelReturned(step, output))
    requires Faithful(o, Active(ctx, ModelReturned(step, output)), i)
    ensures StepFollows(d, o, s, store, claimed, StepModelReturned(d, s, store, ctx, step, output, i))
  {
    var point := ModelReturned(step, output);
    match output
    case TextOutput(text) =>
      if |text| > s.profile.limits.maxModelTextChars {
        EndFollows(d, o, s, store, ctx, point, claimed, ctx, InvalidModelResponse, None);
      } else {
        var spoke := ctx.(events := ctx.events + [RunEvent(ModelResponseEvent, step, None)]);
        EndFollows(d, o, s, store, ctx, point, claimed, spoke, StatusCompleted, Some(text));
      }
    case Unsupported =>
      EndFollows(d, o, s, store, ctx, point, claimed, ctx, InvalidModelResponse, None);
    case CallOutput(call) =>
      match Refusal(d, s, step, ctx.messages, ctx.toolCalls, call, Go)
      case Some(status) =>
        EndFollows(d, o, s, store, ctx, point, claimed, ctx, status, None);
      case None =>
  }

  lemma ToolPointFollows(
    d: Deployment, o: Oracle, s: Session, store: Store, ctx: Context, point: Point, i: Input, claimed: seq<Action>)
    requires Ready(d, o, s, store, ctx, point) && (point.ToClaim? || point.HoldsClaim? || point.Dispatched?)
    requires Faithful(o, Active(ctx, point), i)
    ensures StepFollows(d, o, s, store, claimed, StepPoint(d, s, store, ctx, point, i))
  {
  }

  lemma MergeFollows(
    d: Deployment, o: Oracle, s: Session, store: Store, ctx: Context, job: Job, e: GovernedExecution,
    claimed: seq<Action>)
    requires Ready(d, o, s, store, ctx, ToMerge(job, e))
    ensures StepFollows(d, o, s, store, claimed, StepToMerge(d, s, store, ctx, job, e))
  {
    var point := ToMerge(job, e);
    if e.status != Executed {
      var rejected := ctx.(events := ctx.events + [RunEvent(ToolRejectedEvent, job.step, Some(job.requestId))]);
      EndFollows(d, o, s, store, ctx, point, claimed, rejected, RejectionStatus(e.status), None);
    } else if |d.render(job.requestId, e.output)| > s.profile.limits.maxObservationChars {
      EndFollows(d, o, s, store, ctx, point, claimed, ctx, LimitReached, None);
    }
  }

  ghost predicate SteadySystem(o: Oracle, s: Session, sys: System) {
    && (sys.store.Some? ==> Steady(s, sys.store.value))
    && (forall id :: id in sys.workers ==>
          sys.workers[id].session == s && SteadyStage(o, s, sys.workers[id].stage)
          && (sys.workers[id].stage.Creating? ==> TaskAccepted(s)))
  }

  ghost predicate Setting(d: Deployment, o: Oracle, s: Session) {
    ValidDeployment(d) && ValidOracle(o) && Calm(o) && s.knowledge.None?
  }

  lemma ActiveFollows(d: Deployment, o: Oracle, s: Session, sys: System, id: nat, i: Input)
    requires Setting(d, o, s) && Inv(d, s.runId, sys) && SteadySystem(o, s, sys)
    requires id in sys.workers && sys.workers[id].stage.Active? && Faithful(o, sys.workers[id].stage, i)
    requires HasRoom(s, sys.store, sys.workers[id].stage)
    ensures StepFollows(
              d, o, s, sys.store, Actions(sys.claims), WorkerStep(d, s, sys.store, sys.workers[id].stage, i))
  {
    var ctx, point := sys.workers[id].stage.ctx, sys.workers[id].stage.point;
    var claimed := Actions(sys.claims);
    match point
    case LoopTop(step, phase) => LoopTopFollows(d, o, s, sys.store, ctx, step, phase, i, claimed);
    case ModelReturned(step, output) => ModelReturnedFollows(d, o, s, sys.store, ctx, step, output, i, claimed);
    case ToMerge(job, e) => MergeFollows(d, o, s, sys.store, ctx, job, e, claimed);
    case _ => ToolPointFollows(d, o, s, sys.store, ctx, point, i, claimed);
  }

  lemma ActionsAppend(claims: seq<ClaimEntry>, c: ClaimEntry)
    ensures Actions(claims + [c]) == Actions(claims) + [c.action]
  {
  }

  lemma RefAtNext(d: Deployment, o: Oracle, s: Session, k: nat)
    ensures RefAt(d, o, s, k + 1) == RefNext(d, o, s, RefAt(d, o, s, k))
  {
    var f, first := Stepper(d, o, s), RefState(Core(FirstRecord(s)), []);
    assert Iterate(f, first, k + 1) == IterateLast(f, first, k + 1) == f(Iterate(f, first, k));
  }

  lemma FollowedStep(d: Deployment, o: Oracle, s: Session, sys: System, id: nat, res: StepResult, k: nat)
    requires At(d, o, s, sys, k) && StepFollows(d, o, s, sys.store, Actions(sys.claims), res)
    ensures At(d, o, s, Record(sys, id, s, res), k) || At(d, o, s, Record(sys, id, s, res), k + 1)
  {
    RefAtNext(d, o, s, k);
    if res.effect.WonClaim? {
      ActionsAppend(sys.claims, ClaimEntry(id, res.effect.step, res.effect.action));
    }
  }

  lemma SteadyStep(o: Oracle, s: Session, sys: System, id: nat, res: StepResult)
    requires SteadySystem(o, s, sys) && SteadyStage(o, s, res.stage)
    requires res.store.Some? ==> Steady(s, res.store.value)
    requires res.stage.Creating? ==> TaskAccepted(s)
    ensures SteadySystem(o, s, Record(sys, id, s, res))
  {
  }

  /** A worker step that has room moves the stored run by at most one step of the reference;
      the first write is the first step of the reference. */
  lemma WorkFollows(d: Deployment, o: Oracle, s: Session, sys: System, id: nat, i: Input, k: nat)
    requires Setting(d, o, s) && Inv(d, s.runId, sys) && SteadySystem(o, s, sys)
    requires id in sys.workers && Faithful(o, sys.workers[id].stage, i) && HasRoom(s, sys.store, sys.workers[id].stage)
    requires sys.store.Some? ==> At(d, o, s, sys, k)
    ensures var sys' := Record(sys, id, s, WorkerStep(d, s, sys.store, sys.workers[id].stage, i));
            && (sys.store.Some? ==> At(d, o, s, sys', k) || At(d, o, s, sys', k + 1))
            && (sys.store.None? && sys'.store.Some? ==> At(d, o, s, sys', 0))
  {
    var stage := sys.workers[id].stage;
    var res := WorkerStep(d, s, sys.store, stage, i);
    if stage.Active? {
      ActiveFollows(d, o, s, sys, id, i);
      FollowedStep(d, o, s, sys, id, res, k);
    } else {
      IdleFollows(d, o, s, sys, id, i, k);
    }
  }

  lemma IdleFollows(d: Deployment, o: Oracle, s: Session, sys: System, id: nat, i: Input, k: nat)
    requires s.knowledge.None? && Inv(d, s.runId, sys) && SteadySystem(o, s, sys)
    requires id in sys.workers && !sys.workers[id].stage.Active?
    requires sys.store.Some? ==> At(d, o, s, sys, k)
    ensures var sys' := Record(sys, id, s, WorkerStep(d, s, sys.store, sys.workers[id].stage, i));
            && (sys.store.Some? ==> At(d, o, s, sys', k))
            && (sys.store.None? && sys'.store.Some? ==> At(d, o, s, sys', 0))
  {
  }

  lemma IdleSteady(d: Deployment, o: Oracle, s: Session, sys: System, id: nat, i: Input)
    requires s.knowledge.None? && Inv(d, s.runId, sys) && SteadySystem(o, s, sys)
    requires id in sys.workers && !sys.workers[id].stage.Active?
    ensures var res := WorkerStep(d, s, sys.store, sys.workers[id].stage, i);
            && SteadySystem(o, s, Record(sys, id, s, res))
            && (res.store == sys.store || res.store == Some(FirstRecord(s)))
  {
    SteadyStep(o, s, sys, id, WorkerStep(d, s, sys.store, sys.workers[id].stage, i));
  }

  /** One step of the reference keeps a conversation a conversation. */
  lemma RefKeepsConversation(d: Deployment, o: Oracle, s: Session, r: StoredRunRecord, claimed: seq<Action>)
    requires Steady(s, r) && Conversation(d, s, r.messages)
    ensures Conversation(d, s, RefNext(d, o, s, RefState(Core(r), claimed)).record.messages)
  {
    var next := RefNext(d, o, s, RefState(Core(r), claimed)).record.messages;
    if next != r.messages && r.state == Running {
      var call := next[|r.messages|];
      assert next == r.messages + [call];
      ConversationGrows(d, s, r.messages, call);
    } else if next != r.messages {
      AnswerKeepsConversation(d, o, s, r, claimed);
    }
  }

  lemma AnswerKeepsConversation(d: Deployment, o: Oracle, s: Session, r: StoredRunRecord, claimed: seq<Action>)
    requires Steady(s, r) && Conversation(d, s, r.messages) && r.state == ToolCompleted
    requires RefNext(d, o, s, RefState(Core(r), claimed)).record.messages != r.messages
    ensures Conversation(d, s, RefNext(d, o, s, RefState(Core(r), claimed)).record.messages)
  {
    var next := RefNext(d, o, s, RefState(Core(r), claimed)).record.messages;
    var k, answer := r.nextStep, next[|r.messages|];
    assert next == r.messages + [answer];
    assert Shows(d, s, k, answer.content) by {
      assert d.render(d.requestId(s.runId, k), r.pending.output) == answer.content;
    }
    ConversationGrows(d, s, r.messages, answer);
  }

  ghost predicate StoredConversation(d: Deployment, s: Session, store: Store) {
    store.Some? ==> Conversation(d, s, store.value.messages)
  }

  lemma ActiveSteady(d: Deployment, o: Oracle, s: Session, sys: System, id: nat, i: Input)
    requires Setting(d, o, s) && Inv(d, s.runId, sys) && SteadySystem(o, s, sys)
    requires StoredConversation(d, s, sys.store)
    requires id in sys.workers && sys.workers[id].stage.Active? && Faithful(o, sys.workers[id].stage, i)
    ensures var res := WorkerStep(d, s, sys.store, sys.workers[id].stage, i);
            StepSteady(o, s, res) && StoredConversation(d, s, res.store)
  {
    var stage := sys.workers[id].stage;
    if HasRoom(s, sys.store, stage) {
      ActiveFollows(d, o, s, sys, id, i);
      RefKeepsConversation(d, o, s, sys.store.value, Actions(sys.claims));
    } else {
      NoRoomIsSteady(d, o, s, sys.store, stage.ctx, stage.point.step, stage.point.phase, i);
    }
  }

  lemma WorkSteady(d: Deployment, o: Oracle, s: Session, sys: System, id: nat, i: Input)
    requires Setting(d, o, s) && Inv(d, s.runId, sys) && SteadySystem(o, s, sys)
    requires StoredConversation(d, s, sys.store) && id in sys.workers && Faithful(o, sys.workers[id].stage, i)
    ensures var sys' := Record(sys, id, s, WorkerStep(d, s, sys.store, sys.workers[id].stage, i));
            SteadySystem(o, s, sys') && StoredConversation(d, s, sys'.store)
  {
    if sys.workers[id].stage.Active? {
      ActiveSteady(d, o, s, sys, id, i);
      SteadyStep(o, s, sys, id, WorkerStep(d, s, sys.store, sys.workers[id].stage, i));
    } else {
      IdleSteady(d, o, s, sys, id, i);
    }
  }

  /** Whatever the limits, every faithful run is steady and stores a conversation. */
  lemma {:induction false} FaithfulRunSteady(d: Deployment, o: Oracle, s: Session, moves: seq<Move>)
    requires Setting(d, o, s) && FaithfulRun(d, o, s, moves)
    ensures var sys := Exec(d, s.runId, moves);
            SteadySystem(o, s, sys) && StoredConversation(d, s, sys.store)
  {
    if moves != [] {
      var init, move := moves[..|moves|-1], moves[|moves|-1];
      FaithfulRunSteady(d, o, s, init);
      ExecInv(d, s.runId, init);
      if move.Work? && move.id in Exec(d, s.runId, init).workers {
        WorkSteady(d, o, s, Exec(d, s.runId, init), move.id, move.input);
      }
    }
  }

  ghost predicate RoomyMove(s: Session, sys: System, move: Move) {
    move.Work? && move.id in sys.workers ==> HasRoom(s, sys.store, sys.workers[move.id].stage)
  }

  /** Every step of the run has room. */
  ghost predicate RoomyRun(d: Deployment, s: Session, moves: seq<Move>) {
    moves == [] ||
    (RoomyRun(d, s, moves[..|moves|-1]) && RoomyMove(s, Exec(d, s.runId, moves[..|moves|-1]), moves[|moves|-1]))
  }

  lemma MoveFollows(d: Deployment, o: Oracle, s: Session, moves: seq<Move>, move: Move, k: nat)
    requires Setting(d, o, s) && FaithfulRun(d, o, s, moves + [move])
    requires RoomyMove(s, Exec(d, s.runId, moves), move)
    requires Exec(d, s.runId, moves).store.Some? ==> At(d, o, s, Exec(d, s.runId, moves), k)
    ensures var sys, sys' := Exec(d, s.runId, moves), Exec(d, s.runId, moves + [move]);
            && (sys.store.Some? ==> At(d, o, s, sys', k) || At(d, o, s, sys', k + 1))
            && (sys.store.None? && sys'.store.Some? ==> At(d, o, s, sys', 0))
  {
    assert (moves + [move])[..|moves|] == moves;
    var sys := Exec(d, s.runId, moves);
    FaithfulRunSteady(d, o, s, moves);
    ExecInv(d, s.runId, moves);
    if move.Work? && move.id in sys.workers {
      WorkFollows(d, o, s, sys, move.id, move.input, k);
    }
  }

  /** A run with room is on the reference. */
  lemma {:induction false} RoomyRunFollows(d: Deployment, o: Oracle, s: Session, moves: seq<Move>) returns (k: nat)
    requires Setting(d, o, s) && FaithfulRun(d, o, s, moves) && RoomyRun(d, s, moves)
    ensures Exec(d, s.runId, moves).store.Some? ==> At(d, o, s, Exec(d, s.runId, moves), k)
  {
    k := 0;
    if moves != [] {
      var init, move := moves[..|moves|-1], moves[|moves|-1];
      assert moves == init + [move];
      k := RoomyRunFollows(d, o, s, init);
      MoveFollows(d, o, s, init, move, k);
      var sys, sys' := Exec(d, s.runId, init), Exec(d, s.runId, moves);
      k := if sys.store.None? then 0 else if At(d, o, s, sys', k) then k else k + 1;
    }
  }

  /** Where no conversation is overfull, a stored pending call always finds room. */
  lemma PendingHasRoom(d: Deployment, s: Session, r: StoredRunRecord)
    requires NeverOverfull(d, s) && Steady(s, r) && Conversation(d, s, r.messages)
    requires GoodRecord(d, r) && PendingTool(r.state)
    ensures |r.messages| <= s.profile.limits.maxContextMessages
  {
    assert !Overfull(d, s, r.messages);
    assert r.nextStep <= s.profile.maxModelTurns && r.nextStep <= s.profile.maxToolCalls;
  }

  lemma {:induction false} AlwaysRoomy(d: Deployment, o: Oracle, s: Session, moves: seq<Move>)
    requires Setting(d, o, s) && NeverOverfull(d, s) && FaithfulRun(d, o, s, moves)
    ensures RoomyRun(d, s, moves)
  {
    if moves != [] {
      var init, move := moves[..|moves|-1], moves[|moves|-1];
      AlwaysRoomy(d, o, s, init);
      FaithfulRunSteady(d, o, s, init);
      ExecInv(d, s.runId, init);
      RoomyWhenNeverOverfull(d, o, s, Exec(d, s.runId, init), move);
    }
  }

  lemma RoomyWhenNeverOverfull(d: Deployment, o: Oracle, s: Session, sys: System, move: Move)
    requires NeverOverfull(d, s) && Inv(d, s.runId, sys) && SteadySystem(o, s, sys)
    requires StoredConversation(d, s, sys.store)
    ensures RoomyMove(s, sys, move)
  {
    if move.Work? && move.id in sys.workers {
      var stage := sys.workers[move.id].stage;
      if stage.Active? && stage.point.LoopTop? && stage.point.phase != Fresh && sys.store == Some(stage.ctx.record) {
        PendingHasRoom(d, s, stage.ctx.record);
      }
    }
  }

  /** Every stored record and every claim made, under any interleaving and any crashes,
      is the uninterrupted run at some point. */
  lemma CrashTransparent(d: Deployment, o: Oracle, s: Session, moves: seq<Move>)
    requires Setting(d, o, s) && NeverOverfull(d, s) && FaithfulRun(d, o, s, moves)
    ensures OnReference(d, o, s, Exec(d, s.runId, moves))
  {
    AlwaysRoomy(d, o, s, moves);
    var k := RoomyRunFollows(d, o, s, moves);
  }

  /** And that point never moves backwards: each move stays or takes the next step. */
  lemma RunNeverGoesBack(d: Deployment, o: Oracle, s: Session, moves: seq<Move>, move: Move, k: nat)
    requires Setting(d, o, s) && NeverOverfull(d, s) && FaithfulRun(d, o, s, moves + [move])
    requires At(d, o, s, Exec(d, s.runId, moves), k)
    ensures var sys' := Exec(d, s.runId, moves + [move]);
            At(d, o, s, sys', k) || At(d, o, s, sys', k + 1)
  {
    AlwaysRoomy(d, o, s, moves + [move]);
    assert (moves + [move])[..|moves|] == moves;
    MoveFollows(d, o, s, moves, move, k);
  }

  // ---- A run that is never restarted ----

  /** At most one worker is ever started. */
  ghost predicate StartedOnce(moves: seq<Move>) {
    forall i, j :: 0 <= i < j < |moves| ==> !(moves[i].Start? && moves[j].Start?)
  }

  ghost predicate NoStart(moves: seq<Move>) {
    forall i :: 0 <= i < |moves| ==> !moves[i].Start?
  }

  /** Whoever is at work began the run itself and resumes nothing. */
  ghost predicate NothingResumed(sys: System) {
    && (forall a, b :: a in sys.workers && b in sys.workers ==> a == b)
    && (forall id :: id in sys.workers ==>
          var stage := sys.workers[id].stage;
          && (stage.Loading? || stage.Creating? ==> sys.store.None?)
          && (stage.Active? && stage.point.LoopTop? ==> stage.point.phase == Fresh))
  }

  lemma {:induction false} UnstartedIsEmpty(d: Deployment, runId: string, moves: seq<Move>)
    requires NoStart(moves)
    ensures Exec(d, runId, moves).workers == map[] && Exec(d, runId, moves).store.None?
  {
    if moves != [] {
      UnstartedIsEmpty(d, runId, moves[..|moves|-1]);
    }
  }

  lemma WorkResumesNothing(d: Deployment, s: Session, sys: System, id: nat, i: Input)
    requires NothingResumed(sys) && id in sys.workers
    ensures NothingResumed(Record(sys, id, s, WorkerStep(d, s, sys.store, sys.workers[id].stage, i)))
  {
    StepGoesOnFresh(d, s, sys.store, sys.workers[id].stage, i);
    RecordResumesNothing(s, sys, id, WorkerStep(d, s, sys.store, sys.workers[id].stage, i));
  }

  lemma RecordResumesNothing(s: Session, sys: System, id: nat, res: StepResult)
    requires NothingResumed(sys) && id in sys.workers && GoesOnFresh(res)
    ensures NothingResumed(Record(sys, id, s, res))
  {
  }

  ghost predicate GoesOnFresh(res: StepResult) {
    && !res.stage.Loading? && (res.stage.Creating? ==> res.store.None?)
    && (res.stage.Active? && res.stage.point.LoopTop? ==> res.stage.point.phase == Fresh)
  }

  lemma StepGoesOnFresh(d: Deployment, s: Session, store: Store, stage: Stage, i: Input)
    requires stage.Loading? || stage.Creating? ==> store.None?
    requires stage.Active? && stage.point.LoopTop? ==> stage.point.phase == Fresh
    ensures GoesOnFresh(WorkerStep(d, s, store, stage, i))
  {
    if stage.Active? {
      match stage.point
      case LoopTop(step, phase) =>
      case ModelReturned(step, output) =>
      case ToClaim(job, action) =>
      case HoldsClaim(job, action) =>
      case Dispatched(job, e) =>
      case ToMerge(job, e) =>
    }
  }

  lemma {:induction false} OneStartResumesNothing(d: Deployment, runId: string, moves: seq<Move>)
    requires StartedOnce(moves)
    ensures NothingResumed(Exec(d, runId, moves))
  {
    if moves != [] {
      var init, move := moves[..|moves|-1], moves[|moves|-1];
      OneStartResumesNothing(d, runId, init);
      var sys := Exec(d, runId, init);
      if move.Work? && move.id in sys.workers {
        WorkResumesNothing(d, sys.workers[move.id].session, sys, move.id, move.input);
      } else if move.Start? {
        assert NoStart(init);
        UnstartedIsEmpty(d, runId, init);
      }
    }
  }

  lemma {:induction false} OneStartIsRoomy(d: Deployment, s: Session, moves: seq<Move>)
    requires StartedOnce(moves)
    ensures RoomyRun(d, s, moves)
  {
    if moves != [] {
      OneStartIsRoomy(d, s, moves[..|moves|-1]);
      OneStartResumesNothing(d, s.runId, moves[..|moves|-1]);
    }
  }

  /** A run that is never restarted is on the reference, whatever the limits: the reference is
      what the code does when nothing crashes. */
  lemma UnrestartedRunIsOnReference(d: Deployment, o: Oracle, s: Session, moves: seq<Move>) returns (k: nat)
    requires Setting(d, o, s) && FaithfulRun(d, o, s, moves) && StartedOnce(moves)
    ensures Exec(d, s.runId, moves).store.Some? ==> At(d, o, s, Exec(d, s.runId, moves), k)
  {
    OneStartIsRoomy(d, s, moves);
    k := RoomyRunFollows(d, o, s, moves);
  }

  ghost predicate Matches(r: StoredRunRecord, sum: Summary) {
    && Terminal(r.state) && r.terminalStatus == Some(sum.status)
    && r.finalText == sum.finalText && r.toolCalls == sum.toolCalls
  }

  lemma {:induction false} IterateAdd<T>(f: T -> T, x: T, a: nat, b: nat)
    ensures Iterate(f, Iterate(f, x, a), b) == Iterate(f, x, a + b)
  {
    if b != 0 {
      IterateAdd(f, x, a, b - 1);
    }
  }

  lemma {:induction false} IterateFixed<T>(f: T -> T, x: T, n: nat)
    requires f(x) == x
    ensures Iterate(f, x, n) == x
  {
    if n != 0 {
      IterateFixed(f, x, n - 1);
    }
  }

  lemma FixedFromThere<T>(f: T -> T, x: T, a: nat, b: nat)
    requires a <= b && f(Iterate(f, x, a)) == Iterate(f, x, a)
    ensures Iterate(f, x, b) == Iterate(f, x, a)
  {
    IterateAdd(f, x, a, b - a);
    IterateFixed(f, Iterate(f, x, a), b - a);
  }

  /** Two iterations that both reached a fixed point reached the same one. */
  lemma FixedPointsAgree<T>(f: T -> T, x: T, a: nat, b: nat)
    requires f(Iterate(f, x, a)) == Iterate(f, x, a) && f(Iterate(f, x, b)) == Iterate(f, x, b)
    ensures Iterate(f, x, a) == Iterate(f, x, b)
  {
    IterateAdd(f, x, a, b);
    IterateAdd(f, x, b, a);
    IterateFixed(f, Iterate(f, x, a), b);
    IterateFixed(f, Iterate(f, x, b), a);
  }

  /** The call a turn will dispatch, if it dispatches one. */
  function CallToDispatch(d: Deployment, o: Oracle, s: Session, c: StoredRunRecord): Option<ToolCall> {
    if c.nextStep > s.profile.maxModelTurns || |c.messages| > s.profile.limits.maxContextMessages then None
    else
      match o.model(c.messages)
      case Replies(CallOutput(call)) =>
        if Refusal(d, s, c.nextStep, c.messages, c.toolCalls, call, Go) == None then Some(call) else None
      case _ => None
  }

  function PlainRest(d: Deployment, o: Oracle, s: Session, c: StoredRunRecord, turns: nat): Summary {
    TurnFrom(d, o, s, c.nextStep, c.messages, c.toolCalls, turns)
  }

  lemma RefTurnEnds(d: Deployment, o: Oracle, s: Session, c: StoredRunRecord, turns: nat)
    requires Calm(o) && ToolsRegistered(s) && CallToDispatch(d, o, s, c) == None
    ensures Matches(RefTurn(d, o, s, c), PlainRest(d, o, s, c, turns))
  {
    RestAfterReply(d, o, s, c, turns);
  }

  lemma RestAfterReply(d: Deployment, o: Oracle, s: Session, c: StoredRunRecord, turns: nat)
    requires Calm(o)
    ensures c.nextStep <= s.profile.maxModelTurns && |c.messages| <= s.profile.limits.maxContextMessages
            && o.model(c.messages).Replies? ==>
              PlainRest(d, o, s, c, turns)
              == AfterReply(d, o, s, c.nextStep, c.messages, c.toolCalls, turns + 1, o.model(c.messages).output)
  {
  }

  lemma RefEndsAtOnce(d: Deployment, o: Oracle, s: Session, ref: RefState, turns: nat)
    requires Calm(o)
    requires ref.record.state == Running && ToolsRegistered(s) && CallToDispatch(d, o, s, ref.record) == None
    ensures Matches(RefIter(d, o, s, ref, 1).record, PlainRest(d, o, s, ref.record, turns))
  {
    RefTurnEnds(d, o, s, ref.record, turns);
  }

  lemma RefChain(d: Deployment, o: Oracle, s: Session, ref: RefState, n: nat, m: nat, sum: Summary)
    requires Matches(RefIter(d, o, s, RefIter(d, o, s, ref, n), m).record, sum)
    ensures Matches(RefIter(d, o, s, ref, n + m).record, sum)
  {
    IterateAdd(Stepper(d, o, s), ref, n, m);
  }

  lemma DispatchedTurn(d: Deployment, o: Oracle, s: Session, c: StoredRunRecord, turns: nat)
    requires Calm(o) && CallToDispatch(d, o, s, c).Some?
    ensures var call := CallToDispatch(d, o, s, c).value;
            && call.name in s.tools && c.nextStep <= s.profile.maxModelTurns
            && PlainRest(d, o, s, c, turns)
               == DispatchFrom(d, o, s, c.nextStep, c.messages + [Call(call)], call, c.toolCalls, turns + 1)
  {
    RestAfterReply(d, o, s, c, turns);
  }

  /** Four durable steps take a dispatched turn to the next turn or to the end. */
  lemma RefRound(d: Deployment, o: Oracle, s: Session, ref: RefState, turns: nat) 
    returns (done: bool, n: nat, ref': RefState)
    requires Calm(o)
    requires ref.record.state == Running && ToolsRegistered(s) && CallToDispatch(d, o, s, ref.record).Some?
    ensures ref' == RefIter(d, o, s, ref, n)
    ensures done ==> Matches(ref'.record, PlainRest(d, o, s, ref.record, turns))
    ensures !done ==>
      && ref'.record.state == Running && ref'.record.nextStep == ref.record.nextStep + 1
      && PlainRest(d, o, s, ref.record, turns) == PlainRest(d, o, s, ref'.record, turns + 1)
  {
    DispatchedTurn(d, o, s, ref.record, turns);
    var r1 := RefNext(d, o, s, ref);
    var r2 := RefNext(d, o, s, r1);
    var r3 := RefNext(d, o, s, r2);
    assert r3.record.state == ToolCompleted && EndsWithCall(r3.record.messages);
    n, ref' := 4, RefNext(d, o, s, r3);
    done := ref'.record.state != Running;
    FourSteps(d, o, s, ref);
  }

  lemma FourSteps(d: Deployment, o: Oracle, s: Session, ref: RefState)
    ensures RefIter(d, o, s, ref, 4)
            == RefNext(d, o, s, RefNext(d, o, s, RefNext(d, o, s, RefNext(d, o, s, ref))))
  {
    var f := Stepper(d, o, s);
    assert Iterate(f, ref, 4) == f(Iterate(f, ref, 3));
    assert Iterate(f, ref, 2) == f(f(ref));
  }

  /** The durable reference ends, and ends as the plain agent loop does. */
  lemma {:induction false} RefReaches(d: Deployment, o: Oracle, s: Session, ref: RefState, turns: nat)
    returns (n: nat)
    requires Calm(o) && ref.record.state == Running && ToolsRegistered(s)
    ensures Matches(RefIter(d, o, s, ref, n).record, PlainRest(d, o, s, ref.record, turns))
    decreases s.profile.maxModelTurns + 1 - ref.record.nextStep
  {
    if CallToDispatch(d, o, s, ref.record).None? {
      n := 1;
      RefEndsAtOnce(d, o, s, ref, turns);
    } else {
      var done, ref';
      done, n, ref' := RefRound(d, o, s, ref, turns);
      if !done {
        var m := RefReaches(d, o, s, ref', turns + 1);
        RefChain(d, o, s, ref, n, m, PlainRest(d, o, s, ref.record, turns));
        n := n + m;
      }
    }
  }

  /** Whatever crashed and whoever resumed, a run with room that ends ends with the status, the
      final text and the number of tool calls of the plain agent loop. */
  lemma RoomyRunEndsLikeThePlainLoop(d: Deployment, o: Oracle, s: Session, moves: seq<Move>)
    requires Setting(d, o, s) && FaithfulRun(d, o, s, moves) && RoomyRun(d, s, moves)
    requires Exec(d, s.runId, moves).store.Some? && Terminal(Exec(d, s.runId, moves).store.value.state)
    ensures Matches(Exec(d, s.runId, moves).store.value, AgentRun(d, o, s))
  {
    var sys := Exec(d, s.runId, moves);
    var k := RoomyRunFollows(d, o, s, moves);
    var first := RefState(Core(FirstRecord(s)), []);
    var n := 1;
    if ToolsRegistered(s) {
      n := RefReaches(d, o, s, first, 0);
    }
    FixedPointsAgree(Stepper(d, o, s), first, k, n);
  }

  lemma CrashedRunEndsLikeThePlainLoop(d: Deployment, o: Oracle, s: Session, moves: seq<Move>)
    requires Setting(d, o, s) && NeverOverfull(d, s) && FaithfulRun(d, o, s, moves)
    requires Exec(d, s.runId, moves).store.Some? && Terminal(Exec(d, s.runId, moves).store.value.state)
    ensures Matches(Exec(d, s.runId, moves).store.value, AgentRun(d, o, s))
  {
    AlwaysRoomy(d, o, s, moves);
    RoomyRunEndsLikeThePlainLoop(d, o, s, moves);
  }
}
