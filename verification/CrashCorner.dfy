/** Where crash transparency ends: for every deployment and profile with an overfull
    conversation there is a model and a runtime for which a restart changes the run. */
module CrashCorner {
  import opened Contracts
  import opened History
  import opened DurableRecords
  import opened DurableWorker
  import opened DurableInvariant
  import opened DurableProtocol
  import opened AgentReference
  import opened FullContext
  import opened CrashTransparency

  type Outputs = map<string, Option<string>>

  /** The answer of turn `k` shows the output noted for the call it answers. */
  ghost predicate Plays(d: Deployment, s: Session, ms: seq<Message>, outputs: Outputs, k: nat) {
    && 2 * k + 1 < |ms| && ms[2*k].Call? && ms[2*k].call.callId in outputs
    && var call := ms[2*k].call;
       var text := d.render(d.requestId(s.runId, k), outputs[call.callId]);
       ms[2*k+1] == Result(text, call.callId, call.name) && |text| <= s.profile.limits.maxObservationChars
  }

  /** The outputs behind the answers of a conversation; call ids are distinct, so they can be
      noted by call. */
  lemma {:induction false} OutputsOf(d: Deployment, s: Session, ms: seq<Message>, n: nat) returns (outputs: Outputs)
    requires Conversation(d, s, ms) && Paired(ms)
    ensures forall k :: 1 <= k < n && 2 * k + 1 < |ms| ==> Plays(d, s, ms, outputs, k)
  {
    outputs := map[];
    if n > 1 {
      var before := OutputsOf(d, s, ms, n - 1);
      outputs := before;
      if 2 * (n - 1) + 1 < |ms| {
        outputs := NoteOutput(d, s, ms, n - 1, before);
      }
    }
  }

  lemma NoteOutput(d: Deployment, s: Session, ms: seq<Message>, n: nat, before: Outputs) returns (outputs: Outputs)
    requires Conversation(d, s, ms) && Paired(ms) && 1 <= n && 2 * n + 1 < |ms|
    requires forall k :: 1 <= k < n && 2 * k + 1 < |ms| ==> Plays(d, s, ms, before, k)
    ensures forall k :: 1 <= k <= n && 2 * k + 1 < |ms| ==> Plays(d, s, ms, outputs, k)
  {
    assert AnswerAt(d, s, ms, n);
    var id := ms[2*n].call.callId;
    var output :| d.render(d.requestId(s.runId, n), output) == ms[2*n+1].content;
    outputs := before[id := output];
    assert Plays(d, s, ms, outputs, n);
    forall k | 1 <= k < n ensures Plays(d, s, ms, outputs, k) {
      assert Plays(d, s, ms, before, k);
      DistinctCalls(ms, 2 * k, 2 * n);
    }
  }

  lemma DistinctCalls(ms: seq<Message>, i: nat, j: nat)
    requires Paired(ms) && i < j < |ms| && ms[i].Call? && ms[j].Call?
    ensures ms[i].call.callId != ms[j].call.callId
  {
    PairedMeaning(ms);
    assert DistinctIds(ms);
  }

  /** A model that follows the conversation, and a runtime that executes every call with the
      output noted for it. */
  function Script(ms: seq<Message>, outputs: Outputs): Oracle {
    Oracle(
      (messages: seq<Message>) =>
        if |messages| < |ms| && messages == ms[..|messages|] && ms[|messages|].Call?
        then Replies(CallOutput(ms[|messages|].call)) else Fails,
      (action: Action) =>
        GovernedExecution(
          Executed, action.requestId, Some(true), "allowed",
          if action.callId in outputs then outputs[action.callId] else None, false),
      (step: nat) => TurnSignals(Go, Go, Go))
  }

  ghost predicate Scene(d: Deployment, s: Session, ms: seq<Message>, outputs: Outputs) {
    && ValidDeployment(d) && s.knowledge.None? && Playable(d, s, ms)
    && forall k :: 1 <= k && 2 * k + 1 < |ms| ==> Plays(d, s, ms, outputs, k)
  }

  lemma SceneIsSet(d: Deployment, s: Session, ms: seq<Message>, outputs: Outputs)
    requires Scene(d, s, ms, outputs)
    ensures Setting(d, Script(ms, outputs), s)
  {
    VisibleText("allowed");
  }

  /** Inputs a worker receives when nothing interferes. */
  ghost function SoloInput(o: Oracle, stage: Stage): Input {
    Input(
      false, false, false, false,
      if stage.Active? then o.model(stage.ctx.messages) else Fails,
      if stage.Active? && stage.point.HoldsClaim? then o.runtime(stage.point.action)
      else GovernedExecution(Blocked, "q", Some(false), "unused", None, false))
  }

  ghost function WorkMove(o: Oracle, sys: System, id: nat): Move {
    Work(id, if id in sys.workers then SoloInput(o, sys.workers[id].stage) else SoloInput(o, Loading))
  }

  lemma ExtendFaithful(d: Deployment, o: Oracle, s: Session, moves: seq<Move>, move: Move)
    requires FaithfulRun(d, o, s, moves) && FaithfulMove(o, s, Exec(d, s.runId, moves), move)
    ensures FaithfulRun(d, o, s, moves + [move])
    ensures Exec(d, s.runId, moves + [move]) == Apply(d, s.runId, Exec(d, s.runId, moves), move)
  {
    assert (moves + [move])[..|moves|] == moves;
  }

  /** One faithful step of a worker, and where it leads. */
  lemma Advance(d: Deployment, o: Oracle, s: Session, moves: seq<Move>, id: nat) returns (move: Move)
    requires FaithfulRun(d, o, s, moves)
    requires id in Exec(d, s.runId, moves).workers && Exec(d, s.runId, moves).workers[id].session == s
    ensures move.Work? && FaithfulRun(d, o, s, moves + [move])
    ensures Exec(d, s.runId, moves + [move]) == Stepped(d, o, s, Exec(d, s.runId, moves), id)
  {
    move := WorkMove(o, Exec(d, s.runId, moves), id);
    ExtendFaithful(d, o, s, moves, move);
  }

  /** The system after one undisturbed step of a worker. */
  ghost function Stepped(d: Deployment, o: Oracle, s: Session, sys: System, id: nat): System
    requires id in sys.workers
  {
    var stage := sys.workers[id].stage;
    Record(sys, id, s, WorkerStep(d, s, sys.store, stage, SoloInput(o, stage)))
  }

  // ---- Worker 0, alone, following the conversation ----

  /** The call, job and action of turn `k`. */
  ghost function JobAt(d: Deployment, s: Session, ms: seq<Message>, k: nat): Job
    requires CallAt(d, s, ms, k)
  {
    Job(k, ms[2*k].call, d.requestId(s.runId, k), false)
  }

  ghost function ActionAt(d: Deployment, s: Session, ms: seq<Message>, k: nat): Action
    requires CallAt(d, s, ms, k) && ToolsRegistered(s)
  {
    ActionFor(s, s.runId, ms[2*k].call, d.requestId(s.runId, k))
  }

  /** Worker 0 is alone, up to date and at this point of turn `k`, with the first `n` messages
      of the conversation stored and the model asked once in each turn. */
  ghost predicate Solo(
    s: Session, ms: seq<Message>, sys: System, k: nat, n: nat, state: DurableState, point: Point)
  {
    && 0 in sys.workers && 1 !in sys.workers && sys.workers[0].session == s && n <= |ms|
    && sys.workers[0].stage.Active? && sys.workers[0].stage.point == point
    && var ctx := sys.workers[0].stage.ctx;
    && sys.store == Some(ctx.record) && ctx.messages == ctx.record.messages == ms[..n]
    && ctx.record.fingerprint == s.profile && ctx.record.runId == s.runId && ctx.record.task == s.task
    && ctx.record.state == state && ctx.record.nextStep == k
    && ctx.modelTurns == ctx.record.modelTurns == if point.LoopTop? then k - 1 else k
  }

  ghost predicate AtTurn(s: Session, ms: seq<Message>, sys: System, k: nat) {
    Solo(s, ms, sys, k, 2 * k, Running, LoopTop(k, Fresh))
  }

  ghost predicate AtAnswer(d: Deployment, s: Session, ms: seq<Message>, sys: System, k: nat) {
    CallAt(d, s, ms, k) && Solo(s, ms, sys, k, 2 * k, Running, ModelReturned(k, CallOutput(ms[2*k].call)))
  }

  ghost predicate AtPrepared(d: Deployment, s: Session, ms: seq<Message>, sys: System, k: nat) {
    && CallAt(d, s, ms, k) && ToolsRegistered(s)
    && Solo(s, ms, sys, k, 2 * k + 1, ToolPrepared, ToClaim(JobAt(d, s, ms, k), ActionAt(d, s, ms, k)))
  }

  ghost predicate AtClaim(d: Deployment, s: Session, ms: seq<Message>, sys: System, k: nat) {
    && CallAt(d, s, ms, k) && ToolsRegistered(s)
    && Solo(s, ms, sys, k, 2 * k + 1, ToolInFlight, HoldsClaim(JobAt(d, s, ms, k), ActionAt(d, s, ms, k)))
  }

  ghost predicate AtDispatch(d: Deployment, s: Session, ms: seq<Message>, outputs: Outputs, sys: System, k: nat) {
    && CallAt(d, s, ms, k) && ToolsRegistered(s)
    && var e := Script(ms, outputs).runtime(ActionAt(d, s, ms, k));
       Solo(s, ms, sys, k, 2 * k + 1, ToolInFlight, Dispatched(JobAt(d, s, ms, k), e))
  }

  ghost predicate AtMerge(d: Deployment, s: Session, ms: seq<Message>, outputs: Outputs, sys: System, k: nat) {
    && CallAt(d, s, ms, k) && ToolsRegistered(s)
    && var e := Script(ms, outputs).runtime(ActionAt(d, s, ms, k));
       Solo(s, ms, sys, k, 2 * k + 1, ToolCompleted, ToMerge(JobAt(d, s, ms, k), e))
  }

  /** What the invariant of the protocol adds to a running solo run. */
  ghost predicate RunningFacts(sys: System, k: nat) {
    && 0 in sys.workers && sys.workers[0].stage.Active?
    && var ctx := sys.workers[0].stage.ctx;
       ctx.record.pending.requestId.None? && ValidHistory(ctx.messages, false) && ctx.toolCalls == k - 1
  }

  lemma SoloFacts(
    d: Deployment, s: Session, ms: seq<Message>, moves: seq<Move>, k: nat, n: nat, point: Point)
    requires ValidDeployment(d) && Solo(s, ms, Exec(d, s.runId, moves), k, n, Running, point)
    requires point.LoopTop? || point.ModelReturned?
    ensures RunningFacts(Exec(d, s.runId, moves), k)
  {
    ExecInv(d, s.runId, moves);
  }

  lemma AskStep(d: Deployment, s: Session, ms: seq<Message>, outputs: Outputs, sys: System, k: nat)
    requires Scene(d, s, ms, outputs) && AtTurn(s, ms, sys, k) && RunningFacts(sys, k) && 1 <= k && 2 * k < |ms|
    ensures AtAnswer(d, s, ms, Stepped(d, Script(ms, outputs), s, sys, 0), k)
  {
    assert CallAt(d, s, ms, k);
  }

  lemma PrepareStep(d: Deployment, s: Session, ms: seq<Message>, outputs: Outputs, sys: System, k: nat)
    requires Scene(d, s, ms, outputs) && AtAnswer(d, s, ms, sys, k) && RunningFacts(sys, k) && 1 <= k
    ensures AtPrepared(d, s, ms, Stepped(d, Script(ms, outputs), s, sys, 0), k)
  {
    var stage := sys.workers[0].stage;
    PrepareWrites(d, s, ms, stage.ctx, k, SoloInput(Script(ms, outputs), stage));
  }

  lemma PrepareWrites(d: Deployment, s: Session, ms: seq<Message>, ctx: Context, k: nat, i: Input)
    requires CallAt(d, s, ms, k) && ToolsRegistered(s) && !s.toolsBlocked && Paired(ms)
    requires !i.cancelledAtDispatch && !i.expiredAtDispatch && ctx.record.runId == s.runId
    requires ctx.messages == ms[..2*k] && ctx.record.pending.requestId.None?
    ensures var res := Prepare(d, s, Some(ctx.record), ctx, k, ms[2*k].call, i);
            && res.stage.Active? && res.store == Some(res.stage.ctx.record) && res.effect.NoEffect?
            && res.stage.point == ToClaim(JobAt(d, s, ms, k), ActionAt(d, s, ms, k))
            && res.stage.ctx.messages == res.store.value.messages == ms[..2*k+1]
            && res.store.value.state == ToolPrepared && res.store.value.nextStep == k
            && res.store.value.fingerprint == ctx.record.fingerprint && res.store.value.runId == ctx.record.runId
            && res.store.value.task == ctx.record.task
            && res.stage.ctx.modelTurns == res.store.value.modelTurns == ctx.modelTurns
  {
    assert ms[..2*k] + [ms[2*k]] == ms[..2*k+1];
    PairedPrefix(ms, 2 * k + 1);
  }

  lemma ClaimStep(d: Deployment, s: Session, ms: seq<Message>, outputs: Outputs, sys: System, k: nat)
    requires Scene(d, s, ms, outputs) && AtPrepared(d, s, ms, sys, k)
    ensures var sys' := Stepped(d, Script(ms, outputs), s, sys, 0);
            AtClaim(d, s, ms, sys', k) && |sys'.claims| == |sys.claims| + 1
  {
  }

  lemma DispatchStep(d: Deployment, s: Session, ms: seq<Message>, outputs: Outputs, sys: System, k: nat)
    requires Scene(d, s, ms, outputs) && AtClaim(d, s, ms, sys, k)
    ensures AtDispatch(d, s, ms, outputs, Stepped(d, Script(ms, outputs), s, sys, 0), k)
  {
    VisibleText("allowed");
  }

  lemma CompleteStep(d: Deployment, s: Session, ms: seq<Message>, outputs: Outputs, sys: System, k: nat)
    requires Scene(d, s, ms, outputs) && AtDispatch(d, s, ms, outputs, sys, k)
    ensures AtMerge(d, s, ms, outputs, Stepped(d, Script(ms, outputs), s, sys, 0), k)
  {
  }

  lemma MergeStep(d: Deployment, s: Session, ms: seq<Message>, outputs: Outputs, sys: System, k: nat)
    requires Scene(d, s, ms, outputs) && AtMerge(d, s, ms, outputs, sys, k) && 1 <= k && 2 * k + 1 < |ms|
    ensures AtTurn(s, ms, Stepped(d, Script(ms, outputs), s, sys, 0), k + 1)
  {
    assert Plays(d, s, ms, outputs, k);
    assert ms[..2*k+1] + [ms[2*k+1]] == ms[..2*k+2];
  }

  /** A faithful run in which only worker 0 was started. */
  ghost predicate SoloRun(d: Deployment, o: Oracle, s: Session, moves: seq<Move>) {
    && FaithfulRun(d, o, s, moves) && |moves| > 0 && moves[0] == Start(0, s)
    && forall i :: 1 <= i < |moves| ==> moves[i].Work?
  }

  lemma StepOn(d: Deployment, o: Oracle, s: Session, moves: seq<Move>) returns (moves': seq<Move>)
    requires SoloRun(d, o, s, moves)
    requires 0 in Exec(d, s.runId, moves).workers && Exec(d, s.runId, moves).workers[0].session == s
    ensures SoloRun(d, o, s, moves') && Exec(d, s.runId, moves') == Stepped(d, o, s, Exec(d, s.runId, moves), 0)
  {
    var move := Advance(d, o, s, moves, 0);
    moves' := moves + [move];
  }

  lemma FirstTurn(d: Deployment, s: Session, ms: seq<Message>, outputs: Outputs) returns (moves: seq<Move>)
    requires Scene(d, s, ms, outputs)
    ensures SoloRun(d, Script(ms, outputs), s, moves) && AtTurn(s, ms, Exec(d, s.runId, moves), 1)
  {
    var o := Script(ms, outputs);
    moves := [Start(0, s)];
    assert moves == [] + [Start(0, s)];
    ExtendFaithful(d, o, s, [], Start(0, s));
    moves := StepOn(d, o, s, moves);
    moves := StepOn(d, o, s, moves);
  }

  lemma Ask(d: Deployment, s: Session, ms: seq<Message>, outputs: Outputs, moves: seq<Move>, k: nat)
    returns (moves': seq<Move>)
    requires Scene(d, s, ms, outputs) && SoloRun(d, Script(ms, outputs), s, moves) && 1 <= k && 2 * k < |ms|
    requires AtTurn(s, ms, Exec(d, s.runId, moves), k)
    ensures SoloRun(d, Script(ms, outputs), s, moves') && AtPrepared(d, s, ms, Exec(d, s.runId, moves'), k)
  {
    var o := Script(ms, outputs);
    SoloFacts(d, s, ms, moves, k, 2 * k, LoopTop(k, Fresh));
    AskStep(d, s, ms, outputs, Exec(d, s.runId, moves), k);
    moves' := StepOn(d, o, s, moves);
    SoloFacts(d, s, ms, moves', k, 2 * k, ModelReturned(k, CallOutput(ms[2*k].call)));
    PrepareStep(d, s, ms, outputs, Exec(d, s.runId, moves'), k);
    moves' := StepOn(d, o, s, moves');
  }

  lemma FinishCall(d: Deployment, s: Session, ms: seq<Message>, outputs: Outputs, moves: seq<Move>, k: nat)
    returns (moves': seq<Move>)
    requires Scene(d, s, ms, outputs) && SoloRun(d, Script(ms, outputs), s, moves) && 1 <= k && 2 * k + 1 < |ms|
    requires AtPrepared(d, s, ms, Exec(d, s.runId, moves), k)
    ensures SoloRun(d, Script(ms, outputs), s, moves') && AtTurn(s, ms, Exec(d, s.runId, moves'), k + 1)
  {
    var o := Script(ms, outputs);
    ClaimStep(d, s, ms, outputs, Exec(d, s.runId, moves), k);
    moves' := StepOn(d, o, s, moves);
    DispatchStep(d, s, ms, outputs, Exec(d, s.runId, moves'), k);
    moves' := StepOn(d, o, s, moves');
    CompleteStep(d, s, ms, outputs, Exec(d, s.runId, moves'), k);
    moves' := StepOn(d, o, s, moves');
    MergeStep(d, s, ms, outputs, Exec(d, s.runId, moves'), k);
    moves' := StepOn(d, o, s, moves');
  }

  /** Worker 0 alone reaches the prepared call of turn `k`. */
  lemma {:induction false} SoloReaches(d: Deployment, s: Session, ms: seq<Message>, outputs: Outputs, k: nat)
    returns (moves: seq<Move>)
    requires Scene(d, s, ms, outputs) && 1 <= k && 2 * k < |ms|
    ensures SoloRun(d, Script(ms, outputs), s, moves) && AtPrepared(d, s, ms, Exec(d, s.runId, moves), k)
  {
    if k == 1 {
      moves := FirstTurn(d, s, ms, outputs);
    } else {
      moves := SoloReaches(d, s, ms, outputs, k - 1);
      moves := FinishCall(d, s, ms, outputs, moves, k - 1);
    }
    moves := Ask(d, s, ms, outputs, moves, k);
  }

  /** Worker 0 alone reaches the top of turn `k`. */
  lemma SoloReachesTurn(d: Deployment, s: Session, ms: seq<Message>, outputs: Outputs, k: nat)
    returns (moves: seq<Move>)
    requires Scene(d, s, ms, outputs) && 1 <= k && 2 * k <= |ms|
    ensures SoloRun(d, Script(ms, outputs), s, moves) && AtTurn(s, ms, Exec(d, s.runId, moves), k)
  {
    if k == 1 {
      moves := FirstTurn(d, s, ms, outputs);
    } else {
      moves := SoloReaches(d, s, ms, outputs, k - 1);
      moves := FinishCall(d, s, ms, outputs, moves, k - 1);
    }
  }

  // ---- One run, restarted or not ----

  /** The run was ended for the context limit, with as many claims as before. */
  ghost predicate CutShort(before: System, after: System) {
    && after.store.Some? && Terminal(after.store.value.state)
    && after.store.value.terminalStatus == Some(LimitReached) && after.claims == before.claims
  }

  /** The stored call is prepared and the context is too full to resume it. */
  ghost predicate Stuck(s: Session, sys: System) {
    && 1 !in sys.workers && sys.store.Some? && sys.store.value.state == ToolPrepared
    && sys.store.value.fingerprint == s.profile && sys.store.value.task == s.task
    && sys.store.value.nextStep <= s.profile.maxModelTurns && ToolsRegistered(s) && TaskAccepted(s)
    && |sys.store.value.messages| > s.profile.limits.maxContextMessages
  }

  /** A second worker resumes the prepared call at the full context limit and ends the run. */
  lemma ResumeCutsShort(d: Deployment, o: Oracle, s: Session, moves: seq<Move>) returns (restart: seq<Move>)
    requires FaithfulRun(d, o, s, moves) && Stuck(s, Exec(d, s.runId, moves))
    ensures FaithfulRun(d, o, s, moves + restart)
    ensures CutShort(Exec(d, s.runId, moves), Exec(d, s.runId, moves + restart))
  {
    var started := moves + [Start(1, s)];
    ExtendFaithful(d, o, s, moves, Start(1, s));
    var load := Advance(d, o, s, started, 1);
    var loaded := started + [load];
    assert Exec(d, s.runId, loaded).workers[1].stage == EnterLoop(s, Exec(d, s.runId, moves).store.value);
    var end := Advance(d, o, s, loaded, 1);
    restart := [Start(1, s), load, end];
    assert moves + restart == loaded + [end];
  }

  /** The reference never takes back a claim. */
  lemma {:induction false} RefClaimsGrow(d: Deployment, o: Oracle, s: Session, a: nat, b: nat)
    requires a <= b
    ensures |RefAt(d, o, s, a).claimed| <= |RefAt(d, o, s, b).claimed|
    decreases b
  {
    if a < b {
      RefClaimsGrow(d, o, s, a, b - 1);
      RefAtNext(d, o, s, b - 1);
    }
  }

  /** A run cut short before a call that the reference makes is off the reference. */
  lemma CutShortIsOffReference(d: Deployment, o: Oracle, s: Session, before: System, after: System, j: nat)
    requires At(d, o, s, before, j) && before.store.value.state == ToolPrepared
    requires before.store.value.pending.action.Some? && CutShort(before, after)
    ensures !OnReference(d, o, s, after)
  {
    forall k: nat ensures !At(d, o, s, after, k) {
      if k <= j {
        EndedStays(d, o, s, k, j);
      } else {
        RefAtNext(d, o, s, j);
        RefClaimsGrow(d, o, s, j + 1, k);
      }
    }
  }

  lemma EndedStays(d: Deployment, o: Oracle, s: Session, k: nat, j: nat)
    requires k <= j
    ensures Terminal(RefAt(d, o, s, k).record.state) ==> RefAt(d, o, s, j) == RefAt(d, o, s, k)
  {
    if Terminal(RefAt(d, o, s, k).record.state) {
      EndedIsFixed(d, o, s, RefAt(d, o, s, k));
      FixedFromThere(Stepper(d, o, s), RefState(Core(FirstRecord(s)), []), k, j);
    }
  }

  lemma EndedIsFixed(d: Deployment, o: Oracle, s: Session, ref: RefState)
    requires Terminal(ref.record.state)
    ensures Stepper(d, o, s)(ref) == ref
  {
  }

  /** One run, two ends. For every overfull conversation there is a model and a runtime under
      which a worker that is never restarted gets to the open call and goes on to claim it,
      on the reference all the way; if instead a second worker resumes the run at that
      point, the run is ended for the context limit, off the reference. */
  lemma RestartChangesTheRun(d: Deployment, s: Session, ms: seq<Message>)
    returns (o: Oracle, moves: seq<Move>, next: Move, restart: seq<Move>)
    requires ValidDeployment(d) && s.knowledge.None? && Overfull(d, s, ms)
    ensures Setting(d, o, s) && StartedOnce(moves + [next])
    ensures FaithfulRun(d, o, s, moves + [next]) && FaithfulRun(d, o, s, moves + restart)
    ensures Exec(d, s.runId, moves).store.Some? && Exec(d, s.runId, moves).store.value.messages == ms
    ensures OnReference(d, o, s, Exec(d, s.runId, moves)) && OnReference(d, o, s, Exec(d, s.runId, moves + [next]))
    ensures |Exec(d, s.runId, moves + [next]).claims| == |Exec(d, s.runId, moves).claims| + 1
    ensures CutShort(Exec(d, s.runId, moves), Exec(d, s.runId, moves + restart))
    ensures !OnReference(d, o, s, Exec(d, s.runId, moves + restart))
  {
    var outputs := OutputsOf(d, s, ms, |ms|);
    o := Script(ms, outputs);
    var k := s.profile.limits.maxContextMessages / 2;
    assert Scene(d, s, ms, outputs);
    SceneIsSet(d, s, ms, outputs);
    moves := SoloReaches(d, s, ms, outputs, k);
    assert ms[..2*k+1] == ms;
    next := GoOn(d, s, ms, outputs, moves, k);
    assert Stuck(s, Exec(d, s.runId, moves));
    restart := ResumeCutsShort(d, o, s, moves);
    var i := UnrestartedRunIsOnReference(d, o, s, moves);
    PreparedIsPending(d, s, ms, moves, k);
    CutShortIsOffReference(d, o, s, Exec(d, s.runId, moves), Exec(d, s.runId, moves + restart), i);
  }

  /** The worker that prepared the call goes on to claim it. */
  lemma GoOn(d: Deployment, s: Session, ms: seq<Message>, outputs: Outputs, moves: seq<Move>, k: nat)
    returns (next: Move)
    requires Scene(d, s, ms, outputs) && SoloRun(d, Script(ms, outputs), s, moves)
    requires AtPrepared(d, s, ms, Exec(d, s.runId, moves), k)
    ensures var o := Script(ms, outputs);
            && StartedOnce(moves) && StartedOnce(moves + [next]) && FaithfulRun(d, o, s, moves + [next])
            && OnReference(d, o, s, Exec(d, s.runId, moves + [next]))
            && |Exec(d, s.runId, moves + [next]).claims| == |Exec(d, s.runId, moves).claims| + 1
  {
    var o := Script(ms, outputs);
    SceneIsSet(d, s, ms, outputs);
    ClaimStep(d, s, ms, outputs, Exec(d, s.runId, moves), k);
    next := Advance(d, o, s, moves, 0);
    var j := UnrestartedRunIsOnReference(d, o, s, moves + [next]);
  }

  lemma PreparedIsPending(d: Deployment, s: Session, ms: seq<Message>, moves: seq<Move>, k: nat)
    requires ValidDeployment(d) && AtPrepared(d, s, ms, Exec(d, s.runId, moves), k)
    ensures Exec(d, s.runId, moves).store.value.pending.action.Some?
  {
    ExecInv(d, s.runId, moves);
  }

  /** No model, runtime or schedule can make a restart of this session show. */
  ghost predicate Transparent(d: Deployment, s: Session) {
    forall o, moves :: Setting(d, o, s) && FaithfulRun(d, o, s, moves) ==>
      OnReference(d, o, s, Exec(d, s.runId, moves))
  }

  /** Crash transparency, exactly, for every deployment and every profile: it holds for all
      models, runtimes and schedules if and only if no conversation is overfull. */
  lemma CrashTransparencyExactly(d: Deployment, s: Session)
    requires ValidDeployment(d) && s.knowledge.None?
    ensures Transparent(d, s) <==> NeverOverfull(d, s)
  {
    if NeverOverfull(d, s) {
      forall o, moves | Setting(d, o, s) && FaithfulRun(d, o, s, moves)
        ensures OnReference(d, o, s, Exec(d, s.runId, moves))
      {
        CrashTransparent(d, o, s, moves);
      }
    } else {
      var ms :| Overfull(d, s, ms);
      var o, moves, next, restart := RestartChangesTheRun(d, s, ms);
    }
  }

  /** For a hospitable deployment the condition can be read off the profile. */
  lemma CrashTransparencyByLimits(d: Deployment, s: Session, tool: string)
    requires ValidDeployment(d) && s.knowledge.None? && Hospitable(d, s, tool) && tool in s.profile.permitted
    ensures Transparent(d, s) <==> SafeLimits(s)
  {
    CrashTransparencyExactly(d, s);
    HospitableExactly(d, s, tool);
  }
}
