/** Exactly when the limit of model turns is kept over restarts. */
module TurnLimit {
  import opened Contracts
  import opened History
  import opened DurableRecords
  import opened DurableWorker
  import opened DurableInvariant
  import opened DurableProtocol
  import opened FullContext
  import opened AgentReference
  import opened CrashTransparency
  import opened CrashCorner
  import opened ModelTurns

  /** Only workers of this session are started. */
  ghost predicate OnlySession(s: Session, moves: seq<Move>) {
    forall i :: 0 <= i < |moves| && moves[i].Start? ==> moves[i].session == s
  }

  /** A conversation that brings the run to turn `k` with room to ask the model. */
  ghost predicate TurnReachable(d: Deployment, s: Session, ms: seq<Message>, k: nat) {
    && Playable(d, s, ms) && |ms| == 2 * k && 2 * k <= s.profile.limits.maxContextMessages
    && 1 <= k <= s.profile.maxModelTurns
  }

  // ---- One more turn for every start ----

  function AskInput(): Input {
    Input(
      false, false, false, false, Replies(Unsupported),
      GovernedExecution(Blocked, "q", Some(false), "unused", None, false))
  }

  /** The stored run stands at turn `k`, with so many model turns, and only so many worker
      ids are in use. */
  ghost predicate Standing(s: Session, ms: seq<Message>, k: nat, sys: System, turns: nat, used: nat) {
    && sys.store.Some? && (forall id :: id in sys.workers ==> id < used)
    && var r := sys.store.value;
    && r.state == Running && r.messages == ms && r.nextStep == k && r.modelTurns == turns
    && r.fingerprint == s.profile && r.runId == s.runId && r.task == s.task
  }

  lemma ExecOne(d: Deployment, runId: string, moves: seq<Move>, move: Move)
    ensures Exec(d, runId, moves + [move]) == Apply(d, runId, Exec(d, runId, moves), move)
    ensures Starts(moves + [move]) == Starts(moves) + if move.Start? then 1 else 0
  {
    assert (moves + [move])[..|moves|] == moves;
    StartsAppend(moves, move);
  }

  /** A worker started now resumes the RUNNING record and asks the model again. */
  lemma AskAgain(
    d: Deployment, s: Session, ms: seq<Message>, k: nat, moves: seq<Move>, turns: nat, used: nat)
    returns (moves': seq<Move>)
    requires ValidDeployment(d) && s.knowledge.None? && TurnReachable(d, s, ms, k) && OnlySession(s, moves)
    requires Standing(s, ms, k, Exec(d, s.runId, moves), turns, used)
    ensures OnlySession(s, moves') && Starts(moves') == Starts(moves) + 1
    ensures Standing(s, ms, k, Exec(d, s.runId, moves'), turns + 1, used + 1)
  {
    var sys := Exec(d, s.runId, moves);
    ExecInv(d, s.runId, moves);
    var started := moves + [Start(used, s)];
    ExecOne(d, s.runId, moves, Start(used, s));
    var loaded := started + [Work(used, AskInput())];
    ExecOne(d, s.runId, started, Work(used, AskInput()));
    assert Exec(d, s.runId, loaded).workers[used].stage == EnterLoop(s, sys.store.value);
    moves' := loaded + [Work(used, AskInput())];
    ExecOne(d, s.runId, loaded, Work(used, AskInput()));
  }

  lemma {:induction false} OneStart(moves: seq<Move>)
    requires |moves| > 0 && moves[0].Start? && forall i :: 1 <= i < |moves| ==> moves[i].Work?
    ensures Starts(moves) == 1
  {
    if |moves| == 1 {
      assert moves[..0] == [];
    } else {
      OneStart(moves[..|moves|-1]);
    }
  }

  /** The first worker gets to turn `k` and asks there. */
  lemma AskFirst(d: Deployment, s: Session, ms: seq<Message>, k: nat) returns (moves: seq<Move>)
    requires ValidDeployment(d) && s.knowledge.None? && TurnReachable(d, s, ms, k)
    ensures OnlySession(s, moves) && Starts(moves) == 1 && Standing(s, ms, k, Exec(d, s.runId, moves), k, 1)
  {
    var outputs := OutputsOf(d, s, ms, |ms|);
    assert Scene(d, s, ms, outputs);
    var solo := SoloReachesTurn(d, s, ms, outputs, k);
    assert ms[..2*k] == ms;
    OneStart(solo);
    SoloFacts(d, s, ms, solo, k, 2 * k, LoopTop(k, Fresh));
    OnlyWorkerZero(d, s, solo);
    moves := solo + [Work(0, AskInput())];
    ExecOne(d, s.runId, solo, Work(0, AskInput()));
  }

  lemma {:induction false} OnlyWorkerZero(d: Deployment, s: Session, moves: seq<Move>)
    requires |moves| > 0 && moves[0] == Start(0, s) && forall i :: 1 <= i < |moves| ==> moves[i].Work?
    ensures forall id :: id in Exec(d, s.runId, moves).workers ==> id < 1
  {
    if |moves| == 1 {
      assert moves == [] + [Start(0, s)];
      ExecOne(d, s.runId, [], Start(0, s));
      assert Exec(d, s.runId, []) == INITIAL;
    } else {
      OnlyWorkerZero(d, s, moves[..|moves|-1]);
    }
  }

  /** At any turn a run can get to, `n` starts make exactly `n` model turns there. */
  lemma {:induction false} StartsRepeatTurns(d: Deployment, s: Session, ms: seq<Message>, k: nat, n: nat)
    returns (moves: seq<Move>)
    requires ValidDeployment(d) && s.knowledge.None? && TurnReachable(d, s, ms, k) && n >= 1
    ensures OnlySession(s, moves) && Starts(moves) == n && Exec(d, s.runId, moves).store.Some?
    ensures Exec(d, s.runId, moves).store.value.modelTurns == k - 1 + n
    ensures Standing(s, ms, k, Exec(d, s.runId, moves), k - 1 + n, n)
  {
    if n == 1 {
      moves := AskFirst(d, s, ms, k);
    } else {
      moves := StartsRepeatTurns(d, s, ms, k, n - 1);
      moves := AskAgain(d, s, ms, k, moves, k + n - 2, n - 1);
    }
  }

  // ---- What a stored run with many turns had to go through ----

  /** The stored history is a conversation, and where the model was last asked it had room. */
  ghost predicate Traced(d: Deployment, s: Session, r: StoredRunRecord, untouched: bool) {
    && Conversation(d, s, r.messages) && r.fingerprint == s.profile && TaskAccepted(s)
    && 1 <= r.nextStep && 2 * r.nextStep <= |r.messages| <= 2 * r.nextStep + 1
    && (r.state == Running ==> |r.messages| == 2 * r.nextStep)
    && (PendingTool(r.state) ==> |r.messages| == 2 * r.nextStep + 1 && !s.toolsBlocked)
    && r.nextStep - 1 <= s.profile.maxToolCalls && (r.nextStep > 1 ==> !s.toolsBlocked)
    && (r.modelTurns > 0 ==>
          ToolsRegistered(s)
          && 2 * (r.nextStep - if untouched then 1 else 0) <= s.profile.limits.maxContextMessages)
    && (untouched && r.nextStep == 1 ==> r.modelTurns == 0)
  }

  ghost predicate PlainStage(s: Session, stage: Stage) {
    && (stage.Active? ==> stage.ctx.messages == stage.ctx.record.messages && TaskAccepted(s))
    && (stage.Creating? ==> TaskAccepted(s))
  }

  ghost predicate PlainSystem(d: Deployment, s: Session, sys: System, untouched: bool) {
    && (forall id :: id in sys.workers ==> sys.workers[id].session == s && PlainStage(s, sys.workers[id].stage))
    && (sys.store.Some? ==> Traced(d, s, sys.store.value, untouched))
  }

  /** The messages stay as they are. */
  ghost predicate KeepsMessages(r: StoredRunRecord, r': StoredRunRecord) {
    && r'.messages == r.messages && (PendingTool(r'.state) ==> PendingTool(r.state))
    && (r'.state == Running ==> r.state == Running)
  }

  ghost predicate AddsCall(d: Deployment, s: Session, r: StoredRunRecord, r': StoredRunRecord) {
    && r.state == Running && r'.state == ToolPrepared && |r'.messages| == |r.messages| + 1
    && r'.messages[..|r.messages|] == r.messages && !s.toolsBlocked
    && r'.messages[|r.messages|].Call? && r'.messages[|r.messages|].call.name in s.profile.permitted
    && d.captures(r'.messages[|r.messages|].call, d.requestId(s.runId, r.nextStep))
  }

  ghost predicate AddsAnswer(d: Deployment, s: Session, r: StoredRunRecord, r': StoredRunRecord) {
    && r.state == ToolCompleted && r'.state == Running && |r'.messages| == |r.messages| + 1
    && r'.messages[..|r.messages|] == r.messages && EndsWithCall(r.messages)
    && r'.messages[|r.messages|].Result? && Answers(r'.messages[|r.messages|], r.messages[|r.messages|-1].call)
    && Shows(d, s, r.nextStep, r'.messages[|r.messages|].content)
  }

  ghost predicate MessageEffect(d: Deployment, s: Session, store: Store, res: StepResult) {
    store.Some? ==>
      && res.store.Some?
      && (|| res.store == store || KeepsMessages(store.value, res.store.value)
          || AddsCall(d, s, store.value, res.store.value) || AddsAnswer(d, s, store.value, res.store.value))
  }

  lemma OutputMessages(
    d: Deployment, s: Session, store: Store, ctx: Context, step: nat, output: ModelOutput, i: Input)
    requires StageOK(d, s, store, Active(ctx, ModelReturned(step, output)))
    requires PlainStage(s, Active(ctx, ModelReturned(step, output)))
    ensures var res := StepModelReturned(d, s, store, ctx, step, output, i);
            MessageEffect(d, s, store, res) && PlainStage(s, res.stage)
  {
    var res := StepModelReturned(d, s, store, ctx, step, output, i);
    if res.stage.Active? {
      assert AddsCall(d, s, store.value, res.store.value);
    }
  }

  lemma MergeMessages(d: Deployment, s: Session, store: Store, ctx: Context, job: Job, e: GovernedExecution)
    requires StageOK(d, s, store, Active(ctx, ToMerge(job, e))) && s.knowledge.None?
    requires PlainStage(s, Active(ctx, ToMerge(job, e)))
    ensures var res := StepToMerge(d, s, store, ctx, job, e);
            MessageEffect(d, s, store, res) && PlainStage(s, res.stage)
  {
    var res := StepToMerge(d, s, store, ctx, job, e);
    if res.stage.Active? {
      var text := d.render(job.requestId, e.output);
      assert Shows(d, s, store.value.nextStep, text);
      assert AddsAnswer(d, s, store.value, res.store.value);
    }
  }

  lemma TopMessages(d: Deployment, s: Session, store: Store, ctx: Context, step: nat, phase: Phase, i: Input)
    requires StageOK(d, s, store, Active(ctx, LoopTop(step, phase)))
    requires PlainStage(s, Active(ctx, LoopTop(step, phase)))
    ensures var res := StepLoopTop(d, s, store, ctx, step, phase, i);
            MessageEffect(d, s, store, res) && PlainStage(s, res.stage)
  {
  }

  lemma ToolMessages(d: Deployment, s: Session, store: Store, ctx: Context, point: Point, i: Input)
    requires StageOK(d, s, store, Active(ctx, point)) && (point.ToClaim? || point.HoldsClaim? || point.Dispatched?)
    requires PlainStage(s, Active(ctx, point))
    ensures var res := StepPoint(d, s, store, ctx, point, i);
            MessageEffect(d, s, store, res) && PlainStage(s, res.stage)
  {
  }

  lemma StepMessages(d: Deployment, s: Session, store: Store, stage: Stage, i: Input)
    requires StageOK(d, s, store, stage) && PlainStage(s, stage) && s.knowledge.None?
    ensures var res := WorkerStep(d, s, store, stage, i);
            && MessageEffect(d, s, store, res) && PlainStage(s, res.stage)
            && (store.None? && res.store.Some? ==> res.store == Some(FirstRecord(s)) && TaskAccepted(s))
  {
    if stage.Active? {
      var ctx := stage.ctx;
      match stage.point
      case LoopTop(step, phase) => TopMessages(d, s, store, ctx, step, phase, i);
      case ModelReturned(step, output) => OutputMessages(d, s, store, ctx, step, output, i);
      case ToMerge(job, e) => MergeMessages(d, s, store, ctx, job, e);
      case _ => ToolMessages(d, s, store, ctx, stage.point, i);
    }
  }

  lemma AskedWithRoom(d: Deployment, s: Session, store: Store, stage: Stage, i: Input)
    requires Asked(store, stage, WorkerStep(d, s, store, stage, i))
    ensures ToolsRegistered(s) && |stage.ctx.messages| <= s.profile.limits.maxContextMessages
  {
  }

  lemma CallIsTraced(d: Deployment, s: Session, r: StoredRunRecord, r': StoredRunRecord)
    requires Conversation(d, s, r.messages) && |r.messages| == 2 * r.nextStep && AddsCall(d, s, r, r')
    ensures Conversation(d, s, r'.messages)
  {
    var m := r'.messages[|r.messages|];
    assert r'.messages == r.messages + [m];
    ConversationGrows(d, s, r.messages, m);
  }

  lemma AnswerIsTraced(d: Deployment, s: Session, r: StoredRunRecord, r': StoredRunRecord)
    requires Conversation(d, s, r.messages) && |r.messages| == 2 * r.nextStep + 1 && AddsAnswer(d, s, r, r')
    ensures Conversation(d, s, r'.messages)
  {
    var m := r'.messages[|r.messages|];
    assert r'.messages == r.messages + [m];
    ConversationGrows(d, s, r.messages, m);
  }

  /** A write keeps the stored run traced. */
  lemma WriteIsTraced(
    d: Deployment, s: Session, sys: System, id: nat, res: StepResult, untouched: bool, starts: nat)
    requires PlainSystem(d, s, sys, untouched) && Budget(sys, untouched, starts) && id in sys.workers
    requires sys.store.Some? && StoreOK(d, s.runId, sys.store) && MessageEffect(d, s, sys.store, res)
    requires var stage := sys.workers[id].stage;
             || (Asked(sys.store, stage, res)
                 && ToolsRegistered(s) && |sys.store.value.messages| <= s.profile.limits.maxContextMessages)
             || SteppedOn(sys.store, stage, res) || WroteOther(sys.store, stage, res)
    ensures Traced(d, s, res.store.value, UntouchedAfter(sys.store, res.store, untouched))
  {
    var r, r' := sys.store.value, res.store.value;
    if AddsCall(d, s, r, r') {
      CallIsTraced(d, s, r, r');
    } else if AddsAnswer(d, s, r, r') {
      AnswerIsTraced(d, s, r, r');
    }
  }

  lemma WorkIsPlain(d: Deployment, s: Session, sys: System, id: nat, i: Input, untouched: bool, starts: nat)
    requires Inv(d, s.runId, sys) && PlainSystem(d, s, sys, untouched) && Budget(sys, untouched, starts)
    requires id in sys.workers && s.knowledge.None?
    ensures var res := WorkerStep(d, s, sys.store, sys.workers[id].stage, i);
            PlainSystem(d, s, Record(sys, id, s, res), UntouchedAfter(sys.store, res.store, untouched))
  {
    var stage := sys.workers[id].stage;
    var res := WorkerStep(d, s, sys.store, stage, i);
    assert StageOK(d, s, sys.store, stage) && PlainStage(s, stage);
    StepEffect(d, s, sys.store, stage, i);
    StepMessages(d, s, sys.store, stage, i);
    if FirstWrite(sys.store, stage, res) {
      FirstTwo(d, s);
    } else if !NoWrite(sys.store, stage, res) {
      if Asked(sys.store, stage, res) {
        AskedWithRoom(d, s, sys.store, stage, i);
      }
      WriteIsTraced(d, s, sys, id, res, untouched, starts);
    }
  }

  lemma {:induction false} RunIsPlain(d: Deployment, s: Session, moves: seq<Move>)
    requires ValidDeployment(d) && s.knowledge.None? && OnlySession(s, moves)
    ensures PlainSystem(d, s, Exec(d, s.runId, moves), Untouched(d, s.runId, moves))
  {
    if moves != [] {
      var init, move := moves[..|moves|-1], moves[|moves|-1];
      var sys := Exec(d, s.runId, init);
      RunIsPlain(d, s, init);
      ExecInv(d, s.runId, init);
      StartsPayForTurns(d, s.runId, init);
      if move.Work? && move.id in sys.workers {
        WorkIsPlain(d, s, sys, move.id, move.input, Untouched(d, s.runId, init), Starts(init));
      }
    }
  }

  lemma ConversationPrefix(d: Deployment, s: Session, ms: seq<Message>, n: nat)
    requires Conversation(d, s, ms) && 2 <= n <= |ms|
    ensures Conversation(d, s, ms[..n])
  {
    var part := ms[..n];
    assert part[..2] == ms[..2];
    forall k | 1 <= k && 2 * k < n ensures CallAt(d, s, part, k) {
      assert CallAt(d, s, ms, k);
    }
    forall k | 1 <= k && 2 * k + 1 < n ensures AnswerAt(d, s, part, k) {
      assert AnswerAt(d, s, ms, k);
    }
  }

  /** Behind every stored turn there is a turn that the run got to, and the starts bound how
      many turns there are beyond it. */
  lemma TurnsComeFromAReachableTurn(d: Deployment, s: Session, moves: seq<Move>) returns (ms: seq<Message>, k: nat)
    requires ValidDeployment(d) && s.knowledge.None? && OnlySession(s, moves)
    requires Exec(d, s.runId, moves).store.Some? && Exec(d, s.runId, moves).store.value.modelTurns > 0
    ensures TurnReachable(d, s, ms, k)
    ensures Exec(d, s.runId, moves).store.value.modelTurns <= k - 1 + Starts(moves)
  {
    var r, untouched := Exec(d, s.runId, moves).store.value, Untouched(d, s.runId, moves);
    RunIsPlain(d, s, moves);
    StartsPayForTurns(d, s.runId, moves);
    ExecInv(d, s.runId, moves);
    k := r.nextStep - if untouched then 1 else 0;
    ms := r.messages[..2*k];
    ConversationPrefix(d, s, r.messages, 2 * k);
    StoredIsPaired(d, r);
    PairedPrefix(r.messages, 2 * k);
  }

  lemma StoredIsPaired(d: Deployment, r: StoredRunRecord)
    requires GoodRecord(d, r)
    ensures Paired(r.messages)
  {
  }

  /** In every execution of the session with at most `n` starts the stored count of model
      turns keeps the limit of the profile. */
  ghost predicate KeepsTurnLimit(d: Deployment, s: Session, n: nat) {
    forall moves :: OnlySession(s, moves) && Starts(moves) <= n && Exec(d, s.runId, moves).store.Some? ==>
      Exec(d, s.runId, moves).store.value.modelTurns <= s.profile.maxModelTurns
  }

  /** The limit is kept with `n` starts exactly if at no turn the run can get to are there
      fewer turns left than starts. */
  lemma TurnLimitExactly(d: Deployment, s: Session, n: nat)
    requires ValidDeployment(d) && s.knowledge.None?
    ensures KeepsTurnLimit(d, s, n) <==>
            forall ms, k: nat :: TurnReachable(d, s, ms, k) ==> k - 1 + n <= s.profile.maxModelTurns
  {
    if KeepsTurnLimit(d, s, n) {
      forall ms, k: nat | TurnReachable(d, s, ms, k) ensures k - 1 + n <= s.profile.maxModelTurns {
        if n >= 1 {
          var moves := StartsRepeatTurns(d, s, ms, k, n);
        }
      }
    }
    if forall ms, k: nat :: TurnReachable(d, s, ms, k) ==> k - 1 + n <= s.profile.maxModelTurns {
      forall moves | OnlySession(s, moves) && Starts(moves) <= n && Exec(d, s.runId, moves).store.Some?
        ensures Exec(d, s.runId, moves).store.value.modelTurns <= s.profile.maxModelTurns
      {
        if Exec(d, s.runId, moves).store.value.modelTurns > 0 {
          var ms, k := TurnsComeFromAReachableTurn(d, s, moves);
        }
      }
    }
  }

  /** Where the run can get to its last turn, the number of starts alone decides: one start
      keeps the limit, any further one can break it. */
  lemma OneStartKeepsTheLimit(d: Deployment, s: Session, ms: seq<Message>, n: nat)
    requires ValidDeployment(d) && s.knowledge.None? && TurnReachable(d, s, ms, s.profile.maxModelTurns)
    ensures KeepsTurnLimit(d, s, n) <==> n <= 1
  {
    TurnLimitExactly(d, s, n);
  }

  /** The first turn can always be reached, so without a bound on the starts there is none on
      the turns: `n` starts there store `n` turns. */
  lemma FirstTurnReachable(d: Deployment, s: Session)
    requires TaskAccepted(s) && ToolsRegistered(s)
    requires s.profile.maxModelTurns >= 1 && s.profile.limits.maxContextMessages >= 2
    ensures TurnReachable(d, s, FirstRecord(s).messages, 1)
  {
    FirstTwo(d, s);
  }
}
