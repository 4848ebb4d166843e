/** What is dispatched and what comes back: every claimed action is a call of the stored
    history, and every merged observation is the output of its own dispatch. */
module DispatchedCalls {
  import opened Contracts
  import opened History
  import opened DurableRecords
  import opened DurableWorker
  import opened DurableInvariant
  import opened DurableProtocol
  import opened RunEndings

  predicate CallAt(ms: seq<Message>, a: Action, j: nat) {
    j < |ms| && ms[j] == Call(ToolCall(a.callId, a.toolName, a.arguments))
  }

  /** The call and, right after it, its result. */
  predicate AnsweredAt(ms: seq<Message>, a: Action, observation: string, j: nat) {
    CallAt(ms, a, j) && j + 1 < |ms| && ms[j+1] == Result(observation, a.callId, a.toolName)
  }

  ghost predicate ClaimTraced(r: StoredRunRecord, a: Action) {
    && a.agentId == r.fingerprint.agentId && a.runId == r.runId && a.toolName in r.fingerprint.permitted
    && exists j :: CallAt(r.messages, a, j)
  }

  ghost predicate ClaimsTraced(r: StoredRunRecord, claims: seq<ClaimEntry>) {
    forall k :: 0 <= k < |claims| ==> ClaimTraced(r, claims[k].action)
  }

  ghost predicate ResultsTraced(d: Deployment, r: StoredRunRecord, dispatches: seq<DispatchEntry>) {
    forall k :: 0 <= k < |dispatches| && k < r.nextStep - 1 ==> ResultTraced(d, r, dispatches[k])
  }

  ghost predicate ResultTraced(d: Deployment, r: StoredRunRecord, entry: DispatchEntry) {
    var a := entry.claim.action;
    exists j :: AnsweredAt(r.messages, a, d.render(a.requestId, entry.execution.output), j)
  }

  ghost predicate Traced(d: Deployment, store: Store, claims: seq<ClaimEntry>, dispatches: seq<DispatchEntry>) {
    store.Some? ==> ClaimsTraced(store.value, claims) && ResultsTraced(d, store.value, dispatches)
  }

  // ---- One write ----

  lemma ClaimStaysTraced(r: StoredRunRecord, r': StoredRunRecord, a: Action)
    requires ClaimTraced(r, a) && r.messages <= r'.messages
    requires r'.fingerprint == r.fingerprint && r'.runId == r.runId
    ensures ClaimTraced(r', a)
  {
    var j :| CallAt(r.messages, a, j);
    assert CallAt(r'.messages, a, j);
  }

  lemma ResultStaysTraced(d: Deployment, r: StoredRunRecord, r': StoredRunRecord, entry: DispatchEntry)
    requires ResultTraced(d, r, entry) && r.messages <= r'.messages
    ensures ResultTraced(d, r', entry)
  {
    var a := entry.claim.action;
    var j :| AnsweredAt(r.messages, a, d.render(a.requestId, entry.execution.output), j);
    assert AnsweredAt(r'.messages, a, d.render(a.requestId, entry.execution.output), j);
  }

  /** The action that is pending is the open call at the end of the history. */
  lemma PendingIsTraced(d: Deployment, r: StoredRunRecord)
    requires PendingMatches(d, r)
    ensures ClaimTraced(r, r.pending.action.value)
    ensures CallAt(r.messages, r.pending.action.value, |r.messages| - 1)
    ensures r.pending.action.value.requestId == d.requestId(r.runId, r.nextStep)
  {
    assert CallAt(r.messages, r.pending.action.value, |r.messages| - 1);
  }

  /** A merge writes the observation of the stored execution right after the open call. */
  lemma MergeIsTraced(d: Deployment, s: Session, ctx: Context, point: Point, i: Input, entry: DispatchEntry)
    requires ValidDeployment(d) && UpToDate(d, s, ctx, point)
    requires StepOf(d, s, ctx, point, i).store.Some?
    requires StepOf(d, s, ctx, point, i).store.value.nextStep != ctx.record.nextStep
    requires ctx.record.pending.action == Some(entry.claim.action) && Recorded(ctx.record, entry.execution)
    ensures ResultTraced(d, StepOf(d, s, ctx, point, i).store.value, entry)
  {
    var r, r' := ctx.record, StepOf(d, s, ctx, point, i).store.value;
    WritesAreCaused(d, s, ctx, point, i);
    MergeEnds(d, s, ctx, point.job, point.execution, i);
    PendingIsTraced(d, r);
    var a := r.pending.action.value;
    assert AnsweredAt(r'.messages, a, d.render(a.requestId, entry.execution.output), |r.messages| - 1);
  }

  // ---- Every execution ----

  lemma WriteKeepsClaims(
    d: Deployment, s: Session, r: StoredRunRecord, stage: Stage, res: StepResult, claims: seq<ClaimEntry>)
    requires StepKeeps(d, s, Some(r), stage, res) && res.store != Some(r) && ClaimsTraced(r, claims)
    ensures res.store.Some? && ClaimsTraced(res.store.value, claims)
    ensures res.effect.WonClaim? ==> ClaimTraced(res.store.value, res.effect.action)
  {
    var r' := res.store.value;
    assert Successor(d, r, r');
    forall k | 0 <= k < |claims| ensures ClaimTraced(r', claims[k].action) {
      ClaimStaysTraced(r, r', claims[k].action);
    }
    if res.effect.WonClaim? {
      PendingIsTraced(d, r');
    }
  }

  lemma WriteKeepsResults(d: Deployment, runId: string, sys: System, id: nat, i: Input)
    requires ValidDeployment(d) && Inv(d, runId, sys) && id in sys.workers && sys.store.Some?
    requires ResultsTraced(d, sys.store.value, sys.dispatches) && Verdicts(sys.store, sys.dispatches)
    requires WorkerStep(d, sys.workers[id].session, sys.store, sys.workers[id].stage, i).store != sys.store
    ensures var res := WorkerStep(d, sys.workers[id].session, sys.store, sys.workers[id].stage, i);
            res.store.Some? && ResultsTraced(d, res.store.value, sys.dispatches)
  {
    var w, r := sys.workers[id], sys.store.value;
    WorkerStepKeeps(d, w.session, sys.store, w.stage, i);
    var res := WorkerStep(d, w.session, sys.store, w.stage, i);
    WriteIsSuccessor(d, w.session, sys.store, w.stage, res);
    WritesAreCaused(d, w.session, w.stage.ctx, w.stage.point, i);
    var r' := res.store.value;
    GrowingWrite(d, w.session, sys.store, w.stage, res);
    forall k | 0 <= k < |sys.dispatches| && k < r'.nextStep - 1 ensures ResultTraced(d, r', sys.dispatches[k]) {
      if k < r.nextStep - 1 {
        ResultStaysTraced(d, r, r', sys.dispatches[k]);
      } else {
        LastIsRecorded(d, runId, sys, k);
        MergeIsTraced(d, w.session, w.stage.ctx, w.stage.point, i, sys.dispatches[k]);
      }
    }
  }

  lemma GrowingWrite(d: Deployment, s: Session, store: Store, stage: Stage, res: StepResult)
    requires StepKeeps(d, s, store, stage, res) && store.Some? && res.store.Some? && res.store != store
    ensures store.value.messages <= res.store.value.messages
  {
  }

  lemma LastIsRecorded(d: Deployment, runId: string, sys: System, k: nat)
    requires Inv(d, runId, sys) && sys.store.Some? && sys.store.value.state == ToolCompleted
    requires k == sys.store.value.nextStep - 1
    ensures k < |sys.dispatches| && Recorded(sys.store.value, sys.dispatches[k].execution)
    ensures sys.store.value.pending.action == Some(sys.dispatches[k].claim.action)
  {
  }

  lemma QuietKeepsTraced(d: Deployment, runId: string, sys: System, id: nat, res: StepResult)
    requires Inv(d, runId, sys) && id in sys.workers && Traced(d, sys.store, sys.claims, sys.dispatches)
    requires StepKeeps(d, sys.workers[id].session, sys.store, sys.workers[id].stage, res) && res.store == sys.store
    ensures var sys' := Record(sys, id, sys.workers[id].session, res);
            Traced(d, sys'.store, sys'.claims, sys'.dispatches)
  {
    if res.effect.Dispatch? {
      FlightOwnerIsInFlight(d, runId, sys, id);
    }
  }

  lemma WorkKeepsTraced(d: Deployment, runId: string, sys: System, id: nat, i: Input)
    requires ValidDeployment(d) && Inv(d, runId, sys) && Verdicts(sys.store, sys.dispatches) && id in sys.workers
    requires Traced(d, sys.store, sys.claims, sys.dispatches)
    ensures var sys' := Apply(d, runId, sys, Work(id, i)); Traced(d, sys'.store, sys'.claims, sys'.dispatches)
  {
    var w := sys.workers[id];
    var res := WorkerStep(d, w.session, sys.store, w.stage, i);
    WorkerStepKeeps(d, w.session, sys.store, w.stage, i);
    if res.store == sys.store {
      QuietKeepsTraced(d, runId, sys, id, res);
    } else if sys.store.Some? {
      WriteKeepsClaims(d, w.session, sys.store.value, w.stage, res, sys.claims);
      WriteKeepsResults(d, runId, sys, id, i);
      WriteKeepsVerdicts(d, runId, sys, id, i);
    }
  }

  lemma {:induction false} ExecTraced(d: Deployment, runId: string, moves: seq<Move>)
    requires ValidDeployment(d)
    ensures var sys := Exec(d, runId, moves); Traced(d, sys.store, sys.claims, sys.dispatches)
  {
    if moves != [] {
      var before, move := moves[..|moves|-1], moves[|moves|-1];
      var sys := Exec(d, runId, before);
      ExecTraced(d, runId, before);
      ExecInv(d, runId, before);
      ExecVerdicts(d, runId, before);
      if move.Work? && move.id in sys.workers {
        WorkKeepsTraced(d, runId, sys, move.id, move.input);
      }
    }
  }

  /** Over every execution: an action is claimed only for a permitted tool and a call that
      stands in the stored history, with the agent, the run, the arguments and the step's
      own request id; and the result of every step the run went past is the rendered output
      of that step's dispatch, right after its call. */
  lemma HistoryIsTheLog(d: Deployment, runId: string, moves: seq<Move>)
    requires ValidDeployment(d) && Exec(d, runId, moves).store.Some?
    ensures var sys := Exec(d, runId, moves);
            var r := sys.store.value;
            && (forall k :: 0 <= k < |sys.claims| ==>
                  var a := sys.claims[k].action;
                  && a.agentId == r.fingerprint.agentId && a.toolName in r.fingerprint.permitted
                  && a.runId == runId && a.requestId == a.idempotencyKey == d.requestId(runId, k + 1)
                  && exists j :: CallAt(r.messages, a, j))
            && (forall k :: 0 <= k < |sys.dispatches| && k < r.nextStep - 1 ==>
                  var a, e := sys.dispatches[k].claim.action, sys.dispatches[k].execution;
                  && e.status == Executed && a.requestId == d.requestId(runId, k + 1)
                  && exists j :: AnsweredAt(r.messages, a, d.render(a.requestId, e.output), j))
  {
    var sys := Exec(d, runId, moves);
    ExecInv(d, runId, moves);
    ExecVerdicts(d, runId, moves);
    ExecTraced(d, runId, moves);
    assert forall k :: 0 <= k < |sys.dispatches| && k < sys.store.value.nextStep - 1 ==>
        ResultTraced(d, sys.store.value, sys.dispatches[k]);
  }

  // ---- The capability that is claimed ----

  /** Every worker of the run was given the same tools. */
  ghost predicate SameTools(moves: seq<Move>, tools: map<string, string>) {
    forall k :: 0 <= k < |moves| && moves[k].Start? ==> moves[k].session.tools == tools
  }

  predicate Capable(tools: map<string, string>, a: Action) {
    a.toolName in tools && a.capability == tools[a.toolName]
  }

  ghost predicate Equipped(tools: map<string, string>, sys: System) {
    && (forall id :: id in sys.workers ==> sys.workers[id].session.tools == tools)
    && (sys.store.Some? && sys.store.value.pending.action.Some? ==>
          Capable(tools, sys.store.value.pending.action.value))
    && (forall k :: 0 <= k < |sys.claims| ==> Capable(tools, sys.claims[k].action))
  }

  lemma StoreKeepsCapable(
    d: Deployment, runId: string, sys: System, id: nat, i: Input, tools: map<string, string>)
    requires ValidDeployment(d) && Inv(d, runId, sys) && id in sys.workers && Equipped(tools, sys)
    ensures var res := WorkerStep(d, sys.workers[id].session, sys.store, sys.workers[id].stage, i);
            && (res.store.Some? && res.store.value.pending.action.Some? ==>
                  Capable(tools, res.store.value.pending.action.value))
            && (res.effect.WonClaim? ==> Capable(tools, res.effect.action))
  {
    var w := sys.workers[id];
    var res := WorkerStep(d, w.session, sys.store, w.stage, i);
    WorkerStepKeeps(d, w.session, sys.store, w.stage, i);
    if res.store != sys.store {
      if sys.store.Some? {
        WriteIsSuccessor(d, w.session, sys.store, w.stage, res);
        WritesAreCaused(d, w.session, w.stage.ctx, w.stage.point, i);
      } else {
        FirstStored(d, w.session, i);
      }
    }
    if res.effect.WonClaim? {
      ClaimsThePending(d, w.session, sys.store, w.stage, res);
    }
  }

  lemma WorkKeepsEquipped(
    d: Deployment, runId: string, sys: System, id: nat, i: Input, tools: map<string, string>)
    requires ValidDeployment(d) && Inv(d, runId, sys) && id in sys.workers && Equipped(tools, sys)
    ensures Equipped(tools, Apply(d, runId, sys, Work(id, i)))
  {
    StoreKeepsCapable(d, runId, sys, id, i, tools);
  }

  lemma ClaimsThePending(d: Deployment, s: Session, store: Store, stage: Stage, res: StepResult)
    requires StepKeeps(d, s, store, stage, res) && res.effect.WonClaim?
    ensures res.store.Some? && res.store.value.pending.action == Some(res.effect.action)
  {
  }

  lemma {:induction false} ExecEquipped(
    d: Deployment, runId: string, moves: seq<Move>, tools: map<string, string>)
    requires ValidDeployment(d) && SameTools(moves, tools)
    ensures Equipped(tools, Exec(d, runId, moves))
  {
    if moves != [] {
      var before, move := moves[..|moves|-1], moves[|moves|-1];
      ExecEquipped(d, runId, before, tools);
      ExecInv(d, runId, before);
      if move.Work? && move.id in Exec(d, runId, before).workers {
        WorkKeepsEquipped(d, runId, Exec(d, runId, before), move.id, move.input, tools);
      }
    }
  }

  /** Where every worker has the same tools, every action claims and dispatches the
      capability registered for its tool. */
  lemma CapabilityIsTheRegisteredOne(
    d: Deployment, runId: string, moves: seq<Move>, tools: map<string, string>, k: nat)
    requires ValidDeployment(d) && SameTools(moves, tools) && k < |Exec(d, runId, moves).claims|
    ensures var a := Exec(d, runId, moves).claims[k].action;
            a.toolName in tools && a.capability == tools[a.toolName]
  {
    ExecEquipped(d, runId, moves, tools);
  }
}
