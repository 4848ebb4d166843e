/** Any number of workers driving one run, with crashes and restarts anywhere, and
    what holds over every such execution. */
module DurableProtocol {
  import opened Contracts
  import opened History
  import opened DurableRecords
  import opened DurableWorker
  import opened DurableInvariant

  datatype Worker = Worker(session: Session, stage: Stage)

  datatype ClaimEntry = ClaimEntry(worker: nat, step: nat, action: Action)

  datatype DispatchEntry = DispatchEntry(claim: ClaimEntry, execution: GovernedExecution)

  /** The stored record of one run, the live workers, and the audit logs. */
  datatype System = System(
    store: Store,
    workers: map<nat, Worker>,
    claims: seq<ClaimEntry>,
    dispatches: seq<DispatchEntry>)

  datatype Move =
    | Start(id: nat, session: Session)
    | Crash(id: nat)
    | Work(id: nat, input: Input)

  const INITIAL := System(None, map[], [], [])

  ghost function Apply(d: Deployment, runId: string, sys: System, move: Move): System {
    match move
    case Start(id, session) =>
      if id in sys.workers || session.runId != runId then sys
      else sys.(workers := sys.workers[id := Worker(session, Loading)])
    case Crash(id) => sys.(workers := sys.workers - {id})
    case Work(id, input) =>
      if id !in sys.workers then sys
      else
        var w := sys.workers[id];
        Record(sys, id, w.session, WorkerStep(d, w.session, sys.store, w.stage, input))
  }

  ghost function Record(sys: System, id: nat, session: Session, res: StepResult): System {
    System(
      res.store, sys.workers[id := Worker(session, res.stage)],
      if res.effect.WonClaim? then sys.claims + [ClaimEntry(id, res.effect.step, res.effect.action)] else sys.claims,
      if res.effect.Dispatch?
      then sys.dispatches + [DispatchEntry(ClaimEntry(id, res.effect.step, res.effect.action), res.effect.execution)]
      else sys.dispatches)
  }

  ghost function Exec(d: Deployment, runId: string, moves: seq<Move>): System
    decreases |moves|, 1
  {
    if moves == [] then INITIAL else ExecLast(d, runId, moves)
  }

  ghost function ExecLast(d: Deployment, runId: string, moves: seq<Move>): System
    requires moves != []
    decreases |moves|, 0
  {
    Apply(d, runId, Exec(d, runId, moves[..|moves|-1]), moves[|moves|-1])
  }

  predicate Flies(w: Worker) {
    w.stage.Active? && OwnsFlight(w.stage.point)
  }

  ghost predicate WorkersOK(d: Deployment, runId: string, sys: System) {
    forall id :: id in sys.workers ==>
      sys.workers[id].session.runId == runId && StageOK(d, sys.workers[id].session, sys.store, sys.workers[id].stage)
  }

  ghost predicate OneFlight(sys: System) {
    forall id, id' :: id in sys.workers && id' in sys.workers && Flies(sys.workers[id]) && Flies(sys.workers[id'])
                      ==> id == id'
  }

  /** Claim `k` is for step `k + 1` under that step's own request id. */
  ghost predicate ClaimsInOrder(d: Deployment, runId: string, claims: seq<ClaimEntry>) {
    forall k :: 0 <= k < |claims| ==>
      && claims[k].step == k + 1
      && claims[k].action.requestId == d.requestId(runId, k + 1)
      && claims[k].action.idempotencyKey == claims[k].action.requestId
  }

  ghost predicate DispatchesFollowClaims(sys: System) {
    && |sys.dispatches| <= |sys.claims|
    && (forall k :: 0 <= k < |sys.dispatches| ==>
          && sys.dispatches[k].claim == sys.claims[k]
          && WellFormed(sys.dispatches[k].execution)
          && sys.dispatches[k].execution.requestId == sys.claims[k].action.requestId)
  }

  ghost predicate LogMatchesStore(sys: System) {
    if sys.store.None? then sys.claims == []
    else
      var r := sys.store.value;
      && |sys.claims| == ClaimsOf(r)
      && (r.state == ToolInFlight || r.state == ToolCompleted ==>
            |sys.claims| > 0 && r.pending.action == Some(sys.claims[|sys.claims|-1].action))
      && (r.state == ToolCompleted ==>
            |sys.dispatches| == |sys.claims| && Recorded(r, sys.dispatches[|sys.claims|-1].execution))
      && (r.state != ToolInFlight ==> |sys.dispatches| == |sys.claims|)
      && (r.state == ToolInFlight ==> |sys.dispatches| >= |sys.claims| - 1)
  }

  ghost predicate LogMatchesFlight(sys: System) {
    forall id :: id in sys.workers && Flies(sys.workers[id]) ==>
      var point := sys.workers[id].stage.point;
      && |sys.claims| > 0 && sys.claims[|sys.claims|-1].worker == id
      && (point.HoldsClaim? ==> |sys.dispatches| == |sys.claims| - 1)
      && (point.Dispatched? ==> |sys.dispatches| == |sys.claims|
                                && sys.dispatches[|sys.claims|-1].execution == point.execution)
  }

  ghost predicate LogOK(d: Deployment, runId: string, sys: System) {
    && ClaimsInOrder(d, runId, sys.claims) && DispatchesFollowClaims(sys)
    && LogMatchesStore(sys) && LogMatchesFlight(sys)
  }

  ghost predicate Inv(d: Deployment, runId: string, sys: System) {
    StoreOK(d, runId, sys.store) && WorkersOK(d, runId, sys) && OneFlight(sys) && LogOK(d, runId, sys)
  }

  /** Another worker's step leaves a worker that holds no claim in order. */
  lemma BystanderOK(d: Deployment, s: Session, stage: Stage, s': Session, store: Store, mover: Stage, res: StepResult)
    requires StageOK(d, s', store, stage) && StoreStep(d, s, store, mover, res)
    requires stage.Active? && OwnsFlight(stage.point) ==> res.store == store
    ensures StageOK(d, s', res.store, stage)
  {
  }

  lemma FlightOwnerIsInFlight(d: Deployment, runId: string, sys: System, id: nat)
    requires Inv(d, runId, sys) && id in sys.workers && Flies(sys.workers[id])
    ensures sys.store.Some? && sys.store.value == sys.workers[id].stage.ctx.record
    ensures sys.store.value.state == ToolInFlight
  {
  }

  lemma StepKeepsWorkers(d: Deployment, runId: string, sys: System, id: nat, res: StepResult)
    requires Inv(d, runId, sys) && id in sys.workers
    requires StepKeeps(d, sys.workers[id].session, sys.store, sys.workers[id].stage, res)
    ensures var sys' := Record(sys, id, sys.workers[id].session, res);
            StoreOK(d, runId, sys'.store) && WorkersOK(d, runId, sys')
  {
    var w := sys.workers[id];
    FirstRecordGood(d, w.session);
    forall other | other in sys.workers && other != id
      ensures StageOK(d, sys.workers[other].session, res.store, sys.workers[other].stage)
    {
      if Flies(sys.workers[other]) {
        OthersLeaveFlight(d, runId, sys, id, res, other);
      }
      BystanderOK(d, w.session, sys.workers[other].stage, sys.workers[other].session, sys.store, w.stage, res);
    }
  }

  lemma StepKeepsOneFlight(d: Deployment, runId: string, sys: System, id: nat, res: StepResult)
    requires Inv(d, runId, sys) && id in sys.workers
    requires StepKeeps(d, sys.workers[id].session, sys.store, sys.workers[id].stage, res)
    ensures OneFlight(Record(sys, id, sys.workers[id].session, res))
  {
    forall other | other in sys.workers && other != id && Flies(sys.workers[other])
      ensures !Flies(Worker(sys.workers[id].session, res.stage))
    {
      OthersLeaveFlight(d, runId, sys, id, res, other);
    }
  }

  /** While a claim is held, nothing but the holder's own steps touches store or log. */
  lemma OthersLeaveFlight(d: Deployment, runId: string, sys: System, id: nat, res: StepResult, owner: nat)
    requires Inv(d, runId, sys) && id in sys.workers && owner in sys.workers && owner != id
    requires StepKeeps(d, sys.workers[id].session, sys.store, sys.workers[id].stage, res)
    requires Flies(sys.workers[owner])
    ensures res.store == sys.store && res.effect.NoEffect?
  {
    FlightOwnerIsInFlight(d, runId, sys, owner);
    assert !Flies(sys.workers[id]);
  }

  lemma ClaimKeepsLog(d: Deployment, runId: string, sys: System, id: nat, res: StepResult)
    requires Inv(d, runId, sys) && id in sys.workers && res.effect.WonClaim?
    requires StepKeeps(d, sys.workers[id].session, sys.store, sys.workers[id].stage, res)
    ensures LogOK(d, runId, Record(sys, id, sys.workers[id].session, res))
  {
    var sys' := Record(sys, id, sys.workers[id].session, res);
    assert res.store.value.state == ToolInFlight && sys.store.value.state == ToolPrepared;
    assert |sys.claims| + 1 == res.store.value.nextStep;
    forall other | other in sys'.workers && other != id
      ensures !Flies(sys'.workers[other])
    {
      if Flies(sys'.workers[other]) {
        FlightOwnerIsInFlight(d, runId, sys, other);
      }
    }
  }

  lemma DispatchKeepsLog(d: Deployment, runId: string, sys: System, id: nat, res: StepResult)
    requires Inv(d, runId, sys) && id in sys.workers && res.effect.Dispatch?
    requires StepKeeps(d, sys.workers[id].session, sys.store, sys.workers[id].stage, res)
    ensures LogOK(d, runId, Record(sys, id, sys.workers[id].session, res))
  {
    FlightOwnerIsInFlight(d, runId, sys, id);
    assert res.effect.action == sys.claims[|sys.claims|-1].action;
    assert res.effect.step == |sys.claims|;
  }

  /** The claim holder writes its result: the log already shows that execution. */
  lemma CompletionKeepsLog(d: Deployment, runId: string, sys: System, id: nat, res: StepResult)
    requires Inv(d, runId, sys) && id in sys.workers && res.effect.NoEffect?
    requires StepKeeps(d, sys.workers[id].session, sys.store, sys.workers[id].stage, res)
    requires Flies(sys.workers[id]) && res.store != sys.store
    ensures LogOK(d, runId, Record(sys, id, sys.workers[id].session, res))
  {
    FlightOwnerIsInFlight(d, runId, sys, id);
  }

  lemma QuietStepKeepsLog(d: Deployment, runId: string, sys: System, id: nat, res: StepResult)
    requires Inv(d, runId, sys) && id in sys.workers && res.effect.NoEffect?
    requires StepKeeps(d, sys.workers[id].session, sys.store, sys.workers[id].stage, res)
    ensures LogOK(d, runId, Record(sys, id, sys.workers[id].session, res))
  {
    var sys' := Record(sys, id, sys.workers[id].session, res);
    if res.store == sys.store {
      assert LogMatchesFlight(sys');
    } else if Flies(sys.workers[id]) {
      CompletionKeepsLog(d, runId, sys, id, res);
    } else if sys.store.Some? {
      assert sys.store.value.state != ToolInFlight && res.store.value.state != ToolCompleted;
    }
  }

  lemma StepKeepsInv(d: Deployment, runId: string, sys: System, id: nat, res: StepResult)
    requires Inv(d, runId, sys) && id in sys.workers
    requires StepKeeps(d, sys.workers[id].session, sys.store, sys.workers[id].stage, res)
    ensures Inv(d, runId, Record(sys, id, sys.workers[id].session, res))
  {
    StepKeepsWorkers(d, runId, sys, id, res);
    StepKeepsOneFlight(d, runId, sys, id, res);
    match res.effect
    case WonClaim(_, _) => ClaimKeepsLog(d, runId, sys, id, res);
    case Dispatch(_, _, _) => DispatchKeepsLog(d, runId, sys, id, res);
    case NoEffect => QuietStepKeepsLog(d, runId, sys, id, res);
  }

  lemma StartKeepsInv(d: Deployment, runId: string, sys: System, id: nat, session: Session)
    requires Inv(d, runId, sys) && id !in sys.workers && session.runId == runId
    ensures Inv(d, runId, sys.(workers := sys.workers[id := Worker(session, Loading)]))
  {
  }

  lemma CrashKeepsInv(d: Deployment, runId: string, sys: System, id: nat)
    requires Inv(d, runId, sys)
    ensures Inv(d, runId, sys.(workers := sys.workers - {id}))
  {
  }

  lemma ApplyKeepsInv(d: Deployment, runId: string, sys: System, move: Move)
    requires ValidDeployment(d) && Inv(d, runId, sys)
    ensures Inv(d, runId, Apply(d, runId, sys, move))
  {
    match move
    case Start(id, session) =>
      if id !in sys.workers && session.runId == runId {
        StartKeepsInv(d, runId, sys, id, session);
      }
    case Crash(id) => CrashKeepsInv(d, runId, sys, id);
    case Work(id, input) =>
      if id in sys.workers {
        var w := sys.workers[id];
        WorkerStepKeeps(d, w.session, sys.store, w.stage, input);
        StepKeepsInv(d, runId, sys, id, WorkerStep(d, w.session, sys.store, w.stage, input));
      }
  }

  lemma {:induction false} ExecInv(d: Deployment, runId: string, moves: seq<Move>)
    requires ValidDeployment(d)
    ensures Inv(d, runId, Exec(d, runId, moves))
  {
    if moves != [] {
      ExecInv(d, runId, moves[..|moves|-1]);
      ApplyKeepsInv(d, runId, Exec(d, runId, moves[..|moves|-1]), moves[|moves|-1]);
    }
  }
}
