/** Safety of durable runs over every interleaving of workers, crashes and restarts. */
module DurableSafety {
  import opened Contracts
  import opened History
  import opened DurableRecords
  import opened DurableWorker
  import opened DurableInvariant
  import opened DurableProtocol

  ghost predicate InjectiveInStep(d: Deployment, runId: string) {
    forall a: nat, b: nat :: d.requestId(runId, a) == d.requestId(runId, b) ==> a == b
  }

  /** Each step is claimed at most once; the k-th dispatch is made by the winner of the
      k-th claim and of no other; at most the newest claim is undispatched; and request
      ids never repeat when the factory is injective in the step. */
  lemma AtMostOnceDispatch(d: Deployment, runId: string, moves: seq<Move>)
    requires ValidDeployment(d)
    ensures var sys := Exec(d, runId, moves);
            && (forall i, j :: 0 <= i < j < |sys.claims| ==> sys.claims[i].step < sys.claims[j].step)
            && |sys.dispatches| <= |sys.claims| <= |sys.dispatches| + 1
            && (forall k :: 0 <= k < |sys.dispatches| ==> sys.dispatches[k].claim == sys.claims[k])
            && (InjectiveInStep(d, runId) ==>
                  forall i, j :: 0 <= i < j < |sys.claims| ==>
                    sys.claims[i].action.requestId != sys.claims[j].action.requestId)
  {
    ExecInv(d, runId, moves);
    var sys := Exec(d, runId, moves);
    if InjectiveInStep(d, runId) {
      forall i, j | 0 <= i < j < |sys.claims|
        ensures sys.claims[i].action.requestId != sys.claims[j].action.requestId
      {
        assert d.requestId(runId, i + 1) != d.requestId(runId, j + 1);
      }
    }
  }

  /** The stored counter is exact, and both limits of the profile bound the claims,
      however often the run was restarted. */
  lemma ExactAccounting(d: Deployment, runId: string, moves: seq<Move>)
    requires ValidDeployment(d)
    ensures var sys := Exec(d, runId, moves);
            if sys.store.None? then sys.claims == [] && sys.dispatches == []
            else
              var r := sys.store.value;
              && |sys.claims| == r.toolCalls + (if r.state == ToolInFlight then 1 else 0)
              && |sys.claims| <= r.fingerprint.maxToolCalls
              && |sys.claims| <= r.fingerprint.maxModelTurns
  {
    ExecInv(d, runId, moves);
  }

  /** Everything a single move may do to the stored record. */
  ghost predicate GuardedWrite(sys: System, move: Move, sys': System) {
    sys'.store != sys.store ==>
      && move.Work? && move.id in sys.workers && sys'.store.Some?
      && (sys.store.None? ==> sys'.store.value == FirstRecord(sys.workers[move.id].session))
      && (sys.store.Some? ==>
            var r, r' := sys.store.value, sys'.store.value;
            && r'.version == r.version + 1 && AllowedStates(r.state, r'.state)
            && r'.runId == r.runId && r'.fingerprint == r.fingerprint && r'.task == r.task
            && r.messages <= r'.messages && r.events <= r'.events
            && (r.state == ToolInFlight ==>
                  && |sys.claims| > 0 && sys.claims[|sys.claims|-1].worker == move.id
                  && Flies(sys.workers[move.id])
                  && r'.state == ToolCompleted))
  }

  /** `save` checks only a version, yet a stored run is never overwritten by a new one, a
      terminal record is never changed, and a record in flight is changed only by the
      worker that won its claim, and only into the completed tool call. */
  lemma WritesAreGuarded(d: Deployment, runId: string, moves: seq<Move>, move: Move)
    requires ValidDeployment(d)
    ensures GuardedWrite(Exec(d, runId, moves), move, Exec(d, runId, moves + [move]))
  {
    var sys := Exec(d, runId, moves);
    ExecInv(d, runId, moves);
    ExecExtend(d, runId, moves, move);
    if move.Work? && move.id in sys.workers {
      var w := sys.workers[move.id];
      WorkerStepKeeps(d, w.session, sys.store, w.stage, move.input);
    }
  }

  lemma ExecExtend(d: Deployment, runId: string, moves: seq<Move>, move: Move)
    ensures Exec(d, runId, moves + [move]) == Apply(d, runId, Exec(d, runId, moves), move)
  {
    assert (moves + [move])[..|moves|] == moves;
  }

  /** The later system continues the earlier one. */
  ghost predicate Continues(sys: System, later: System) {
    && sys.claims <= later.claims && sys.dispatches <= later.dispatches
    && (sys.store.Some? ==>
          && later.store.Some?
          && var r, r' := sys.store.value, later.store.value;
          && r.version <= r'.version && r.messages <= r'.messages && r.events <= r'.events
          && r'.runId == r.runId && r'.fingerprint == r.fingerprint && r'.task == r.task
          && (r.version == r'.version ==> r == r')
          && (Terminal(r.state) ==> r' == r))
  }

  lemma MoveContinues(d: Deployment, runId: string, moves: seq<Move>, move: Move)
    requires ValidDeployment(d)
    ensures Continues(Exec(d, runId, moves), Exec(d, runId, moves + [move]))
  {
    WritesAreGuarded(d, runId, moves, move);
    ExecExtend(d, runId, moves, move);
  }

  lemma ContinuesTransitive(a: System, b: System, c: System)
    requires Continues(a, b) && Continues(b, c)
    ensures Continues(a, c)
  {
  }

  /** Over any continuation of any execution, messages, events and logs only grow and a
      terminal record stays exactly as it is. */
  lemma {:induction false} HistoryOnlyGrows(d: Deployment, runId: string, moves: seq<Move>, more: seq<Move>)
    requires ValidDeployment(d)
    ensures Continues(Exec(d, runId, moves), Exec(d, runId, moves + more))
    decreases |more|
  {
    if more == [] {
      assert moves + more == moves;
    } else {
      var init, last := more[..|more|-1], more[|more|-1];
      HistoryOnlyGrows(d, runId, moves, init);
      MoveContinues(d, runId, moves + init, last);
      assert moves + init + [last] == moves + more;
      ContinuesTransitive(Exec(d, runId, moves), Exec(d, runId, moves + init), Exec(d, runId, moves + more));
    }
  }

  ghost predicate LostFlight(sys: System) {
    && sys.store.Some? && sys.store.value.state == ToolInFlight
    && (forall id :: id in sys.workers ==> !Flies(sys.workers[id]))
  }

  /** The later system has the same lost flight and has dispatched nothing since. */
  ghost predicate StillLost(sys: System, later: System) {
    LostFlight(later) && later.store == sys.store && later.dispatches == sys.dispatches
  }

  lemma MoveKeepsLostFlight(d: Deployment, runId: string, moves: seq<Move>, move: Move)
    requires ValidDeployment(d) && LostFlight(Exec(d, runId, moves))
    ensures StillLost(Exec(d, runId, moves), Exec(d, runId, moves + [move]))
  {
    var sys := Exec(d, runId, moves);
    ExecInv(d, runId, moves);
    ExecExtend(d, runId, moves, move);
    if move.Work? && move.id in sys.workers {
      var w := sys.workers[move.id];
      WorkerStepKeeps(d, w.session, sys.store, w.stage, move.input);
    }
  }

  /** Once the worker holding a claim is gone, nothing is ever dispatched or written for
      the run again: an unknown outcome is never retried. */
  lemma {:induction false} LostFlightIsNeverRetried(d: Deployment, runId: string, moves: seq<Move>, more: seq<Move>)
    requires ValidDeployment(d) && LostFlight(Exec(d, runId, moves))
    ensures StillLost(Exec(d, runId, moves), Exec(d, runId, moves + more))
    decreases |more|
  {
    if more == [] {
      assert moves + more == moves;
    } else {
      var init, last := more[..|more|-1], more[|more|-1];
      LostFlightIsNeverRetried(d, runId, moves, init);
      MoveKeepsLostFlight(d, runId, moves + init, last);
      assert moves + init + [last] == moves + more;
    }
  }

  /** Every stored record passes the load check. In RUNNING nothing is pending, every call
      is answered and results equal tool calls; in the pending states exactly the last
      message is the open call, it restores, and results lag by the one not yet merged. */
  lemma StoredRecordsAreSound(d: Deployment, runId: string, moves: seq<Move>)
    requires ValidDeployment(d) && Exec(d, runId, moves).store.Some?
    ensures var r := Exec(d, runId, moves).store.value;
            && ValidStateFields(r) && ValidHistory(r.messages, true)
            && (r.state == Running ==>
                  && r.pending == NOTHING_PENDING && ValidHistory(r.messages, false)
                  && CountResults(r.messages) == r.toolCalls)
            && (PendingTool(r.state) ==>
                  && EndsWithCall(r.messages)
                  && RestoreToolCall(r) == Some(r.messages[|r.messages|-1].call)
                  && CountResults(r.messages) == r.nextStep - 1)
            && (r.terminalStatus.Some? <==> r.state in {RunCompleted, RunFailed, RunCancelled, RunRecoveryRequired})
            && (r.state in {ToolPrepared, ToolInFlight, ToolCompleted} ==>
                  && EndsWithCall(r.messages)
                  && var call := r.messages[|r.messages|-1].call;
                  && r.pending.requestId == r.pending.idempotencyKey == Some(d.requestId(runId, r.nextStep))
                  && r.pending.toolCallId == Some(call.callId) && r.pending.toolName == Some(call.name)
                  && r.pending.action.Some? && r.pending.action.value.arguments == call.arguments
                  && (r.pending.status.Some? <==> r.state == ToolCompleted))
  {
    ExecInv(d, runId, moves);
    PendingRestores(d, Exec(d, runId, moves).store.value);
  }

  /** Resuming a completed tool call restores exactly the execution that was performed
      for that step; only the retry hint is not stored. */
  lemma RestoredExecutionIsThePerformedOne(d: Deployment, runId: string, moves: seq<Move>)
    requires ValidDeployment(d)
    requires Exec(d, runId, moves).store.Some? && Exec(d, runId, moves).store.value.state == ToolCompleted
    ensures var sys := Exec(d, runId, moves);
            && |sys.dispatches| > 0
            && var performed := sys.dispatches[|sys.dispatches|-1];
            && performed.claim.step == sys.store.value.nextStep
            && sys.store.value.pending.action == Some(performed.claim.action)
            && RestoreExecution(sys.store.value) == Some(performed.execution.(retryable := false))
  {
    ExecInv(d, runId, moves);
  }
}
