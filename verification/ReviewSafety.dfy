/** What holds of the review store over every sequence of operations by any workers. */
module ReviewSafety {
  import opened Contracts
  import opened ReviewStore

  datatype Call = On(id: string, op: Op) | FreezeAll(reason: string)

  function StepRow(cfg: Config, id: string, row: Option<Row>, call: Call): Option<Row> {
    match call
    case On(target, op) => if target == id then Perform(cfg, row, op).row else row
    case FreezeAll(reason) => if row.None? || Blank(reason) then row else Some(FreezeRow(row.value, reason))
  }

  /** The row of one request after a sequence of calls on the whole store. */
  function RowAfter(cfg: Config, id: string, calls: seq<Call>): Option<Row> {
    if calls == [] then None else StepRow(cfg, id, RowAfter(cfg, id, calls[..|calls|-1]), calls[|calls|-1])
  }

  /** The row a call finds. */
  function Before(cfg: Config, id: string, calls: seq<Call>, k: nat): Option<Row>
    requires k <= |calls|
  {
    RowAfter(cfg, id, calls[..k])
  }

  lemma BeforeNext(cfg: Config, id: string, calls: seq<Call>, k: nat)
    requires k < |calls|
    ensures Before(cfg, id, calls, k + 1) == StepRow(cfg, id, Before(cfg, id, calls, k), calls[k])
  {
    assert calls[..k+1][..k] == calls[..k];
  }

  /** How the store answers the k-th call, an operation on `id`. */
  function Answer(cfg: Config, id: string, calls: seq<Call>, k: nat): Response
    requires k < |calls| && calls[k].On?
  {
    Perform(cfg, Before(cfg, id, calls, k), calls[k].op).response
  }

  predicate OnRequest(calls: seq<Call>, k: nat, id: string) {
    k < |calls| && calls[k].On? && calls[k].id == id
  }

  predicate ConsumedAt(cfg: Config, id: string, calls: seq<Call>, k: nat) {
    OnRequest(calls, k, id) && calls[k].op.Consume? && Answer(cfg, id, calls, k) == ConsumeResult(true)
  }

  predicate ApprovedAt(cfg: Config, id: string, calls: seq<Call>, k: nat) {
    OnRequest(calls, k, id) && calls[k].op.Approve? && Answer(cfg, id, calls, k).Found?
  }

  predicate FirstParkedAt(cfg: Config, id: string, calls: seq<Call>, k: nat) {
    && OnRequest(calls, k, id) && calls[k].op.Park? && Answer(cfg, id, calls, k).Found?
    && Before(cfg, id, calls, k).None?
  }

  predicate LeasedAt(cfg: Config, id: string, calls: seq<Call>, k: nat) {
    OnRequest(calls, k, id) && calls[k].op.ClaimLease? && Answer(cfg, id, calls, k).Found?
  }

  function Rank(state: ReviewState): nat {
    match state
    case Parked => 0
    case Leased => 0
    case Approved => 1
    case Consumed => 2
    case ApprovalExpired => 2
    case Frozen => 3
  }

  /** An event log read as a machine of its own. */
  datatype Replayed = Unstarted | At(state: ReviewState) | Illegal

  function ReplayEvent(before: Replayed, kind: EventKind): Replayed {
    match kind
    case ParkedEvent => if before == Unstarted then At(Parked) else Illegal
    case LeasedEvent => if before == At(Parked) then At(Leased) else Illegal
    case LeaseRenewed => if before == At(Leased) then At(Leased) else Illegal
    case LeaseReleased => if before == At(Leased) then At(Parked) else Illegal
    case LeaseExpired => if before == At(Leased) then At(Parked) else Illegal
    case ApprovedEvent => if before in {At(Parked), At(Leased)} then At(Approved) else Illegal
    case ApprovalExpiredEvent => if before == At(Approved) then At(ApprovalExpired) else Illegal
    case ConsumedEvent => if before == At(Approved) then At(Consumed) else Illegal
    case FrozenEvent => if before.At? && before.state != Frozen then At(Frozen) else Illegal
  }

  function Replay(log: seq<ReviewEvent>): Replayed {
    if log == [] then Unstarted else ReplayEvent(Replay(log[..|log|-1]), log[|log|-1].kind)
  }

  ghost predicate RowOK(row: Row) {
    var r := row.record;
    && |row.log| == r.version >= 1 && Replay(row.log) == At(r.state)
    && (forall i :: 0 <= i < |row.log| ==> row.log[i].version == i + 1)
    && (r.leaseOwner.Some? <==> r.state == Leased) && (r.leaseExpiresAt.Some? <==> r.state == Leased)
    && (r.state == Approved ==> r.actorId.Some? && r.approvedAt.Some? && r.approvalExpiresAt.Some?)
    && (r.frozenReason.Some? <==> r.state == Frozen)
  }

  /** A later version of the same row. */
  ghost predicate Later(row: Row, row': Row) {
    && row.log <= row'.log && row'.record.digest == row.record.digest
    && row'.record.requiredRole == row.record.requiredRole
    && Rank(row.record.state) <= Rank(row'.record.state)
  }

  lemma ReplaceOK(row: Row, record: ReviewRecord, kind: EventKind)
    requires RowOK(row) && ReplayEvent(At(row.record.state), kind) == At(record.state)
    requires record.digest == row.record.digest && record.requiredRole == row.record.requiredRole
    requires Rank(row.record.state) <= Rank(record.state)
    requires (record.leaseOwner.Some? <==> record.state == Leased)
    requires (record.leaseExpiresAt.Some? <==> record.state == Leased)
    requires record.state == Approved ==>
               record.actorId.Some? && record.approvedAt.Some? && record.approvalExpiresAt.Some?
    requires record.frozenReason.Some? <==> record.state == Frozen
    ensures RowOK(Replace(row, record, kind)) && Later(row, Replace(row, record, kind))
  {
    var log := Replace(row, record, kind).log;
    assert log[..|log|-1] == row.log;
  }

  lemma ExpireLeaseOK(row: Row, now: real)
    requires RowOK(row)
    ensures RowOK(ExpireLease(row, now)) && Later(row, ExpireLease(row, now))
  {
    if LeaseIsOver(row.record, now) {
      ReplaceOK(row, Unleased(row.record, Parked), LeaseExpired);
    }
  }

  lemma ExpireApprovalOK(row: Row, now: real)
    requires RowOK(row)
    ensures RowOK(ExpireApproval(row, now)) && Later(row, ExpireApproval(row, now))
  {
    if ApprovalIsOver(row.record, now) {
      ReplaceOK(row, row.record.(state := ApprovalExpired), ApprovalExpiredEvent);
    }
  }

  lemma FreezeOK(row: Row, reason: string)
    requires RowOK(row)
    ensures RowOK(FreezeRow(row, reason)) && Later(row, FreezeRow(row, reason))
  {
    if row.record.state != Frozen {
      ReplaceOK(row, Unleased(row.record, Frozen).(frozenReason := Some(reason)), FrozenEvent);
    }
  }

  /** What an operation on a row in order leaves behind. */
  ghost predicate Sound(row: Row, res: Result) {
    && res.row.Some? && RowOK(res.row.value) && Later(row, res.row.value)
    && (res.response.Raised? ==> res.row == Some(row))
  }

  lemma ClaimOK(cfg: Config, row: Row, worker: string, window: Option<real>, check: real, now: real)
    requires RowOK(row)
    ensures Sound(row, PerformClaim(cfg, Some(row), worker, window, check, now))
  {
    ExpireLeaseOK(row, check);
    var current := ExpireLease(row, check);
    if !PerformClaim(cfg, Some(row), worker, window, check, now).response.Raised? {
      var leased := current.record.(
      state := Leased, leaseOwner := Some(worker), leaseExpiresAt := Some(now + LeaseWindow(cfg, window)));
      ReplaceOK(current, leased, if current.record.state == Leased then LeaseRenewed else LeasedEvent);
    }
  }

  lemma ApproveOK(cfg: Config, row: Row, p: Principal, ttl: real, check: real, now: real)
    requires RowOK(row)
    ensures Sound(row, PerformApprove(cfg, Some(row), p, ttl, check, now))
  {
    ExpireLeaseOK(row, check);
    var current := ExpireLease(row, check);
    if !PerformApprove(cfg, Some(row), p, ttl, check, now).response.Raised? {
      ReplaceOK(
        current,
        Unleased(current.record, Approved).(
        actorId := Some(p.actorId), approvedAt := Some(now), approvalExpiresAt := Some(now + ttl)),
        ApprovedEvent);
    }
  }

  lemma ConsumeOK(row: Row, digest: string, role: ApprovalRole, check: real, final: real, now: real)
    requires RowOK(row)
    ensures Sound(row, PerformConsume(Some(row), digest, role, check, final, now))
  {
    ExpireApprovalOK(row, check);
    var current := ExpireApproval(row, check);
    ExpireApprovalOK(current, final);
    if PerformConsume(Some(row), digest, role, check, final, now).response == ConsumeResult(true) {
      ReplaceOK(current, current.record.(state := Consumed, consumedAt := Some(now)), ConsumedEvent);
    }
  }

  /** Every operation keeps a row in order; one that raises changes nothing. */
  lemma PerformOK(cfg: Config, row: Row, op: Op)
    requires RowOK(row)
    ensures Sound(row, Perform(cfg, Some(row), op))
  {
    var res := Perform(cfg, Some(row), op);
    match op
    case Park(_, _) =>
    case ClaimLease(worker, window, check, now) =>
      ClaimOK(cfg, row, worker, window, check, now);
    case ReleaseLease(worker, check) =>
      ExpireLeaseOK(row, check);
      var current := ExpireLease(row, check);
      if current.record.state == Leased && !res.response.Raised? {
        ReplaceOK(current, Unleased(current.record, Parked), LeaseReleased);
      }
    case Approve(p, ttl, check, now) =>
      ApproveOK(cfg, row, p, ttl, check, now);
    case Consume(digest, role, check, final, now) =>
      ConsumeOK(row, digest, role, check, final, now);
    case Get(check, approvalCheck) =>
      ExpireLeaseOK(row, check);
      ExpireApprovalOK(ExpireLease(row, check), approvalCheck);
  }

  lemma StepOK(cfg: Config, id: string, row: Option<Row>, call: Call)
    requires row.Some? ==> RowOK(row.value)
    ensures var row' := StepRow(cfg, id, row, call);
            && (row'.Some? ==> RowOK(row'.value))
            && (row.Some? ==> row'.Some? && Later(row.value, row'.value))
            && (row.None? && row'.Some? ==> call.On? && call.id == id && call.op.Park?
                                            && row' == Some(FirstRow(call.op.digest, call.op.role)))
  {
    match call
    case On(target, op) =>
      if row.Some? {
        PerformOK(cfg, row.value, op);
      } else if row.None? && op.Park? {
        assert Replay(FirstRow(op.digest, op.role).log[..0]) == Unstarted;
      }
    case FreezeAll(reason) =>
      if row.Some? {
        FreezeOK(row.value, reason);
      }
  }

  /** After any calls: the log is as long as the version, replaying it gives the current
      state, and lease fields are set exactly while the request is leased. */
  lemma {:induction false} LogIsFaithful(cfg: Config, id: string, calls: seq<Call>)
    ensures RowAfter(cfg, id, calls).Some? ==> RowOK(RowAfter(cfg, id, calls).value)
  {
    if calls != [] {
      LogIsFaithful(cfg, id, calls[..|calls|-1]);
      StepOK(cfg, id, RowAfter(cfg, id, calls[..|calls|-1]), calls[|calls|-1]);
    }
  }

  /** A call that raises leaves row and log as they were, even if it had already expired a
      lease inside its transaction. */
  lemma RaisedCallsChangeNothing(cfg: Config, id: string, calls: seq<Call>, k: nat)
    requires OnRequest(calls, k, id) && Answer(cfg, id, calls, k).Raised?
    ensures Before(cfg, id, calls, k + 1) == Before(cfg, id, calls, k)
  {
    BeforeNext(cfg, id, calls, k);
    LogIsFaithful(cfg, id, calls[..k]);
    if Before(cfg, id, calls, k).Some? {
      PerformOK(cfg, Before(cfg, id, calls, k).value, calls[k].op);
    }
  }

  /** Over any stretch of calls a row stays, its log grows, its digest and role are
      fixed, and the rank of its state never falls. */
  lemma {:induction false} RowsOnlyAdvance(cfg: Config, id: string, calls: seq<Call>, a: nat, b: nat)
    requires a <= b <= |calls| && Before(cfg, id, calls, a).Some?
    ensures Before(cfg, id, calls, b).Some?
    ensures Later(Before(cfg, id, calls, a).value, Before(cfg, id, calls, b).value)
    decreases b
  {
    if a < b {
      RowsOnlyAdvance(cfg, id, calls, a, b - 1);
      LogIsFaithful(cfg, id, calls[..b-1]);
      BeforeNext(cfg, id, calls, b - 1);
      StepOK(cfg, id, Before(cfg, id, calls, b - 1), calls[b-1]);
    }
  }

  /** One request is consumed at most once, whatever happens in between. */
  lemma ConsumedAtMostOnce(cfg: Config, id: string, calls: seq<Call>, a: nat, b: nat)
    requires ConsumedAt(cfg, id, calls, a) && ConsumedAt(cfg, id, calls, b)
    ensures a == b
  {
    if a != b {
      var first, second := if a < b then a else b, if a < b then b else a;
      BeforeNext(cfg, id, calls, first);
      RowsOnlyAdvance(cfg, id, calls, first + 1, second);
    }
  }

  lemma {:induction false} Origin(cfg: Config, id: string, calls: seq<Call>, n: nat) returns (i: nat)
    requires n <= |calls| && Before(cfg, id, calls, n).Some?
    ensures i < n && FirstParkedAt(cfg, id, calls, i)
    ensures calls[i].op.digest == Before(cfg, id, calls, n).value.record.digest
    ensures calls[i].op.role == Before(cfg, id, calls, n).value.record.requiredRole
    decreases n
  {
    BeforeNext(cfg, id, calls, n - 1);
    LogIsFaithful(cfg, id, calls[..n-1]);
    StepOK(cfg, id, Before(cfg, id, calls, n - 1), calls[n-1]);
    if Before(cfg, id, calls, n - 1).Some? {
      i := Origin(cfg, id, calls, n - 1);
    } else {
      i := n - 1;
    }
  }

  /** Only a successful approval brings a request into the approved state, and nothing
      changes the approval afterwards. */
  lemma ApprovalComesFromApprove(cfg: Config, id: string, row: Option<Row>, call: Call)
    requires row.Some? ==> RowOK(row.value)
    requires StepRow(cfg, id, row, call).Some? && StepRow(cfg, id, row, call).value.record.state == Approved
    ensures var r := StepRow(cfg, id, row, call).value.record;
            || (row.Some? && row.value.record == r)
            || (&& row.Some? && call.On? && call.id == id && call.op.Approve?
                && Perform(cfg, row, call.op).response.Found?
                && MayApprove(cfg, r, call.op.principal) && 0.0 < call.op.ttl <= cfg.maxTtl
                && r.actorId == Some(call.op.principal.actorId)
                && r.approvalExpiresAt == Some(call.op.now + call.op.ttl))
  {
  }

  lemma {:induction false} ApprovalOf(cfg: Config, id: string, calls: seq<Call>, n: nat) returns (j: nat)
    requires n <= |calls| && Before(cfg, id, calls, n).Some?
    requires Before(cfg, id, calls, n).value.record.state == Approved
    ensures j < n && ApprovedAt(cfg, id, calls, j)
    ensures var r := Before(cfg, id, calls, n).value.record;
            && MayApprove(cfg, r, calls[j].op.principal) && 0.0 < calls[j].op.ttl <= cfg.maxTtl
            && r.approvalExpiresAt == Some(calls[j].op.now + calls[j].op.ttl)
    decreases n
  {
    BeforeNext(cfg, id, calls, n - 1);
    LogIsFaithful(cfg, id, calls[..n-1]);
    var row := Before(cfg, id, calls, n - 1);
    ApprovalComesFromApprove(cfg, id, row, calls[n-1]);
    if row.Some? && row.value.record == Before(cfg, id, calls, n).value.record {
      j := ApprovalOf(cfg, id, calls, n - 1);
    } else {
      j := n - 1;
    }
  }

  /** A consumption that succeeded was earned: the request was first parked with exactly this
      digest and role, an actor of the directory for that role then approved it for at most
      the maximum time, and the clock read in the final check was before the expiry. */
  lemma ConsumptionIsEarned(cfg: Config, id: string, calls: seq<Call>, k: nat) returns (i: nat, j: nat)
    requires ConsumedAt(cfg, id, calls, k)
    ensures i < j < k && FirstParkedAt(cfg, id, calls, i) && ApprovedAt(cfg, id, calls, j)
    ensures calls[i].op.digest == calls[k].op.consumeDigest && calls[i].op.role == calls[k].op.consumeRole
    ensures var approver := calls[j].op.principal;
            && approver.role == calls[i].op.role
            && approver.role in cfg.approvers && approver.actorId in cfg.approvers[approver.role]
            && 0.0 < calls[j].op.ttl <= cfg.maxTtl
            && calls[k].op.finalCheck < calls[j].op.now + calls[j].op.ttl
  {
    LogIsFaithful(cfg, id, calls[..k]);
    i := Origin(cfg, id, calls, k);
    j := ApprovalOf(cfg, id, calls, k);
    if j <= i {
      assert Before(cfg, id, calls, j).Some?;
      RowsOnlyAdvance(cfg, id, calls, j, i);
    }
  }

  predicate HeldBy(row: Option<Row>, worker: string) {
    row.Some? && row.value.record.state == Leased && row.value.record.leaseOwner == Some(worker)
  }

  predicate ReadsClock(call: Call) {
    call.On? && !call.op.Park?
  }

  function FirstRead(op: Op): real
    requires !op.Park?
  {
    if op.Consume? then op.approvalCheck else op.expiryCheck
  }

  function LastRead(op: Op): real
    requires !op.Park?
  {
    match op
    case ClaimLease(_, _, _, now) => now
    case ReleaseLease(_, check) => check
    case Approve(_, _, _, now) => now
    case Consume(_, _, _, _, now) => now
    case Get(_, check) => check
  }

  /** Clock readings never go back, within a call and from call to call. */
  ghost predicate ClockNeverGoesBack(calls: seq<Call>) {
    && (forall k :: 0 <= k < |calls| && ReadsClock(calls[k]) ==> FirstRead(calls[k].op) <= LastRead(calls[k].op))
    && (forall a, b :: 0 <= a < b < |calls| && ReadsClock(calls[a]) && ReadsClock(calls[b]) ==>
          LastRead(calls[a].op) <= FirstRead(calls[b].op))
  }

  /** The k-th call takes the lease from its holder. */
  ghost predicate Handover(cfg: Config, id: string, calls: seq<Call>, k: nat, worker: string) {
    && k < |calls| && HeldBy(Before(cfg, id, calls, k), worker)
    && (|| (OnRequest(calls, k, id) && calls[k].op.ReleaseLease? && calls[k].op.releaser == worker
            && Answer(cfg, id, calls, k).Found?)
        || LeaseOverAt(cfg, id, calls, k))
  }

  /** The k-th call reads the clock at or past the expiry of the lease it finds. */
  predicate LeaseOverAt(cfg: Config, id: string, calls: seq<Call>, k: nat) {
    && OnRequest(calls, k, id) && (calls[k].op.ClaimLease? || calls[k].op.ReleaseLease? || calls[k].op.Get?)
    && Before(cfg, id, calls, k).Some?
    && LeaseIsOver(Before(cfg, id, calls, k).value.record, calls[k].op.expiryCheck)
  }

  /** A lease is lost by release, by expiry, or because the request moved on for good. */
  lemma LosingALease(cfg: Config, id: string, calls: seq<Call>, k: nat, worker: string)
    requires k < |calls| && HeldBy(Before(cfg, id, calls, k), worker)
    requires !HeldBy(Before(cfg, id, calls, k + 1), worker)
    ensures Handover(cfg, id, calls, k, worker) ||
            (Before(cfg, id, calls, k + 1).Some? && Rank(Before(cfg, id, calls, k + 1).value.record.state) >= 1)
  {
    BeforeNext(cfg, id, calls, k);
  }

  lemma {:induction false} FindLoss(cfg: Config, id: string, calls: seq<Call>, a: nat, b: nat, worker: string)
    returns (k: nat)
    requires a <= b <= |calls| && HeldBy(Before(cfg, id, calls, a), worker)
    requires !HeldBy(Before(cfg, id, calls, b), worker)
    ensures a <= k < b && HeldBy(Before(cfg, id, calls, k), worker) && !HeldBy(Before(cfg, id, calls, k + 1), worker)
    decreases b - a
  {
    if HeldBy(Before(cfg, id, calls, a + 1), worker) {
      k := FindLoss(cfg, id, calls, a + 1, b, worker);
    } else {
      k := a;
    }
  }

  /** Two successful leases by different workers are separated by a release from the earlier
      owner or by the expiry of its latest lease; with a clock that never goes back, the
      later lease is then granted no earlier than that expiry. */
  lemma LeasesAreExclusive(cfg: Config, id: string, calls: seq<Call>, i: nat, j: nat) returns (k: nat)
    requires LeasedAt(cfg, id, calls, i) && LeasedAt(cfg, id, calls, j) && i < j
    requires calls[i].op.worker != calls[j].op.worker
    ensures i < k <= j && Handover(cfg, id, calls, k, calls[i].op.worker)
    ensures ClockNeverGoesBack(calls) && LeaseOverAt(cfg, id, calls, k) ==>
              Before(cfg, id, calls, k).value.record.leaseExpiresAt.value <= calls[j].op.now
  {
    var first := calls[i].op.worker;
    BeforeNext(cfg, id, calls, i);
    BeforeNext(cfg, id, calls, j);
    assert HeldBy(Before(cfg, id, calls, i + 1), first);
    k := FindLoss(cfg, id, calls, i + 1, j + 1, first);
    LosingALease(cfg, id, calls, k, first);
    if !Handover(cfg, id, calls, k, first) {
      LogIsFaithful(cfg, id, calls[..k+1]);
      RowsOnlyAdvance(cfg, id, calls, k + 1, j + 1);
    }
  }

  lemma {:induction false} SameContinuation(cfg: Config, id: string, a: seq<Call>, b: seq<Call>, more: seq<Call>)
    requires RowAfter(cfg, id, a) == RowAfter(cfg, id, b)
    ensures RowAfter(cfg, id, a + more) == RowAfter(cfg, id, b + more)
  {
    if more == [] {
      assert a + more == a && b + more == b;
    } else {
      var init := more[..|more|-1];
      SameContinuation(cfg, id, a, b, init);
      assert (a + more)[..|a + more|-1] == a + init && (b + more)[..|b + more|-1] == b + init;
    }
  }

  /** A freeze reaches the rows that exist and no others: an existing row is frozen from then
      on, and a request without a row is, for all later calls, as if nothing had happened;
      in particular it can still be parked. */
  lemma FreezeReachesExistingRows(cfg: Config, id: string, calls: seq<Call>, reason: string, more: seq<Call>)
    requires !Blank(reason)
    ensures RowAfter(cfg, id, calls).Some? ==>
              && RowAfter(cfg, id, calls + [FreezeAll(reason)] + more).Some?
              && RowAfter(cfg, id, calls + [FreezeAll(reason)] + more).value.record.state == Frozen
    ensures RowAfter(cfg, id, calls).None? ==>
              RowAfter(cfg, id, calls + [FreezeAll(reason)] + more) == RowAfter(cfg, id, calls + more)
    ensures RowAfter(cfg, id, calls).None? ==>
              forall digest, role :: !Blank(digest) ==>
                RowAfter(cfg, id, calls + [FreezeAll(reason)] + [On(id, Park(digest, role))])
                == Some(FirstRow(digest, role))
  {
    var frozen := calls + [FreezeAll(reason)];
    var all := frozen + more;
    assert frozen[..|calls|] == calls;
    LogIsFaithful(cfg, id, frozen);
    if RowAfter(cfg, id, calls).Some? {
      assert all[..|frozen|] == frozen && all[..|all|] == all;
      RowsOnlyAdvance(cfg, id, all, |frozen|, |all|);
    } else {
      SameContinuation(cfg, id, frozen, calls, more);
      forall digest, role | !Blank(digest)
        ensures RowAfter(cfg, id, frozen + [On(id, Park(digest, role))]) == Some(FirstRow(digest, role))
      {
        assert (frozen + [On(id, Park(digest, role))])[..|frozen|] == frozen;
      }
    }
  }
}
