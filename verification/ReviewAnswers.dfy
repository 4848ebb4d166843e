/** How the review store answers each call, exactly, after any sequence of calls, and exactly
    when a consumption succeeds. */
module ReviewAnswers {
  import opened Contracts
  import opened ReviewStore
  import opened ReviewSafety

  /** The lease of the record had run out when the clock was read. */
  predicate Lapsed(r: ReviewRecord, check: real) {
    r.state == Leased && r.leaseExpiresAt.Some? && r.leaseExpiresAt.value <= check
  }

  /** The versions a call adds: one for itself, and one for a lease that had run out. */
  function Versions(r: ReviewRecord, check: real): nat {
    if Lapsed(r, check) then 2 else 1
  }

  /** The event of a lease that had run out, if it had. */
  function Lapse(r: ReviewRecord, check: real): seq<ReviewEvent> {
    if Lapsed(r, check) then [ReviewEvent(LeaseExpired, Parked, r.version + 1)] else []
  }

  /** A request is parked exactly if it has no row yet, or the row says the same and is
      still open or approved; the first time a row is made. */
  lemma ParksExactly(cfg: Config, id: string, calls: seq<Call>, k: nat)
    requires OnRequest(calls, k, id) && calls[k].op.Park?
    ensures var row, op := Before(cfg, id, calls, k), calls[k].op;
            var parked := ReviewRecord(op.digest, op.role, Parked, None, None, None, None, None, None, None, 1);
            var reply := Answer(cfg, id, calls, k);
            && (reply.Found? <==>
                && !Blank(op.digest)
                && (row.Some? ==>
                      && row.value.record.state in {Parked, Leased, Approved}
                      && row.value.record.digest == op.digest && row.value.record.requiredRole == op.role))
            && (!reply.Found? ==> reply == Raised)
            && (reply.Found? ==>
                  && Before(cfg, id, calls, k + 1) ==
                     Some(if row.Some? then row.value else Row(parked, [ReviewEvent(ParkedEvent, Parked, 1)]))
                  && reply == Found(Before(cfg, id, calls, k + 1).value.record))
  {
    BeforeNext(cfg, id, calls, k);
  }

  /** A lease is granted exactly to a named worker, for a time within the maximum, on a
      request that is parked or whose lease has run out; its holder may renew it in time. */
  lemma LeasesExactly(cfg: Config, id: string, calls: seq<Call>, k: nat)
    requires OnRequest(calls, k, id) && calls[k].op.ClaimLease?
    ensures var row, op := Before(cfg, id, calls, k), calls[k].op;
            var length := if op.window == None then cfg.maxLease else op.window.value;
            var reply := Answer(cfg, id, calls, k);
            && (reply.Found? <==>
                && !Blank(op.worker) && 0.0 < length <= cfg.maxLease && row.Some?
                && var r := row.value.record;
                   || r.state == Parked || Lapsed(r, op.expiryCheck)
                   || (&& r.state == Leased && r.leaseOwner == Some(op.worker)
                       && r.leaseExpiresAt.Some? && op.now < r.leaseExpiresAt.value))
            && (!reply.Found? ==> reply == Raised)
            && (reply.Found? ==>
                  && reply == Found(
                                row.value.record.(
                                state := Leased, leaseOwner := Some(op.worker),
                                leaseExpiresAt := Some(op.now + length),
                                version := row.value.record.version + Versions(row.value.record, op.expiryCheck)))
                  && var renewal := row.value.record.state == Leased && !Lapsed(row.value.record, op.expiryCheck);
                  var event := ReviewEvent(
                                 if renewal then LeaseRenewed else LeasedEvent, Leased, reply.record.version);
                  Before(cfg, id, calls, k + 1) ==
                  Some(Row(reply.record, row.value.log + Lapse(row.value.record, op.expiryCheck) + [event])))
  {
    BeforeNext(cfg, id, calls, k);
    if Before(cfg, id, calls, k).Some? {
      assert Before(cfg, id, calls, k).value.log + [] == Before(cfg, id, calls, k).value.log;
    }
  }

  /** A lease is given back by its owner; on a request that is not leased, or no longer,
      nothing is asked. */
  lemma ReleasesExactly(cfg: Config, id: string, calls: seq<Call>, k: nat)
    requires OnRequest(calls, k, id) && calls[k].op.ReleaseLease?
    ensures var row, op := Before(cfg, id, calls, k), calls[k].op;
            var reply := Answer(cfg, id, calls, k);
            && (reply.Found? <==>
                && row.Some?
                && (|| row.value.record.state != Leased || Lapsed(row.value.record, op.expiryCheck)
                    || row.value.record.leaseOwner == Some(op.releaser)))
            && (!reply.Found? ==> reply == Raised)
            && (reply.Found? ==>
                  && reply == Found(
                                if row.value.record.state != Leased then row.value.record
                                else
                                  row.value.record.(
                                  state := Parked, leaseOwner := None, leaseExpiresAt := None,
                                  version := row.value.record.version + 1))
                  && var kind := if Lapsed(row.value.record, op.expiryCheck) then LeaseExpired else LeaseReleased;
                  Before(cfg, id, calls, k + 1) ==
                  Some(if row.value.record.state != Leased then row.value
                       else
                         Row(reply.record, row.value.log + [ReviewEvent(kind, Parked, reply.record.version)])))
  {
    BeforeNext(cfg, id, calls, k);
  }

  /** An approval is given exactly for a time within the maximum, to a request that is parked
      or leased, by somebody whom the directory lists for the role it was parked with; it
      ends the lease and names the approver and the time. */
  lemma ApprovesExactly(cfg: Config, id: string, calls: seq<Call>, k: nat)
    requires OnRequest(calls, k, id) && calls[k].op.Approve?
    ensures var row, op := Before(cfg, id, calls, k), calls[k].op;
            var reply := Answer(cfg, id, calls, k);
            && (reply.Found? <==>
                && 0.0 < op.ttl <= cfg.maxTtl && row.Some?
                && (row.value.record.state == Parked || row.value.record.state == Leased)
                && op.principal.role == row.value.record.requiredRole
                && op.principal.role in cfg.approvers
                && op.principal.actorId in cfg.approvers[op.principal.role])
            && (!reply.Found? ==> reply == Raised)
            && (reply.Found? ==>
                  && reply == Found(
                                row.value.record.(
                                state := Approved, leaseOwner := None, leaseExpiresAt := None,
                                actorId := Some(op.principal.actorId), approvedAt := Some(op.now),
                                approvalExpiresAt := Some(op.now + op.ttl),
                                version := row.value.record.version + Versions(row.value.record, op.expiryCheck)))
                  && Before(cfg, id, calls, k + 1) ==
                     Some(Row(
                            reply.record,
                            row.value.log + Lapse(row.value.record, op.expiryCheck)
                            + [ReviewEvent(ApprovedEvent, Approved, reply.record.version)])))
  {
    BeforeNext(cfg, id, calls, k);
    if Before(cfg, id, calls, k).Some? {
      assert Before(cfg, id, calls, k).value.log + [] == Before(cfg, id, calls, k).value.log;
    }
  }

  /** A consumption succeeds exactly on an approved request with the same digest and role,
      before its expiry in both checks, and then marks it; a check at or past the expiry
      ends the approval. */
  lemma ConsumesExactly(cfg: Config, id: string, calls: seq<Call>, k: nat)
    requires OnRequest(calls, k, id) && calls[k].op.Consume?
    ensures var row, op := Before(cfg, id, calls, k), calls[k].op;
            var reply := Answer(cfg, id, calls, k);
            reply.ConsumeResult? &&
            if row.None? then !reply.consumed && Before(cfg, id, calls, k + 1) == None
            else
              var r, row' := row.value.record, Before(cfg, id, calls, k + 1);
              var asked := r.state == Approved && r.digest == op.consumeDigest && r.requiredRole == op.consumeRole;
              && (r.state == Approved ==> r.approvalExpiresAt.Some?)
              && (reply.consumed <==>
                  asked && op.approvalCheck < r.approvalExpiresAt.value && op.finalCheck < r.approvalExpiresAt.value)
              && row' ==
                 Some(if reply.consumed
                      then
                        Row(r.(state := Consumed, consumedAt := Some(op.consumedNow), version := r.version + 1),
                            row.value.log + [ReviewEvent(ConsumedEvent, Consumed, r.version + 1)])
                      else if asked || (r.state == Approved && r.approvalExpiresAt.value <= op.approvalCheck)
                      then
                        Row(r.(state := ApprovalExpired, version := r.version + 1),
                            row.value.log + [ReviewEvent(ApprovalExpiredEvent, ApprovalExpired, r.version + 1)])
                      else row.value)
  {
    BeforeNext(cfg, id, calls, k);
    LogIsFaithful(cfg, id, calls[..k]);
  }

  /** A look shows the request as it is once a lease or an approval that is over has ended. */
  lemma LooksExactly(cfg: Config, id: string, calls: seq<Call>, k: nat)
    requires OnRequest(calls, k, id) && calls[k].op.Get?
    ensures var row, op := Before(cfg, id, calls, k), calls[k].op;
            if row.None? then Answer(cfg, id, calls, k) == Missing && Before(cfg, id, calls, k + 1) == None
            else
              var r := row.value.record;
              && (r.state == Approved ==> r.approvalExpiresAt.Some?)
              && Before(cfg, id, calls, k + 1).Some?
              && Answer(cfg, id, calls, k) == Found(Before(cfg, id, calls, k + 1).value.record)
              && Before(cfg, id, calls, k + 1).value ==
                 if Lapsed(r, op.expiryCheck)
                 then
                   Row(r.(state := Parked, leaseOwner := None, leaseExpiresAt := None, version := r.version + 1),
                       row.value.log + Lapse(r, op.expiryCheck))
                 else if r.state == Approved && r.approvalExpiresAt.value <= op.approvalCheck
                 then
                   Row(r.(state := ApprovalExpired, version := r.version + 1),
                       row.value.log + [ReviewEvent(ApprovalExpiredEvent, ApprovalExpired, r.version + 1)])
                 else row.value
  {
    BeforeNext(cfg, id, calls, k);
    LogIsFaithful(cfg, id, calls[..k]);
  }

  /** A freeze with a reason ends every row that is not frozen yet, and its lease. */
  lemma FreezesExactly(cfg: Config, id: string, calls: seq<Call>, k: nat)
    requires k < |calls| && calls[k].FreezeAll? && Before(cfg, id, calls, k).Some?
    ensures var row := Before(cfg, id, calls, k).value;
            var r := row.record;
            Before(cfg, id, calls, k + 1) ==
            Some(if Blank(calls[k].reason) || r.state == Frozen then row
                 else
                   Row(r.(
                       state := Frozen, leaseOwner := None, leaseExpiresAt := None,
                       frozenReason := Some(calls[k].reason), version := r.version + 1),
                       row.log + [ReviewEvent(FrozenEvent, Frozen, r.version + 1)]))
  {
    BeforeNext(cfg, id, calls, k);
  }

  // ---- Exactly when a consumption succeeds ----

  /** A call that ends an approval of `id`: a freeze, a check at or past the expiry, or a
      consumption with its digest and role. */
  predicate EndsApproval(
    calls: seq<Call>, m: nat, id: string, digest: string, role: ApprovalRole, expiry: real)
  {
    && m < |calls|
    && match calls[m]
       case FreezeAll(reason) => !Blank(reason)
       case On(target, Get(_, check)) => target == id && expiry <= check
       case On(target, Consume(d, r, check, _, _)) =>
         target == id && (expiry <= check || (d == digest && r == role))
       case On(_, _) => false
  }

  predicate Standing(row: Option<Row>, digest: string, role: ApprovalRole, expiry: real) {
    && row.Some? && row.value.record.state == Approved && row.value.record.digest == digest
    && row.value.record.requiredRole == role && row.value.record.approvalExpiresAt == Some(expiry)
  }

  /** An approval stands until a call that ends it. */
  lemma StandsUntilEnded(
    cfg: Config, id: string, calls: seq<Call>, m: nat, digest: string, role: ApprovalRole, expiry: real)
    requires m < |calls| && Standing(Before(cfg, id, calls, m), digest, role, expiry)
    ensures if EndsApproval(calls, m, id, digest, role, expiry)
            then
              && Before(cfg, id, calls, m + 1).Some?
              && Before(cfg, id, calls, m + 1).value.record.state in {Consumed, ApprovalExpired, Frozen}
            else Standing(Before(cfg, id, calls, m + 1), digest, role, expiry)
  {
    BeforeNext(cfg, id, calls, m);
  }

  lemma {:induction false} StandsThrough(
    cfg: Config, id: string, calls: seq<Call>, j: nat, n: nat, digest: string, role: ApprovalRole, expiry: real)
    requires j <= n <= |calls| && Standing(Before(cfg, id, calls, j), digest, role, expiry)
    requires forall m :: j <= m < n ==> !EndsApproval(calls, m, id, digest, role, expiry)
    ensures Standing(Before(cfg, id, calls, n), digest, role, expiry)
    decreases n
  {
    if j < n {
      StandsThrough(cfg, id, calls, j, n - 1, digest, role, expiry);
      StandsUntilEnded(cfg, id, calls, n - 1, digest, role, expiry);
    }
  }

  /** If the approval still stands, nothing has ended it. */
  lemma {:induction false} NotEndedYet(
    cfg: Config, id: string, calls: seq<Call>, j: nat, n: nat, digest: string, role: ApprovalRole, expiry: real)
    requires j <= n <= |calls| && Standing(Before(cfg, id, calls, j), digest, role, expiry)
    requires Standing(Before(cfg, id, calls, n), digest, role, expiry)
    ensures forall m :: j <= m < n ==> !EndsApproval(calls, m, id, digest, role, expiry)
    decreases n - j
  {
    if j < n {
      StandsUntilEnded(cfg, id, calls, j, digest, role, expiry);
      if EndsApproval(calls, j, id, digest, role, expiry) {
        RowsOnlyAdvance(cfg, id, calls, j + 1, n);
      } else {
        NotEndedYet(cfg, id, calls, j + 1, n, digest, role, expiry);
      }
    }
  }

  /** The consumption was earned by the park at `i` and the approval at `j`. */
  ghost predicate Earns(cfg: Config, id: string, calls: seq<Call>, i: nat, j: nat, k: nat) {
    && i < j < k && OnRequest(calls, k, id) && calls[k].op.Consume?
    && FirstParkedAt(cfg, id, calls, i) && ApprovedAt(cfg, id, calls, j)
    && var digest, role, expiry := calls[i].op.digest, calls[i].op.role, calls[j].op.now + calls[j].op.ttl;
       && calls[k].op.consumeDigest == digest && calls[k].op.consumeRole == role
       && calls[k].op.approvalCheck < expiry && calls[k].op.finalCheck < expiry
       && forall m :: j < m < k ==> !EndsApproval(calls, m, id, digest, role, expiry)
  }

  /** What a row of the first park says stays with it. */
  lemma ParkedFor(cfg: Config, id: string, calls: seq<Call>, i: nat, n: nat)
    requires i < n <= |calls| && FirstParkedAt(cfg, id, calls, i)
    ensures Before(cfg, id, calls, n).Some?
    ensures Before(cfg, id, calls, n).value.record.digest == calls[i].op.digest
    ensures Before(cfg, id, calls, n).value.record.requiredRole == calls[i].op.role
  {
    ParksExactly(cfg, id, calls, i);
    RowsOnlyAdvance(cfg, id, calls, i + 1, n);
  }

  /** An approval that was given stands right after it. */
  lemma GivenStands(cfg: Config, id: string, calls: seq<Call>, i: nat, j: nat)
    requires i < j && FirstParkedAt(cfg, id, calls, i) && ApprovedAt(cfg, id, calls, j)
    ensures Standing(
              Before(cfg, id, calls, j + 1), calls[i].op.digest, calls[i].op.role, calls[j].op.now + calls[j].op.ttl)
  {
    ParkedFor(cfg, id, calls, i, j);
    ApprovesExactly(cfg, id, calls, j);
  }

  /** A consumption succeeds if and only if it names the digest and role the request was
      first parked with, after an approval that nothing has ended since and whose expiry
      neither of its two checks has reached. */
  lemma ConsumedExactly(cfg: Config, id: string, calls: seq<Call>, k: nat)
    ensures ConsumedAt(cfg, id, calls, k) <==> exists i, j :: Earns(cfg, id, calls, i, j, k)
  {
    if ConsumedAt(cfg, id, calls, k) {
      ConsumedWasEarned(cfg, id, calls, k);
    }
    if i, j :| Earns(cfg, id, calls, i, j, k) {
      EarnedIsConsumed(cfg, id, calls, i, j, k);
    }
  }

  lemma EarnedIsConsumed(cfg: Config, id: string, calls: seq<Call>, i: nat, j: nat, k: nat)
    requires Earns(cfg, id, calls, i, j, k)
    ensures ConsumedAt(cfg, id, calls, k)
  {
    GivenStands(cfg, id, calls, i, j);
    StandsThrough(
      cfg, id, calls, j + 1, k, calls[i].op.digest, calls[i].op.role, calls[j].op.now + calls[j].op.ttl);
    ConsumesExactly(cfg, id, calls, k);
  }

  lemma ConsumedWasEarned(cfg: Config, id: string, calls: seq<Call>, k: nat)
    requires ConsumedAt(cfg, id, calls, k)
    ensures exists i, j :: Earns(cfg, id, calls, i, j, k)
  {
    ConsumesExactly(cfg, id, calls, k);
    var i := Origin(cfg, id, calls, k);
    var j := ApprovalOf(cfg, id, calls, k);
    if j <= i {
      assert Before(cfg, id, calls, j).Some?;
      RowsOnlyAdvance(cfg, id, calls, j, i);
    }
    GivenStands(cfg, id, calls, i, j);
    NotEndedYet(
      cfg, id, calls, j + 1, k, calls[i].op.digest, calls[i].op.role, calls[j].op.now + calls[j].op.ttl);
    assert Earns(cfg, id, calls, i, j, k);
  }
}
