/** Durable REVIEW parking with worker leases: the row of one request, the effect of each
    operation on it, and the store that performs them as transactions. Every clock
    reading an operation makes is one of its arguments, in the order of the readings. */
module ReviewStore {
  import opened Contracts

  datatype ReviewState = Parked | Leased | Approved | Consumed | ApprovalExpired | Frozen

  datatype EventKind =
    | ParkedEvent | LeasedEvent | LeaseRenewed | LeaseReleased | LeaseExpired
    | ApprovedEvent | ApprovalExpiredEvent | ConsumedEvent | FrozenEvent

  datatype ReviewEvent = ReviewEvent(kind: EventKind, state: ReviewState, version: nat)

  datatype ReviewRecord = ReviewRecord(
    digest: string,
    requiredRole: ApprovalRole,
    state: ReviewState,
    leaseOwner: Option<string>,
    leaseExpiresAt: Option<real>,
    actorId: Option<string>,
    approvedAt: Option<real>,
    approvalExpiresAt: Option<real>,
    consumedAt: Option<real>,
    frozenReason: Option<string>,
    version: nat)

  datatype Row = Row(record: ReviewRecord, log: seq<ReviewEvent>)

  datatype Config = Config(approvers: map<ApprovalRole, set<string>>, maxTtl: real, maxLease: real)

  datatype Op =
    | Park(digest: string, role: ApprovalRole)
    | ClaimLease(worker: string, window: Option<real>, expiryCheck: real, now: real)
    | ReleaseLease(releaser: string, expiryCheck: real)
    | Approve(principal: Principal, ttl: real, expiryCheck: real, now: real)
    | Consume(
        consumeDigest: string, consumeRole: ApprovalRole, approvalCheck: real, finalCheck: real, consumedNow: real)
    | Get(expiryCheck: real, approvalCheck: real)

  datatype Response = Raised | Found(record: ReviewRecord) | Missing | ConsumeResult(consumed: bool)

  datatype Result = Result(row: Option<Row>, response: Response)

  /** `_replace`: a new version of the record and one more event. */
  function Replace(row: Row, record: ReviewRecord, kind: EventKind): Row {
    var version := row.record.version + 1;
    Row(record.(version := version), row.log + [ReviewEvent(kind, record.state, version)])
  }

  function FirstRow(digest: string, role: ApprovalRole): Row {
    Row(ReviewRecord(digest, role, Parked, None, None, None, None, None, None, None, 1),
        [ReviewEvent(ParkedEvent, Parked, 1)])
  }

  predicate LeaseIsOver(r: ReviewRecord, now: real) {
    r.state == Leased && r.leaseExpiresAt.Some? && now >= r.leaseExpiresAt.value
  }

  predicate ApprovalIsOver(r: ReviewRecord, now: real) {
    r.state == Approved && r.approvalExpiresAt.Some? && now >= r.approvalExpiresAt.value
  }

  function Unleased(r: ReviewRecord, state: ReviewState): ReviewRecord {
    r.(state := state, leaseOwner := None, leaseExpiresAt := None)
  }

  function ExpireLease(row: Row, now: real): Row {
    if LeaseIsOver(row.record, now) then Replace(row, Unleased(row.record, Parked), LeaseExpired) else row
  }

  function ExpireApproval(row: Row, now: real): Row {
    if ApprovalIsOver(row.record, now)
    then Replace(row, row.record.(state := ApprovalExpired), ApprovalExpiredEvent) else row
  }

  function Lease(row: Row, worker: string, until: real, kind: EventKind): Row {
    Replace(row, row.record.(state := Leased, leaseOwner := Some(worker), leaseExpiresAt := Some(until)), kind)
  }

  function FreezeRow(row: Row, reason: string): Row {
    if row.record.state == Frozen then row
    else Replace(row, Unleased(row.record, Frozen).(frozenReason := Some(reason)), FrozenEvent)
  }

  function LeaseWindow(cfg: Config, window: Option<real>): real {
    if window.Some? then window.value else cfg.maxLease
  }

  predicate MayApprove(cfg: Config, r: ReviewRecord, p: Principal) {
    && p.role == r.requiredRole
    && p.role in cfg.approvers && p.actorId in cfg.approvers[p.role]
  }

  /** The effect of one operation on the row of its request. A raised operation is a
      rolled-back transaction: the row it returns is the row it was given. */
  function Perform(cfg: Config, row: Option<Row>, op: Op): Result {
    match op
    case Park(digest, role) => PerformPark(row, digest, role)
    case ClaimLease(worker, window, check, now) => PerformClaim(cfg, row, worker, window, check, now)
    case ReleaseLease(worker, check) => PerformRelease(row, worker, check)
    case Approve(principal, ttl, check, now) => PerformApprove(cfg, row, principal, ttl, check, now)
    case Consume(digest, role, check, final, now) => PerformConsume(row, digest, role, check, final, now)
    case Get(check, approvalCheck) =>
      if row.None? then Result(row, Missing)
      else
        var seen := ExpireApproval(ExpireLease(row.value, check), approvalCheck);
        Result(Some(seen), Found(seen.record))
  }

  function PerformPark(row: Option<Row>, digest: string, role: ApprovalRole): Result {
    if Blank(digest) then Result(row, Raised)
    else if row.None? then Result(Some(FirstRow(digest, role)), Found(FirstRow(digest, role).record))
    else
      var r := row.value.record;
      if r.state == Frozen || r.digest != digest || r.requiredRole != role then Result(row, Raised)
      else if r.state in {Parked, Leased, Approved} then Result(row, Found(r))
      else Result(row, Raised)
  }

  function PerformClaim(
    cfg: Config, row: Option<Row>, worker: string, window: Option<real>, check: real, now: real): Result
  {
    var length := LeaseWindow(cfg, window);
    if Blank(worker) || length <= 0.0 || length > cfg.maxLease || row.None? then Result(row, Raised)
    else
      var current := ExpireLease(row.value, check);
      var r := current.record;
      if r.state == Leased then
        if r.leaseOwner == Some(worker) && r.leaseExpiresAt.Some? && now < r.leaseExpiresAt.value then
          var renewed := Lease(current, worker, now + length, LeaseRenewed);
          Result(Some(renewed), Found(renewed.record))
        else Result(row, Raised)
      else if r.state != Parked then Result(row, Raised)
      else
        var leased := Lease(current, worker, now + length, LeasedEvent);
        Result(Some(leased), Found(leased.record))
  }

  function PerformRelease(row: Option<Row>, worker: string, check: real): Result {
    if row.None? then Result(row, Raised)
    else
      var current := ExpireLease(row.value, check);
      if current.record.state != Leased then Result(Some(current), Found(current.record))
      else if current.record.leaseOwner != Some(worker) then Result(row, Raised)
      else
        var parked := Replace(current, Unleased(current.record, Parked), LeaseReleased);
        Result(Some(parked), Found(parked.record))
  }

  function PerformApprove(
    cfg: Config, row: Option<Row>, p: Principal, ttl: real, check: real, now: real): Result
  {
    if ttl <= 0.0 || ttl > cfg.maxTtl || row.None? then Result(row, Raised)
    else
      var current := ExpireLease(row.value, check);
      if current.record.state !in {Parked, Leased} || !MayApprove(cfg, current.record, p) then Result(row, Raised)
      else
        var approved := Replace(
          current,
          Unleased(current.record, Approved).(
          actorId := Some(p.actorId), approvedAt := Some(now), approvalExpiresAt := Some(now + ttl)),
          ApprovedEvent);
        Result(Some(approved), Found(approved.record))
  }

  function PerformConsume(
    row: Option<Row>, digest: string, role: ApprovalRole, check: real, final: real, now: real): Result
  {
    if row.None? then Result(row, ConsumeResult(false))
    else
      var current := ExpireApproval(row.value, check);
      var r := current.record;
      if r.state != Approved || r.requiredRole != role || r.digest != digest then
        Result(Some(current), ConsumeResult(false))
      else if ApprovalIsOver(r, final) then
        Result(Some(ExpireApproval(current, final)), ConsumeResult(false))
      else
        var used := Replace(current, r.(state := Consumed, consumedAt := Some(now)), ConsumedEvent);
        Result(Some(used), ConsumeResult(true))
  }

  type Rows = map<string, Row>

  function LookupRow(rows: Rows, id: string): Option<Row> {
    if id in rows then Some(rows[id]) else None
  }

  class DurableReviewStore {
    const cfg: Config
    var rows: Rows

    constructor (cfg: Config)
      ensures this.cfg == cfg && rows == map[]
    {
      this.cfg := cfg;
      rows := map[];
    }

    /** Only the row of `id` changed, and it and the response are those of the operation. */
    twostate predicate Did(id: string, op: Op, response: Response)
      reads this
    {
      && Result(LookupRow(rows, id), response) == Perform(cfg, LookupRow(old(rows), id), op)
      && rows - {id} == old(rows) - {id}
    }

    method Store(id: string, row: Row)
      modifies this
      ensures rows == old(rows)[id := row]
    {
      rows := rows[id := row];
    }

    method ExpireLeaseIfNeeded(id: string, now: real)
      modifies this
      ensures id !in old(rows) ==> rows == old(rows)
      ensures id in old(rows) ==> rows == old(rows)[id := ExpireLease(old(rows)[id], now)]
    {
      if id in rows && LeaseIsOver(rows[id].record, now) {
        Store(id, Replace(rows[id], Unleased(rows[id].record, Parked), LeaseExpired));
      }
    }

    method ExpireApprovalIfNeeded(id: string, now: real)
      modifies this
      ensures id !in old(rows) ==> rows == old(rows)
      ensures id in old(rows) ==> rows == old(rows)[id := ExpireApproval(old(rows)[id], now)]
    {
      if id in rows && ApprovalIsOver(rows[id].record, now) {
        Store(id, Replace(rows[id], rows[id].record.(state := ApprovalExpired), ApprovalExpiredEvent));
      }
    }

    method ParkRequest(id: string, digest: string, role: ApprovalRole) returns (response: Response)
      modifies this
      ensures Did(id, Park(digest, role), response)
    {
      if Blank(digest) {
        return Raised;
      }
      if id in rows {
        var existing := rows[id].record;
        if existing.state == Frozen || existing.digest != digest || existing.requiredRole != role {
          return Raised;
        }
        if existing.state == Parked || existing.state == Leased || existing.state == Approved {
          return Found(existing);
        }
        return Raised;
      }
      var row := FirstRow(digest, role);
      Store(id, row);
      return Found(row.record);
    }

    method ClaimLeaseOf(id: string, worker: string, window: Option<real>, check: real, now: real)
      returns (response: Response)
      modifies this
      ensures Did(id, ClaimLease(worker, window, check, now), response)
      ensures response.Found? ==>
              && id in rows && rows[id].record == response.record && response.record.state == Leased
              && response.record.leaseOwner == Some(worker)
              && response.record.leaseExpiresAt == Some(now + if window == None then cfg.maxLease else window.value)
    {
      var length := LeaseWindow(cfg, window);
      if Blank(worker) || length <= 0.0 || length > cfg.maxLease {
        return Raised;
      }
      var begin := rows;
      ExpireLeaseIfNeeded(id, check);
      if id !in rows {
        return Raised;
      }
      var row := rows[id];
      if row.record.state == Leased {
        if row.record.leaseOwner == Some(worker) && row.record.leaseExpiresAt.Some?
           && now < row.record.leaseExpiresAt.value {
          Store(id, Lease(row, worker, now + length, LeaseRenewed));
          return Found(rows[id].record);
        }
        rows := begin;
        return Raised;
      }
      if row.record.state != Parked {
        rows := begin;
        return Raised;
      }
      Store(id, Lease(row, worker, now + length, LeasedEvent));
      return Found(rows[id].record);
    }

    method ReleaseLeaseOf(id: string, worker: string, check: real) returns (response: Response)
      modifies this
      ensures Did(id, ReleaseLease(worker, check), response)
    {
      var begin := rows;
      ExpireLeaseIfNeeded(id, check);
      if id !in rows {
        return Raised;
      }
      var row := rows[id];
      if row.record.state != Leased {
        return Found(row.record);
      }
      if row.record.leaseOwner != Some(worker) {
        rows := begin;
        return Raised;
      }
      Store(id, Replace(row, Unleased(row.record, Parked), LeaseReleased));
      return Found(rows[id].record);
    }

    method ApproveRequest(id: string, p: Principal, ttl: real, check: real, now: real) returns (response: Response)
      modifies this
      ensures Did(id, Approve(p, ttl, check, now), response)
      ensures response.Found? <==>
              && 0.0 < ttl <= cfg.maxTtl && id in old(rows) && old(rows)[id].record.state in {Parked, Leased}
              && p.role == old(rows)[id].record.requiredRole
              && p.role in cfg.approvers && p.actorId in cfg.approvers[p.role]
      ensures response.Found? ==>
              response.record == old(rows)[id].record.(
                                    state := Approved, leaseOwner := None, leaseExpiresAt := None,
                                    actorId := Some(p.actorId), approvedAt := Some(now),
                                    approvalExpiresAt := Some(now + ttl), version := response.record.version)
    {
      if ttl <= 0.0 || ttl > cfg.maxTtl {
        return Raised;
      }
      var begin := rows;
      ExpireLeaseIfNeeded(id, check);
      if id !in rows {
        return Raised;
      }
      var row := rows[id];
      if row.record.state != Parked && row.record.state != Leased {
        rows := begin;
        return Raised;
      }
      if p.role != row.record.requiredRole {
        rows := begin;
        return Raised;
      }
      var allowed := if p.role in cfg.approvers then cfg.approvers[p.role] else {};
      if p.actorId !in allowed {
        rows := begin;
        return Raised;
      }
      Store(
        id,
        Replace(
          row,
          Unleased(row.record, Approved).(
          actorId := Some(p.actorId), approvedAt := Some(now), approvalExpiresAt := Some(now + ttl)),
          ApprovedEvent));
      return Found(rows[id].record);
    }

    method ConsumeIfApproved(
      id: string, digest: string, role: ApprovalRole, check: real, final: real, now: real)
      returns (response: Response)
      modifies this
      ensures Did(id, Consume(digest, role, check, final, now), response)
      ensures response == ConsumeResult(true) <==>
              && id in old(rows) && var r := old(rows)[id].record;
              && r.state == Approved && r.digest == digest && r.requiredRole == role
              && (r.approvalExpiresAt.Some? ==>
                    check < r.approvalExpiresAt.value && final < r.approvalExpiresAt.value)
    {
      ExpireApprovalIfNeeded(id, check);
      if id !in rows {
        return ConsumeResult(false);
      }
      var row := rows[id];
      if row.record.state != Approved || row.record.requiredRole != role || row.record.digest != digest {
        return ConsumeResult(false);
      }
      if row.record.approvalExpiresAt.Some? && final >= row.record.approvalExpiresAt.value {
        Store(id, Replace(row, row.record.(state := ApprovalExpired), ApprovalExpiredEvent));
        return ConsumeResult(false);
      }
      Store(id, Replace(row, row.record.(state := Consumed, consumedAt := Some(now)), ConsumedEvent));
      return ConsumeResult(true);
    }

    method GetRequest(id: string, check: real, approvalCheck: real) returns (response: Response)
      modifies this
      ensures Did(id, Get(check, approvalCheck), response)
    {
      ExpireLeaseIfNeeded(id, check);
      ExpireApprovalIfNeeded(id, approvalCheck);
      if id !in rows {
        return Missing;
      }
      return Found(rows[id].record);
    }

    /** Every row that exists is frozen, once; requests without a row are not affected. */
    method Freeze(reason: string) returns (raised: bool)
      modifies this
      ensures raised <==> Blank(reason)
      ensures raised ==> rows == old(rows)
      ensures !raised ==> rows == map id | id in old(rows) :: FreezeRow(old(rows)[id], reason)
    {
      if Blank(reason) {
        return true;
      }
      var todo := rows.Keys;
      while todo != {}
        invariant rows.Keys == old(rows).Keys && todo <= rows.Keys
        invariant forall id :: id in rows ==>
          rows[id] == if id in todo then old(rows)[id] else FreezeRow(old(rows)[id], reason)
        decreases |todo|
      {
        var id :| id in todo;
        if rows[id].record.state != Frozen {
          Store(
            id, Replace(rows[id], Unleased(rows[id].record, Frozen).(frozenReason := Some(reason)), FrozenEvent));
        }
        todo := todo - {id};
      }
      return false;
    }
  }
}
