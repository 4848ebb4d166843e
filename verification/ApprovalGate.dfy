/** The in-memory approval inbox, the risk gateway and the gateway that adds one-shot
    approvals to it, run under the governed runtime. */
module ApprovalGate {
  import opened Contracts
  import opened GovernedRuntime

  datatype PendingApproval = PendingApproval(digest: string, role: ApprovalRole)

  datatype ApprovalRecord = ApprovalRecord(
    actorId: string,
    actorRole: ApprovalRole,
    digest: string,
    approvedAt: real,
    expiresAt: real,
    consumed: bool)

  datatype Inbox = Inbox(
    pending: map<string, PendingApproval>,
    approvals: map<string, ApprovalRecord>,
    frozenReason: Option<string>)

  datatype Risk = Allow | Review | Block

  /** The approver directory, the longest approval, and the risk of each known tool. */
  datatype Setup = Setup(approvers: map<ApprovalRole, set<string>>, maxTtl: real, risks: map<string, Risk>)

  function Get<T>(m: map<string, T>, id: string): Option<T> {
    if id in m then Some(m[id]) else None
  }

  predicate Accredited(setup: Setup, actorId: string, role: ApprovalRole) {
    role in setup.approvers && actorId in setup.approvers[role]
  }

  predicate CanPark(inbox: Inbox, id: string, wanted: PendingApproval) {
    !Blank(wanted.digest) && inbox.frozenReason.None? && Get(inbox.pending, id) in {None, Some(wanted)}
  }

  predicate CanApprove(setup: Setup, inbox: Inbox, id: string, p: Principal, ttl: real) {
    && !Blank(id) && 0.0 < ttl <= setup.maxTtl && inbox.frozenReason.None?
    && id in inbox.pending && id !in inbox.approvals
    && p.role == inbox.pending[id].role && Accredited(setup, p.actorId, p.role)
  }

  predicate CanConsume(inbox: Inbox, id: string, wanted: PendingApproval, now: real) {
    && inbox.frozenReason.None? && id in inbox.pending && id in inbox.approvals
    && inbox.pending[id] == wanted && !inbox.approvals[id].consumed
    && inbox.approvals[id].digest == wanted.digest && inbox.approvals[id].actorRole == wanted.role
    && now < inbox.approvals[id].expiresAt
  }

  function Parked(inbox: Inbox, id: string, wanted: PendingApproval): Inbox {
    inbox.(pending := inbox.pending[id := wanted])
  }

  function Approved(inbox: Inbox, id: string, p: Principal, ttl: real, now: real): Inbox
    requires id in inbox.pending
  {
    var record := ApprovalRecord(p.actorId, p.role, inbox.pending[id].digest, now, now + ttl, false);
    inbox.(approvals := inbox.approvals[id := record])
  }

  function Used(inbox: Inbox, id: string): Inbox
    requires id in inbox.approvals
  {
    inbox.(approvals := inbox.approvals[id := inbox.approvals[id].(consumed := true)])
  }

  class ApprovalInbox {
    const setup: Setup
    var pending: map<string, PendingApproval>
    var approvals: map<string, ApprovalRecord>
    var frozenReason: Option<string>

    constructor (setup: Setup)
      ensures this.setup == setup && Value() == Inbox(map[], map[], None)
    {
      this.setup := setup;
      pending, approvals, frozenReason := map[], map[], None;
    }

    function Value(): Inbox
      reads this
    {
      Inbox(pending, approvals, frozenReason)
    }

    method Freeze(reason: string) returns (raised: bool)
      modifies this
      ensures raised <==> Blank(reason)
      ensures Value() == if raised then old(Value()) else old(Value()).(frozenReason := Some(reason))
    {
      if Blank(reason) {
        return true;
      }
      frozenReason := Some(reason);
      return false;
    }

    method Park(action: Action, digest: string, role: ApprovalRole) returns (raised: bool)
      modifies this
      ensures var wanted := PendingApproval(digest, role);
              && raised == !CanPark(old(Value()), action.requestId, wanted)
              && Value() == if raised then old(Value()) else Parked(old(Value()), action.requestId, wanted)
    {
      if Blank(digest) || frozenReason.Some? {
        return true;
      }
      var wanted := PendingApproval(digest, role);
      if action.requestId in pending && pending[action.requestId] != wanted {
        return true;
      }
      pending := pending[action.requestId := wanted];
      return false;
    }

    method Approve(id: string, p: Principal, ttl: real, now: real) returns (record: Option<ApprovalRecord>)
      modifies this
      ensures record.Some? == CanApprove(setup, old(Value()), id, p, ttl)
      ensures Value() == if record.Some? then Approved(old(Value()), id, p, ttl, now) else old(Value())
      ensures record.Some? ==> approvals[id] == record.value
    {
      if Blank(id) || ttl <= 0.0 || ttl > setup.maxTtl || frozenReason.Some? || id !in pending {
        return None;
      }
      if p.role != pending[id].role {
        return None;
      }
      var allowed := if p.role in setup.approvers then setup.approvers[p.role] else {};
      if p.actorId !in allowed || id in approvals {
        return None;
      }
      approvals := approvals[id := ApprovalRecord(p.actorId, p.role, pending[id].digest, now, now + ttl, false)];
      return Some(approvals[id]);
    }

    method ConsumeIfApproved(action: Action, digest: string, role: ApprovalRole, now: real) returns (ok: bool)
      modifies this
      ensures ok == CanConsume(old(Value()), action.requestId, PendingApproval(digest, role), now)
      ensures Value() == if ok then Used(old(Value()), action.requestId) else old(Value())
    {
      var id := action.requestId;
      if frozenReason.Some? || id !in pending || id !in approvals || approvals[id].consumed {
        return false;
      }
      var parked, record := pending[id], approvals[id];
      if parked.role != role || parked.digest != digest || record.digest != digest
         || parked.role != record.actorRole || now >= record.expiresAt {
        return false;
      }
      approvals := approvals[id := record.(consumed := true)];
      return true;
    }

    method RecordFor(id: string) returns (record: Option<ApprovalRecord>)
      ensures record == Get(approvals, id)
    {
      record := Get(approvals, id);
    }
  }

  /** One `execute` call: the action, what the deployment's digest, role and validation
      functions say about it, what the tool would do, and the clock. */
  datatype Attempt = Attempt(
    action: Action,
    digest: string,
    role: Option<ApprovalRole>,
    invalid: Option<string>,
    outcome: HandlerOutcome,
    now: real)

  /** What a gateway call does: to the inbox, whether it enters the tool, how it ends. */
  datatype Decision = Decision(inbox: Inbox, entered: bool, reply: GatewayReply)

  function Refuse(a: Attempt, status: ExecutionStatus, reason: string): GatewayReply {
    Replied(GovernedExecution(status, a.action.requestId, Some(false), reason, None, false))
  }

  function Run(a: Attempt, reason: string): GatewayReply {
    match a.outcome
    case HandlerRaised(error) => GatewayRaised(error)
    case HandlerReturned(output) =>
      Replied(GovernedExecution(Executed, a.action.requestId, Some(true), reason, output, false))
  }

  function InvalidReason(reason: string): string {
    if reason == "" then "blocked_by_validation" else reason
  }

  /** A validation reason that is blank cannot be put into a result: building it raises. */
  function RefuseInvalid(a: Attempt, reason: string): GatewayReply {
    if Blank(reason) then GatewayRaised("ContractError") else Refuse(a, Blocked, reason)
  }

  predicate Reviewed(setup: Setup, a: Attempt) {
    a.action.toolName in setup.risks && setup.risks[a.action.toolName] == Review
  }

  function RiskDecision(setup: Setup, inbox: Inbox, a: Attempt): Decision {
    if a.invalid.Some? then Decision(inbox, false, RefuseInvalid(a, InvalidReason(a.invalid.value)))
    else if a.action.toolName !in setup.risks then Decision(inbox, false, GatewayRaised("ValueError"))
    else match setup.risks[a.action.toolName]
         case Block => Decision(inbox, false, Refuse(a, Blocked, "blocked_by_policy"))
         case Review => Decision(inbox, false, Refuse(a, ReviewRequired, "review_required"))
         case Allow => Decision(inbox, true, Run(a, "allow"))
  }

  function ReviewDecision(inbox: Inbox, a: Attempt, role: ApprovalRole): Decision {
    var id, wanted := a.action.requestId, PendingApproval(a.digest, role);
    if CanConsume(inbox, id, wanted, a.now) then Decision(Used(inbox, id), true, Run(a, "approved_review"))
    else if id in inbox.approvals && inbox.approvals[id].consumed then
      Decision(inbox, false, Refuse(a, Blocked, "approval_already_consumed"))
    else if id in inbox.approvals then Decision(inbox, false, Refuse(a, ControlFailure, "approval_role_mismatch"))
    else if CanPark(inbox, id, wanted) then
      Decision(Parked(inbox, id, wanted), false, Refuse(a, ReviewRequired, "review_required"))
    else Decision(inbox, false, GatewayRaised("ApprovalInboxError"))
  }

  function Decide(setup: Setup, inbox: Inbox, a: Attempt): (r: Decision)
    ensures !Blank(a.action.requestId) ==> ValidReply(r.reply)
  {
    Reasons(inbox);
    if inbox.frozenReason.Some? then
      Decision(inbox, false, Refuse(a, ControlFailure, "inbox_frozen:" + inbox.frozenReason.value))
    else if a.invalid.Some? || !Reviewed(setup, a) then RiskDecision(setup, inbox, a)
    else if a.role.None? then Decision(inbox, false, Refuse(a, ControlFailure, "approval_role_not_configured"))
    else ReviewDecision(inbox, a, a.role.value)
  }

  lemma Reasons(inbox: Inbox)
    ensures !Blank("blocked_by_policy") && !Blank("review_required") && !Blank("allow") && !Blank("approved_review")
    ensures !Blank("approval_already_consumed") && !Blank("approval_role_mismatch")
    ensures !Blank("approval_role_not_configured")
    ensures inbox.frozenReason.Some? ==> !Blank("inbox_frozen:" + inbox.frozenReason.value)
  {
    VisibleText("blocked_by_policy");
    VisibleText("review_required");
    VisibleText("allow");
    VisibleText("approved_review");
    VisibleText("approval_already_consumed");
    VisibleText("approval_role_mismatch");
    VisibleText("approval_role_not_configured");
    if inbox.frozenReason.Some? {
      VisibleText("inbox_frozen:" + inbox.frozenReason.value);
    }
  }

  function StatusOf(reply: GatewayReply, before: Option<ExecutionStatus>): Option<ExecutionStatus> {
    if reply.Replied? then Some(reply.execution.status) else before
  }

  class CompanyRiskGateway {
    const setup: Setup
    var actions: seq<Action>
    var handlerCalls: seq<string>
    var lastStatus: Option<ExecutionStatus>

    constructor (setup: Setup)
      ensures this.setup == setup && actions == [] && handlerCalls == [] && lastStatus == None
    {
      this.setup := setup;
      actions, handlerCalls, lastStatus := [], [], None;
    }

    method DecideAndExecute(ghost inbox: Inbox, a: Attempt, handler: OnceHandler) returns (reply: GatewayReply)
      requires handler.attempts == 0 && handler.outcome == a.outcome
      modifies this, handler
      ensures var d := RiskDecision(setup, inbox, a);
              && reply == d.reply && handler.attempts == (if d.entered then 1 else 0)
              && handler.entries == old(handler.entries) + handler.attempts
              && actions == old(actions) + [a.action]
              && handlerCalls == old(handlerCalls) + (if d.entered then [a.action.toolName] else [])
              && lastStatus == StatusOf(reply, old(lastStatus))
    {
      actions := actions + [a.action];
      var tool := a.action.toolName;
      if a.invalid.Some? {
        reply := RefuseInvalid(a, InvalidReason(a.invalid.value));
        if reply.GatewayRaised? {
          return;
        }
      } else if tool !in setup.risks {
        return GatewayRaised("ValueError");
      } else if setup.risks[tool] == Block {
        reply := Refuse(a, Blocked, "blocked_by_policy");
      } else if setup.risks[tool] == Review {
        reply := Refuse(a, ReviewRequired, "review_required");
      } else {
        handlerCalls := handlerCalls + [tool];
        var result := handler.Invoke();
        if result.HandlerRaised? {
          return GatewayRaised(result.error);
        }
        reply := Replied(GovernedExecution(Executed, a.action.requestId, Some(true), "allow", result.output, false));
      }
      lastStatus := Some(reply.execution.status);
    }
  }

  class ApprovalBoundedGateway {
    const inner: CompanyRiskGateway
    const inbox: ApprovalInbox
    var handlerCalls: seq<string>

    constructor (inner: CompanyRiskGateway, inbox: ApprovalInbox)
      ensures this.inner == inner && this.inbox == inbox && handlerCalls == []
    {
      this.inner, this.inbox := inner, inbox;
      handlerCalls := [];
    }

    method Answer(a: Attempt, status: ExecutionStatus, reason: string) returns (reply: GatewayReply)
      modifies inner
      ensures reply == Refuse(a, status, reason) && inner.lastStatus == Some(status)
      ensures inner.actions == old(inner.actions) && inner.handlerCalls == old(inner.handlerCalls)
    {
      reply := Refuse(a, status, reason);
      inner.lastStatus := Some(status);
    }

    /** Decides as stated, and notes what it did: an allowed tool before it runs, an approved
        one only after it returned. */
    method DecideAndExecute(a: Attempt, handler: OnceHandler) returns (reply: GatewayReply)
      requires handler.attempts == 0 && handler.outcome == a.outcome
      requires inner.setup == inbox.setup
      modifies this, inner, inbox, handler
      ensures var d := Decide(inbox.setup, old(inbox.Value()), a);
              && reply == d.reply && inbox.Value() == d.inbox
              && handler.attempts == (if d.entered then 1 else 0)
              && handler.entries == old(handler.entries) + handler.attempts
              && inner.actions == old(inner.actions) + (if old(inbox.frozenReason).Some? then [] else [a.action])
              && inner.handlerCalls == old(inner.handlerCalls)
                                       + (if d.entered && (!Reviewed(inbox.setup, a) || a.outcome.HandlerReturned?)
                                          then [a.action.toolName] else [])
              && handlerCalls == old(handlerCalls)
                                 + (if d.entered && Reviewed(inbox.setup, a) && a.outcome.HandlerReturned?
                                    then [a.action.toolName] else [])
              && (reply.Replied? ==> inner.lastStatus == Some(reply.execution.status))
    {
      if inbox.frozenReason.Some? {
        reply := Answer(a, ControlFailure, "inbox_frozen:" + inbox.frozenReason.value);
        return;
      }
      var first := inner.DecideAndExecute(inbox.Value(), a, handler);
      if first.GatewayRaised? || first.execution.status != ReviewRequired {
        return first;
      }
      if a.role.None? {
        reply := Answer(a, ControlFailure, "approval_role_not_configured");
        return;
      }
      var approved := inbox.ConsumeIfApproved(a.action, a.digest, a.role.value, a.now);
      if approved {
        reply := RunApproved(a, handler);
        return;
      }
      var record := inbox.RecordFor(a.action.requestId);
      if record.Some? && record.value.consumed {
        reply := Answer(a, Blocked, "approval_already_consumed");
        return;
      }
      if record.Some? {
        reply := Answer(a, ControlFailure, "approval_role_mismatch");
        return;
      }
      var raised := inbox.Park(a.action, a.digest, a.role.value);
      return if raised then GatewayRaised("ApprovalInboxError") else first;
    }

    /** The consumed approval is spent whether or not the tool raises. */
    method RunApproved(a: Attempt, handler: OnceHandler) returns (reply: GatewayReply)
      requires handler.attempts == 0 && handler.outcome == a.outcome
      modifies this`handlerCalls, inner`handlerCalls, inner`lastStatus, handler
      ensures reply == Run(a, "approved_review")
      ensures handler.attempts == 1 && handler.entries == old(handler.entries) + 1
      ensures reply.Replied? ==>
                && handlerCalls == old(handlerCalls) + [a.action.toolName]
                && inner.handlerCalls == old(inner.handlerCalls) + [a.action.toolName]
      ensures !reply.Replied? ==> handlerCalls == old(handlerCalls) && inner.handlerCalls == old(inner.handlerCalls)
      ensures reply.Replied? ==> inner.lastStatus == Some(Executed)
    {
      var result := handler.Invoke();
      if result.HandlerRaised? {
        return GatewayRaised(result.error);
      }
      handlerCalls := handlerCalls + [a.action.toolName];
      inner.handlerCalls := inner.handlerCalls + [a.action.toolName];
      inner.lastStatus := Some(Executed);
      return Replied(
          GovernedExecution(Executed, a.action.requestId, Some(true), "approved_review", result.output, false));
    }

    /** The runtime over this gateway. */
    method Execute(a: Attempt) returns (r: GovernedExecution, entered: bool)
      requires !Blank(a.action.requestId) && inner.setup == inbox.setup
      modifies this, inner, inbox
      ensures var d := Decide(inbox.setup, old(inbox.Value()), a);
              && inbox.Value() == d.inbox && entered == d.entered && r == Result(a, d)
    {
      var handler := new OnceHandler(a.outcome);
      var reply := DecideAndExecute(a, handler);
      r := Conclude(a.action, handler.attempts, false, reply);
      entered := handler.entries > 0;
    }
  }

  /** What the runtime makes of a decision of this gateway. */
  function Result(a: Attempt, d: Decision): (r: GovernedExecution)
    requires !Blank(a.action.requestId) && ValidReply(d.reply)
  {
    Conclude(a.action, if d.entered then 1 else 0, false, d.reply)
  }
}
