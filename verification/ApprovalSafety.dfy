/** What holds over every sequence of execute, approve and freeze calls on one inbox. */
module ApprovalSafety {
  import opened Contracts
  import opened GovernedRuntime
  import opened ApprovalGate

  datatype Call =
    | Execute(attempt: Attempt)
    | Approve(id: string, principal: Principal, ttl: real, now: real)
    | Freeze(reason: string)

  function Step(setup: Setup, inbox: Inbox, call: Call): Inbox {
    match call
    case Execute(a) => Decide(setup, inbox, a).inbox
    case Approve(id, p, ttl, now) =>
      if CanApprove(setup, inbox, id, p, ttl) then Approved(inbox, id, p, ttl, now) else inbox
    case Freeze(reason) => if Blank(reason) then inbox else inbox.(frozenReason := Some(reason))
  }

  function InboxAfter(setup: Setup, calls: seq<Call>): Inbox {
    if calls == [] then Inbox(map[], map[], None)
    else Step(setup, InboxAfter(setup, calls[..|calls|-1]), calls[|calls|-1])
  }

  /** The inbox the k-th call finds. */
  function Before(setup: Setup, calls: seq<Call>, k: nat): Inbox
    requires k <= |calls|
  {
    InboxAfter(setup, calls[..k])
  }

  lemma BeforeNext(setup: Setup, calls: seq<Call>, k: nat)
    requires k < |calls|
    ensures Before(setup, calls, k + 1) == Step(setup, Before(setup, calls, k), calls[k])
  {
    assert calls[..k+1][..k] == calls[..k];
  }

  /** What the gateway does in the k-th call. */
  function DecisionAt(setup: Setup, calls: seq<Call>, k: nat): Decision
    requires k < |calls| && calls[k].Execute?
  {
    Decide(setup, Before(setup, calls, k), calls[k].attempt)
  }

  predicate Entered(setup: Setup, calls: seq<Call>, k: nat) {
    k < |calls| && calls[k].Execute? && DecisionAt(setup, calls, k).entered
  }

  /** The tool of a REVIEW-class action is entered in the k-th call. */
  predicate ReviewEntered(setup: Setup, calls: seq<Call>, k: nat, id: string) {
    && Entered(setup, calls, k) && Reviewed(setup, calls[k].attempt)
    && calls[k].attempt.action.requestId == id
  }

  predicate ParkedAt(setup: Setup, calls: seq<Call>, k: nat, id: string) {
    && k < |calls| && calls[k].Execute? && calls[k].attempt.action.requestId == id
    && Reviewed(setup, calls[k].attempt) && calls[k].attempt.role.Some?
    && DecisionAt(setup, calls, k).reply == Refuse(calls[k].attempt, ReviewRequired, "review_required")
  }

  predicate ApprovedAt(setup: Setup, calls: seq<Call>, k: nat, id: string) {
    && k < |calls| && calls[k].Approve? && calls[k].id == id
    && CanApprove(setup, Before(setup, calls, k), id, calls[k].principal, calls[k].ttl)
  }

  /** Nothing recorded is ever taken back: parked requests and approvals stay as they
      are, a consumed approval stays consumed, and a frozen inbox stays frozen. */
  ghost predicate Later(inbox: Inbox, inbox': Inbox) {
    && (forall id :: id in inbox.pending ==> id in inbox'.pending && inbox'.pending[id] == inbox.pending[id])
    && (forall id :: id in inbox.approvals ==>
          && id in inbox'.approvals
          && inbox'.approvals[id] == inbox.approvals[id].(consumed := inbox'.approvals[id].consumed)
          && (inbox.approvals[id].consumed ==> inbox'.approvals[id].consumed))
    && (inbox.frozenReason.Some? ==> inbox'.frozenReason.Some?)
  }

  lemma StepLater(setup: Setup, inbox: Inbox, call: Call)
    ensures Later(inbox, Step(setup, inbox, call))
  {
  }

  lemma {:induction false} InboxOnlyAdvances(setup: Setup, calls: seq<Call>, a: nat, b: nat)
    requires a <= b <= |calls|
    ensures Later(Before(setup, calls, a), Before(setup, calls, b))
    decreases b
  {
    if a < b {
      InboxOnlyAdvances(setup, calls, a, b - 1);
      BeforeNext(setup, calls, b - 1);
      StepLater(setup, Before(setup, calls, b - 1), calls[b-1]);
      LaterTransitive(Before(setup, calls, a), Before(setup, calls, b - 1), Before(setup, calls, b));
    }
  }

  lemma LaterTransitive(x: Inbox, y: Inbox, z: Inbox)
    requires Later(x, y) && Later(y, z)
    ensures Later(x, z)
  {
  }

  /** A REVIEW-class tool is entered exactly by spending the approval of its request. */
  lemma EntryConsumes(setup: Setup, calls: seq<Call>, k: nat, id: string)
    requires ReviewEntered(setup, calls, k, id)
    ensures var a, inbox := calls[k].attempt, Before(setup, calls, k);
            && a.role.Some? && CanConsume(inbox, id, PendingApproval(a.digest, a.role.value), a.now)
            && id in Before(setup, calls, k + 1).approvals && Before(setup, calls, k + 1).approvals[id].consumed
  {
    BeforeNext(setup, calls, k);
  }

  /** At most one entry per request id, whatever the tool did when it was entered. */
  lemma ReviewEnteredAtMostOnce(setup: Setup, calls: seq<Call>, a: nat, b: nat, id: string)
    requires ReviewEntered(setup, calls, a, id) && ReviewEntered(setup, calls, b, id)
    ensures a == b
  {
    EntryConsumes(setup, calls, a, id);
    EntryConsumes(setup, calls, b, id);
    if a < b {
      InboxOnlyAdvances(setup, calls, a + 1, b);
    } else if b < a {
      InboxOnlyAdvances(setup, calls, b + 1, a);
    }
  }

  /** The reason for which validation refuses the action, if it does, is not blank. */
  predicate RefusalCanBeSaid(a: Attempt) {
    a.invalid.Some? ==> !Blank(InvalidReason(a.invalid.value))
  }

  /** Once entered, the same request is refused for good, also when the tool raised: each
      later call is blocked, or fails because the inbox was frozen, no role is configured or
      the reason of the refusal is blank. */
  lemma EntryIsRefusedLater(setup: Setup, calls: seq<Call>, a: nat, b: nat, id: string)
    requires ReviewEntered(setup, calls, a, id) && a < b < |calls| && calls[b].Execute?
    requires calls[b].attempt.action.requestId == id && !Blank(id) && Reviewed(setup, calls[b].attempt)
    ensures var d := DecisionAt(setup, calls, b);
            && !d.entered && d.inbox == Before(setup, calls, b)
            && Result(calls[b].attempt, d).status in {Blocked, ControlFailure}
            && (Before(setup, calls, b).frozenReason.None? && calls[b].attempt.role.Some?
                && RefusalCanBeSaid(calls[b].attempt) ==>
                  Result(calls[b].attempt, d).status == Blocked)
  {
    EntryConsumes(setup, calls, a, id);
    InboxOnlyAdvances(setup, calls, a + 1, b);
  }

  lemma {:induction false} ParkOf(setup: Setup, calls: seq<Call>, n: nat, id: string) returns (i: nat)
    requires n <= |calls| && id in Before(setup, calls, n).pending
    ensures i < n && ParkedAt(setup, calls, i, id)
    ensures Before(setup, calls, n).pending[id] ==
            PendingApproval(calls[i].attempt.digest, calls[i].attempt.role.value)
    ensures id in Before(setup, calls, i + 1).pending
    ensures id !in Before(setup, calls, i).pending
    decreases n
  {
    BeforeNext(setup, calls, n - 1);
    StepLater(setup, Before(setup, calls, n - 1), calls[n-1]);
    if id in Before(setup, calls, n - 1).pending {
      i := ParkOf(setup, calls, n - 1, id);
    } else {
      i := n - 1;
    }
  }

  lemma {:induction false} ApprovalOf(setup: Setup, calls: seq<Call>, n: nat, id: string) returns (j: nat)
    requires n <= |calls| && id in Before(setup, calls, n).approvals
    ensures j < n && ApprovedAt(setup, calls, j, id)
    ensures var record := Before(setup, calls, n).approvals[id];
            && record.actorId == calls[j].principal.actorId && record.actorRole == calls[j].principal.role
            && record.expiresAt == calls[j].now + calls[j].ttl
    decreases n
  {
    BeforeNext(setup, calls, n - 1);
    StepLater(setup, Before(setup, calls, n - 1), calls[n-1]);
    if id in Before(setup, calls, n - 1).approvals {
      j := ApprovalOf(setup, calls, n - 1, id);
    } else {
      j := n - 1;
    }
  }

  /** A REVIEW-class tool is only ever entered after the request was parked with this very
      digest and role, then approved by an accredited actor of that role, and while that
      approval had not expired. */
  lemma ReviewEntryIsEarned(setup: Setup, calls: seq<Call>, k: nat, id: string) returns (i: nat, j: nat)
    requires ReviewEntered(setup, calls, k, id)
    ensures i < j < k && ParkedAt(setup, calls, i, id) && ApprovedAt(setup, calls, j, id)
    ensures calls[i].attempt.digest == calls[k].attempt.digest && calls[i].attempt.role == calls[k].attempt.role
    ensures Some(calls[j].principal.role) == calls[i].attempt.role
    ensures Accredited(setup, calls[j].principal.actorId, calls[j].principal.role)
    ensures 0.0 < calls[j].ttl <= setup.maxTtl && calls[k].attempt.now < calls[j].now + calls[j].ttl
  {
    EntryConsumes(setup, calls, k, id);
    i := ParkOf(setup, calls, k, id);
    j := ApprovalOf(setup, calls, k, id);
    if j <= i {
      InboxOnlyAdvances(setup, calls, j, i);
    }
  }

  lemma OnlyEntriesSpend(setup: Setup, inbox: Inbox, call: Call, id: string)
    requires id in inbox.approvals && !inbox.approvals[id].consumed
    ensures id in Step(setup, inbox, call).approvals
    ensures Step(setup, inbox, call).approvals[id].consumed ==>
              && call.Execute? && call.attempt.action.requestId == id && Reviewed(setup, call.attempt)
              && Decide(setup, inbox, call.attempt).entered
  {
  }

  lemma {:induction false} UnspentStays(setup: Setup, calls: seq<Call>, j: nat, k: nat, id: string)
    requires ApprovedAt(setup, calls, j, id) && j < k <= |calls|
    requires forall m :: j < m < k ==> !ReviewEntered(setup, calls, m, id)
    ensures id in Before(setup, calls, k).approvals && !Before(setup, calls, k).approvals[id].consumed
    decreases k
  {
    BeforeNext(setup, calls, k - 1);
    if j < k - 1 {
      UnspentStays(setup, calls, j, k - 1, id);
      assert !ReviewEntered(setup, calls, k - 1, id);
      OnlyEntriesSpend(setup, Before(setup, calls, k - 1), calls[k-1], id);
    }
  }

  /** The converse: with the approval given, unspent and unexpired, and the inbox not frozen,
      a valid call with the parked digest and role does enter the tool. */
  lemma EarnedReviewEnters(setup: Setup, calls: seq<Call>, i: nat, j: nat, k: nat, id: string)
    requires i < j < k < |calls| && ParkedAt(setup, calls, i, id) && ApprovedAt(setup, calls, j, id)
    requires calls[k].Execute? && calls[k].attempt.action.requestId == id && Reviewed(setup, calls[k].attempt)
    requires calls[k].attempt.invalid.None? && Before(setup, calls, k).frozenReason.None?
    requires calls[k].attempt.digest == calls[i].attempt.digest && calls[k].attempt.role == calls[i].attempt.role
    requires calls[k].attempt.now < calls[j].now + calls[j].ttl
    requires forall m :: j < m < k ==> !ReviewEntered(setup, calls, m, id)
    ensures ReviewEntered(setup, calls, k, id)
  {
    ParkIsRemembered(setup, calls, i, k, id);
    ApprovalIsRemembered(setup, calls, j, k, id);
    UnspentStays(setup, calls, j, k, id);
    ParkIsRemembered(setup, calls, i, j, id);
  }

  lemma ParkIsRemembered(setup: Setup, calls: seq<Call>, i: nat, n: nat, id: string)
    requires ParkedAt(setup, calls, i, id) && i < n <= |calls|
    ensures Get(Before(setup, calls, n).pending, id) ==
            Some(PendingApproval(calls[i].attempt.digest, calls[i].attempt.role.value))
  {
    BeforeNext(setup, calls, i);
    InboxOnlyAdvances(setup, calls, i + 1, n);
  }

  lemma ApprovalIsRemembered(setup: Setup, calls: seq<Call>, j: nat, n: nat, id: string)
    requires ApprovedAt(setup, calls, j, id) && j < n <= |calls|
    ensures id in Before(setup, calls, n).approvals
    ensures var record := Before(setup, calls, n).approvals[id];
            && record.digest == Before(setup, calls, j).pending[id].digest
            && record.actorRole == Before(setup, calls, j).pending[id].role
            && record.expiresAt == calls[j].now + calls[j].ttl
  {
    BeforeNext(setup, calls, j);
    InboxOnlyAdvances(setup, calls, j + 1, n);
  }

  /** After an accepted freeze no call enters any tool, and every execution is a failure
      before the tool; nothing more is parked or approved. */
  lemma FrozenInboxNeverDispatches(setup: Setup, calls: seq<Call>, f: nat, k: nat)
    requires f < k < |calls| && calls[f].Freeze? && !Blank(calls[f].reason)
    ensures !Entered(setup, calls, k)
    ensures calls[k].Execute? && !Blank(calls[k].attempt.action.requestId) ==>
              Result(calls[k].attempt, DecisionAt(setup, calls, k)).status == ControlFailure
    ensures Before(setup, calls, k + 1).pending == Before(setup, calls, f).pending
    ensures Before(setup, calls, k + 1).approvals == Before(setup, calls, f).approvals
  {
    BeforeNext(setup, calls, f);
    FrozenStays(setup, calls, f + 1, k);
    BeforeNext(setup, calls, k);
  }

  lemma {:induction false} FrozenStays(setup: Setup, calls: seq<Call>, a: nat, b: nat)
    requires a <= b <= |calls| && Before(setup, calls, a).frozenReason.Some?
    ensures var x, y := Before(setup, calls, a), Before(setup, calls, b);
            y.frozenReason.Some? && y.pending == x.pending && y.approvals == x.approvals
    decreases b
  {
    if a < b {
      FrozenStays(setup, calls, a, b - 1);
      BeforeNext(setup, calls, b - 1);
    }
  }

  /** The runtime tells the caller the truth about this gateway: executed exactly when the
      tool was entered and returned, indeterminate exactly when it was entered and raised. */
  lemma ResultsAreTruthful(setup: Setup, calls: seq<Call>, k: nat)
    requires k < |calls| && calls[k].Execute? && !Blank(calls[k].attempt.action.requestId)
    ensures var a, r := calls[k].attempt, Result(calls[k].attempt, DecisionAt(setup, calls, k));
            && r.requestId == a.action.requestId
            && (r.status == Executed <==> Entered(setup, calls, k) && a.outcome.HandlerReturned?)
            && (r.status == Executed ==> r.output == a.outcome.output)
            && (r.status == Indeterminate <==> Entered(setup, calls, k) && a.outcome.HandlerRaised?)
  {
  }
}
