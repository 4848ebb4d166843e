/** What every call on the approval gate answers, read off the calls before it. */
module ApprovalAnswers {
  import opened Contracts
  import opened GovernedRuntime
  import opened ApprovalGate
  import opened ApprovalSafety

  /** A freeze with a reason was called before the k-th call. */
  predicate FrozenBy(calls: seq<Call>, k: nat) {
    exists j :: 0 <= j < k && j < |calls| && calls[j].Freeze? && !Blank(calls[j].reason)
  }

  lemma {:induction false} FrozenExactly(setup: Setup, calls: seq<Call>, k: nat)
    requires k <= |calls|
    ensures Before(setup, calls, k).frozenReason.Some? <==> FrozenBy(calls, k)
  {
    if k > 0 {
      FrozenExactly(setup, calls, k - 1);
      BeforeNext(setup, calls, k - 1);
      FreezeStep(setup, Before(setup, calls, k - 1), calls[k-1]);
    }
  }

  lemma FreezeStep(setup: Setup, inbox: Inbox, call: Call)
    ensures Step(setup, inbox, call).frozenReason.Some? <==>
            inbox.frozenReason.Some? || (call.Freeze? && !Blank(call.reason))
  {
  }

  /** A frozen inbox answers every execution with the reason of the last freeze. */
  lemma {:induction false} FrozenAnswer(setup: Setup, calls: seq<Call>, k: nat) returns (j: nat)
    requires k <= |calls| && FrozenBy(calls, k)
    ensures j < k && calls[j].Freeze? && !Blank(calls[j].reason)
    ensures forall i :: j < i < k && calls[i].Freeze? ==> Blank(calls[i].reason)
    ensures Before(setup, calls, k).frozenReason == Some(calls[j].reason)
    ensures k < |calls| && calls[k].Execute? ==>
              DecisionAt(setup, calls, k).reply
              == Refuse(calls[k].attempt, ControlFailure, "inbox_frozen:" + calls[j].reason)
  {
    BeforeNext(setup, calls, k - 1);
    if calls[k-1].Freeze? && !Blank(calls[k-1].reason) {
      j := k - 1;
    } else {
      j := FrozenAnswer(setup, calls, k - 1);
      FreezeStays(setup, Before(setup, calls, k - 1), calls[k-1]);
    }
  }

  lemma FreezeStays(setup: Setup, inbox: Inbox, call: Call)
    requires inbox.frozenReason.Some? && (call.Freeze? ==> Blank(call.reason))
    ensures Step(setup, inbox, call).frozenReason == inbox.frozenReason
  {
  }

  lemma ParkedExactlyThere(setup: Setup, calls: seq<Call>, n: nat, id: string)
    requires n <= |calls|
    ensures id in Before(setup, calls, n).pending <==> exists i :: 0 <= i < n && ParkedAt(setup, calls, i, id)
  {
    if id in Before(setup, calls, n).pending {
      var i := ParkOf(setup, calls, n, id);
    }
    if i :| 0 <= i < n && ParkedAt(setup, calls, i, id) {
      ParkIsRemembered(setup, calls, i, n, id);
    }
  }

  lemma ApprovedExactlyThere(setup: Setup, calls: seq<Call>, n: nat, id: string)
    requires n <= |calls|
    ensures id in Before(setup, calls, n).approvals <==> exists j :: 0 <= j < n && ApprovedAt(setup, calls, j, id)
  {
    if id in Before(setup, calls, n).approvals {
      var j := ApprovalOf(setup, calls, n, id);
    }
    if j :| 0 <= j < n && ApprovedAt(setup, calls, j, id) {
      ApprovalIsRemembered(setup, calls, j, n, id);
    }
  }

  /** An approval is spent exactly if the tool of its request was entered before. */
  lemma {:induction false} SpentExactly(setup: Setup, calls: seq<Call>, n: nat, id: string)
    requires n <= |calls|
    ensures id in Before(setup, calls, n).approvals && Before(setup, calls, n).approvals[id].consumed <==>
            exists m :: 0 <= m < n && ReviewEntered(setup, calls, m, id)
  {
    if m :| 0 <= m < n && ReviewEntered(setup, calls, m, id) {
      EntryConsumes(setup, calls, m, id);
      InboxOnlyAdvances(setup, calls, m + 1, n);
    } else if n > 0 {
      SpentExactly(setup, calls, n - 1, id);
      BeforeNext(setup, calls, n - 1);
      assert !ReviewEntered(setup, calls, n - 1, id);
      NewApprovalIsUnspent(setup, Before(setup, calls, n - 1), calls[n-1], id);
    }
  }

  lemma NewApprovalIsUnspent(setup: Setup, inbox: Inbox, call: Call, id: string)
    requires id in inbox.approvals ==> !inbox.approvals[id].consumed
    ensures id in Step(setup, inbox, call).approvals && Step(setup, inbox, call).approvals[id].consumed ==>
              && call.Execute? && call.attempt.action.requestId == id && Reviewed(setup, call.attempt)
              && Decide(setup, inbox, call.attempt).entered
  {
    if id in inbox.approvals {
      OnlyEntriesSpend(setup, inbox, call, id);
    }
  }

  // ---- Parking and approving ----

  /** The call asks for a review that can be parked: valid, with a role and a digest, on an
      inbox that is not frozen. */
  predicate AsksForReview(setup: Setup, calls: seq<Call>, k: nat, id: string) {
    && k < |calls| && calls[k].Execute? && calls[k].attempt.action.requestId == id
    && calls[k].attempt.invalid.None? && calls[k].attempt.action.toolName in setup.risks
    && setup.risks[calls[k].attempt.action.toolName] == Review && calls[k].attempt.role.Some?
    && !FrozenBy(calls, k)
  }

  /** A call parks its request, or finds it parked, exactly if it asks for a review with a
      digest, nobody approved the request yet, and it was never parked with another digest or
      role. */
  lemma ParksExactly(setup: Setup, calls: seq<Call>, k: nat, id: string)
    ensures ParkedAt(setup, calls, k, id) <==>
            && AsksForReview(setup, calls, k, id) && !Blank(calls[k].attempt.digest)
            && (forall j :: 0 <= j < k ==> !ApprovedAt(setup, calls, j, id))
            && (forall i :: 0 <= i < k && ParkedAt(setup, calls, i, id) ==>
                  calls[i].attempt.digest == calls[k].attempt.digest && calls[i].attempt.role == calls[k].attempt.role)
  {
    if k < |calls| && calls[k].Execute? && calls[k].attempt.action.requestId == id {
      FrozenExactly(setup, calls, k);
      ApprovedExactlyThere(setup, calls, k, id);
      ParkedExactlyThere(setup, calls, k, id);
      forall i | 0 <= i < k && ParkedAt(setup, calls, i, id)
        ensures Get(Before(setup, calls, k).pending, id)
                == Some(PendingApproval(calls[i].attempt.digest, calls[i].attempt.role.value))
      {
        ParkIsRemembered(setup, calls, i, k, id);
      }
      ParkDecision(setup, Before(setup, calls, k), calls[k].attempt);
    }
  }

  /** When a decision parks. */
  lemma ParkDecision(setup: Setup, inbox: Inbox, a: Attempt)
    ensures (&& Reviewed(setup, a) && a.role.Some?
             && Decide(setup, inbox, a).reply == Refuse(a, ReviewRequired, "review_required")) <==>
            && inbox.frozenReason.None? && a.invalid.None? && a.action.toolName in setup.risks
            && setup.risks[a.action.toolName] == Review && a.role.Some? && !Blank(a.digest)
            && a.action.requestId !in inbox.approvals
            && (a.action.requestId in inbox.pending ==>
                  inbox.pending[a.action.requestId] == PendingApproval(a.digest, a.role.value))
  {
  }

  /** An approval is recorded exactly if the inbox is not frozen, the lifetime is within the
      maximum, the request was parked for the role of the principal, the principal is in the
      directory for it, and nobody approved the request before. */
  lemma ApprovesExactly(setup: Setup, calls: seq<Call>, k: nat, id: string)
    ensures ApprovedAt(setup, calls, k, id) <==>
            && k < |calls| && calls[k].Approve? && calls[k].id == id && !Blank(id) && !FrozenBy(calls, k)
            && 0.0 < calls[k].ttl <= setup.maxTtl
            && calls[k].principal.role in setup.approvers
            && calls[k].principal.actorId in setup.approvers[calls[k].principal.role]
            && (forall j :: 0 <= j < k ==> !ApprovedAt(setup, calls, j, id))
            && (exists i :: 0 <= i < k && ParkedAt(setup, calls, i, id)
                            && calls[i].attempt.role == Some(calls[k].principal.role))
  {
    if k < |calls| && calls[k].Approve? && calls[k].id == id {
      FrozenExactly(setup, calls, k);
      ApprovedExactlyThere(setup, calls, k, id);
      if id in Before(setup, calls, k).pending {
        var i := ParkOf(setup, calls, k, id);
        assert Before(setup, calls, k).pending[id].role == calls[i].attempt.role.value;
      }
      if i :| 0 <= i < k && ParkedAt(setup, calls, i, id) && calls[i].attempt.role == Some(calls[k].principal.role) {
        ParkIsRemembered(setup, calls, i, k, id);
      }
    }
  }

  // ---- Entering the tool ----

  /** The call comes with an approval it may spend: parked with its digest and role, then
      approved, not expired, and not spent. */
  ghost predicate HoldsApproval(setup: Setup, calls: seq<Call>, k: nat, i: nat, j: nat) {
    && i < j < k < |calls| && calls[k].Execute? && calls[k].attempt.role.Some?
    && var a := calls[k].attempt;
    && ParkedAt(setup, calls, i, a.action.requestId) && ApprovedAt(setup, calls, j, a.action.requestId)
    && calls[i].attempt.digest == a.digest && calls[i].attempt.role == a.role
    && a.now < calls[j].now + calls[j].ttl
    && forall m :: 0 <= m < k ==> !ReviewEntered(setup, calls, m, a.action.requestId)
  }

  /** Over every sequence of calls the tool is entered exactly if the inbox is not frozen, the
      attempt is valid and its tool is known, and the tool is allowed, or needs a review and the
      call holds an approval. A blocked tool is never entered. */
  lemma EntersExactly(setup: Setup, calls: seq<Call>, k: nat)
    requires k < |calls| && calls[k].Execute?
    ensures var a := calls[k].attempt;
            Entered(setup, calls, k) <==>
            && !FrozenBy(calls, k) && a.invalid.None? && a.action.toolName in setup.risks
            && (|| setup.risks[a.action.toolName] == Allow
                || (setup.risks[a.action.toolName] == Review && exists i, j :: HoldsApproval(setup, calls, k, i, j)))
  {
    var a := calls[k].attempt;
    var id := a.action.requestId;
    FrozenExactly(setup, calls, k);
    EntryDecision(setup, Before(setup, calls, k), a);
    if ReviewEntered(setup, calls, k, id) {
      var i, j := ReviewEntryIsEarned(setup, calls, k, id);
      forall m | 0 <= m < k ensures !ReviewEntered(setup, calls, m, id) {
        if ReviewEntered(setup, calls, m, id) {
          ReviewEnteredAtMostOnce(setup, calls, m, k, id);
        }
      }
      assert HoldsApproval(setup, calls, k, i, j);
    }
    if i, j :| Reviewed(setup, a) && a.invalid.None? && !FrozenBy(calls, k) && HoldsApproval(setup, calls, k, i, j) {
      EarnedReviewEnters(setup, calls, i, j, k, id);
    }
  }

  /** When a decision enters the tool. */
  lemma EntryDecision(setup: Setup, inbox: Inbox, a: Attempt)
    ensures Decide(setup, inbox, a).entered ==>
              && inbox.frozenReason.None? && a.invalid.None? && a.action.toolName in setup.risks
              && setup.risks[a.action.toolName] in {Allow, Review}
    ensures (&& inbox.frozenReason.None? && a.invalid.None? && a.action.toolName in setup.risks
             && setup.risks[a.action.toolName] == Allow) ==> Decide(setup, inbox, a).entered
  {
  }

  // ---- What the caller is told ----

  /** The answer to a call whose tool is not one that needs a review. */
  lemma PlainAnswers(setup: Setup, calls: seq<Call>, k: nat)
    requires k < |calls| && calls[k].Execute? && !Blank(calls[k].attempt.action.requestId)
    ensures var a, r := calls[k].attempt, Result(calls[k].attempt, DecisionAt(setup, calls, k));
            && r.requestId == a.action.requestId && !r.retryable
            && (FrozenBy(calls, k) ==> r.status == ControlFailure)
            && (!FrozenBy(calls, k) && a.invalid.Some? ==>
                  if a.invalid.value == "" then r.status == Blocked && r.reason == "blocked_by_validation"
                  else if Blank(a.invalid.value) then r.status == ControlFailure
                  else r.status == Blocked && r.reason == a.invalid.value)
            && (!FrozenBy(calls, k) && a.invalid.None? && a.action.toolName !in setup.risks ==>
                  r.status == ControlFailure)
            && (!FrozenBy(calls, k) && a.invalid.None? && a.action.toolName in setup.risks ==>
                  match setup.risks[a.action.toolName]
                  case Block => r.status == Blocked && r.reason == "blocked_by_policy"
                  case Allow =>
                    if a.outcome.HandlerReturned?
                    then r.status == Executed && r.output == a.outcome.output && r.reason == "allow"
                    else r.status == Indeterminate
                  case Review => true)
  {
    FrozenExactly(setup, calls, k);
    VisibleText("blocked_by_validation");
  }

  /** The answer to a valid call whose tool needs a review, on an inbox that is not frozen. */
  lemma ReviewAnswers(setup: Setup, calls: seq<Call>, k: nat, id: string)
    requires k < |calls| && calls[k].Execute? && calls[k].attempt.action.requestId == id && !Blank(id)
    requires !FrozenBy(calls, k) && calls[k].attempt.invalid.None? && calls[k].attempt.action.toolName in setup.risks
    requires setup.risks[calls[k].attempt.action.toolName] == Review
    ensures var a, r := calls[k].attempt, Result(calls[k].attempt, DecisionAt(setup, calls, k));
            if a.role.None? then r.status == ControlFailure && r.reason == "approval_role_not_configured"
            else if Entered(setup, calls, k) then
              if a.outcome.HandlerReturned?
              then r.status == Executed && r.output == a.outcome.output && r.reason == "approved_review"
              else r.status == Indeterminate
            else if exists m :: 0 <= m < k && ReviewEntered(setup, calls, m, id) then
              r.status == Blocked && r.reason == "approval_already_consumed"
            else if exists j :: 0 <= j < k && ApprovedAt(setup, calls, j, id) then
              r.status == ControlFailure && r.reason == "approval_role_mismatch"
            else if ParkedAt(setup, calls, k, id) then r.status == ReviewRequired && r.reason == "review_required"
            else r.status == ControlFailure
  {
    FrozenExactly(setup, calls, k);
    SpentExactly(setup, calls, k, id);
    ApprovedExactlyThere(setup, calls, k, id);
    ReviewAnswer(setup, Before(setup, calls, k), calls[k].attempt);
  }

  lemma ReviewAnswer(setup: Setup, inbox: Inbox, a: Attempt)
    requires inbox.frozenReason.None? && a.invalid.None? && Reviewed(setup, a) && !Blank(a.action.requestId)
    ensures var d, r := Decide(setup, inbox, a), Result(a, Decide(setup, inbox, a));
            if a.role.None? then r.status == ControlFailure && r.reason == "approval_role_not_configured"
            else if d.entered then
              if a.outcome.HandlerReturned?
              then r.status == Executed && r.output == a.outcome.output && r.reason == "approved_review"
              else r.status == Indeterminate
            else if a.action.requestId in inbox.approvals then
              if inbox.approvals[a.action.requestId].consumed
              then r.status == Blocked && r.reason == "approval_already_consumed"
              else r.status == ControlFailure && r.reason == "approval_role_mismatch"
            else if d.reply == Refuse(a, ReviewRequired, "review_required")
            then r.status == ReviewRequired && r.reason == "review_required"
            else r.status == ControlFailure
  {
  }
}
