/** The governed execution entry point, against a gateway that may do anything. */
module GovernedRuntime {
  import opened Contracts

  datatype HandlerOutcome = HandlerRaised(error: string) | HandlerReturned(output: Option<string>)

  /** How the gateway's `decide_and_execute` ended. */
  datatype GatewayReply = GatewayRaised(exception: string) | NotAResult | Replied(execution: GovernedExecution)

  /** An execution result that exists has passed its constructor. */
  predicate ValidReply(reply: GatewayReply) {
    reply.Replied? ==> WellFormed(reply.execution)
  }

  /** The wrapper a gateway receives in place of the tool handler. */
  class OnceHandler {
    const outcome: HandlerOutcome
    var attempts: nat
    var entries: nat

    constructor (outcome: HandlerOutcome)
      ensures this.outcome == outcome && attempts == 0 && entries == 0
    {
      this.outcome := outcome;
      attempts, entries := 0, 0;
    }

    /** Only the first attempt enters the real handler. */
    method Invoke() returns (result: HandlerOutcome)
      modifies this
      ensures attempts == old(attempts) + 1
      ensures entries == old(entries) + if old(attempts) == 0 then 1 else 0
      ensures result == if old(attempts) == 0 then outcome else HandlerRaised("RuntimeError")
    {
      attempts := attempts + 1;
      if attempts > 1 {
        return HandlerRaised("RuntimeError");
      }
      entries := entries + 1;
      return outcome;
    }
  }

  function Failure(action: Action, attempts: nat, independent: bool, reason: string): (r: GovernedExecution)
    requires !Blank(action.requestId) && reason != "" && !IsSpace(reason[0])
    ensures WellFormed(r) && r.requestId == action.requestId
  {
    VisibleText(reason);
    if attempts > 0 || independent
    then GovernedExecution(Indeterminate, action.requestId, None, reason, None, false)
    else GovernedExecution(ControlFailure, action.requestId, Some(false), reason, None, false)
  }

  /** A reply that agrees with what the runtime saw happen. */
  predicate Honest(action: Action, attempts: nat, independent: bool, reply: GatewayReply) {
    && reply.Replied? && reply.execution.requestId == action.requestId
    && attempts == if reply.execution.status == Executed && !independent then 1 else 0
  }

  /** The judgement on a finished gateway call: an honest reply is passed on, and any
      other becomes a failure that says no more than is known. */
  function Conclude(action: Action, attempts: nat, independent: bool, reply: GatewayReply): (r: GovernedExecution)
    requires !Blank(action.requestId) && ValidReply(reply)
    ensures WellFormed(r) && r.requestId == action.requestId
    ensures Honest(action, attempts, independent, reply) ==> r == reply.execution
    ensures !Honest(action, attempts, independent, reply) ==>
              !r.retryable && r.status == if attempts > 0 || independent then Indeterminate else ControlFailure
  {
    if reply.GatewayRaised? then
      Failure(action, attempts, independent, "privatevault_gateway_error:" + reply.exception)
    else if reply.NotAResult? then Failure(action, attempts, independent, "invalid_gateway_result")
    else
      var result := reply.execution;
      if result.requestId != action.requestId then Failure(action, attempts, independent, "request_id_mismatch")
      else if result.status == Executed && attempts != (if independent then 0 else 1) then
        Failure(action, attempts, independent, "unproven_execution")
      else if result.status != Executed && attempts != 0 then
        Failure(action, attempts, independent, "tool_called_without_executed_status")
      else result
  }

  /** Any gateway at all: how often it calls the handler it is given, and how it ends. */
  datatype Gateway = Gateway(independent: bool, calls: nat, reply: GatewayReply)

  /** The gateway returned a result for this action, and its claim fits the handler calls: one
      for an execution through the handler, none for an execution elsewhere or no execution. */
  predicate Credible(action: Action, gateway: Gateway) {
    && gateway.reply.Replied? && gateway.reply.execution.requestId == action.requestId
    && (gateway.reply.execution.status != Executed ==> gateway.calls == 0)
    && (gateway.reply.execution.status == Executed ==> gateway.calls == if gateway.independent then 0 else 1)
  }

  /** Whatever the gateway does, the tool is entered at most once, the result is about this
      action, an execution claimed by a gateway that runs tools through the handler really
      happened, and a result that says the tool did not run, or may be retried, is right. A
      credible reply is returned as it is. */
  method Execute(action: Action, gateway: Gateway, outcome: HandlerOutcome)
    returns (r: GovernedExecution, entered: nat)
    requires !Blank(action.requestId) && ValidReply(gateway.reply)
    ensures entered == (if gateway.calls == 0 then 0 else 1)
    ensures WellFormed(r) && r.requestId == action.requestId
    ensures r.status == Executed && !gateway.independent ==> entered == 1
    ensures r.status == Executed && gateway.independent ==> entered == 0
    ensures r.status in {Blocked, ReviewRequired, ControlFailure} || r.retryable ==> entered == 0
    ensures entered == 1 ==> r.status in {Executed, Indeterminate}
    ensures Credible(action, gateway) ==> r == gateway.reply.execution
    ensures !Credible(action, gateway) ==>
              && r.status == (if gateway.calls > 0 || gateway.independent then Indeterminate else ControlFailure)
              && !r.retryable && r.output.None?
              && r.reason == match gateway.reply
                             case GatewayRaised(exception) => "privatevault_gateway_error:" + exception
                             case NotAResult => "invalid_gateway_result"
                             case Replied(e) =>
                               if e.requestId != action.requestId then "request_id_mismatch"
                               else if e.status == Executed then "unproven_execution"
                               else "tool_called_without_executed_status"
  {
    var handler := new OnceHandler(outcome);
    var called := 0;
    while called < gateway.calls
      invariant called <= gateway.calls && handler.attempts == called
      invariant handler.entries == if called == 0 then 0 else 1
    {
      var _ := handler.Invoke();
      called := called + 1;
    }
    r := Conclude(action, handler.attempts, gateway.independent, gateway.reply);
    entered := handler.entries;
  }
}
