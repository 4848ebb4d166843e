/** The agent loop as it would read without stores, workers or crashes: a function of
    the model and the governed runtime. */
module AgentReference {
  import opened Contracts
  import opened History
  import opened DurableRecords
  import opened DurableWorker

  /** What a check for cancellation and deadline finds. */
  datatype Halt = Go | Cancel | Expire

  /** The checks of one turn: at its top, after the model, and before a dispatch. */
  datatype TurnSignals = TurnSignals(top: Halt, returned: Halt, dispatch: Halt)

  /** A deterministic model and a deterministic governed runtime, and what the checks of
      each turn find. */
  datatype Oracle = Oracle(
    model: seq<Message> -> ModelReply,
    runtime: Action -> GovernedExecution,
    signals: nat -> TurnSignals)

  function HaltStatus(halt: Halt): RunStatus {
    if halt == Cancel then StatusCancelled else TimedOut
  }

  /** Nothing is ever cancelled or late. */
  ghost predicate Calm(o: Oracle) {
    forall step :: o.signals(step) == TurnSignals(Go, Go, Go)
  }

  ghost predicate ValidOracle(o: Oracle) {
    forall a: Action :: !Blank(a.requestId) ==>
      WellFormed(o.runtime(a)) && o.runtime(a).requestId == a.requestId
  }

  datatype Summary = Summary(status: RunStatus, finalText: Option<string>, toolCalls: nat, modelTurns: nat)

  function FirstMessages(s: Session): seq<Message> {
    AddKnowledge(s, [Text(SystemRole, s.profile.instructions), Text(UserRole, s.task)])
  }

  /** The whole run, for a task within its limit. */
  function AgentRun(d: Deployment, o: Oracle, s: Session): Summary {
    if !ToolsRegistered(s) then Summary(ModelFailure, None, 0, 0)
    else TurnFrom(d, o, s, 1, FirstMessages(s), 0, 0)
  }

  /** The same oracle for a loop that does not check before a dispatch. */
  function NoDispatchCheck(o: Oracle): Oracle {
    o.(signals := (step: nat) => o.signals(step).(dispatch := Go))
  }

  /** From the top of turn `step` on. */
  function TurnFrom(
    d: Deployment, o: Oracle, s: Session, step: nat, messages: seq<Message>, calls: nat, turns: nat): Summary
    decreases s.profile.maxModelTurns + 1 - step, 3
  {
    if step > s.profile.maxModelTurns then Summary(LimitReached, None, calls, turns)
    else if o.signals(step).top != Go then Summary(HaltStatus(o.signals(step).top), None, calls, turns)
    else if |messages| > s.profile.limits.maxContextMessages then Summary(LimitReached, None, calls, turns)
    else
      match o.model(messages)
      case Fails => Summary(ModelFailure, None, calls, turns)
      case Replies(output) => AfterReply(d, o, s, step, messages, calls, turns + 1, output)
  }

  /** From the model's output on. */
  function AfterReply(
    d: Deployment, o: Oracle, s: Session, step: nat, messages: seq<Message>, calls: nat, turns: nat,
    output: ModelOutput): Summary
    requires step <= s.profile.maxModelTurns
    decreases s.profile.maxModelTurns + 1 - step, 2
  {
    if o.signals(step).returned != Go then Summary(HaltStatus(o.signals(step).returned), None, calls, turns)
    else match output
    case TextOutput(text) =>
      if |text| > s.profile.limits.maxModelTextChars then Summary(InvalidModelResponse, None, calls, turns)
      else Summary(StatusCompleted, Some(text), calls, turns)
    case Unsupported => Summary(InvalidModelResponse, None, calls, turns)
    case CallOutput(call) =>
      match Refusal(d, s, step, messages, calls, call, o.signals(step).dispatch)
      case Some(status) => Summary(status, None, calls, turns)
      case None => DispatchFrom(d, o, s, step, messages + [Call(call)], call, calls, turns)
  }

  /** Why a proposed call is not prepared, if it is not. */
  function Refusal(
    d: Deployment, s: Session, step: nat, messages: seq<Message>, calls: nat, call: ToolCall, halt: Halt)
    : Option<RunStatus>
  {
    if call.name !in s.profile.permitted || call.name !in s.tools then Some(InvalidModelResponse)
    else if calls >= s.profile.maxToolCalls then Some(LimitReached)
    else if s.toolsBlocked then Some(ToolFailure)
    else if halt != Go then Some(HaltStatus(halt))
    else if !ValidHistory(messages + [Call(call)], true) then Some(InvalidModelResponse)
    else if !d.captures(call, d.requestId(s.runId, step)) then Some(InvalidModelResponse)
    else None
  }

  /** From the dispatch of the open call on; `messages` ends with that call. */
  function DispatchFrom(
    d: Deployment, o: Oracle, s: Session, step: nat, messages: seq<Message>, call: ToolCall,
    calls: nat, turns: nat): Summary
    requires call.name in s.tools && step <= s.profile.maxModelTurns
    decreases s.profile.maxModelTurns + 1 - step, 1
  {
    var e := o.runtime(ActionFor(s, s.runId, call, d.requestId(s.runId, step)));
    AfterExecution(d, o, s, step, messages, call, e.status, e.output, calls + 1, turns, false)
  }

  /** From a finished execution on; a resumed worker adds its knowledge after the result. */
  function AfterExecution(
    d: Deployment, o: Oracle, s: Session, step: nat, messages: seq<Message>, call: ToolCall,
    status: ExecutionStatus, output: Option<string>, calls: nat, turns: nat, resumed: bool): Summary
    requires step <= s.profile.maxModelTurns
    decreases s.profile.maxModelTurns + 1 - step, 0
  {
    var observation := d.render(d.requestId(s.runId, step), output);
    if status != Executed then Summary(RejectionStatus(status), None, calls, turns)
    else if |observation| > s.profile.limits.maxObservationChars then Summary(LimitReached, None, calls, turns)
    else
      var answered := messages + [Result(observation, call.callId, call.name)];
      TurnFrom(d, o, s, step + 1, if resumed then AddKnowledge(s, answered) else answered, calls, turns)
  }

  /** What a single worker makes of a stored, unfinished run. */
  function ResumeSummary(d: Deployment, o: Oracle, s: Session, r: StoredRunRecord): Summary
    requires r.state == Running || r.state == ToolPrepared || r.state == ToolCompleted
    requires r.state != Running ==> EndsWithCall(r.messages)
    requires r.state == ToolPrepared ==> r.pending.action.Some?
    requires r.state == ToolCompleted ==> r.pending.status.Some?
  {
    if !ToolsRegistered(s) then Summary(ModelFailure, None, r.toolCalls, r.modelTurns)
    else if r.state == Running then
      TurnFrom(d, o, s, r.nextStep, AddKnowledge(s, r.messages), r.toolCalls, r.modelTurns)
    else if r.nextStep > s.profile.maxModelTurns then Summary(LimitReached, None, r.toolCalls, r.modelTurns)
    else if o.signals(r.nextStep).top != Go then
      Summary(HaltStatus(o.signals(r.nextStep).top), None, r.toolCalls, r.modelTurns)
    else if |r.messages| > s.profile.limits.maxContextMessages then
      Summary(LimitReached, None, r.toolCalls, r.modelTurns)
    else
      var call := r.messages[|r.messages|-1].call;
      if r.state == ToolCompleted then
        AfterExecution(
          d, o, s, r.nextStep, r.messages, call, r.pending.status.value, r.pending.output,
          r.toolCalls, r.modelTurns, true)
      else if s.toolsBlocked then Summary(ToolFailure, None, r.toolCalls, r.modelTurns)
      else if o.signals(r.nextStep).dispatch != Go then
        Summary(HaltStatus(o.signals(r.nextStep).dispatch), None, r.toolCalls, r.modelTurns)
      else
        var e := o.runtime(r.pending.action.value);
        AfterExecution(
          d, o, s, r.nextStep, r.messages, call, e.status, e.output, r.toolCalls + 1, r.modelTurns, true)
  }

  // ---- The check before a dispatch ----

  /** What a dispatched call of turn `step` leads to: the answered history, if the run goes on. */
  function Answered(
    d: Deployment, o: Oracle, s: Session, step: nat, messages: seq<Message>, call: ToolCall): Option<seq<Message>>
    requires call.name in s.tools
  {
    var e := o.runtime(ActionFor(s, s.runId, call, d.requestId(s.runId, step)));
    var observation := d.render(d.requestId(s.runId, step), e.output);
    if e.status != Executed || |observation| > s.profile.limits.maxObservationChars then None
    else Some(messages + [Call(call)] + [Result(observation, call.callId, call.name)])
  }

  /** The call a turn proposes, if the turn gets as far as the check before a dispatch. */
  function ReachesCheck(o: Oracle, s: Session, step: nat, messages: seq<Message>, calls: nat): Option<ToolCall> {
    if step > s.profile.maxModelTurns || o.signals(step).top != Go
       || |messages| > s.profile.limits.maxContextMessages then None
    else
      match o.model(messages)
      case Replies(CallOutput(call)) =>
        if o.signals(step).returned != Go || call.name !in s.profile.permitted || call.name !in s.tools
           || calls >= s.profile.maxToolCalls || s.toolsBlocked then None
        else Some(call)
      case _ => None
  }

  /** Followed from turn `step` on, the run comes to a check before a dispatch that finds
      something. */
  predicate CheckFires(d: Deployment, o: Oracle, s: Session, step: nat, messages: seq<Message>, calls: nat)
    decreases s.profile.maxModelTurns + 1 - step
  {
    var reached := ReachesCheck(o, s, step, messages, calls);
    reached.Some? &&
    (|| o.signals(step).dispatch != Go
     || (&& Refusal(d, s, step, messages, calls, reached.value, Go) == None
         && Answered(d, o, s, step, messages, reached.value).Some?
         && CheckFires(d, o, s, step + 1, Answered(d, o, s, step, messages, reached.value).value, calls + 1)))
  }

  /** A turn that gets to the check and passes it is dispatched, and answered or ended. */
  lemma TurnPastCheck(
    d: Deployment, o: Oracle, s: Session, step: nat, messages: seq<Message>, calls: nat, turns: nat, call: ToolCall)
    requires ReachesCheck(o, s, step, messages, calls) == Some(call) && o.signals(step).dispatch == Go
    ensures var refused := Refusal(d, s, step, messages, calls, call, Go);
            var answered := Answered(d, o, s, step, messages, call);
            var e := o.runtime(ActionFor(s, s.runId, call, d.requestId(s.runId, step)));
            TurnFrom(d, o, s, step, messages, calls, turns)
            == if refused.Some? then Summary(refused.value, None, calls, turns + 1)
               else if answered.Some? then TurnFrom(d, o, s, step + 1, answered.value, calls + 1, turns + 1)
               else Summary(
                      if e.status != Executed then RejectionStatus(e.status) else LimitReached, None, calls + 1,
                      turns + 1)
  {
    var open := messages + [Call(call)];
    assert TurnFrom(d, o, s, step, messages, calls, turns)
        == AfterReply(d, o, s, step, messages, calls, turns + 1, CallOutput(call));
    if Refusal(d, s, step, messages, calls, call, Go).None? {
      assert AfterReply(d, o, s, step, messages, calls, turns + 1, CallOutput(call))
          == DispatchFrom(d, o, s, step, open, call, calls, turns + 1);
    }
  }

  lemma {:induction false} CallsOnlyGrow(
    d: Deployment, o: Oracle, s: Session, step: nat, messages: seq<Message>, calls: nat, turns: nat)
    requires forall k :: o.signals(k).dispatch == Go
    ensures TurnFrom(d, o, s, step, messages, calls, turns).toolCalls >= calls
    decreases s.profile.maxModelTurns + 1 - step
  {
    var reached := ReachesCheck(o, s, step, messages, calls);
    if reached.Some? {
      TurnPastCheck(d, o, s, step, messages, calls, turns, reached.value);
      var answered := Answered(d, o, s, step, messages, reached.value);
      if answered.Some? {
        CallsOnlyGrow(d, o, s, step + 1, answered.value, calls + 1, turns + 1);
      }
    } else {
      TurnBeforeCheck(d, o, o, s, step, messages, calls, turns);
    }
  }

  /** Up to the check the two loops do the same. */
  lemma TurnBeforeCheck(
    d: Deployment, o: Oracle, o': Oracle, s: Session, step: nat, messages: seq<Message>, calls: nat, turns: nat)
    requires ReachesCheck(o, s, step, messages, calls) == None
    requires o' == o || o' == NoDispatchCheck(o)
    ensures TurnFrom(d, o, s, step, messages, calls, turns) == TurnFrom(d, o', s, step, messages, calls, turns)
    ensures TurnFrom(d, o, s, step, messages, calls, turns).toolCalls == calls
  {
  }

  /** A check that finds something ends the run where the other loop goes on or refuses. */
  lemma FiringShows(
    d: Deployment, o: Oracle, s: Session, step: nat, messages: seq<Message>, calls: nat, turns: nat, call: ToolCall)
    requires ReachesCheck(o, s, step, messages, calls) == Some(call) && o.signals(step).dispatch != Go
    ensures TurnFrom(d, o, s, step, messages, calls, turns)
            != TurnFrom(d, NoDispatchCheck(o), s, step, messages, calls, turns)
  {
    var o' := NoDispatchCheck(o);
    assert TurnFrom(d, o, s, step, messages, calls, turns)
        == AfterReply(d, o, s, step, messages, calls, turns + 1, CallOutput(call))
        == Summary(HaltStatus(o.signals(step).dispatch), None, calls, turns + 1);
    TurnPastCheck(d, o', s, step, messages, calls, turns, call);
    var answered := Answered(d, o', s, step, messages, call);
    if answered.Some? {
      CallsOnlyGrow(d, o', s, step + 1, answered.value, calls + 1, turns + 1);
    }
  }

  /** From any turn on, the loop with the check and the loop without it give the same result
      exactly if the run never comes to a check that finds something. */
  lemma {:induction false} CheckShowsExactly(
    d: Deployment, o: Oracle, s: Session, step: nat, messages: seq<Message>, calls: nat, turns: nat)
    ensures TurnFrom(d, o, s, step, messages, calls, turns)
            == TurnFrom(d, NoDispatchCheck(o), s, step, messages, calls, turns)
            <==> !CheckFires(d, o, s, step, messages, calls)
    decreases s.profile.maxModelTurns + 1 - step
  {
    var o' := NoDispatchCheck(o);
    match ReachesCheck(o, s, step, messages, calls)
    case None => TurnBeforeCheck(d, o, o', s, step, messages, calls, turns);
    case Some(call) =>
      if o.signals(step).dispatch != Go {
        FiringShows(d, o, s, step, messages, calls, turns, call);
      } else {
        TurnPastCheck(d, o, s, step, messages, calls, turns, call);
        TurnPastCheck(d, o', s, step, messages, calls, turns, call);
        var answered := Answered(d, o, s, step, messages, call);
        if answered.Some? {
          CheckShowsExactly(d, o, s, step + 1, answered.value, calls + 1, turns + 1);
        }
      }
  }

  /** The durable loop and the ephemeral one, which lacks the check before a dispatch, agree on a
      run exactly if it never comes to such a check that finds something. */
  lemma LoopsAgreeExactly(d: Deployment, o: Oracle, s: Session)
    ensures AgentRun(d, o, s) == AgentRun(d, NoDispatchCheck(o), s)
            <==> !(ToolsRegistered(s) && CheckFires(d, o, s, 1, FirstMessages(s), 0))
  {
    CheckShowsExactly(d, o, s, 1, FirstMessages(s), 0, 0);
  }
}
