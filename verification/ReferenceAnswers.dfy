/** The reference run turn by turn, with every status spelled out. */
module ReferenceAnswers {
  import opened Contracts
  import opened History
  import opened DurableRecords
  import opened DurableWorker
  import opened AgentReference

  /** Nothing stops the turn before the model is asked. */
  predicate Asks(o: Oracle, s: Session, step: nat, messages: seq<Message>) {
    && step <= s.profile.maxModelTurns && o.signals(step).top == Go
    && |messages| <= s.profile.limits.maxContextMessages
  }

  /** The run opens with the instructions, the task and the knowledge, if there is any. */
  lemma RunOpens(d: Deployment, o: Oracle, s: Session)
    ensures AgentRun(d, o, s) ==
            if !(s.profile.permitted <= s.tools.Keys) then Summary(ModelFailure, None, 0, 0)
            else
              TurnFrom(
                d, o, s, 1,
                [Text(SystemRole, s.profile.instructions), Text(UserRole, s.task)]
                + (if s.knowledge.Some? then [Text(UserRole, s.knowledge.value)] else []), 0, 0)
  {
    var first := [Text(SystemRole, s.profile.instructions), Text(UserRole, s.task)];
    assert first + [] == first;
  }

  /** A turn that does not ask the model ends the run. */
  lemma TurnStops(
    d: Deployment, o: Oracle, s: Session, step: nat, messages: seq<Message>, calls: nat, turns: nat)
    requires !Asks(o, s, step, messages)
    ensures TurnFrom(d, o, s, step, messages, calls, turns) ==
            if step <= s.profile.maxModelTurns && o.signals(step).top == Cancel
            then Summary(StatusCancelled, None, calls, turns)
            else if step <= s.profile.maxModelTurns && o.signals(step).top == Expire
            then Summary(TimedOut, None, calls, turns)
            else Summary(LimitReached, None, calls, turns)
  {
  }

  /** The model fails, or answers with something that is not a call. */
  lemma TurnSpeaks(
    d: Deployment, o: Oracle, s: Session, step: nat, messages: seq<Message>, calls: nat, turns: nat)
    requires Asks(o, s, step, messages)
    requires o.model(messages).Fails? || o.signals(step).returned != Go || !o.model(messages).output.CallOutput?
    ensures TurnFrom(d, o, s, step, messages, calls, turns) ==
            if o.model(messages).Fails? then Summary(ModelFailure, None, calls, turns)
            else if o.signals(step).returned == Cancel then Summary(StatusCancelled, None, calls, turns + 1)
            else if o.signals(step).returned == Expire then Summary(TimedOut, None, calls, turns + 1)
            else
              match o.model(messages).output
              case TextOutput(text) =>
                if |text| <= s.profile.limits.maxModelTextChars
                then Summary(StatusCompleted, Some(text), calls, turns + 1)
                else Summary(InvalidModelResponse, None, calls, turns + 1)
              case _ => Summary(InvalidModelResponse, None, calls, turns + 1)
  {
  }

  /** The model proposes this call and nothing stops the turn before it is looked at. */
  predicate Proposes(o: Oracle, s: Session, step: nat, messages: seq<Message>, call: ToolCall) {
    Asks(o, s, step, messages) && o.model(messages) == Replies(CallOutput(call)) && o.signals(step).returned == Go
  }

  /** The proposed call is one the run may dispatch. */
  ghost predicate Dispatchable(
    d: Deployment, o: Oracle, s: Session, step: nat, messages: seq<Message>, calls: nat, call: ToolCall)
  {
    && call.name in s.profile.permitted && call.name in s.tools && calls < s.profile.maxToolCalls
    && !s.toolsBlocked && o.signals(step).dispatch == Go
    && ValidHistory(messages + [Call(call)], true) && d.captures(call, d.requestId(s.runId, step))
  }

  lemma CallRefused(
    d: Deployment, o: Oracle, s: Session, step: nat, messages: seq<Message>, calls: nat, turns: nat, call: ToolCall)
    requires Proposes(o, s, step, messages, call) && !Dispatchable(d, o, s, step, messages, calls, call)
    ensures TurnFrom(d, o, s, step, messages, calls, turns) ==
            if call.name !in s.profile.permitted || call.name !in s.tools
            then Summary(InvalidModelResponse, None, calls, turns + 1)
            else if calls >= s.profile.maxToolCalls then Summary(LimitReached, None, calls, turns + 1)
            else if s.toolsBlocked then Summary(ToolFailure, None, calls, turns + 1)
            else if o.signals(step).dispatch == Cancel then Summary(StatusCancelled, None, calls, turns + 1)
            else if o.signals(step).dispatch == Expire then Summary(TimedOut, None, calls, turns + 1)
            else Summary(InvalidModelResponse, None, calls, turns + 1)
  {
  }

  /** A dispatched call: blocked or sent to review, the run is rejected; failed or unknown, it
      is a tool failure; executed, the run goes on with the observation or exceeds its limit. */
  lemma CallDispatched(
    d: Deployment, o: Oracle, s: Session, step: nat, messages: seq<Message>, calls: nat, turns: nat, call: ToolCall)
    requires Proposes(o, s, step, messages, call) && Dispatchable(d, o, s, step, messages, calls, call)
    ensures var requestId := d.requestId(s.runId, step);
            var e := o.runtime(
                       Action(
                         s.profile.agentId, call.name, s.tools[call.name], call.arguments, requestId, requestId,
                         s.runId, call.callId));
            var observation := d.render(requestId, e.output);
            TurnFrom(d, o, s, step, messages, calls, turns) ==
            match e.status
            case Blocked => Summary(StatusRejected, None, calls + 1, turns + 1)
            case ReviewRequired => Summary(StatusRejected, None, calls + 1, turns + 1)
            case ControlFailure => Summary(ToolFailure, None, calls + 1, turns + 1)
            case Indeterminate => Summary(ToolFailure, None, calls + 1, turns + 1)
            case Executed =>
              if |observation| > s.profile.limits.maxObservationChars
              then Summary(LimitReached, None, calls + 1, turns + 1)
              else
                TurnFrom(
                  d, o, s, step + 1, messages + [Call(call)] + [Result(observation, call.callId, call.name)],
                  calls + 1, turns + 1)
  {
    var open, requestId := messages + [Call(call)], d.requestId(s.runId, step);
    var e := o.runtime(
      Action(
        s.profile.agentId, call.name, s.tools[call.name], call.arguments, requestId, requestId, s.runId,
        call.callId));
    assert TurnFrom(d, o, s, step, messages, calls, turns)
        == AfterReply(d, o, s, step, messages, calls, turns + 1, CallOutput(call))
        == DispatchFrom(d, o, s, step, open, call, calls, turns + 1)
        == AfterExecution(d, o, s, step, open, call, e.status, e.output, calls + 1, turns + 1, false);
    match e.status
    case Executed | Blocked | ReviewRequired | ControlFailure | Indeterminate =>
  }

  /** A worker that resumes a stored run: the top of the loop is checked again; a prepared
      call is dispatched, a completed one is judged by its stored status. */
  lemma RunResumes(d: Deployment, o: Oracle, s: Session, r: StoredRunRecord)
    requires r.state == ToolPrepared || r.state == ToolCompleted
    requires EndsWithCall(r.messages) && r.pending.action.Some?
    requires r.state == ToolCompleted ==> r.pending.status.Some?
    ensures var calls := if r.state == ToolPrepared then r.toolCalls + 1 else r.toolCalls;
            var status := if r.state == ToolPrepared then o.runtime(r.pending.action.value).status
                          else r.pending.status.value;
            var output := if r.state == ToolPrepared then o.runtime(r.pending.action.value).output
                          else r.pending.output;
            var observation := d.render(d.requestId(s.runId, r.nextStep), output);
            var call := r.messages[|r.messages|-1].call;
            ResumeSummary(d, o, s, r) ==
            if !(s.profile.permitted <= s.tools.Keys) then Summary(ModelFailure, None, r.toolCalls, r.modelTurns)
            else if r.nextStep > s.profile.maxModelTurns then Summary(LimitReached, None, r.toolCalls, r.modelTurns)
            else if o.signals(r.nextStep).top == Cancel
            then Summary(StatusCancelled, None, r.toolCalls, r.modelTurns)
            else if o.signals(r.nextStep).top == Expire then Summary(TimedOut, None, r.toolCalls, r.modelTurns)
            else if |r.messages| > s.profile.limits.maxContextMessages
            then Summary(LimitReached, None, r.toolCalls, r.modelTurns)
            else if r.state == ToolPrepared && s.toolsBlocked
            then Summary(ToolFailure, None, r.toolCalls, r.modelTurns)
            else if r.state == ToolPrepared && o.signals(r.nextStep).dispatch == Cancel
            then Summary(StatusCancelled, None, r.toolCalls, r.modelTurns)
            else if r.state == ToolPrepared && o.signals(r.nextStep).dispatch == Expire
            then Summary(TimedOut, None, r.toolCalls, r.modelTurns)
            else
              match status
              case Blocked => Summary(StatusRejected, None, calls, r.modelTurns)
              case ReviewRequired => Summary(StatusRejected, None, calls, r.modelTurns)
              case ControlFailure => Summary(ToolFailure, None, calls, r.modelTurns)
              case Indeterminate => Summary(ToolFailure, None, calls, r.modelTurns)
              case Executed =>
                if |observation| > s.profile.limits.maxObservationChars
                then Summary(LimitReached, None, calls, r.modelTurns)
                else
                  TurnFrom(
                    d, o, s, r.nextStep + 1,
                    r.messages + [Result(observation, call.callId, call.name)]
                    + (if s.knowledge.Some? then [Text(UserRole, s.knowledge.value)] else []),
                    calls, r.modelTurns)
  {
    var output := if r.state == ToolPrepared then o.runtime(r.pending.action.value).output else r.pending.output;
    var call := r.messages[|r.messages|-1].call;
    var answered := r.messages
    + [Result(d.render(d.requestId(s.runId, r.nextStep), output), call.callId, call.name)];
    assert answered + [] == answered;
  }
}
