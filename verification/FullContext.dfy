/** Which conversations a deployment and a profile allow, and when one of them can fill the
    context to its limit with a call still open. */
module FullContext {
  import opened Contracts
  import opened History
  import opened DurableRecords
  import opened DurableWorker

  predicate TaskAccepted(s: Session) {
    !Blank(s.task) && |s.task| <= s.profile.limits.maxTaskChars
  }

  /** Message `2 * k` is the call of turn `k`: of a permitted tool, and making an action. */
  ghost predicate CallAt(d: Deployment, s: Session, ms: seq<Message>, k: nat) {
    && 2 * k < |ms| && ms[2*k].Call? && ms[2*k].call.name in s.profile.permitted
    && d.captures(ms[2*k].call, d.requestId(s.runId, k))
  }

  /** The text is how some output of turn `k` is shown to the model, and fits. */
  ghost predicate Shows(d: Deployment, s: Session, k: nat, text: string) {
    |text| <= s.profile.limits.maxObservationChars && exists output :: d.render(d.requestId(s.runId, k), output) == text
  }

  /** Message `2 * k + 1` answers the call of turn `k` with an observation that fits. */
  ghost predicate AnswerAt(d: Deployment, s: Session, ms: seq<Message>, k: nat) {
    && 2 * k + 1 < |ms| && ms[2*k].Call? && ms[2*k+1].Result? && Answers(ms[2*k+1], ms[2*k].call)
    && Shows(d, s, k, ms[2*k+1].content)
  }

  /** The first two messages, and then calls and answers in turn. */
  ghost predicate Conversation(d: Deployment, s: Session, ms: seq<Message>) {
    && |ms| >= 2 && ms[..2] == FirstRecord(s).messages
    && (forall k :: 1 <= k && 2 * k < |ms| ==> CallAt(d, s, ms, k))
    && (forall k :: 1 <= k && 2 * k + 1 < |ms| ==> AnswerAt(d, s, ms, k))
  }

  lemma ConversationGrows(d: Deployment, s: Session, ms: seq<Message>, m: Message)
    requires Conversation(d, s, ms)
    requires |ms| % 2 == 0 ==> CallAt(d, s, ms + [m], |ms| / 2)
    requires |ms| % 2 == 1 ==> AnswerAt(d, s, ms + [m], |ms| / 2)
    ensures Conversation(d, s, ms + [m])
  {
    var more := ms + [m];
    assert more[..2] == ms[..2];
    forall k | 1 <= k && 2 * k < |more| ensures CallAt(d, s, more, k) {
      if 2 * k < |ms| {
        assert CallAt(d, s, ms, k);
      }
    }
    forall k | 1 <= k && 2 * k + 1 < |more| ensures AnswerAt(d, s, more, k) {
      if 2 * k + 1 < |ms| {
        assert AnswerAt(d, s, ms, k);
      }
    }
  }

  /** A conversation that a run of the session can have: no limit rules out its calls. */
  ghost predicate Playable(d: Deployment, s: Session, ms: seq<Message>) {
    && Conversation(d, s, ms) && Paired(ms) && |ms| <= s.profile.limits.maxContextMessages + 1
    && (|ms| - 1) / 2 <= s.profile.maxToolCalls && (|ms| - 1) / 2 <= s.profile.maxModelTurns
    && ToolsRegistered(s) && TaskAccepted(s) && (|ms| > 2 ==> !s.toolsBlocked)
  }

  /** A playable conversation that has one message more than the context limit, the last of
      them an open call. */
  ghost predicate Overfull(d: Deployment, s: Session, ms: seq<Message>) {
    var limit := s.profile.limits.maxContextMessages;
    Playable(d, s, ms) && limit >= 2 && limit % 2 == 0 && |ms| == limit + 1
  }

  /** No conversation this deployment and profile allow is overfull. */
  ghost predicate NeverOverfull(d: Deployment, s: Session) {
    forall ms :: !Overfull(d, s, ms)
  }

  /** Limits under which no deployment has an overfull conversation. Before a call the number
      of messages is even, so an odd limit is safe, and so is an even one that the other
      limits keep out of reach. */
  predicate SafeLimits(s: Session) {
    var limit := s.profile.limits.maxContextMessages;
    || limit % 2 == 1 || limit < 2
    || limit / 2 > s.profile.maxToolCalls || limit / 2 > s.profile.maxModelTurns
    || s.profile.permitted == {} || !ToolsRegistered(s) || s.toolsBlocked || !TaskAccepted(s)
  }

  lemma OverfullIsUnsafe(d: Deployment, s: Session, ms: seq<Message>)
    requires Overfull(d, s, ms)
    ensures !SafeLimits(s)
  {
    assert CallAt(d, s, ms, 1);
  }

  lemma SafeLimitsSuffice(d: Deployment, s: Session)
    requires SafeLimits(s)
    ensures NeverOverfull(d, s)
  {
    forall ms ensures Overfull(d, s, ms) ==> !SafeLimits(s) {
      if Overfull(d, s, ms) {
        OverfullIsUnsafe(d, s, ms);
      }
    }
  }

  // ---- Deployments for which the limits alone decide ----

  function FreshId(n: nat): string {
    seq(n, _ => 'c')
  }

  /** The deployment makes actions of calls of the tool with fresh ids, and shows an empty
      output within the observation limit, in every turn that fits the context. */
  ghost predicate Hospitable(d: Deployment, s: Session, tool: string) {
    forall k: nat :: 1 <= k && 2 * k <= s.profile.limits.maxContextMessages ==>
      && d.captures(ToolCall(FreshId(k), tool, "{}"), d.requestId(s.runId, k))
      && |d.render(d.requestId(s.runId, k), None)| <= s.profile.limits.maxObservationChars
  }

  lemma {:induction false} HospitableConversation(d: Deployment, s: Session, tool: string, k: nat)
    returns (ms: seq<Message>)
    requires Hospitable(d, s, tool) && tool in s.profile.permitted
    requires 1 <= k && 2 * k <= s.profile.limits.maxContextMessages
    ensures |ms| == 2 * k + 1 && Conversation(d, s, ms) && Paired(ms)
    ensures forall id :: id in CallIds(ms) ==> |id| <= k
    ensures ms[2*k] == Call(ToolCall(FreshId(k), tool, "{}"))
  {
    if k == 1 {
      ms := FirstRecord(s).messages;
      FirstTwo(d, s);
    } else {
      ms := HospitableConversation(d, s, tool, k - 1);
      ms := AnswerHospitably(d, s, tool, ms, k - 1);
    }
    ms := AskHospitably(d, s, tool, ms, k);
  }

  lemma FirstTwo(d: Deployment, s: Session)
    ensures var ms := FirstRecord(s).messages;
            |ms| == 2 && Conversation(d, s, ms) && Paired(ms) && !EndsWithCall(ms) && CallIds(ms) == {}
  {
    var ms := FirstRecord(s).messages;
    PairedAppend([], ms[0]);
    PairedAppend([ms[0]], ms[1]);
    assert [] + [ms[0]] == [ms[0]] && [ms[0]] + [ms[1]] == ms;
  }

  lemma AskHospitably(d: Deployment, s: Session, tool: string, before: seq<Message>, k: nat)
    returns (ms: seq<Message>)
    requires Hospitable(d, s, tool) && tool in s.profile.permitted
    requires 1 <= k && 2 * k <= s.profile.limits.maxContextMessages
    requires |before| == 2 * k && Conversation(d, s, before) && Paired(before) && !EndsWithCall(before)
    requires forall id :: id in CallIds(before) ==> |id| < k
    ensures |ms| == 2 * k + 1 && Conversation(d, s, ms) && Paired(ms)
    ensures forall id :: id in CallIds(ms) ==> |id| <= k
    ensures ms[2*k] == Call(ToolCall(FreshId(k), tool, "{}"))
  {
    var call := Call(ToolCall(FreshId(k), tool, "{}"));
    ms := before + [call];
    ConversationGrows(d, s, before, call);
    PairedAppend(before, call);
  }

  lemma AnswerHospitably(d: Deployment, s: Session, tool: string, open: seq<Message>, k: nat)
    returns (ms: seq<Message>)
    requires Hospitable(d, s, tool) && 1 <= k && 2 * k <= s.profile.limits.maxContextMessages
    requires |open| == 2 * k + 1 && Conversation(d, s, open) && Paired(open)
    requires open[2*k] == Call(ToolCall(FreshId(k), tool, "{}"))
    ensures |ms| == 2 * k + 2 && Conversation(d, s, ms) && Paired(ms) && !EndsWithCall(ms)
    ensures CallIds(ms) == CallIds(open)
  {
    var text := d.render(d.requestId(s.runId, k), None);
    var answer := Result(text, FreshId(k), tool);
    ms := open + [answer];
    assert Shows(d, s, k, text);
    assert AnswerAt(d, s, ms, k);
    ConversationGrows(d, s, open, answer);
    PairedAppend(open, answer);
  }

  /** For a hospitable deployment the limits decide: an overfull conversation exists exactly
      outside the safe limits. */
  lemma HospitableExactly(d: Deployment, s: Session, tool: string)
    requires Hospitable(d, s, tool) && tool in s.profile.permitted
    ensures NeverOverfull(d, s) <==> SafeLimits(s)
  {
    if SafeLimits(s) {
      SafeLimitsSuffice(d, s);
    } else {
      var ms := HospitableConversation(d, s, tool, s.profile.limits.maxContextMessages / 2);
      assert Overfull(d, s, ms);
    }
  }
}
