/** Conversation history and the pairing rule of assistant tool calls and results. */
module History {
  import opened Contracts

  datatype Role = SystemRole | UserRole | AssistantRole

  datatype ToolCall = ToolCall(callId: string, name: string, arguments: string)

  datatype Message =
    | Text(role: Role, content: string)
    | Call(call: ToolCall)
    | Result(content: string, callId: string, toolName: string)

  predicate Answers(m: Message, call: ToolCall) {
    m.Result? && m.callId == call.callId && m.toolName == call.name
  }

  predicate EndsWithCall(ms: seq<Message>) {
    |ms| > 0 && ms[|ms|-1].Call?
  }

  function CallIds(ms: seq<Message>): set<string> {
    set m | m in ms && m.Call? :: m.call.callId
  }

  /** One call open at a time, answered by the very next message, under a new id. */
  predicate Paired(ms: seq<Message>) {
    ms == [] || (Paired(ms[..|ms|-1]) && Continues(ms[..|ms|-1], ms[|ms|-1]))
  }

  predicate Continues(ms: seq<Message>, m: Message) {
    if m.Result? then EndsWithCall(ms) && Answers(m, ms[|ms|-1].call)
    else !EndsWithCall(ms) && (m.Call? ==> m.call.callId !in CallIds(ms))
  }

  predicate ValidHistory(ms: seq<Message>, allowPending: bool) {
    Paired(ms) && (EndsWithCall(ms) ==> allowPending)
  }

  lemma PairedAppend(ms: seq<Message>, m: Message)
    ensures Paired(ms + [m]) <==> Paired(ms) && Continues(ms, m)
    ensures CallIds(ms + [m]) == CallIds(ms) + if m.Call? then {m.call.callId} else {}
  {
    assert (ms + [m])[..|ms|] == ms;
    if m.Call? {
      assert m in ms + [m];
    }
  }

  /** The loop of `validate_history`: the open call, and the call ids seen so far. */
  method ValidateHistory(ms: seq<Message>, allowPending: bool) returns (ok: bool)
    ensures ok <==> ValidHistory(ms, allowPending)
  {
    var pending: Option<ToolCall> := None;
    var seen: set<string> := {};
    for i := 0 to |ms|
      invariant Paired(ms[..i])
      invariant pending == if EndsWithCall(ms[..i]) then Some(ms[i-1].call) else None
      invariant seen == CallIds(ms[..i])
    {
      var m := ms[i];
      assert ms[..i+1] == ms[..i] + [m];
      PairedAppend(ms[..i], m);
      if !Continues(ms[..i], m) {
        PairedPrefix(ms, i + 1);
      }
      if m.Result? {
        if pending == None || !Answers(m, pending.value) {
          return false;
        }
        pending := None;
      } else {
        if pending != None {
          return false;
        }
        if m.Call? {
          if m.call.callId in seen {
            return false;
          }
          pending := Some(m.call);
          seen := seen + {m.call.callId};
        }
      }
    }
    assert ms[..|ms|] == ms;
    ok := pending == None || allowPending;
  }

  lemma {:induction false} PairedPrefix(ms: seq<Message>, n: nat)
    requires n <= |ms|
    ensures Paired(ms) ==> Paired(ms[..n])
    decreases |ms|
  {
    if n == |ms| {
      assert ms[..n] == ms;
    } else {
      PairedPrefix(ms[..|ms|-1], n);
      assert ms[..|ms|-1][..n] == ms[..n];
    }
  }

  /** A result stands directly after the call it answers, and a call that is not last is
      followed by a result. */
  predicate InPlace(ms: seq<Message>, i: nat)
    requires i < |ms|
  {
    && (ms[i].Result? ==>
          && 0 < i && ms[i-1].Call?
          && ms[i].callId == ms[i-1].call.callId && ms[i].toolName == ms[i-1].call.name)
    && (ms[i].Call? && i + 1 < |ms| ==> ms[i+1].Result?)
  }

  predicate DistinctIds(ms: seq<Message>) {
    forall i, j :: 0 <= i < j < |ms| && ms[i].Call? && ms[j].Call? ==> ms[i].call.callId != ms[j].call.callId
  }

  /** The pairing rule read position by position, in both directions. */
  lemma {:induction false} PairedMeaning(ms: seq<Message>)
    ensures Paired(ms) <==> (forall i :: 0 <= i < |ms| ==> InPlace(ms, i)) && DistinctIds(ms)
  {
    if ms != [] {
      PairedMeaning(ms[..|ms|-1]);
      if Paired(ms) {
        PairedIsInPlace(ms);
      }
      if (forall i :: 0 <= i < |ms| ==> InPlace(ms, i)) && DistinctIds(ms) {
        InPlaceIsPaired(ms);
      }
    }
  }

  /** A history is valid exactly when everything in it is in place under ids of its own, and
      a call without a result is last and allowed. */
  lemma HistoryMeaning(ms: seq<Message>, allowPending: bool)
    ensures ValidHistory(ms, allowPending) <==>
            && (forall i :: 0 <= i < |ms| ==> InPlace(ms, i)) && DistinctIds(ms)
            && (|ms| > 0 && ms[|ms|-1].Call? ==> allowPending)
  {
    PairedMeaning(ms);
  }

  lemma PairedIsInPlace(ms: seq<Message>)
    requires ms != [] && Continues(ms[..|ms|-1], ms[|ms|-1])
    requires var init := ms[..|ms|-1]; (forall i :: 0 <= i < |init| ==> InPlace(init, i)) && DistinctIds(init)
    ensures (forall i :: 0 <= i < |ms| ==> InPlace(ms, i)) && DistinctIds(ms)
  {
    var init, m := ms[..|ms|-1], ms[|ms|-1];
    forall i | 0 <= i < |ms| ensures InPlace(ms, i) {
      if i < |init| {
        assert InPlace(init, i);
      }
    }
    if m.Call? {
      forall i | 0 <= i < |init| && ms[i].Call? ensures ms[i].call.callId != m.call.callId {
        assert init[i] in init;
      }
    }
  }

  lemma InPlaceIsPaired(ms: seq<Message>)
    requires ms != [] && (forall i :: 0 <= i < |ms| ==> InPlace(ms, i)) && DistinctIds(ms)
    ensures Continues(ms[..|ms|-1], ms[|ms|-1])
    ensures var init := ms[..|ms|-1]; (forall i :: 0 <= i < |init| ==> InPlace(init, i)) && DistinctIds(init)
  {
    var init := ms[..|ms|-1];
    forall i | 0 <= i < |init| ensures InPlace(init, i) {
      assert InPlace(ms, i);
    }
    assert InPlace(ms, |init|);
    if |init| > 0 {
      assert InPlace(ms, |init| - 1);
    }
  }

  /** Text may be added wherever no call is open. */
  lemma TextKeepsHistory(ms: seq<Message>, m: Message)
    requires ValidHistory(ms, false) && m.Text?
    ensures ValidHistory(ms + [m], false)
  {
    PairedAppend(ms, m);
  }

  /** A result closes the open call it answers. */
  lemma ResultClosesHistory(ms: seq<Message>, m: Message)
    requires ValidHistory(ms, true) && EndsWithCall(ms) && Answers(m, ms[|ms|-1].call)
    ensures ValidHistory(ms + [m], false)
  {
    PairedAppend(ms, m);
  }

  function CountResults(ms: seq<Message>): nat {
    if ms == [] then 0 else CountResults(ms[..|ms|-1]) + if ms[|ms|-1].Result? then 1 else 0
  }

  lemma CountResultsAppend(ms: seq<Message>, m: Message)
    ensures CountResults(ms + [m]) == CountResults(ms) + if m.Result? then 1 else 0
  {
    assert (ms + [m])[..|ms|] == ms;
  }
}
