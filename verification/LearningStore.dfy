/** Append-only learning stores: records named by the digest of their content, found by
    that name or by their idempotency key. */
module LearningStore {
  import opened Contracts
  import opened DurableRecords
  import opened Sorting

  datatype SignalKind = HumanCorrection | HumanPreference | HumanWorkflow | StructuralRunOutcome | GovernedToolRejection

  datatype Signal = Signal(
    id: nat,
    kind: SignalKind,
    agentId: string,
    key: string,
    observedAt: real,
    reviewerId: Option<string>,
    feedback: Option<string>,
    runId: Option<string>,
    runStatus: Option<RunStatus>,
    toolName: Option<string>,
    executionStatus: Option<ExecutionStatus>)

  datatype CandidateKind = Rule | Skill

  datatype ApprovalRecord = ApprovalRecord(
    id: nat,
    candidateHash: nat,
    kind: CandidateKind,
    agentId: string,
    reviewerId: string,
    attestation: string,
    fingerprint: nat,
    text: string,
    skillId: Option<nat>,
    evidenceIds: seq<nat>,
    approvedAt: real,
    key: string)

  /** Record digests, over everything in a record but its own name. */
  datatype Digests = Digests(signal: Signal -> nat, approval: ApprovalRecord -> nat)

  predicate Human(kind: SignalKind) {
    kind in {HumanCorrection, HumanPreference, HumanWorkflow}
  }

  predicate Shaped(s: Signal) {
    if Human(s.kind) then
      s.reviewerId.Some? && s.feedback.Some? && s.runStatus.None? && s.toolName.None? && s.executionStatus.None?
    else if s.kind == StructuralRunOutcome then
      && s.runId.Some? && s.runStatus.Some? && s.reviewerId.None? && s.feedback.None?
      && s.toolName.None? && s.executionStatus.None?
    else
      && s.runId.Some? && s.toolName.Some? && s.executionStatus.Some? && s.executionStatus != Some(Executed)
      && s.reviewerId.None? && s.feedback.None? && s.runStatus.None?
  }

  predicate Genuine(d: Digests, s: Signal) {
    s.id == d.signal(s.(id := 0)) && Shaped(s)
  }

  predicate GenuineApproval(d: Digests, a: ApprovalRecord) {
    a.id == d.approval(a.(id := 0)) && (a.kind == Skill <==> a.skillId.Some?) && a.evidenceIds != []
  }

  /** What the idempotency digest covers: all but the name and the time. */
  function Semantic(s: Signal): Signal {
    s.(id := 0, observedAt := 0.0)
  }

  function ApprovalSemantic(a: ApprovalRecord): ApprovalRecord {
    a.(id := 0, approvedAt := 0.0)
  }

  datatype Learned = Learned(
    signals: map<nat, Signal>,
    signalsByKey: map<string, Signal>,
    approvals: map<nat, ApprovalRecord>,
    approvalsByKey: map<string, ApprovalRecord>)

  function Empty(): Learned {
    Learned(map[], map[], map[], map[])
  }

  /** Both indexes hold the same records, each under its own name and key. */
  ghost predicate Valid(d: Digests, l: Learned) {
    SignalsAgree(d, l.signals, l.signalsByKey) && ApprovalsAgree(d, l.approvals, l.approvalsByKey)
  }

  ghost predicate SignalsAgree(d: Digests, named: map<nat, Signal>, keyed: map<string, Signal>) {
    && (forall id :: id in named ==>
          && named[id].id == id && Genuine(d, named[id])
          && named[id].key in keyed && keyed[named[id].key] == named[id])
    && (forall k :: k in keyed ==> keyed[k].key == k && keyed[k].id in named && named[keyed[k].id] == keyed[k])
  }

  ghost predicate ApprovalsAgree(d: Digests, named: map<nat, ApprovalRecord>, keyed: map<string, ApprovalRecord>) {
    && (forall id :: id in named ==>
          && named[id].id == id && GenuineApproval(d, named[id])
          && named[id].key in keyed && keyed[named[id].key] == named[id])
    && (forall k :: k in keyed ==> keyed[k].key == k && keyed[k].id in named && named[keyed[k].id] == keyed[k])
  }

  predicate Included<K, V(==)>(small: map<K, V>, big: map<K, V>) {
    forall k :: k in small ==> k in big && big[k] == small[k]
  }

  /** Everything recorded is still recorded, unchanged. */
  ghost predicate Extends(l: Learned, l': Learned) {
    && Included(l.signals, l'.signals) && Included(l.signalsByKey, l'.signalsByKey)
    && Included(l.approvals, l'.approvals) && Included(l.approvalsByKey, l'.approvalsByKey)
  }

  function AddSignal(d: Digests, l: Learned, s: Signal): Learned {
    if !Genuine(d, s) || s.key in l.signalsByKey || s.id in l.signals then l
    else l.(signals := l.signals[s.id := s], signalsByKey := l.signalsByKey[s.key := s])
  }

  /** The record an append returns; None where it raises. */
  function SignalAnswer(d: Digests, l: Learned, s: Signal): Option<Signal> {
    if !Genuine(d, s) then None
    else if s.key in l.signalsByKey then
      if Semantic(l.signalsByKey[s.key]) == Semantic(s) then Some(l.signalsByKey[s.key]) else None
    else if s.id in l.signals then None else Some(s)
  }

  function AddApproval(d: Digests, l: Learned, a: ApprovalRecord): Learned {
    if !GenuineApproval(d, a) || a.key in l.approvalsByKey || a.id in l.approvals then l
    else l.(approvals := l.approvals[a.id := a], approvalsByKey := l.approvalsByKey[a.key := a])
  }

  function ApprovalAnswer(d: Digests, l: Learned, a: ApprovalRecord): Option<ApprovalRecord> {
    if !GenuineApproval(d, a) then None
    else if a.key in l.approvalsByKey then
      if ApprovalSemantic(l.approvalsByKey[a.key]) == ApprovalSemantic(a) then Some(l.approvalsByKey[a.key]) else None
    else if a.id in l.approvals then None else Some(a)
  }

  /** Ids without repetitions, in the order of their first occurrence. */
  function Unique(ids: seq<nat>): (r: seq<nat>)
    ensures forall id :: id in r <==> id in ids
    ensures NoDuplicates(r) && |r| <= |ids|
  {
    if ids == [] then []
    else
      var before := Unique(ids[..|ids|-1]);
      if ids[|ids|-1] in before then before else before + [ids[|ids|-1]]
  }

  /** Each id keeps the place of its first occurrence. */
  lemma {:induction false} UniqueKeepsOrder(ids: seq<nat>, i: nat, j: nat) returns (p: nat)
    requires i < j < |Unique(ids)|
    ensures p < |ids| && ids[p] == Unique(ids)[i] && Unique(ids)[j] !in ids[..p+1]
  {
    var before := ids[..|ids|-1];
    if j < |Unique(before)| {
      p := UniqueKeepsOrder(before, i, j);
      assert ids[..p+1] == before[..p+1];
    } else {
      assert Unique(before)[i] in before;
      p :| 0 <= p < |before| && before[p] == Unique(before)[i];
      assert forall k :: 0 <= k <= p ==> ids[k] == before[k] && before[k] in before;
    }
  }

  lemma {:induction false} UniqueOfDistinct(ids: seq<nat>)
    requires NoDuplicates(ids)
    ensures Unique(ids) == ids
  {
    if ids != [] {
      UniqueOfDistinct(ids[..|ids|-1]);
      assert ids == ids[..|ids|-1] + [ids[|ids|-1]];
    }
  }

  /** `load_signals`; None where some record is missing. */
  function Load(l: Learned, ids: seq<nat>): Option<seq<Signal>> {
    if forall id :: id in Unique(ids) ==> id in l.signals
    then
      var unique := Unique(ids);
      Some(seq(|unique|, i requires 0 <= i < |unique| && unique[i] in l.signals => l.signals[unique[i]]))
    else None
  }

  predicate InBounds(s: Signal, agent: Option<string>, since: Option<real>, until: Option<real>) {
    && (agent.Some? ==> s.agentId == agent.value) && (since.Some? ==> s.observedAt >= since.value)
    && (until.Some? ==> s.observedAt <= until.value)
  }

  ghost function Selected(l: Learned, agent: Option<string>, since: Option<real>, until: Option<real>): set<Signal> {
    set id | id in l.signals && InBounds(l.signals[id], agent, since, until) :: l.signals[id]
  }

  ghost function ApprovalsOf(l: Learned, agent: string): set<ApprovalRecord> {
    set id | id in l.approvals && l.approvals[id].agentId == agent :: l.approvals[id]
  }

  /** What is listed: the stored signals of the agent within the bounds that are given. */
  lemma SelectedExactly(
    d: Digests, l: Learned, agent: Option<string>, since: Option<real>, until: Option<real>, s: Signal)
    requires Valid(d, l)
    ensures s in Selected(l, agent, since, until) <==>
            && s.id in l.signals && l.signals[s.id] == s && (agent == None || agent == Some(s.agentId))
            && (since == None || since.value <= s.observedAt) && (until == None || s.observedAt <= until.value)
  {
    if s.id in l.signals && l.signals[s.id] == s && InBounds(s, agent, since, until) {
      assert l.signals[s.id] in Selected(l, agent, since, until);
    }
  }

  lemma ApprovalsOfExactly(d: Digests, l: Learned, agent: string, a: ApprovalRecord)
    requires Valid(d, l)
    ensures a in ApprovalsOf(l, agent) <==> a.id in l.approvals && l.approvals[a.id] == a && a.agentId == agent
  {
  }

  function SignalKey(s: Signal): Key {
    Key(s.observedAt, s.id)
  }

  function ApprovalKey(a: ApprovalRecord): Key {
    Key(0.0, a.id)
  }

  method UniqueIds(ids: seq<nat>) returns (unique: seq<nat>)
    ensures unique == Unique(ids)
  {
    unique := [];
    var seen: set<nat> := {};
    for i := 0 to |ids|
      invariant unique == Unique(ids[..i]) && (forall id :: id in seen <==> id in unique)
    {
      assert ids[..i+1][..i] == ids[..i];
      if ids[i] !in seen {
        seen := seen + {ids[i]};
        unique := unique + [ids[i]];
      }
    }
    assert ids[..|ids|] == ids;
  }

  class InMemoryLearningStore {
    const d: Digests
    var signals: map<nat, Signal>
    var signalsByKey: map<string, Signal>
    var approvals: map<nat, ApprovalRecord>
    var approvalsByKey: map<string, ApprovalRecord>

    constructor (d: Digests)
      ensures this.d == d && Value() == Empty() && Valid(d, Value())
    {
      this.d := d;
      signals, signalsByKey, approvals, approvalsByKey := map[], map[], map[], map[];
    }

    function Value(): Learned
      reads this
    {
      Learned(signals, signalsByKey, approvals, approvalsByKey)
    }

    method AppendSignal(s: Signal) returns (r: Option<Signal>)
      requires Valid(d, Value())
      modifies this
      ensures Value() == AddSignal(d, old(Value()), s) && r == SignalAnswer(d, old(Value()), s)
      ensures Valid(d, Value()) && Extends(old(Value()), Value())
      ensures r.Some? <==>
              && Genuine(d, s)
              && if s.key in old(signalsByKey)
                 then var was := old(signalsByKey)[s.key]; s.(id := was.id, observedAt := was.observedAt) == was
                 else s.id !in old(signals)
      ensures r.Some? ==> r.value == if s.key in old(signalsByKey) then old(signalsByKey)[s.key] else s
      ensures signals == if r.Some? && s.key !in old(signalsByKey) then old(signals)[s.id := s] else old(signals)
      ensures r.Some? ==> s.key in signalsByKey && signalsByKey[s.key] == r.value
    {
      if !Genuine(d, s) {
        return None;
      }
      if s.key in signalsByKey {
        var existing := signalsByKey[s.key];
        if Semantic(existing) != Semantic(s) {
          return None;
        }
        return Some(existing);
      }
      if s.id in signals {
        return None;
      }
      signals := signals[s.id := s];
      signalsByKey := signalsByKey[s.key := s];
      return Some(s);
    }

    method AppendApproval(a: ApprovalRecord) returns (r: Option<ApprovalRecord>)
      requires Valid(d, Value())
      modifies this
      ensures Value() == AddApproval(d, old(Value()), a) && r == ApprovalAnswer(d, old(Value()), a)
      ensures Valid(d, Value()) && Extends(old(Value()), Value())
      ensures r.Some? <==>
              && GenuineApproval(d, a)
              && if a.key in old(approvalsByKey)
                 then var was := old(approvalsByKey)[a.key]; a.(id := was.id, approvedAt := was.approvedAt) == was
                 else a.id !in old(approvals)
      ensures r.Some? ==> r.value == if a.key in old(approvalsByKey) then old(approvalsByKey)[a.key] else a
      ensures approvals ==
              if r.Some? && a.key !in old(approvalsByKey) then old(approvals)[a.id := a] else old(approvals)
      ensures r.Some? ==>
                && a.key in approvalsByKey && approvalsByKey[a.key] == r.value
                && ApprovalSemantic(r.value) == ApprovalSemantic(a)
    {
      if !GenuineApproval(d, a) {
        return None;
      }
      if a.key in approvalsByKey {
        var existing := approvalsByKey[a.key];
        if ApprovalSemantic(existing) != ApprovalSemantic(a) {
          return None;
        }
        return Some(existing);
      }
      if a.id in approvals {
        return None;
      }
      approvals := approvals[a.id := a];
      approvalsByKey := approvalsByKey[a.key := a];
      return Some(a);
    }

    /** The selected records in order of time and id, whatever order they came in. */
    method ListSignals(agent: Option<string>, since: Option<real>, until: Option<real>) returns (listed: seq<Signal>)
      requires Valid(d, Value())
      ensures Ascending(SignalKey, listed) && Elements(listed) == Selected(Value(), agent, since, until)
    {
      listed := [];
      var todo := signals.Keys;
      while todo != {}
        invariant todo <= signals.Keys && Ascending(SignalKey, listed)
        invariant forall s :: s in listed <==> s.id in signals && signals[s.id] == s && s.id !in todo
                                               && InBounds(s, agent, since, until)
        decreases |todo|
      {
        var id :| id in todo;
        if InBounds(signals[id], agent, since, until) {
          InsertAscends(SignalKey, signals[id], listed);
          listed := Insert(SignalKey, signals[id], listed);
        }
        todo := todo - {id};
      }
    }

    method ListApprovals(agent: string) returns (listed: seq<ApprovalRecord>)
      requires Valid(d, Value())
      ensures Ascending(ApprovalKey, listed) && Elements(listed) == ApprovalsOf(Value(), agent)
    {
      listed := [];
      var todo := approvals.Keys;
      while todo != {}
        invariant todo <= approvals.Keys && Ascending(ApprovalKey, listed)
        invariant forall a :: a in listed <==> a.id in approvals && approvals[a.id] == a && a.id !in todo
                                               && a.agentId == agent
        decreases |todo|
      {
        var id :| id in todo;
        if approvals[id].agentId == agent {
          InsertAscends(ApprovalKey, approvals[id], listed);
          listed := Insert(ApprovalKey, approvals[id], listed);
        }
        todo := todo - {id};
      }
    }

    method LoadSignals(ids: seq<nat>) returns (r: Option<seq<Signal>>)
      ensures r == Load(Value(), ids)
      ensures r.Some? <==> forall i :: 0 <= i < |ids| ==> ids[i] in signals
      ensures r.Some? ==> |r.value| == |Unique(ids)|
      ensures r.Some? ==>
                forall j :: 0 <= j < |r.value| ==>
                  Unique(ids)[j] in signals && r.value[j] == signals[Unique(ids)[j]]
    {
      var unique := UniqueIds(ids);
      var found: seq<Signal> := [];
      for i := 0 to |unique|
        invariant |found| == i && forall j :: 0 <= j < i ==> unique[j] in signals && found[j] == signals[unique[j]]
      {
        if unique[i] !in signals {
          assert unique[i] in ids;
          return None;
        }
        found := found + [signals[unique[i]]];
      }
      forall i | 0 <= i < |ids| ensures ids[i] in signals {
        assert ids[i] in unique;
      }
      assert found == Load(Value(), ids).value;
      return Some(found);
    }

    method LoadApprovals(ids: seq<nat>) returns (r: Option<seq<ApprovalRecord>>)
      ensures r.Some? <==> forall i :: 0 <= i < |ids| ==> ids[i] in approvals
      ensures r.Some? ==> |r.value| == |Unique(ids)|
      ensures r.Some? ==>
                forall j :: 0 <= j < |r.value| ==>
                  Unique(ids)[j] in approvals && r.value[j] == approvals[Unique(ids)[j]]
    {
      var unique := UniqueIds(ids);
      var found: seq<ApprovalRecord> := [];
      for i := 0 to |unique|
        invariant |found| == i && forall j :: 0 <= j < i ==> unique[j] in approvals && found[j] == approvals[unique[j]]
      {
        if unique[i] !in approvals {
          assert unique[i] in ids;
          return None;
        }
        found := found + [approvals[unique[i]]];
      }
      forall i | 0 <= i < |ids| ensures ids[i] in approvals {
        assert ids[i] in unique;
      }
      return Some(found);
    }
  }

  // ---- Whole runs of appends ----

  datatype Append = SignalAppend(signal: Signal) | ApprovalAppend(approval: ApprovalRecord)

  function Grow(d: Digests, l: Learned, appends: seq<Append>): Learned {
    if appends == [] then l
    else
      var before := Grow(d, l, appends[..|appends|-1]);
      match appends[|appends|-1]
      case SignalAppend(s) => AddSignal(d, before, s)
      case ApprovalAppend(a) => AddApproval(d, before, a)
  }

  lemma SignalKeepsValid(d: Digests, l: Learned, s: Signal)
    requires Valid(d, l)
    ensures Valid(d, AddSignal(d, l, s)) && Extends(l, AddSignal(d, l, s))
  {
    var l' := AddSignal(d, l, s);
    if l' != l {
      assert SignalsAgree(d, l'.signals, l'.signalsByKey);
    }
  }

  lemma ApprovalKeepsValid(d: Digests, l: Learned, a: ApprovalRecord)
    requires Valid(d, l)
    ensures Valid(d, AddApproval(d, l, a)) && Extends(l, AddApproval(d, l, a))
  {
    var l' := AddApproval(d, l, a);
    if l' != l {
      assert ApprovalsAgree(d, l'.approvals, l'.approvalsByKey);
    }
  }

  lemma ExtendsTransitive(l: Learned, l': Learned, l'': Learned)
    requires Extends(l, l') && Extends(l', l'')
    ensures Extends(l, l'')
  {
  }

  /** No append, accepted or refused, ever changes or loses a record. */
  lemma {:induction false} GrowOnlyExtends(d: Digests, l: Learned, appends: seq<Append>)
    requires Valid(d, l)
    ensures Valid(d, Grow(d, l, appends)) && Extends(l, Grow(d, l, appends))
  {
    if appends != [] {
      var before := Grow(d, l, appends[..|appends|-1]);
      GrowOnlyExtends(d, l, appends[..|appends|-1]);
      match appends[|appends|-1]
      case SignalAppend(s) => SignalKeepsValid(d, before, s);
      case ApprovalAppend(a) => ApprovalKeepsValid(d, before, a);
      ExtendsTransitive(l, before, Grow(d, l, appends));
    }
  }

  function AppendAll(d: Digests, ss: seq<Signal>): Learned {
    if ss == [] then Empty() else AddSignal(d, AppendAll(d, ss[..|ss|-1]), ss[|ss|-1])
  }

  /** The first genuine signal of a sequence with a given idempotency key. */
  function FirstWith(d: Digests, ss: seq<Signal>, key: string): (r: Option<Signal>)
    ensures r.Some? ==> r.value in ss && Genuine(d, r.value) && r.value.key == key
    ensures r.None? ==> forall s :: s in ss && Genuine(d, s) ==> s.key != key
  {
    if ss == [] then None
    else
      var before, last := FirstWith(d, ss[..|ss|-1], key), ss[|ss|-1];
      if before.Some? || last.key != key || !Genuine(d, last) then before else Some(last)
  }

  /** No two different genuine signals have the same digest. Asked of the signals at hand
      only; no digest is without collisions on all signals. */
  ghost predicate OneSignalPerName(d: Digests, ss: seq<Signal>) {
    forall s, t :: s in ss && t in ss && Genuine(d, s) && Genuine(d, t) && s.id == t.id ==> s == t
  }

  /** No two different genuine signals have the same idempotency key. */
  ghost predicate OneSignalPerKey(d: Digests, ss: seq<Signal>) {
    forall s, t :: s in ss && t in ss && Genuine(d, s) && Genuine(d, t) && s.key == t.key ==> s == t
  }

  /** A genuine signal whose name is free, or its own, is refused only for its key. */
  lemma AddSignalKeeps(d: Digests, l: Learned, s: Signal)
    requires Valid(d, l) && Genuine(d, s) && (s.id in l.signals ==> l.signals[s.id] == s)
    ensures AddSignal(d, l, s).signalsByKey ==
            if s.key in l.signalsByKey then l.signalsByKey else l.signalsByKey[s.key := s]
  {
  }

  /** Whatever is appended, the store is in order and holds nothing but genuine signals
      that were appended. */
  lemma {:induction false} StoredWasAppended(d: Digests, ss: seq<Signal>)
    ensures Valid(d, AppendAll(d, ss))
    ensures forall id :: id in AppendAll(d, ss).signals ==> AppendAll(d, ss).signals[id] in ss
  {
    if ss != [] {
      StoredWasAppended(d, ss[..|ss|-1]);
      SignalKeepsValid(d, AppendAll(d, ss[..|ss|-1]), ss[|ss|-1]);
    }
  }

  /** Of the genuine signals with one key the first appended is the one that is kept. */
  lemma {:induction false} FirstAppendWins(d: Digests, ss: seq<Signal>, key: string)
    requires OneSignalPerName(d, ss)
    ensures FirstWith(d, ss, key) ==
            if key in AppendAll(d, ss).signalsByKey then Some(AppendAll(d, ss).signalsByKey[key]) else None
  {
    if ss != [] {
      var before, last := ss[..|ss|-1], ss[|ss|-1];
      FirstAppendWins(d, before, key);
      StoredWasAppended(d, before);
      var l := AppendAll(d, before);
      if Genuine(d, last) {
        assert last in ss && (last.id in l.signals ==> l.signals[last.id] in ss);
        AddSignalKeeps(d, l, last);
      }
    }
  }

  /** What is appended first to an empty store stays, under its name and under its key. */
  lemma {:induction false} FrontStays(d: Digests, s: Signal, rest: seq<Signal>)
    requires Genuine(d, s)
    ensures var l := AppendAll(d, [s] + rest);
            && s.id in l.signals && l.signals[s.id] == s
            && s.key in l.signalsByKey && l.signalsByKey[s.key] == s
  {
    var all := [s] + rest;
    if rest == [] {
      assert all[..0] == [] && all[0] == s;
    } else {
      var before := rest[..|rest|-1];
      FrontStays(d, s, before);
      assert all[..|all|-1] == [s] + before;
    }
  }

  lemma SameFirsts(d: Digests, ss: seq<Signal>, tt: seq<Signal>, key: string)
    requires OneSignalPerKey(d, ss) && Elements(ss) == Elements(tt)
    ensures FirstWith(d, ss, key) == FirstWith(d, tt, key)
  {
    var x, y := FirstWith(d, ss, key), FirstWith(d, tt, key);
    if x.Some? {
      assert x.value in Elements(tt);
    }
    if y.Some? {
      assert y.value in Elements(ss);
    }
  }

  lemma SameIndexSameStore(d: Digests, l: Learned, l': Learned)
    requires Valid(d, l) && Valid(d, l') && l.signalsByKey == l'.signalsByKey
    ensures l.signals == l'.signals
  {
    assert l.signals.Keys <= l'.signals.Keys && l'.signals.Keys <= l.signals.Keys;
  }

  lemma {:induction false} NoApprovalsYet(d: Digests, ss: seq<Signal>)
    ensures AppendAll(d, ss).approvals == map[] && AppendAll(d, ss).approvalsByKey == map[]
  {
    if ss != [] {
      NoApprovalsYet(d, ss[..|ss|-1]);
    }
  }

  lemma SameIndex(d: Digests, ss: seq<Signal>, tt: seq<Signal>)
    requires OneSignalPerKey(d, ss) && OneSignalPerName(d, ss) && Elements(ss) == Elements(tt)
    ensures AppendAll(d, ss).signalsByKey == AppendAll(d, tt).signalsByKey
  {
    assert OneSignalPerName(d, tt) by {
      assert forall t :: t in tt ==> t in Elements(ss);
    }
    var m, m' := AppendAll(d, ss).signalsByKey, AppendAll(d, tt).signalsByKey;
    forall key
      ensures key in m <==> key in m'
      ensures key in m && key in m' ==> m[key] == m'[key]
    {
      FirstAppendWins(d, ss, key);
      FirstAppendWins(d, tt, key);
      SameFirsts(d, ss, tt, key);
    }
  }

  lemma OrderDoesNotMatter(d: Digests, ss: seq<Signal>, tt: seq<Signal>)
    requires OneSignalPerKey(d, ss) && OneSignalPerName(d, ss) && Elements(ss) == Elements(tt)
    ensures AppendAll(d, ss) == AppendAll(d, tt)
  {
    SameIndex(d, ss, tt);
    StoredWasAppended(d, ss);
    StoredWasAppended(d, tt);
    SameIndexSameStore(d, AppendAll(d, ss), AppendAll(d, tt));
    NoApprovalsYet(d, ss);
    NoApprovalsYet(d, tt);
  }

  /** Any two orders of the same signals leave the same store. */
  ghost predicate OrderIndependent(d: Digests, ss: seq<Signal>) {
    forall p, q :: multiset(p) == multiset(ss) && multiset(q) == multiset(ss) ==> AppendAll(d, p) == AppendAll(d, q)
  }

  function MoveToFront(ss: seq<Signal>, i: nat): (r: seq<Signal>)
    requires i < |ss|
    ensures multiset(r) == multiset(ss)
  {
    assert ss == ss[..i] + [ss[i]] + ss[i+1..];
    [ss[i]] + (ss[..i] + ss[i+1..])
  }

  lemma SameElements(p: seq<Signal>, ss: seq<Signal>)
    requires multiset(p) == multiset(ss)
    ensures Elements(p) == Elements(ss)
  {
    assert forall s :: s in p <==> s in multiset(p);
    assert forall s :: s in ss <==> s in multiset(ss);
  }

  /** Two different genuine signals with one key, or one name, make the store depend on the
      order. */
  lemma OrderMatters(d: Digests, ss: seq<Signal>, i: nat, j: nat)
    requires i < |ss| && j < |ss| && ss[i] != ss[j] && (ss[i].key == ss[j].key || ss[i].id == ss[j].id)
    requires Genuine(d, ss[i]) && Genuine(d, ss[j])
    ensures !OrderIndependent(d, ss)
  {
    FrontStays(d, ss[i], ss[..i] + ss[i+1..]);
    FrontStays(d, ss[j], ss[..j] + ss[j+1..]);
    assert AppendAll(d, MoveToFront(ss, i)) != AppendAll(d, MoveToFront(ss, j));
  }

  /** The order of appends is irrelevant exactly when no two different genuine signals share
      an idempotency key or a digest; the digest compared for a retry leaves out the
      observation time, so the first condition can fail. */
  lemma OrderIndependentExactly(d: Digests, ss: seq<Signal>)
    ensures OrderIndependent(d, ss) <==> OneSignalPerKey(d, ss) && OneSignalPerName(d, ss)
  {
    if OneSignalPerKey(d, ss) && OneSignalPerName(d, ss) {
      forall p, q | multiset(p) == multiset(ss) && multiset(q) == multiset(ss)
        ensures AppendAll(d, p) == AppendAll(d, q)
      {
        SameElements(p, ss);
        SameElements(q, ss);
        OrderDoesNotMatter(d, ss, p);
        OrderDoesNotMatter(d, ss, q);
      }
    } else {
      var s, t :| s in ss && t in ss && Genuine(d, s) && Genuine(d, t) && (s.key == t.key || s.id == t.id) && s != t;
      var i :| 0 <= i < |ss| && ss[i] == s;
      var j :| 0 <= j < |ss| && ss[j] == t;
      OrderMatters(d, ss, i, j);
    }
  }
}
