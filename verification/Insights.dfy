/** The insights engine: repeated human feedback becomes guidance candidates, repeated
    failures become friction findings. */
module Insights {
  import opened Contracts
  import opened DurableRecords
  import opened Sorting
  import opened LearningStore

  datatype FindingKind = RepeatedCorrection | RepeatedPreference | RepeatedWorkflow | RunFriction | ToolFriction

  datatype GroupKey =
    | HumanGroup(agentId: string, kind: SignalKind, feedback: string)
    | RunGroup(agentId: string, runStatus: RunStatus)
    | ToolGroup(agentId: string, toolName: string, executionStatus: ExecutionStatus)

  /** What a candidate's digest covers. */
  datatype Guidance = Guidance(
    kind: CandidateKind,
    agentId: string,
    findingKind: FindingKind,
    body: string,
    evidenceIds: seq<nat>)

  datatype Candidate = Candidate(guidance: Guidance, hash: nat, skillId: Option<nat>)

  /** What a finding's digest covers. */
  datatype Pattern = Pattern(kind: FindingKind, group: GroupKey, evidenceIds: seq<nat>, proposesCandidate: bool)

  datatype Finding = Finding(pattern: Pattern, hash: nat)

  datatype Snapshot = Snapshot(findings: seq<Finding>, candidates: seq<Candidate>)

  /** Text normalisation, the digests of results, and the engine's settings. */
  datatype Engine = Engine(
    normalize: string -> string,
    guidanceHash: Guidance -> nat,
    patternHash: Pattern -> nat,
    snapshotHash: (Option<string>, seq<nat>, seq<nat>) -> nat,
    windowDays: nat,
    requested: nat)

  const MIN_GUIDANCE_OCCURRENCES := 2

  function Threshold(e: Engine): nat {
    if e.requested < MIN_GUIDANCE_OCCURRENCES then MIN_GUIDANCE_OCCURRENCES else e.requested
  }

  function FindingFor(kind: SignalKind): FindingKind
    requires Human(kind)
  {
    match kind
    case HumanCorrection => RepeatedCorrection
    case HumanPreference => RepeatedPreference
    case HumanWorkflow => RepeatedWorkflow
  }

  function CandidateFor(kind: SignalKind): CandidateKind
    requires Human(kind)
  {
    if kind == HumanWorkflow then Skill else Rule
  }

  function KeyOf(e: Engine, s: Signal): Option<GroupKey> {
    if Human(s.kind) then
      if s.feedback.Some? then Some(HumanGroup(s.agentId, s.kind, e.normalize(s.feedback.value))) else None
    else if s.kind == StructuralRunOutcome then
      if s.runStatus.Some? && s.runStatus != Some(StatusCompleted)
      then Some(RunGroup(s.agentId, s.runStatus.value)) else None
    else if s.executionStatus.Some? && s.executionStatus != Some(Executed) && s.toolName.Some? then
      Some(ToolGroup(s.agentId, s.toolName.value, s.executionStatus.value))
    else None
  }

  /** The signals of one group, in the order they are listed. */
  function Group(e: Engine, xs: seq<Signal>, k: GroupKey): seq<Signal> {
    if xs == [] then []
    else Group(e, xs[..|xs|-1], k) + if KeyOf(e, xs[|xs|-1]) == Some(k) then [xs[|xs|-1]] else []
  }

  lemma {:induction false} GroupMembers(e: Engine, xs: seq<Signal>, k: GroupKey)
    ensures forall s :: s in Group(e, xs, k) <==> s in xs && KeyOf(e, s) == Some(k)
  {
    if xs != [] {
      GroupMembers(e, xs[..|xs|-1], k);
      assert xs == xs[..|xs|-1] + [xs[|xs|-1]];
    }
  }

  lemma {:induction false} GroupAscends(e: Engine, xs: seq<Signal>, k: GroupKey)
    requires Ascending(SignalKey, xs)
    ensures Ascending(SignalKey, Group(e, xs, k))
  {
    if xs != [] {
      var before, last := xs[..|xs|-1], xs[|xs|-1];
      GroupAscends(e, before, k);
      GroupMembers(e, before, k);
      forall i | 0 <= i < |Group(e, before, k)| ensures Less(SignalKey(Group(e, before, k)[i]), SignalKey(last)) {
        assert Group(e, before, k)[i] in before;
      }
    }
  }

  /** A set of evidence that one candidate may rest on. */
  predicate Homogeneous(e: Engine, xs: seq<Signal>) {
    && |xs| >= MIN_GUIDANCE_OCCURRENCES
    && (forall i :: 0 <= i < |xs| ==> Human(xs[i].kind) && xs[i].feedback.Some?)
    && (forall i, j :: 0 <= i < j < |xs| ==> xs[i].id != xs[j].id)
    && (forall i :: 0 <= i < |xs| ==> KeyOf(e, xs[i]) == KeyOf(e, xs[0]))
  }

  function IdKey(id: nat): Key {
    Key(0.0, id)
  }

  function Ids(xs: seq<Signal>): (r: seq<nat>)
    ensures |r| == |xs| && forall i :: 0 <= i < |xs| ==> r[i] == xs[i].id
  {
    seq(|xs|, i requires 0 <= i < |xs| => xs[i].id)
  }

  function SortedIds(xs: seq<Signal>): seq<nat> {
    Sort(IdKey, Ids(xs))
  }

  function MakeCandidate(e: Engine, ordered: seq<Signal>): Candidate
    requires ordered != [] && Human(ordered[0].kind) && ordered[0].feedback.Some?
  {
    var first := ordered[0];
    var guidance := Guidance(
                      CandidateFor(first.kind), first.agentId, FindingFor(first.kind), first.feedback.value,
                      SortedIds(ordered));
    var hash := e.guidanceHash(guidance);
    Candidate(guidance, hash, if guidance.kind == Rule then None else Some(hash))
  }

  /** `_candidate_from_human_group`; None where the evidence is refused. */
  function CandidateFrom(e: Engine, xs: seq<Signal>): Option<Candidate> {
    if Homogeneous(e, xs) then
      assert Sort(SignalKey, xs)[0] in xs;
      Some(MakeCandidate(e, Sort(SignalKey, xs)))
    else None
  }

  ghost function Names(xs: seq<Signal>): set<nat> {
    if xs == [] then {} else Names(xs[..|xs|-1]) + {xs[|xs|-1].id}
  }

  ghost function Kinds(xs: seq<Signal>): set<SignalKind> {
    if xs == [] then {} else Kinds(xs[..|xs|-1]) + {xs[|xs|-1].kind}
  }

  ghost function Agents(xs: seq<Signal>): set<string> {
    if xs == [] then {} else Agents(xs[..|xs|-1]) + {xs[|xs|-1].agentId}
  }

  function TextOf(e: Engine, s: Signal): string {
    if s.feedback.Some? then e.normalize(s.feedback.value) else ""
  }

  ghost function Feedbacks(e: Engine, xs: seq<Signal>): set<string> {
    if xs == [] then {} else Feedbacks(e, xs[..|xs|-1]) + {TextOf(e, xs[|xs|-1])}
  }

  lemma {:induction false} Noted(e: Engine, xs: seq<Signal>, i: nat)
    requires i < |xs|
    ensures xs[i].id in Names(xs) && xs[i].kind in Kinds(xs) && xs[i].agentId in Agents(xs)
    ensures TextOf(e, xs[i]) in Feedbacks(e, xs)
  {
    if i < |xs| - 1 {
      Noted(e, xs[..|xs|-1], i);
    }
  }

  lemma {:induction false} NamedBy(xs: seq<Signal>, id: nat) returns (i: nat)
    requires id in Names(xs)
    ensures i < |xs| && xs[i].id == id
  {
    i := |xs| - 1;
    if xs[i].id != id {
      i := NamedBy(xs[..|xs|-1], id);
    }
  }

  lemma {:induction false} AllAlike(e: Engine, xs: seq<Signal>, s: Signal)
    requires xs != []
    requires forall i :: 0 <= i < |xs| ==>
               xs[i].kind == s.kind && xs[i].agentId == s.agentId && TextOf(e, xs[i]) == TextOf(e, s)
    ensures Kinds(xs) == {s.kind} && Agents(xs) == {s.agentId} && Feedbacks(e, xs) == {TextOf(e, s)}
  {
    if |xs| > 1 {
      AllAlike(e, xs[..|xs|-1], s);
    } else {
      assert xs[..0] == [];
    }
  }

  /** Human signals with text and with ids of their own. */
  ghost predicate Attributed(xs: seq<Signal>) {
    xs == [] ||
    var before, last := xs[..|xs|-1], xs[|xs|-1];
    Attributed(before) && Human(last.kind) && last.feedback.Some? && last.id !in Names(before)
  }

  lemma {:induction false} AttributedMeaning(e: Engine, xs: seq<Signal>)
    ensures Attributed(xs) <==>
            && (forall i :: 0 <= i < |xs| ==> Human(xs[i].kind) && xs[i].feedback.Some?)
            && (forall i, j :: 0 <= i < j < |xs| ==> xs[i].id != xs[j].id)
  {
    if xs != [] {
      var before, last := xs[..|xs|-1], xs[|xs|-1];
      AttributedMeaning(e, before);
      if last.id in Names(before) {
        var i := NamedBy(before, last.id);
        assert xs[i].id == xs[|xs|-1].id;
      } else {
        forall i | 0 <= i < |before| ensures xs[i].id != last.id {
          Noted(e, before, i);
        }
      }
    }
  }

  lemma {:induction false} NamesCount(xs: seq<Signal>)
    requires Attributed(xs)
    ensures |Names(xs)| == |xs|
  {
    if xs != [] {
      NamesCount(xs[..|xs|-1]);
    }
  }

  lemma {:induction false} StillNotAttributed(xs: seq<Signal>, n: nat)
    requires n <= |xs| && !Attributed(xs[..n])
    ensures !Attributed(xs)
  {
    if n < |xs| {
      assert xs[..|xs|-1][..n] == xs[..n];
      StillNotAttributed(xs[..|xs|-1], n);
    } else {
      assert xs[..n] == xs;
    }
  }

  /** The pass over the evidence: refuses what is not attributed, and collects four sets. */
  method Collect(e: Engine, xs: seq<Signal>)
    returns (ok: bool, seen: set<nat>, kinds: set<SignalKind>, agents: set<string>, feedbacks: set<string>)
    ensures ok <==> Attributed(xs)
    ensures ok ==> seen == Names(xs) && kinds == Kinds(xs) && agents == Agents(xs) && feedbacks == Feedbacks(e, xs)
  {
    ok := true;
    seen, kinds, agents, feedbacks := {}, {}, {}, {};
    for i := 0 to |xs|
      invariant Attributed(xs[..i])
      invariant seen == Names(xs[..i])
      invariant kinds == Kinds(xs[..i]) && agents == Agents(xs[..i]) && feedbacks == Feedbacks(e, xs[..i])
    {
      var s := xs[i];
      assert xs[..i+1][..i] == xs[..i];
      if !Human(s.kind) || s.id in seen || s.feedback.None? {
        StillNotAttributed(xs, i + 1);
        ok := false;
        return;
      }
      seen, kinds, agents := seen + {s.id}, kinds + {s.kind}, agents + {s.agentId};
      feedbacks := feedbacks + {TextOf(e, s)};
    }
    assert xs[..|xs|] == xs;
  }

  /** The check as the source makes it, on the sorted evidence. */
  method RequireHomogeneousHumanGroup(e: Engine, xs: seq<Signal>) returns (r: Option<seq<Signal>>)
    ensures r == if Homogeneous(e, xs) then Some(Sort(SignalKey, xs)) else None
  {
    if xs == [] {
      return None;
    }
    var ordered := Sort(SignalKey, xs);
    SortKeepsHomogeneous(e, xs);
    var ok, seen, kinds, agents, feedbacks := Collect(e, ordered);
    AttributedMeaning(e, ordered);
    if !ok {
      return None;
    }
    NamesCount(ordered);
    SetsDecide(e, ordered);
    if |seen| < MIN_GUIDANCE_OCCURRENCES || |kinds| != 1 || |agents| != 1 || |feedbacks| != 1 {
      return None;
    }
    return Some(ordered);
  }

  lemma SetsDecide(e: Engine, xs: seq<Signal>)
    requires Attributed(xs) && xs != []
    ensures Homogeneous(e, xs) <==>
            |xs| >= MIN_GUIDANCE_OCCURRENCES && |Kinds(xs)| == 1 && |Agents(xs)| == 1 && |Feedbacks(e, xs)| == 1
  {
    var first := xs[0];
    AttributedMeaning(e, xs);
    Noted(e, xs, 0);
    OnlyMember(Kinds(xs), first.kind);
    OnlyMember(Agents(xs), first.agentId);
    OnlyMember(Feedbacks(e, xs), TextOf(e, first));
    if |Kinds(xs)| == 1 && |Agents(xs)| == 1 && |Feedbacks(e, xs)| == 1 {
      forall i | 0 <= i < |xs| ensures KeyOf(e, xs[i]) == KeyOf(e, first) {
        Noted(e, xs, i);
      }
    }
    if Homogeneous(e, xs) {
      AllAlike(e, xs, first);
    }
  }

  lemma OnlyMember<T>(xs: set<T>, x: T)
    requires x in xs
    ensures |xs| == 1 <==> xs == {x}
  {
    if |xs| == 1 {
      assert |xs - {x}| == 0;
    }
  }

  /** Whether evidence is homogeneous does not depend on its order. */
  lemma SortKeepsHomogeneous(e: Engine, xs: seq<Signal>)
    ensures Homogeneous(e, xs) <==> Homogeneous(e, Sort(SignalKey, xs))
  {
    var ordered := Sort(SignalKey, xs);
    SortIsPermutation(xs);
    if Homogeneous(e, xs) {
      PermutedHomogeneous(e, xs, ordered);
    }
    if Homogeneous(e, ordered) {
      PermutedHomogeneous(e, ordered, xs);
    }
  }

  lemma {:induction false} SortIsPermutation(xs: seq<Signal>)
    ensures multiset(Sort(SignalKey, xs)) == multiset(xs)
  {
    if xs != [] {
      SortIsPermutation(xs[1..]);
      InsertIsPermutation(xs[0], Sort(SignalKey, xs[1..]));
      assert xs == [xs[0]] + xs[1..];
    }
  }

  lemma {:induction false} InsertIsPermutation(x: Signal, xs: seq<Signal>)
    ensures multiset(Insert(SignalKey, x, xs)) == multiset(xs) + multiset{x}
  {
    if xs != [] && !Less(SignalKey(x), SignalKey(xs[0])) {
      InsertIsPermutation(x, xs[1..]);
      assert xs == [xs[0]] + xs[1..];
    }
  }

  lemma DistinctById(xs: seq<Signal>, ys: seq<Signal>)
    requires multiset(xs) == multiset(ys) && forall i, j :: 0 <= i < j < |xs| ==> xs[i].id != xs[j].id
    ensures forall i, j :: 0 <= i < j < |ys| ==> ys[i].id != ys[j].id
  {
    forall i, j | 0 <= i < j < |ys| ensures ys[i].id != ys[j].id {
      assert ys[i] in multiset(ys) && ys[j] in multiset(ys);
      if ys[i] == ys[j] {
        TwiceIn(ys, i, j);
        OnceIn(xs, ys[i]);
      }
    }
  }

  lemma TwiceIn(ys: seq<Signal>, i: nat, j: nat)
    requires i < j < |ys| && ys[i] == ys[j]
    ensures multiset(ys)[ys[i]] >= 2
  {
    assert ys == ys[..j] + [ys[j]] + ys[j+1..];
    assert ys[i] in ys[..j];
  }

  lemma {:induction false} OnceIn(xs: seq<Signal>, x: Signal)
    requires forall i, j :: 0 <= i < j < |xs| ==> xs[i].id != xs[j].id
    ensures multiset(xs)[x] <= 1
  {
    if xs != [] {
      OnceIn(xs[1..], x);
      assert xs == [xs[0]] + xs[1..];
      assert forall i :: 0 <= i < |xs[1..]| ==> xs[1..][i] == xs[i+1];
      assert xs[0] !in xs[1..];
    }
  }

  lemma PermutedHomogeneous(e: Engine, xs: seq<Signal>, ys: seq<Signal>)
    requires Homogeneous(e, xs) && multiset(xs) == multiset(ys)
    ensures Homogeneous(e, ys)
  {
    assert |multiset(xs)| == |xs| && |multiset(ys)| == |ys|;
    DistinctById(xs, ys);
    forall i | 0 <= i < |ys|
      ensures Human(ys[i].kind) && ys[i].feedback.Some? && KeyOf(e, ys[i]) == KeyOf(e, xs[0])
    {
      assert ys[i] in multiset(xs);
      assert ys[i] in xs;
    }
  }

  // ---- The analysis ----

  /** Signals as the store lists them. */
  ghost predicate Listing(xs: seq<Signal>) {
    && Ascending(SignalKey, xs)
    && (forall s, t :: s in xs && t in xs && s.id == t.id ==> s == t)
    && (forall s :: s in xs ==> Shaped(s))
  }

  /** The groups that reach the threshold. */
  ghost function BigGroups(e: Engine, xs: seq<Signal>): set<GroupKey> {
    set s | s in xs && KeyOf(e, s).Some? && |Group(e, xs, KeyOf(e, s).value)| >= Threshold(e) :: KeyOf(e, s).value
  }

  predicate Sensible(k: GroupKey) {
    k.HumanGroup? ==> Human(k.kind)
  }

  function KindOf(k: GroupKey): FindingKind
    requires Sensible(k)
  {
    match k
    case HumanGroup(_, kind, _) => FindingFor(kind)
    case RunGroup(_, _) => RunFriction
    case ToolGroup(_, _, _) => ToolFriction
  }

  function FindingOf(e: Engine, k: GroupKey, g: seq<Signal>): Finding
    requires Sensible(k)
  {
    var pattern := Pattern(KindOf(k), k, SortedIds(g), k.HumanGroup?);
    Finding(pattern, e.patternHash(pattern))
  }

  /** Findings are sorted by the name of their kind, then by digest. */
  function FindingKey(f: Finding): Key {
    Key(FindingRank(f.pattern.kind), f.hash)
  }

  function FindingRank(kind: FindingKind): real {
    match kind
    case RepeatedCorrection => 0.0
    case RepeatedPreference => 1.0
    case RepeatedWorkflow => 2.0
    case RunFriction => 3.0
    case ToolFriction => 4.0
  }

  function CandidateKey(c: Candidate): Key {
    Key(0.0, c.hash)
  }

  /** The candidate of a human group. */
  function CandidateOf(e: Engine, xs: seq<Signal>, k: GroupKey): Option<Candidate> {
    if k.HumanGroup? then CandidateFrom(e, Group(e, xs, k)) else None
  }

  function FindingAbout(e: Engine, xs: seq<Signal>, k: GroupKey): Option<Finding> {
    if Sensible(k) then Some(FindingOf(e, k, Group(e, xs, k))) else None
  }

  ghost function CandidateSet(e: Engine, xs: seq<Signal>, keys: set<GroupKey>): set<Candidate> {
    set k | k in keys && CandidateOf(e, xs, k).Some? :: CandidateOf(e, xs, k).value
  }

  ghost function FindingSet(e: Engine, xs: seq<Signal>, keys: set<GroupKey>): set<Finding> {
    set k | k in keys && FindingAbout(e, xs, k).Some? :: FindingAbout(e, xs, k).value
  }

  /** A snapshot of some of the groups. */
  ghost predicate Covers(e: Engine, xs: seq<Signal>, keys: set<GroupKey>, snap: Snapshot) {
    && Ascending(CandidateKey, snap.candidates) && Elements(snap.candidates) == CandidateSet(e, xs, keys)
    && Ascending(FindingKey, snap.findings) && Elements(snap.findings) == FindingSet(e, xs, keys)
  }

  /** One finding for every group that reaches the threshold, one candidate for every
      human one, and nothing else. */
  ghost predicate Exact(e: Engine, xs: seq<Signal>, snap: Snapshot) {
    Covers(e, xs, BigGroups(e, xs), snap)
  }

  /** The digests of what two groups lead to differ unless they lead to the same. */
  ghost predicate Apart(e: Engine, xs: seq<Signal>, k: GroupKey, k': GroupKey) {
    var c, c' := CandidateOf(e, xs, k), CandidateOf(e, xs, k');
    var f, f' := FindingAbout(e, xs, k), FindingAbout(e, xs, k');
    && (c.Some? && c'.Some? && c.value.hash == c'.value.hash ==> c.value.guidance == c'.value.guidance)
    && (f.Some? && f'.Some? && f.value.hash == f'.value.hash ==> f.value.pattern == f'.value.pattern)
  }

  /** No two of the groups reported for these signals collide. */
  ghost predicate Collisionless(e: Engine, xs: seq<Signal>) {
    forall k, k' :: k in BigGroups(e, xs) && k' in BigGroups(e, xs) ==> Apart(e, xs, k, k')
  }

  lemma GroupIsHomogeneous(e: Engine, xs: seq<Signal>, k: GroupKey)
    requires Listing(xs) && k.HumanGroup? && |Group(e, xs, k)| >= MIN_GUIDANCE_OCCURRENCES
    ensures Homogeneous(e, Group(e, xs, k))
  {
    var g := Group(e, xs, k);
    GroupAscends(e, xs, k);
    GroupMembers(e, xs, k);
    forall i | 0 <= i < |g| ensures g[i] in xs && KeyOf(e, g[i]) == Some(k) {
      assert g[i] in g;
    }
    forall i, j | 0 <= i < j < |g| ensures g[i].id != g[j].id {
      assert Less(SignalKey(g[i]), SignalKey(g[j]));
      assert g[i] in xs && g[j] in xs;
    }
  }

  /** Different groups have different evidence. */
  lemma EvidenceTellsGroups(e: Engine, xs: seq<Signal>, k: GroupKey, k': GroupKey)
    requires Listing(xs) && Group(e, xs, k) != [] && SortedIds(Group(e, xs, k)) == SortedIds(Group(e, xs, k'))
    ensures k == k'
  {
    var g, g' := Group(e, xs, k), Group(e, xs, k');
    GroupMembers(e, xs, k);
    GroupMembers(e, xs, k');
    var s := g[0];
    assert s in g;
    assert Ids(g)[0] in Ids(g);
    assert s.id in SortedIds(g');
    var i :| 0 <= i < |Ids(g')| && Ids(g')[i] == s.id;
    assert g'[i] in g';
  }

  lemma BigHumanGroup(e: Engine, xs: seq<Signal>, k: GroupKey)
    requires Listing(xs) && k.HumanGroup? && k in BigGroups(e, xs)
    ensures Homogeneous(e, Group(e, xs, k)) && CandidateOf(e, xs, k).Some?
    ensures CandidateOf(e, xs, k).value.guidance.evidenceIds == SortedIds(Group(e, xs, k))
  {
    BigGroupKeys(e, xs, k);
    GroupIsHomogeneous(e, xs, k);
    CandidateEvidence(e, Group(e, xs, k));
  }

  /** Different human groups make candidates with different hashes. */
  lemma CandidatesTellGroups(e: Engine, xs: seq<Signal>, k: GroupKey, k': GroupKey)
    requires Listing(xs) && Collisionless(e, xs)
    requires k.HumanGroup? && k'.HumanGroup? && k in BigGroups(e, xs) && k' in BigGroups(e, xs)
    ensures CandidateOf(e, xs, k).Some? && CandidateOf(e, xs, k').Some?
    ensures CandidateOf(e, xs, k).value.hash == CandidateOf(e, xs, k').value.hash ==> k == k'
  {
    BigHumanGroup(e, xs, k);
    BigHumanGroup(e, xs, k');
    if CandidateOf(e, xs, k).value.hash == CandidateOf(e, xs, k').value.hash {
      assert Apart(e, xs, k, k');
      EvidenceTellsGroups(e, xs, k, k');
    }
  }

  /** A candidate names exactly the evidence of its group. */
  lemma CandidateNamesItsGroup(e: Engine, xs: seq<Signal>, k: GroupKey, id: nat)
    requires Listing(xs) && k.HumanGroup? && k in BigGroups(e, xs)
    ensures CandidateOf(e, xs, k).Some?
    ensures id in CandidateOf(e, xs, k).value.guidance.evidenceIds <==>
            exists s :: s in xs && KeyOf(e, s) == Some(k) && s.id == id
  {
    BigHumanGroup(e, xs, k);
    IdsOf(Group(e, xs, k), id);
    GroupMembers(e, xs, k);
  }

  /** A candidate is proposed exactly for the human groups of at least the threshold. */
  lemma CandidateIffGroup(e: Engine, xs: seq<Signal>, snap: Snapshot, c: Candidate)
    requires Exact(e, xs, snap)
    ensures c in snap.candidates <==>
            exists k: GroupKey :: k.HumanGroup? && |Group(e, xs, k)| >= Threshold(e) && CandidateOf(e, xs, k) == Some(c)
  {
    assert c in snap.candidates <==> c in Elements(snap.candidates);
    if c in snap.candidates {
      var k :| k in BigGroups(e, xs) && CandidateOf(e, xs, k) == Some(c);
      BigGroupKeys(e, xs, k);
    }
    if k: GroupKey :| k.HumanGroup? && |Group(e, xs, k)| >= Threshold(e) && CandidateOf(e, xs, k) == Some(c) {
      BigGroupKeys(e, xs, k);
    }
  }

  lemma IdsOf(xs: seq<Signal>, id: nat)
    ensures id in SortedIds(xs) <==> exists s :: s in xs && s.id == id
  {
    if id in Ids(xs) {
      var i :| 0 <= i < |Ids(xs)| && Ids(xs)[i] == id;
      assert xs[i] in xs;
    }
    if s :| s in xs && s.id == id {
      var i :| 0 <= i < |xs| && xs[i] == s;
      assert Ids(xs)[i] == id;
    }
  }

  lemma IdsAreDistinct(xs: seq<Signal>)
    requires forall i, j :: 0 <= i < j < |xs| ==> xs[i].id != xs[j].id
    ensures NoDuplicates(Ids(xs)) && Ascending(IdKey, SortedIds(xs))
  {
    SortAscends(IdKey, Ids(xs));
  }

  /** Sorting the evidence first does not change the ids it sorts to. */
  lemma CandidateEvidence(e: Engine, xs: seq<Signal>)
    requires Homogeneous(e, xs)
    ensures CandidateFrom(e, xs).value.guidance.evidenceIds == SortedIds(xs)
  {
    var ordered := Sort(SignalKey, xs);
    SortIsPermutation(xs);
    DistinctById(xs, ordered);
    IdsAreDistinct(xs);
    IdsAreDistinct(ordered);
    forall id ensures id in SortedIds(xs) <==> id in SortedIds(ordered) {
      IdsOf(xs, id);
      IdsOf(ordered, id);
    }
    assert Elements(SortedIds(xs)) == Elements(SortedIds(ordered));
    AscendingUnique(IdKey, SortedIds(xs), SortedIds(ordered));
  }

  /** A candidate depends on its evidence as a set only. */
  lemma CandidateDependsOnElements(e: Engine, xs: seq<Signal>, ys: seq<Signal>)
    requires Homogeneous(e, xs) && NoDuplicates(ys) && Elements(xs) == Elements(ys)
    ensures CandidateFrom(e, ys) == CandidateFrom(e, xs)
  {
    forall i | 0 <= i < |ys| ensures ys[i] in xs {
      assert ys[i] in Elements(ys);
    }
    assert xs[0] in Elements(xs) && xs[1] in Elements(xs);
    assert xs[0] in ys && xs[1] in ys && xs[0] != xs[1];
    assert |ys| >= MIN_GUIDANCE_OCCURRENCES by {
      var i, j :| 0 <= i < |ys| && 0 <= j < |ys| && ys[i] == xs[0] && ys[j] == xs[1];
      assert i != j;
    }
    forall i, j | 0 <= i < j < |ys| ensures ys[i].id != ys[j].id {
      assert ys[i] in xs && ys[j] in xs && ys[i] != ys[j];
    }
    assert forall i :: 0 <= i < |ys| ==> KeyOf(e, ys[i]) == KeyOf(e, xs[0]);
    SortDependsOnElements(SignalKey, xs, ys);
  }

  /** Loading the evidence a candidate names and rebuilding it gives the candidate back. */
  lemma ReconstructsFromEvidence(d: Digests, e: Engine, l: Learned, xs: seq<Signal>)
    requires Valid(d, l) && Homogeneous(e, xs) && forall s :: s in xs ==> s.id in l.signals && l.signals[s.id] == s
    ensures var ids := CandidateFrom(e, xs).value.guidance.evidenceIds;
            Load(l, ids).Some? && CandidateFrom(e, Load(l, ids).value) == CandidateFrom(e, xs)
  {
    var ids := SortedIds(xs);
    CandidateEvidence(e, xs);
    IdsAreDistinct(xs);
    AscendingNoDuplicates(IdKey, ids);
    forall id ensures id in ids <==> exists s :: s in xs && s.id == id {
      IdsOf(xs, id);
    }
    LoadsTheNamed(l, ids, xs);
    CandidateDependsOnElements(e, xs, Load(l, ids).value);
  }

  lemma LoadsTheNamed(l: Learned, ids: seq<nat>, xs: seq<Signal>)
    requires NoDuplicates(ids) && forall id :: id in ids <==> exists s :: s in xs && s.id == id
    requires forall s :: s in xs ==> s.id in l.signals && l.signals[s.id] == s
    ensures Load(l, ids).Some? && Elements(Load(l, ids).value) == Elements(xs) && NoDuplicates(Load(l, ids).value)
  {
    UniqueOfDistinct(ids);
    var loaded := Load(l, ids).value;
    forall i | 0 <= i < |ids| ensures loaded[i] in xs && loaded[i].id == ids[i] {
      assert ids[i] in ids;
    }
    forall s | s in xs ensures s in loaded {
      assert s.id in ids;
      var i :| 0 <= i < |ids| && ids[i] == s.id;
      assert loaded[i] == s;
    }
  }

  // ---- The engine's passes ----

  /** The dictionaries of groups, filled in one pass. */
  method GroupSignals(e: Engine, xs: seq<Signal>) returns (groups: map<GroupKey, seq<Signal>>)
    ensures forall k :: k in groups <==> Group(e, xs, k) != []
    ensures forall k :: k in groups ==> groups[k] == Group(e, xs, k)
  {
    groups := map[];
    for i := 0 to |xs|
      invariant forall k :: k in groups <==> Group(e, xs[..i], k) != []
      invariant forall k :: k in groups ==> groups[k] == Group(e, xs[..i], k)
    {
      assert xs[..i+1][..i] == xs[..i];
      var key := KeyOf(e, xs[i]);
      if key.Some? {
        var sofar := if key.value in groups then groups[key.value] else [];
        groups := groups[key.value := sofar + [xs[i]]];
      }
    }
    assert xs[..|xs|] == xs;
  }

  lemma BigGroupKeys(e: Engine, xs: seq<Signal>, k: GroupKey)
    ensures k in BigGroups(e, xs) <==> |Group(e, xs, k)| >= Threshold(e)
    ensures Group(e, xs, k) != [] ==> Sensible(k)
  {
    var g := Group(e, xs, k);
    GroupMembers(e, xs, k);
    if g != [] {
      assert g[0] in g;
    }
  }

  /** One more group adds exactly its candidate and its finding. */
  lemma OneMoreGroup(e: Engine, xs: seq<Signal>, keys: set<GroupKey>, k: GroupKey)
    requires Listing(xs) && Collisionless(e, xs) && k !in keys && |Group(e, xs, k)| >= Threshold(e)
    requires forall x :: x in keys ==> |Group(e, xs, x)| >= Threshold(e)
    ensures Sensible(k)
    ensures k.HumanGroup? ==>
              && CandidateOf(e, xs, k).Some?
              && (forall c :: c in CandidateSet(e, xs, keys) ==>
                                CandidateKey(c) != CandidateKey(CandidateOf(e, xs, k).value))
    ensures forall f :: f in FindingSet(e, xs, keys) ==> FindingKey(f) != FindingKey(FindingOf(e, k, Group(e, xs, k)))
  {
    BigGroupKeys(e, xs, k);
    if k.HumanGroup? {
      BigHumanGroup(e, xs, k);
    }
    forall x | x in keys
      ensures Sensible(x)
      ensures FindingKey(FindingOf(e, x, Group(e, xs, x))) != FindingKey(FindingOf(e, k, Group(e, xs, k)))
      ensures x.HumanGroup? && k.HumanGroup? && CandidateOf(e, xs, x).Some? ==>
                CandidateOf(e, xs, x).value.hash != CandidateOf(e, xs, k).value.hash
    {
      BigGroupKeys(e, xs, x);
      assert Apart(e, xs, x, k);
      if x.HumanGroup? && k.HumanGroup? {
        CandidatesTellGroups(e, xs, x, k);
      }
    }
  }

  /** Reports one group; None where the source refuses it, which never happens. */
  method ReportGroup(
    e: Engine, ghost xs: seq<Signal>, ghost keys: set<GroupKey>, k: GroupKey, g: seq<Signal>, snap: Snapshot)
    returns (r: Option<Snapshot>)
    requires Listing(xs) && Collisionless(e, xs) && Covers(e, xs, keys, snap)
    requires k !in keys && g == Group(e, xs, k) && |g| >= Threshold(e)
    requires forall x :: x in keys ==> |Group(e, xs, x)| >= Threshold(e)
    ensures r.Some? && Covers(e, xs, keys + {k}, r.value)
  {
    OneMoreGroup(e, xs, keys, k);
    CandidatesGrow(e, xs, keys, k);
    FindingsGrow(e, xs, keys, k);
    var candidates := snap.candidates;
    if k.HumanGroup? {
      var ordered := RequireHomogeneousHumanGroup(e, g);
      if ordered.None? {
        return None;
      }
      assert ordered.value[0] in g;
      var c := MakeCandidate(e, ordered.value);
      InsertNew(CandidateKey, c, candidates);
      candidates := Insert(CandidateKey, c, candidates);
    }
    var f := FindingOf(e, k, g);
    InsertNew(FindingKey, f, snap.findings);
    var findings := Insert(FindingKey, f, snap.findings);
    return Some(Snapshot(findings, candidates));
  }

  lemma CandidatesGrow(e: Engine, xs: seq<Signal>, keys: set<GroupKey>, k: GroupKey)
    ensures CandidateSet(e, xs, keys + {k}) ==
            CandidateSet(e, xs, keys) + if CandidateOf(e, xs, k).Some? then {CandidateOf(e, xs, k).value} else {}
  {
  }

  lemma FindingsGrow(e: Engine, xs: seq<Signal>, keys: set<GroupKey>, k: GroupKey)
    ensures FindingSet(e, xs, keys + {k}) ==
            FindingSet(e, xs, keys) + if FindingAbout(e, xs, k).Some? then {FindingAbout(e, xs, k).value} else {}
  {
  }

  /** The passes over the groups and the final sorting. */
  method AnalyzeSignals(e: Engine, xs: seq<Signal>) returns (r: Option<Snapshot>)
    requires Listing(xs) && Collisionless(e, xs)
    ensures r.Some? && Exact(e, xs, r.value)
  {
    var groups := GroupSignals(e, xs);
    r := Some(Snapshot([], []));
    var todo := groups.Keys;
    ghost var done: set<GroupKey> := {};
    assert CandidateSet(e, xs, done) == {} && FindingSet(e, xs, done) == {};
    while todo != {}
      invariant todo <= groups.Keys
      invariant forall k :: k in done <==> k in groups && k !in todo && |Group(e, xs, k)| >= Threshold(e)
      invariant r.Some? && Covers(e, xs, done, r.value)
      decreases |todo|
    {
      var k :| k in todo;
      if |groups[k]| >= Threshold(e) {
        r := ReportGroup(e, xs, done, k, groups[k], r.value);
        if r.None? {
          return;
        }
        done := done + {k};
      }
      todo := todo - {k};
    }
    assert done == BigGroups(e, xs) by {
      forall k ensures k in done <==> k in BigGroups(e, xs) {
        BigGroupKeys(e, xs, k);
      }
    }
  }

  /** A snapshot's own digest covers its scope and the digests of what it holds. */
  function SnapshotDigest(e: Engine, agent: Option<string>, snap: Snapshot): nat {
    e.snapshotHash(
      agent,
      seq(|snap.findings|, i requires 0 <= i < |snap.findings| => snap.findings[i].hash),
      seq(|snap.candidates|, i requires 0 <= i < |snap.candidates| => snap.candidates[i].hash))
  }

  /** Two exact snapshots of the same listing are the same. */
  lemma SnapshotUnique(e: Engine, xs: seq<Signal>, x: Snapshot, y: Snapshot)
    requires Exact(e, xs, x) && Exact(e, xs, y)
    ensures x == y
  {
    AscendingUnique(CandidateKey, x.candidates, y.candidates);
    AscendingUnique(FindingKey, x.findings, y.findings);
  }

  function WindowStart(e: Engine, now: real): real {
    now - (e.windowDays * 86400) as real
  }

  /** The signals in the window, listed. */
  ghost predicate InWindow(e: Engine, l: Learned, agent: Option<string>, now: real, xs: seq<Signal>) {
    Ascending(SignalKey, xs) && Elements(xs) == Selected(l, agent, Some(WindowStart(e, now)), Some(now))
  }

  lemma WindowIsListing(d: Digests, e: Engine, l: Learned, agent: Option<string>, now: real, xs: seq<Signal>)
    requires Valid(d, l) && InWindow(e, l, agent, now, xs)
    ensures Listing(xs) && forall s :: s in xs ==> s.id in l.signals && l.signals[s.id] == s
  {
    forall s | s in xs ensures s.id in l.signals && l.signals[s.id] == s && Shaped(s) {
      assert s in Elements(xs);
    }
  }

  /** No two groups of the window collide. */
  ghost predicate WindowCollisionless(e: Engine, l: Learned, agent: Option<string>, now: real) {
    forall xs :: InWindow(e, l, agent, now, xs) ==> Collisionless(e, xs)
  }

  method Analyze(e: Engine, store: InMemoryLearningStore, agent: Option<string>, now: real)
    returns (r: Option<Snapshot>, ghost xs: seq<Signal>)
    requires Valid(store.d, store.Value()) && WindowCollisionless(e, store.Value(), agent, now)
    ensures r.Some? && InWindow(e, store.Value(), agent, now, xs) && Exact(e, xs, r.value)
  {
    var since := WindowStart(e, now);
    var listed := store.ListSignals(agent, Some(since), None);
    var signals: seq<Signal> := [];
    for i := 0 to |listed|
      invariant forall s :: s in signals <==> s in listed[..i] && since <= s.observedAt <= now
      invariant Ascending(SignalKey, signals)
    {
      if since <= listed[i].observedAt <= now {
        signals := signals + [listed[i]];
      }
    }
    assert listed[..|listed|] == listed;
    assert forall s :: s in listed <==> s in Elements(listed);
    xs := signals;
    assert InWindow(e, store.Value(), agent, now, xs);
    WindowIsListing(store.d, e, store.Value(), agent, now, xs);
    r := AnalyzeSignals(e, signals);
  }

  /** For signals with one record per key, every append order gives the same snapshot. */
  lemma SnapshotIgnoresAppendOrder(
    d: Digests, e: Engine, ss: seq<Signal>, tt: seq<Signal>, agent: Option<string>, now: real,
    xs: seq<Signal>, ys: seq<Signal>, x: Snapshot, y: Snapshot)
    requires OneSignalPerKey(d, ss) && OneSignalPerName(d, ss) && multiset(ss) == multiset(tt)
    requires InWindow(e, AppendAll(d, ss), agent, now, xs) && Exact(e, xs, x)
    requires InWindow(e, AppendAll(d, tt), agent, now, ys) && Exact(e, ys, y)
    ensures x == y
  {
    SameElements(tt, ss);
    OrderDoesNotMatter(d, ss, tt);
    AscendingUnique(SignalKey, xs, ys);
    SnapshotUnique(e, xs, x, y);
  }

  // ---- Where the append order shows ----

  /** The store after three appends of which the first two share a key. */
  lemma FirstOfThree(d: Digests, x: Signal, y: Signal, z: Signal)
    requires Genuine(d, x) && Genuine(d, y) && Genuine(d, z) && x.key == y.key != z.key && x.id != z.id
    ensures AppendAll(d, [x, y, z]).signals == map[x.id := x, z.id := z]
  {
    var all := [x, y, z];
    assert all[..2] == [x, y] && [x, y][..1] == [x] && [x][..0] == [];
    assert AppendAll(d, [x]).signals == map[x.id := x] && AppendAll(d, [x]).signalsByKey == map[x.key := x];
    assert AppendAll(d, [x, y]) == AppendAll(d, [x]);
  }

  /** What a window selects from a store of two signals, the second of them inside. */
  lemma SelectedOfTwo(l: Learned, x: Signal, z: Signal, agent: Option<string>, since: real, until: real)
    requires x.id != z.id && l.signals == map[x.id := x, z.id := z] && InBounds(z, agent, Some(since), Some(until))
    ensures Selected(l, agent, Some(since), Some(until)) ==
            if InBounds(x, agent, Some(since), Some(until)) then {x, z} else {z}
  {
    var selected := Selected(l, agent, Some(since), Some(until));
    assert l.signals[z.id] in selected;
    if InBounds(x, agent, Some(since), Some(until)) {
      assert l.signals[x.id] in selected;
    }
  }

  lemma PairListed(a: Signal, c: Signal) returns (xs: seq<Signal>)
    requires a.id != c.id
    ensures xs == [a, c] || xs == [c, a]
    ensures Elements(xs) == {a, c} && Ascending(SignalKey, xs)
  {
    xs := if Less(SignalKey(a), SignalKey(c)) then [a, c] else [c, a];
  }

  /** A listing of two signals of one human group has one finding and one candidate. */
  lemma PairFound(e: Engine, a: Signal, c: Signal, xs: seq<Signal>, k: GroupKey) returns (x: Snapshot)
    requires xs == [a, c] || xs == [c, a]
    requires a.id != c.id && KeyOf(e, a) == KeyOf(e, c) == Some(k) && k.HumanGroup? && e.requested <= 2
    ensures Exact(e, xs, x) && |x.candidates| == 1 && |x.findings| == 1
  {
    PairGroup(e, xs, k);
    var f, c' := FindingOf(e, k, xs), CandidateFrom(e, xs).value;
    x := Snapshot([f], [c']);
    PairSets(e, xs, k, f, c');
  }

  lemma PairGroup(e: Engine, xs: seq<Signal>, k: GroupKey)
    requires |xs| == 2 && xs[0].id != xs[1].id && KeyOf(e, xs[0]) == KeyOf(e, xs[1]) == Some(k) && k.HumanGroup?
    ensures Group(e, xs, k) == xs && Homogeneous(e, xs)
  {
    assert xs[..1] == [xs[0]] && [xs[0]][..0] == [];
    assert Group(e, [xs[0]], k) == [xs[0]];
    assert Group(e, xs, k) == [xs[0]] + [xs[1]];
  }

  lemma PairSets(e: Engine, xs: seq<Signal>, k: GroupKey, f: Finding, c: Candidate)
    requires |xs| == 2 && KeyOf(e, xs[0]) == KeyOf(e, xs[1]) == Some(k) && Group(e, xs, k) == xs && e.requested <= 2
    requires CandidateOf(e, xs, k) == Some(c) && FindingAbout(e, xs, k) == Some(f)
    ensures Exact(e, xs, Snapshot([f], [c]))
  {
    BigGroupKeys(e, xs, k);
    assert BigGroups(e, xs) == {k};
    assert CandidateSet(e, xs, {k}) == {c} && FindingSet(e, xs, {k}) == {f};
    assert Elements([c]) == {c} && Elements([f]) == {f};
  }

  lemma OneIsNone(e: Engine, c: Signal)
    ensures Exact(e, [c], Snapshot([], []))
  {
    if KeyOf(e, c).Some? {
      assert [c][..0] == [];
      assert |Group(e, [c], KeyOf(e, c).value)| == 1;
    }
    assert BigGroups(e, [c]) == {};
    assert CandidateSet(e, [c], {}) == {} && FindingSet(e, [c], {}) == {};
  }

  /** Where the order shows: feedback `a`, recorded again as `b` under the same key but at
      another time, and the same feedback `c` under another key. If the window reaches
      `a` and `c` and not `b`, one order of the three appends yields a candidate and the
      other finds nothing. */
  lemma AppendOrderChangesTheSnapshot(
    d: Digests, e: Engine, a: Signal, b: Signal, c: Signal, agent: Option<string>, now: real)
    returns (xs: seq<Signal>, x: Snapshot, y: Snapshot)
    requires Genuine(d, a) && Genuine(d, b) && Genuine(d, c) && e.requested <= 2
    requires a.key == b.key != c.key && a.id != c.id && b.id != c.id
    requires Human(a.kind) && KeyOf(e, a) == KeyOf(e, c)
    requires InBounds(a, agent, Some(WindowStart(e, now)), Some(now))
    requires InBounds(c, agent, Some(WindowStart(e, now)), Some(now))
    requires !InBounds(b, agent, Some(WindowStart(e, now)), Some(now))
    ensures InWindow(e, AppendAll(d, [a, b, c]), agent, now, xs) && Exact(e, xs, x) && |x.candidates| == 1
    ensures InWindow(e, AppendAll(d, [b, a, c]), agent, now, [c]) && Exact(e, [c], y) && y == Snapshot([], [])
    ensures multiset([a, b, c]) == multiset([b, a, c])
  {
    xs := PairListed(a, c);
    WindowAfterThree(d, e, a, b, c, agent, now, xs);
    WindowAfterThree(d, e, b, a, c, agent, now, [c]);
    x := PairFound(e, a, c, xs, KeyOf(e, a).value);
    y := Snapshot([], []);
    OneIsNone(e, c);
  }

  /** The window over a store that kept the first and the third of three signals. */
  lemma WindowAfterThree(
    d: Digests, e: Engine, x: Signal, y: Signal, z: Signal, agent: Option<string>, now: real, xs: seq<Signal>)
    requires Genuine(d, x) && Genuine(d, y) && Genuine(d, z) && x.key == y.key != z.key && x.id != z.id
    requires InBounds(z, agent, Some(WindowStart(e, now)), Some(now)) && Ascending(SignalKey, xs)
    requires forall s :: s in xs <==> s == z || (s == x && InBounds(x, agent, Some(WindowStart(e, now)), Some(now)))
    ensures InWindow(e, AppendAll(d, [x, y, z]), agent, now, xs)
  {
    FirstOfThree(d, x, y, z);
    SelectedOfTwo(AppendAll(d, [x, y, z]), x, z, agent, WindowStart(e, now), now);
  }

  function Preference(d: Digests, key: string, at: real): Signal {
    var draft := Signal(0, HumanPreference, "agent", key, at, Some("reviewer"), Some("text"), None, None, None, None);
    draft.(id := d.signal(draft))
  }

  /** Such signals exist for every engine with the smallest threshold, for any digest that
      tells the two keys apart. */
  lemma SuchSignalsExist(d: Digests, e: Engine) returns (a: Signal, b: Signal, c: Signal)
    requires forall t :: Preference(d, "k", t).id != Preference(d, "l", 0.0).id
    ensures Genuine(d, a) && Genuine(d, b) && Genuine(d, c) && a.key == b.key != c.key && a.id != c.id && b.id != c.id
    ensures Human(a.kind) && KeyOf(e, a) == KeyOf(e, c) && a.(id := b.id, observedAt := b.observedAt) == b
    ensures InBounds(a, None, Some(WindowStart(e, 0.0)), Some(0.0))
    ensures InBounds(c, None, Some(WindowStart(e, 0.0)), Some(0.0))
    ensures !InBounds(b, None, Some(WindowStart(e, 0.0)), Some(0.0))
  {
    var start := WindowStart(e, 0.0);
    a, b, c := Preference(d, "k", 0.0), Preference(d, "k", start - 1.0), Preference(d, "l", 0.0);
    assert "k"[0] != "l"[0];
  }
}
