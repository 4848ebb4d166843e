/** The answers of the learning side spelled out on the stored records: what a candidate, a
    finding and a trusted approval are, and what an approval puts into the instructions. */
module LearningAnswers {
  import opened Contracts
  import opened DurableRecords
  import opened Sorting
  import opened LearningStore
  import opened Insights
  import opened Personalization

  // ---- Candidates ----

  predicate FromHuman(s: Signal) {
    s.kind == HumanCorrection || s.kind == HumanPreference || s.kind == HumanWorkflow
  }

  /** Feedback that counts as a repetition. */
  predicate SameFeedback(e: Engine, s: Signal, t: Signal) {
    && s.kind == t.kind && s.agentId == t.agentId && s.feedback.Some? && t.feedback.Some?
    && e.normalize(s.feedback.value) == e.normalize(t.feedback.value)
  }

  predicate NotLater(s: Signal, t: Signal) {
    s.observedAt < t.observedAt || (s.observedAt == t.observedAt && s.id <= t.id)
  }

  /** The ids of some signals, in ascending order. */
  ghost predicate NamesExactly(ids: seq<nat>, g: set<Signal>) {
    && (forall i, j :: 0 <= i < j < |ids| ==> ids[i] < ids[j])
    && (forall id :: id in ids <==> exists s :: s in g && s.id == id)
  }

  /** A candidate that rests on a set of evidence: it repeats the words of the earliest
      signal and names them all; a repeated workflow makes a skill, the others a rule. */
  ghost predicate RestsOn(e: Engine, c: Candidate, g: set<Signal>, first: Signal) {
    && first in g && (forall s :: s in g ==> FromHuman(s) && SameFeedback(e, first, s) && NotLater(first, s))
    && c.guidance.agentId == first.agentId && Some(c.guidance.body) == first.feedback
    && NamesExactly(c.guidance.evidenceIds, g) && c.hash == e.guidanceHash(c.guidance)
    && (if first.kind == HumanWorkflow
        then c.guidance.kind == Skill && c.guidance.findingKind == RepeatedWorkflow && c.skillId == Some(c.hash)
        else if first.kind == HumanPreference
        then c.guidance.kind == Rule && c.guidance.findingKind == RepeatedPreference && c.skillId == None
        else c.guidance.kind == Rule && c.guidance.findingKind == RepeatedCorrection && c.skillId == None)
  }

  lemma EarliestFirst(xs: seq<Signal>)
    requires xs != [] && forall i, j :: 0 <= i < j < |xs| ==> xs[i].id != xs[j].id
    ensures Sort(SignalKey, xs)[0] in xs
    ensures forall s :: s in xs ==> NotLater(Sort(SignalKey, xs)[0], s)
  {
    var ordered := Sort(SignalKey, xs);
    SortAscends(SignalKey, xs);
    forall s | s in xs ensures NotLater(ordered[0], s) {
      var i :| 0 <= i < |ordered| && ordered[i] == s;
    }
    assert ordered[0] in ordered;
  }

  lemma SortedNames(xs: seq<Signal>)
    requires forall i, j :: 0 <= i < j < |xs| ==> xs[i].id != xs[j].id
    ensures NamesExactly(SortedIds(xs), Elements(xs))
  {
    IdsAreDistinct(xs);
    var ids := SortedIds(xs);
    forall i, j | 0 <= i < j < |ids| ensures ids[i] < ids[j] {
      assert Less(IdKey(ids[i]), IdKey(ids[j]));
    }
    forall id ensures id in ids <==> exists s :: s in Elements(xs) && s.id == id {
      IdsOf(xs, id);
    }
  }

  lemma NamesUnique(ids: seq<nat>, ids': seq<nat>, g: set<Signal>)
    requires NamesExactly(ids, g) && NamesExactly(ids', g)
    ensures ids == ids'
  {
    assert Elements(ids) == Elements(ids');
    AscendingUnique(IdKey, ids, ids');
  }

  /** The candidate made of homogeneous evidence rests on it. */
  lemma MadeRests(e: Engine, xs: seq<Signal>)
    requires Homogeneous(e, xs)
    ensures RestsOn(e, CandidateFrom(e, xs).value, Elements(xs), Sort(SignalKey, xs)[0])
  {
    EarliestFirst(xs);
    SortedNames(xs);
    CandidateEvidence(e, xs);
    var first := Sort(SignalKey, xs)[0];
    forall s | s in Elements(xs) ensures FromHuman(s) && SameFeedback(e, first, s) {
      assert KeyOf(e, s) == KeyOf(e, xs[0]) == KeyOf(e, first);
    }
  }

  lemma OnlyOneRests(e: Engine, c: Candidate, c': Candidate, g: set<Signal>, first: Signal, first': Signal)
    requires RestsOn(e, c, g, first) && RestsOn(e, c', g, first')
    requires forall s, t :: s in g && t in g && s.id == t.id ==> s == t
    ensures c == c'
  {
    assert NotLater(first, first') && NotLater(first', first);
    NamesUnique(c.guidance.evidenceIds, c'.guidance.evidenceIds, g);
  }

  /** Evidence makes a candidate exactly when it is two or more signals with ids of their
      own on which the candidate rests. */
  lemma CandidateExactly(e: Engine, xs: seq<Signal>, c: Candidate)
    ensures CandidateFrom(e, xs) == Some(c) <==>
            && |xs| >= 2 && (forall i, j :: 0 <= i < j < |xs| ==> xs[i].id != xs[j].id)
            && exists first :: RestsOn(e, c, Elements(xs), first)
  {
    if Homogeneous(e, xs) {
      MadeRests(e, xs);
    }
    if |xs| >= 2 && forall i, j :: 0 <= i < j < |xs| ==> xs[i].id != xs[j].id {
      if first :| RestsOn(e, c, Elements(xs), first) {
        assert forall i :: 0 <= i < |xs| ==> xs[i] in Elements(xs);
        assert Homogeneous(e, xs);
        MadeRests(e, xs);
        OnlyOneRests(e, c, CandidateFrom(e, xs).value, Elements(xs), first, Sort(SignalKey, xs)[0]);
      }
    }
  }

  // ---- What the engine reports ----

  /** Which signals belong to a group. */
  predicate Belongs(e: Engine, s: Signal, k: GroupKey) {
    s.agentId == k.agentId &&
    match k
    case HumanGroup(_, kind, text) =>
      FromHuman(s) && s.kind == kind && s.feedback.Some? && e.normalize(s.feedback.value) == text
    case RunGroup(_, status) =>
      s.kind == StructuralRunOutcome && s.runStatus == Some(status) && status != StatusCompleted
    case ToolGroup(_, tool, status) =>
      && s.kind == GovernedToolRejection && s.toolName == Some(tool)
      && s.executionStatus == Some(status) && status != Executed
  }

  lemma BelongsByKey(e: Engine, s: Signal, k: GroupKey)
    ensures Belongs(e, s, k) <==> KeyOf(e, s) == Some(k)
  {
  }

  ghost function Members(e: Engine, xs: seq<Signal>, k: GroupKey): set<Signal> {
    set s | s in xs && Belongs(e, s, k)
  }

  lemma GroupIsMembers(e: Engine, xs: seq<Signal>, k: GroupKey)
    requires Listing(xs)
    ensures Elements(Group(e, xs, k)) == Members(e, xs, k) && |Members(e, xs, k)| == |Group(e, xs, k)|
    ensures forall i, j :: 0 <= i < j < |Group(e, xs, k)| ==> Group(e, xs, k)[i].id != Group(e, xs, k)[j].id
  {
    var g := Group(e, xs, k);
    GroupMembers(e, xs, k);
    GroupAscends(e, xs, k);
    forall s ensures s in Elements(g) <==> s in Members(e, xs, k) {
      BelongsByKey(e, s, k);
    }
    forall i, j | 0 <= i < j < |g| ensures g[i].id != g[j].id {
      assert Less(SignalKey(g[i]), SignalKey(g[j])) && g[i] in g && g[j] in g;
    }
    CountDistinct(g);
  }

  lemma {:induction false} CountDistinct(xs: seq<Signal>)
    requires forall i, j :: 0 <= i < j < |xs| ==> xs[i].id != xs[j].id
    ensures |Elements(xs)| == |xs|
  {
    if xs != [] {
      var before, last := xs[..|xs|-1], xs[|xs|-1];
      CountDistinct(before);
      assert Elements(xs) == Elements(before) + {last};
    }
  }

  /** A finding is reported exactly for a group with at least as many signals as requested
      and never fewer than two; only human groups propose a candidate. */
  lemma FindingExactly(e: Engine, xs: seq<Signal>, snap: Snapshot, f: Finding)
    requires Listing(xs) && Exact(e, xs, snap)
    ensures f in snap.findings <==>
            var p := f.pattern;
            && |Members(e, xs, p.group)| >= 2 && |Members(e, xs, p.group)| >= e.requested
            && NamesExactly(p.evidenceIds, Members(e, xs, p.group)) && f.hash == e.patternHash(p)
            && (p.proposesCandidate <==> p.group.HumanGroup?)
            && p.kind == match p.group
                         case HumanGroup(_, HumanCorrection, _) => RepeatedCorrection
                         case HumanGroup(_, HumanPreference, _) => RepeatedPreference
                         case HumanGroup(_, _, _) => RepeatedWorkflow
                         case RunGroup(_, _) => RunFriction
                         case ToolGroup(_, _, _) => ToolFriction
  {
    var k := f.pattern.group;
    assert f in snap.findings <==> f in Elements(snap.findings);
    GroupIsMembers(e, xs, k);
    BigGroupKeys(e, xs, k);
    if Group(e, xs, k) != [] {
      SortedNames(Group(e, xs, k));
      if NamesExactly(f.pattern.evidenceIds, Members(e, xs, k)) {
        NamesUnique(f.pattern.evidenceIds, SortedIds(Group(e, xs, k)), Members(e, xs, k));
      }
    }
    if f in snap.findings {
      var k' :| k' in BigGroups(e, xs) && FindingAbout(e, xs, k') == Some(f);
    } else if k in BigGroups(e, xs) {
      assert FindingAbout(e, xs, k).value in FindingSet(e, xs, BigGroups(e, xs));
    }
  }

  /** The signals in a listing that repeat one of them. */
  ghost function Repeats(e: Engine, xs: seq<Signal>, first: Signal): set<Signal> {
    set s | s in xs && SameFeedback(e, first, s)
  }

  lemma RepeatsAreMembers(e: Engine, xs: seq<Signal>, first: Signal)
    requires FromHuman(first) && first.feedback.Some?
    ensures KeyOf(e, first) == Some(HumanGroup(first.agentId, first.kind, e.normalize(first.feedback.value)))
    ensures Repeats(e, xs, first) == Members(e, xs, KeyOf(e, first).value)
  {
    var k := HumanGroup(first.agentId, first.kind, e.normalize(first.feedback.value));
    forall s ensures s in Repeats(e, xs, first) <==> s in Members(e, xs, k) {
    }
  }

  /** A candidate is proposed exactly for human feedback repeated in the listing as often as
      requested and at least twice, and rests on all its repetitions. */
  lemma ProposalExactly(e: Engine, xs: seq<Signal>, c: Candidate)
    requires Listing(xs)
    ensures c in CandidateSet(e, xs, BigGroups(e, xs)) <==>
            exists first :: && RestsOn(e, c, Repeats(e, xs, first), first)
                            && |Repeats(e, xs, first)| >= 2 && |Repeats(e, xs, first)| >= e.requested
  {
    if c in CandidateSet(e, xs, BigGroups(e, xs)) {
      var k :| k in BigGroups(e, xs) && CandidateOf(e, xs, k) == Some(c);
      ProposalRests(e, xs, c, k);
    }
    if first :| RestsOn(e, c, Repeats(e, xs, first), first)
                && |Repeats(e, xs, first)| >= 2 && |Repeats(e, xs, first)| >= e.requested {
      RepeatsAreMembers(e, xs, first);
      var k := KeyOf(e, first).value;
      GroupIsMembers(e, xs, k);
      BigGroupKeys(e, xs, k);
      CandidateExactly(e, Group(e, xs, k), c);
      assert CandidateOf(e, xs, k) == Some(c);
    }
  }

  lemma ProposalRests(e: Engine, xs: seq<Signal>, c: Candidate, k: GroupKey)
    requires Listing(xs) && k in BigGroups(e, xs) && CandidateOf(e, xs, k) == Some(c)
    ensures exists first :: && RestsOn(e, c, Repeats(e, xs, first), first)
                            && |Repeats(e, xs, first)| >= 2 && |Repeats(e, xs, first)| >= e.requested
  {
    BigGroupKeys(e, xs, k);
    GroupIsMembers(e, xs, k);
    CandidateExactly(e, Group(e, xs, k), c);
    var first :| RestsOn(e, c, Elements(Group(e, xs, k)), first);
    BelongsByKey(e, first, k);
    RepeatsAreMembers(e, xs, first);
  }

  /** The window over the store: the agent's signals of the last days, none from later. */
  lemma WindowExactly(d: Digests, e: Engine, l: Learned, agent: Option<string>, now: real, xs: seq<Signal>, s: Signal)
    requires Valid(d, l) && InWindow(e, l, agent, now, xs)
    ensures s in xs <==>
            && s.id in l.signals && l.signals[s.id] == s && (agent == None || agent == Some(s.agentId))
            && now - (e.windowDays * 24 * 60 * 60) as real <= s.observedAt <= now
  {
    assert s in xs <==> s in Elements(xs);
    if s.id in l.signals && l.signals[s.id] == s && InBounds(s, agent, Some(WindowStart(e, now)), Some(now)) {
      assert l.signals[s.id] in Selected(l, agent, Some(WindowStart(e, now)), Some(now));
    }
  }

  /** The names the kinds of findings are sorted by. */
  function NameOf(kind: FindingKind): string {
    match kind
    case RepeatedCorrection => "repeated-correction"
    case RepeatedPreference => "repeated-preference"
    case RepeatedWorkflow => "repeated-workflow"
    case RunFriction => "run-friction"
    case ToolFriction => "tool-friction"
  }

  /** The order of texts: at the first difference, the smaller character. */
  ghost predicate Before(s: string, t: string) {
    exists n :: SmallerAt(s, t, n)
  }

  ghost predicate SmallerAt(s: string, t: string, n: nat) {
    n < |t| && n <= |s| && (forall i :: 0 <= i < n ==> s[i] == t[i]) && (n == |s| || s[n] < t[n])
  }

  lemma NamesInOrder(kind: FindingKind, other: FindingKind)
    requires FindingRank(kind) < FindingRank(other)
    ensures Before(NameOf(kind), NameOf(other))
  {
    var n := if other == ToolFriction then 0 else if other == RunFriction then 1 else 9;
    assert SmallerAt(NameOf(kind), NameOf(other), n);
  }

  /** Findings stand in the order of the names of their kinds, then of their digests;
      candidates in the order of their digests. */
  lemma ReportsAreSorted(e: Engine, xs: seq<Signal>, snap: Snapshot, i: nat, j: nat)
    requires Exact(e, xs, snap) && i < j
    ensures j < |snap.candidates| ==> snap.candidates[i].hash < snap.candidates[j].hash
    ensures j < |snap.findings| ==>
              var f, g := snap.findings[i], snap.findings[j];
              Before(NameOf(f.pattern.kind), NameOf(g.pattern.kind))
              || (f.pattern.kind == g.pattern.kind && f.hash < g.hash)
  {
    if j < |snap.candidates| {
      assert Less(CandidateKey(snap.candidates[i]), CandidateKey(snap.candidates[j]));
    }
    if j < |snap.findings| {
      var f, g := snap.findings[i], snap.findings[j];
      assert Less(FindingKey(f), FindingKey(g));
      if FindingRank(f.pattern.kind) < FindingRank(g.pattern.kind) {
        NamesInOrder(f.pattern.kind, g.pattern.kind);
      }
    }
  }

  /** The digest of a snapshot covers its scope and the digests of all it holds, in order. */
  lemma SnapshotDigestExactly(
    e: Engine, agent: Option<string>, snap: Snapshot, findings: seq<nat>, candidates: seq<nat>)
    requires |findings| == |snap.findings| && forall i :: 0 <= i < |findings| ==> findings[i] == snap.findings[i].hash
    requires |candidates| == |snap.candidates|
    requires forall i :: 0 <= i < |candidates| ==> candidates[i] == snap.candidates[i].hash
    ensures SnapshotDigest(e, agent, snap) == e.snapshotHash(agent, findings, candidates)
  {
    assert findings == seq(|snap.findings|, i requires 0 <= i < |snap.findings| => snap.findings[i].hash);
    assert candidates == seq(|snap.candidates|, i requires 0 <= i < |snap.candidates| => snap.candidates[i].hash);
  }

  // ---- What is stored ----

  /** The three shapes of a signal: feedback of a reviewer, the outcome of a run, a tool call
      that was not executed. */
  predicate WellShaped(s: Signal) {
    || (&& FromHuman(s) && s.reviewerId.Some? && s.feedback.Some?
        && s.runStatus == None && s.toolName == None && s.executionStatus == None)
    || (&& s.kind == StructuralRunOutcome && s.runId.Some? && s.runStatus.Some?
        && s.reviewerId == None && s.feedback == None && s.toolName == None && s.executionStatus == None)
    || (&& s.kind == GovernedToolRejection && s.runId.Some? && s.toolName.Some? && s.executionStatus.Some?
        && s.executionStatus.value in {Blocked, ReviewRequired, ControlFailure, Indeterminate}
        && s.reviewerId == None && s.feedback == None && s.runStatus == None)
  }

  predicate Acceptable(d: Digests, s: Signal) {
    s.id == d.signal(s.(id := 0)) && WellShaped(s)
  }

  lemma GenuineExactly(d: Digests, s: Signal)
    ensures Genuine(d, s) <==> Acceptable(d, s)
  {
    assert s.kind == GovernedToolRejection || s.kind == StructuralRunOutcome || FromHuman(s);
    if s.executionStatus.Some? {
      match s.executionStatus.value
      case Executed | Blocked | ReviewRequired | ControlFailure | Indeterminate =>
    }
  }

  /** The first acceptable signal with its key. */
  ghost predicate EarliestAt(d: Digests, ss: seq<Signal>, s: Signal, i: nat) {
    && i < |ss| && ss[i] == s && Acceptable(d, s)
    && forall j :: 0 <= j < i && Acceptable(d, ss[j]) ==> ss[j].key != s.key
  }

  lemma {:induction false} FirstHasPlace(d: Digests, ss: seq<Signal>, s: Signal) returns (i: nat)
    requires FirstWith(d, ss, s.key) == Some(s)
    ensures EarliestAt(d, ss, s, i)
  {
    var before := ss[..|ss|-1];
    GenuineExactly(d, s);
    if FirstWith(d, before, s.key).Some? {
      i := FirstHasPlace(d, before, s);
    } else {
      i := |before|;
      forall j | 0 <= j < i && Acceptable(d, ss[j]) ensures ss[j].key != s.key {
        GenuineExactly(d, ss[j]);
        assert ss[j] in before;
      }
    }
  }

  lemma {:induction false} EarliestIsFirst(d: Digests, ss: seq<Signal>, s: Signal, i: nat)
    requires EarliestAt(d, ss, s, i)
    ensures FirstWith(d, ss, s.key) == Some(s)
  {
    var before := ss[..|ss|-1];
    GenuineExactly(d, s);
    if i < |before| {
      EarliestIsFirst(d, before, s, i);
    } else if FirstWith(d, before, s.key).Some? {
      var t := FirstWith(d, before, s.key).value;
      GenuineExactly(d, t);
    }
  }

  /** A signal is stored exactly when it was appended, has one of the three shapes, is named
      by its digest, and came before all other such signals with its key. */
  lemma StoredExactly(d: Digests, ss: seq<Signal>, s: Signal)
    requires OneSignalPerName(d, ss)
    ensures (s.id in AppendAll(d, ss).signals && AppendAll(d, ss).signals[s.id] == s) <==>
            exists i :: EarliestAt(d, ss, s, i)
  {
    StoredWasAppended(d, ss);
    FirstAppendWins(d, ss, s.key);
    if FirstWith(d, ss, s.key) == Some(s) {
      var i := FirstHasPlace(d, ss, s);
    }
    if i :| EarliestAt(d, ss, s, i) {
      EarliestIsFirst(d, ss, s, i);
    }
  }

  // ---- Approvals that can be trusted ----

  lemma LoadedOnce(d: Digests, l: Learned, ids: seq<nat>)
    requires Valid(d, l) && forall id :: id in ids ==> id in l.signals
    ensures Load(l, ids).Some? && |Load(l, ids).value| <= |ids|
    ensures Elements(Load(l, ids).value) == set id | id in ids :: l.signals[id]
    ensures var xs := Load(l, ids).value; forall i, j :: 0 <= i < j < |xs| ==> xs[i].id != xs[j].id
  {
    var unique, xs := Unique(ids), Load(l, ids).value;
    forall i | 0 <= i < |xs| ensures xs[i].id == unique[i] && xs[i] == l.signals[unique[i]] && unique[i] in ids {
      assert unique[i] in unique;
    }
    forall id | id in ids ensures l.signals[id] in Elements(xs) {
      assert id in unique;
      var i :| 0 <= i < |unique| && unique[i] == id;
      assert xs[i] == l.signals[id];
    }
  }

  /** The candidate an approval speaks of, up to the kind of finding it came from. */
  function Approved(a: ApprovalRecord, finding: FindingKind): Candidate {
    Candidate(Guidance(a.kind, a.agentId, finding, a.text, a.evidenceIds), a.candidateHash, a.skillId)
  }

  lemma CertifiesExactly(c: Candidate, a: ApprovalRecord)
    ensures Certifies(c, a) <==> c == Approved(a, c.guidance.findingKind)
  {
  }

  /** The stored signals an approval cites. */
  ghost function Cited(l: Learned, ids: seq<nat>): set<Signal> {
    set id | id in ids && id in l.signals :: l.signals[id]
  }

  lemma RevalidatedRests(d: Digests, e: Engine, l: Learned, a: ApprovalRecord)
    requires Valid(d, l) && Revalidates(e, l, a, a.agentId)
    ensures |a.evidenceIds| >= 2 && forall id :: id in a.evidenceIds ==> id in l.signals
    ensures exists first, finding :: RestsOn(e, Approved(a, finding), Cited(l, a.evidenceIds), first)
  {
    LoadedOnce(d, l, a.evidenceIds);
    var loaded := Load(l, a.evidenceIds).value;
    var c := CandidateFrom(e, loaded).value;
    CandidateExactly(e, loaded, c);
    CertifiesExactly(c, a);
    var first :| RestsOn(e, c, Elements(loaded), first);
    assert RestsOn(e, Approved(a, c.guidance.findingKind), Cited(l, a.evidenceIds), first);
  }

  lemma RestingRevalidates(
    d: Digests, e: Engine, l: Learned, a: ApprovalRecord, first: Signal, finding: FindingKind)
    requires Valid(d, l) && |a.evidenceIds| >= 2 && forall id :: id in a.evidenceIds ==> id in l.signals
    requires RestsOn(e, Approved(a, finding), Cited(l, a.evidenceIds), first)
    ensures Revalidates(e, l, a, a.agentId)
  {
    LoadedOnce(d, l, a.evidenceIds);
    var loaded := Load(l, a.evidenceIds).value;
    UniqueOfDistinct(a.evidenceIds);
    assert Elements(loaded) == Cited(l, a.evidenceIds);
    CandidateExactly(e, loaded, Approved(a, finding));
    CertifiesExactly(Approved(a, finding), a);
  }

  /** An approval is trusted exactly when its reviewer is verified and its evidence is
      stored: two or more signals about the agent on which the approved words, kind and
      digest rest. */
  lemma TrustedExactly(d: Digests, e: Engine, l: Learned, a: ApprovalRecord, agentId: string, verify: Verifier)
    requires Valid(d, l)
    ensures Trusted(e, l, a, agentId, verify) <==>
            && verify(Reviewer(a.reviewerId, a.attestation)) && a.agentId == agentId
            && |a.evidenceIds| >= 2 && (forall id :: id in a.evidenceIds ==> id in l.signals)
            && exists first, finding :: RestsOn(e, Approved(a, finding), Cited(l, a.evidenceIds), first)
  {
    if Trusted(e, l, a, agentId, verify) {
      RevalidatedRests(d, e, l, a);
    }
    if |a.evidenceIds| >= 2 && forall id :: id in a.evidenceIds ==> id in l.signals {
      if first, finding :| RestsOn(e, Approved(a, finding), Cited(l, a.evidenceIds), first) {
        RestingRevalidates(d, e, l, a, first, finding);
      }
    }
  }

  // ---- The instructions ----

  function Paragraph(text: string): string {
    "\n\n" + text
  }

  function RulesText(rules: seq<ApprovalRecord>): string {
    if rules == [] then "" else RulesText(rules[..|rules|-1]) + Paragraph("- " + rules[|rules|-1].text)
  }

  function SkillsText(m: Manager, skills: seq<ApprovalRecord>): string
    requires forall a :: a in skills ==> a.skillId.Some?
  {
    if skills == [] then ""
    else
      var last := skills[|skills|-1];
      SkillsText(m, skills[..|skills|-1])
      + (Paragraph("### skill:" + m.hex(last.skillId.value)) + Paragraph(last.text))
  }

  /** Sections after the first, each on a paragraph of its own. */
  function Paragraphs(m: Manager, sections: seq<Section>): string {
    if sections == [] then ""
    else Paragraphs(m, sections[..|sections|-1]) + Paragraph(Written(m, sections[|sections|-1]))
  }

  lemma Regroup(a: string, b: string, c: string)
    ensures (a + b) + c == a + (b + c)
  {
  }

  lemma {:induction false} JoinedIsParagraphs(m: Manager, sections: seq<Section>)
    requires sections != []
    ensures Joined(m, sections) == Written(m, sections[0]) + Paragraphs(m, sections[1..])
  {
    if |sections| > 1 {
      var before, last := sections[..|sections|-1], Written(m, sections[|sections|-1]);
      JoinedIsParagraphs(m, before);
      assert sections[1..][..|sections|-2] == before[1..];
      Regroup(Written(m, sections[0]) + Paragraphs(m, before[1..]), "\n\n", last);
      Regroup(Written(m, sections[0]), Paragraphs(m, before[1..]), Paragraph(last));
    }
  }

  lemma {:induction false} ParagraphsAppend(m: Manager, xs: seq<Section>, ys: seq<Section>)
    ensures Paragraphs(m, xs + ys) == Paragraphs(m, xs) + Paragraphs(m, ys)
  {
    if ys == [] {
      assert xs + ys == xs;
    } else {
      var before := ys[..|ys|-1];
      ParagraphsAppend(m, xs, before);
      assert (xs + ys)[..|xs + ys|-1] == xs + before;
      Regroup(Paragraphs(m, xs), Paragraphs(m, before), Paragraph(Written(m, ys[|ys|-1])));
    }
  }

  lemma OneParagraph(m: Manager, section: Section)
    ensures Paragraphs(m, [section]) == Paragraph(Written(m, section))
  {
    assert [section][..0] == [];
  }

  lemma {:induction false} RuleParagraphs(m: Manager, rules: seq<ApprovalRecord>)
    ensures Paragraphs(m, RuleSections(rules)) == RulesText(rules)
  {
    if rules != [] {
      RuleParagraphs(m, rules[..|rules|-1]);
      assert RuleSections(rules)[..|RuleSections(rules)|-1] == RuleSections(rules[..|rules|-1]);
    }
  }

  lemma TwoMoreParagraphs(m: Manager, xs: seq<Section>, x: Section, y: Section)
    ensures Paragraphs(m, xs + [x] + [y]) == Paragraphs(m, xs) + (Paragraph(Written(m, x)) + Paragraph(Written(m, y)))
  {
    var xy := xs + [x] + [y];
    assert xy[..|xy|-1] == xs + [x] && (xs + [x])[..|xs|] == xs;
    Regroup(Paragraphs(m, xs), Paragraph(Written(m, x)), Paragraph(Written(m, y)));
  }

  lemma {:induction false} SkillParagraphs(m: Manager, skills: seq<ApprovalRecord>)
    requires forall a :: a in skills ==> a.skillId.Some?
    ensures Paragraphs(m, SkillSections(skills)) == SkillsText(m, skills)
  {
    if skills != [] {
      var before, last := skills[..|skills|-1], skills[|skills|-1];
      SkillParagraphs(m, before);
      TwoMoreParagraphs(m, SkillSections(before), SkillHeading(last.skillId.value), SkillText(last.text));
    }
  }

  lemma HeadedParagraphs(m: Manager, heading: Section, xs: seq<Section>)
    ensures Paragraphs(m, [heading] + xs) == Paragraph(Written(m, heading)) + Paragraphs(m, xs)
  {
    ParagraphsAppend(m, [heading], xs);
    OneParagraph(m, heading);
  }

  /** What the approved rules, or the active skills, add to the instructions. */
  function RulesPart(rules: seq<ApprovalRecord>): string {
    if rules == [] then "" else Paragraph("## Approved personalization rules") + RulesText(rules)
  }

  function SkillsPart(m: Manager, skills: seq<ApprovalRecord>): string
    requires forall a :: a in skills ==> a.skillId.Some?
  {
    if skills == [] then "" else Paragraph("## Activated skills") + SkillsText(m, skills)
  }

  lemma RulesParagraphs(m: Manager, rules: seq<ApprovalRecord>)
    ensures Paragraphs(m, if rules == [] then [] else [RulesHeading] + RuleSections(rules)) == RulesPart(rules)
  {
    HeadedParagraphs(m, RulesHeading, RuleSections(rules));
    RuleParagraphs(m, rules);
  }

  lemma SkillsParagraphs(m: Manager, skills: seq<ApprovalRecord>)
    requires forall a :: a in skills ==> a.skillId.Some?
    ensures Paragraphs(m, if skills == [] then [] else [SkillsHeading] + SkillSections(skills)) == SkillsPart(m, skills)
  {
    HeadedParagraphs(m, SkillsHeading, SkillSections(skills));
    SkillParagraphs(m, skills);
  }

  /** The instructions of a compiled profile, letter by letter. */
  lemma InstructionsExactly(
    m: Manager, profile: BaseProfile, rules: seq<ApprovalRecord>, skills: seq<ApprovalRecord>)
    requires forall a :: a in skills ==> a.skillId.Some?
    ensures Compile(m, profile, rules, skills).instructions ==
            StripRight(profile.instructions) + (RulesPart(rules) + SkillsPart(m, skills))
  {
    var sections := Sections(profile, rules, skills);
    var upper := if rules == [] then [] else [RulesHeading] + RuleSections(rules);
    var lower := if skills == [] then [] else [SkillsHeading] + SkillSections(skills);
    assert sections[1..] == upper + lower;
    JoinedIsParagraphs(m, sections);
    ParagraphsAppend(m, upper, lower);
    RulesParagraphs(m, rules);
    SkillsParagraphs(m, skills);
  }

  /** A text that occurs in another. */
  ghost predicate Contains(text: string, part: string) {
    exists pre, post :: text == pre + part + post
  }

  lemma ContainsInLeft(x: string, y: string, part: string)
    requires Contains(x, part)
    ensures Contains(x + y, part)
  {
    var pre, post :| x == pre + part + post;
    assert x + y == pre + part + (post + y);
  }

  lemma ContainsInRight(x: string, y: string, part: string)
    requires Contains(y, part)
    ensures Contains(x + y, part)
  {
    var pre, post :| y == pre + part + post;
    assert x + y == (x + pre) + part + post;
  }

  lemma ContainsItself(part: string)
    ensures Contains(part, part)
  {
    assert part == "" + part + "";
  }

  lemma {:induction false} RuleIsWritten(rules: seq<ApprovalRecord>, a: ApprovalRecord)
    requires a in rules
    ensures Contains(RulesText(rules), Paragraph("- " + a.text))
  {
    var before, last := rules[..|rules|-1], rules[|rules|-1];
    if a == last {
      ContainsItself(Paragraph("- " + a.text));
      ContainsInRight(RulesText(before), Paragraph("- " + a.text), Paragraph("- " + a.text));
    } else {
      RuleIsWritten(before, a);
      ContainsInLeft(RulesText(before), Paragraph("- " + last.text), Paragraph("- " + a.text));
    }
  }

  function SkillParagraph(m: Manager, a: ApprovalRecord): string
    requires a.skillId.Some?
  {
    Paragraph("### skill:" + m.hex(a.skillId.value)) + Paragraph(a.text)
  }

  lemma {:induction false} SkillIsWritten(m: Manager, skills: seq<ApprovalRecord>, a: ApprovalRecord)
    requires a in skills && forall x :: x in skills ==> x.skillId.Some?
    ensures Contains(SkillsText(m, skills), SkillParagraph(m, a))
  {
    var before, last := skills[..|skills|-1], skills[|skills|-1];
    if a == last {
      ContainsItself(SkillParagraph(m, a));
      ContainsInRight(SkillsText(m, before), SkillParagraph(m, a), SkillParagraph(m, a));
    } else {
      SkillIsWritten(m, before, a);
      ContainsInLeft(SkillsText(m, before), SkillParagraph(m, last), SkillParagraph(m, a));
    }
  }

  /** A profile compiled from a store. */
  ghost predicate CompiledFrom(m: Manager, l: Learned, profile: BaseProfile, active: set<nat>, compiled: Compiled) {
    && Elements(compiled.rules) == RulesOf(l, profile) && Elements(compiled.skills) == SkillsOf(l, profile, active)
    && compiled == Compile(m, profile, compiled.rules, compiled.skills)
  }

  /** Rules and skills stand in the order of their candidates' digests, then of their own. */
  lemma CompiledInOrder(xs: seq<ApprovalRecord>, i: nat, j: nat)
    requires Ascending(ByCandidate, xs) && i < j < |xs|
    ensures xs[i].candidateHash < xs[j].candidateHash
            || (xs[i].candidateHash == xs[j].candidateHash && xs[i].id < xs[j].id)
  {
    assert Less(ByCandidate(xs[i]), ByCandidate(xs[j]));
  }

  lemma StaysBound(d: Digests, l: Learned, a: ApprovalRecord, profile: BaseProfile, appends: seq<Append>)
    requires Valid(d, l) && a in Bound(l, profile)
    ensures a in Bound(Grow(d, l, appends), profile)
  {
    GrowOnlyExtends(d, l, appends);
    assert Grow(d, l, appends).approvals[a.id] == a;
  }

  lemma InParts(base: string, upper: string, lower: string, part: string)
    requires Contains(upper, part) || Contains(lower, part)
    ensures Contains(base + (upper + lower), part)
  {
    if Contains(upper, part) {
      ContainsInLeft(upper, lower, part);
    } else {
      ContainsInRight(upper, lower, part);
    }
    ContainsInRight(base, upper + lower, part);
  }

  /** A rule approved for a profile is in every later compilation of that profile, in the
      approved words on a line of their own, whatever was appended since. */
  lemma ApprovedRuleIsCompiled(
    d: Digests, m: Manager, l: Learned, a: ApprovalRecord, profile: BaseProfile, appends: seq<Append>,
    active: set<nat>, compiled: Compiled)
    requires Valid(d, l) && a in Bound(l, profile) && a.kind == Rule
    requires CompiledFrom(m, Grow(d, l, appends), profile, active, compiled)
    ensures a in compiled.rules
    ensures Contains(compiled.instructions, "\n\n" + ("- " + a.text))
  {
    StaysBound(d, l, a, profile, appends);
    assert a in Elements(compiled.rules);
    assert forall x :: x in compiled.skills ==> x in Elements(compiled.skills);
    var rules, skills := compiled.rules, compiled.skills;
    InstructionsExactly(m, profile, rules, skills);
    RuleIsWritten(rules, a);
    ContainsInRight(Paragraph("## Approved personalization rules"), RulesText(rules), Paragraph("- " + a.text));
    InParts(StripRight(profile.instructions), RulesPart(rules), SkillsPart(m, skills), Paragraph("- " + a.text));
  }

  /** An approved skill is in every later compilation that activates it, under its own
      heading. */
  lemma ApprovedSkillIsCompiled(
    d: Digests, m: Manager, l: Learned, a: ApprovalRecord, profile: BaseProfile, appends: seq<Append>,
    active: set<nat>, compiled: Compiled)
    requires Valid(d, l) && a in Bound(l, profile) && a.kind == Skill && a.skillId.Some? && a.skillId.value in active
    requires CompiledFrom(m, Grow(d, l, appends), profile, active, compiled)
    ensures a in compiled.skills
    ensures Contains(
              compiled.instructions,
              ("\n\n" + ("### skill:" + m.hex(a.skillId.value))) + ("\n\n" + a.text))
  {
    StaysBound(d, l, a, profile, appends);
    assert a in Elements(compiled.skills);
    assert forall x :: x in compiled.skills ==> x in Elements(compiled.skills);
    var rules, skills := compiled.rules, compiled.skills;
    InstructionsExactly(m, profile, rules, skills);
    SkillIsWritten(m, skills, a);
    ContainsInRight(Paragraph("## Activated skills"), SkillsText(m, skills), SkillParagraph(m, a));
    InParts(StripRight(profile.instructions), RulesPart(rules), SkillsPart(m, skills), SkillParagraph(m, a));
  }
}
