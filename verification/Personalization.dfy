/** Human approval of guidance candidates and their compilation into a profile. */
module Personalization {
  import opened Contracts
  import opened Sorting
  import opened LearningStore
  import opened Insights

  datatype Reviewer = Reviewer(reviewerId: string, attestation: string)

  /** The part of a profile that personalization reads. */
  datatype BaseProfile = BaseProfile(agentId: string, fingerprint: nat, instructions: string)

  /** The engine, and how a digest is written. */
  datatype Manager = Manager(engine: Engine, hex: nat -> string)

  /** Whether the reviewer verifier accepts a reviewer, now. */
  type Verifier = Reviewer -> bool

  ghost predicate ClockIsCurrent(l: Learned, now: real) {
    && (forall id :: id in l.signals ==> l.signals[id].observedAt <= now)
    && (forall id :: id in l.approvals ==> l.approvals[id].approvedAt <= now)
  }

  /** What an analysis of the store proposes. */
  ghost predicate Proposed(e: Engine, l: Learned, agent: string, now: real, c: Candidate) {
    exists xs :: InWindow(e, l, Some(agent), now, xs) && c in CandidateSet(e, xs, BigGroups(e, xs))
  }

  /** The fields of a presented candidate that are compared with the proposed one. */
  predicate SameOffer(c: Candidate, presented: Candidate) {
    && c.hash == presented.hash && c.skillId == presented.skillId
    && c.guidance.body == presented.guidance.body && c.guidance.evidenceIds == presented.guidance.evidenceIds
    && c.guidance.kind == presented.guidance.kind && c.guidance.agentId == presented.guidance.agentId
  }

  function FinalApproval(
    d: Digests, m: Manager, c: Candidate, reviewer: Reviewer, fingerprint: nat, now: real): ApprovalRecord
  {
    var key := reviewer.reviewerId + ":" + m.hex(c.hash) + ":" + m.hex(fingerprint);
    var draft := ApprovalRecord(
                   0, c.hash, c.guidance.kind, c.guidance.agentId, reviewer.reviewerId, reviewer.attestation,
                   fingerprint, c.guidance.body, c.skillId, c.guidance.evidenceIds, now, key);
    draft.(id := d.approval(draft))
  }

  /** What an approval says: the candidate's words and evidence, who approved it and for
      which profile. */
  predicate Records(a: ApprovalRecord, c: Candidate, reviewer: Reviewer, fingerprint: nat) {
    && a.candidateHash == c.hash && a.kind == c.guidance.kind && a.agentId == c.guidance.agentId
    && a.text == c.guidance.body && a.skillId == c.skillId && a.evidenceIds == c.guidance.evidenceIds
    && a.reviewerId == reviewer.reviewerId && a.attestation == reviewer.attestation && a.fingerprint == fingerprint
  }

  /** The same review was recorded before with this content, or neither its key nor its
      digest is taken. */
  predicate Recordable(
    d: Digests, m: Manager, l: Learned, c: Candidate, reviewer: Reviewer, fingerprint: nat, now: real)
  {
    var key := reviewer.reviewerId + ":" + m.hex(c.hash) + ":" + m.hex(fingerprint);
    if key in l.approvalsByKey then Records(l.approvalsByKey[key], c, reviewer, fingerprint)
    else FinalApproval(d, m, c, reviewer, fingerprint, now).id !in l.approvals
  }

  /** The stored evidence of an approval still makes the candidate that was approved. */
  predicate Revalidates(e: Engine, l: Learned, a: ApprovalRecord, agentId: string) {
    && a.agentId == agentId && Load(l, a.evidenceIds).Some?
    && var c := CandidateFrom(e, Load(l, a.evidenceIds).value);
       c.Some? && Certifies(c.value, a)
  }

  predicate Certifies(c: Candidate, a: ApprovalRecord) {
    && c.hash == a.candidateHash && c.guidance.body == a.text && c.guidance.evidenceIds == a.evidenceIds
    && c.guidance.kind == a.kind && c.skillId == a.skillId && c.guidance.agentId == a.agentId
  }

  /** A snapshot somebody presents: its scope, its time, its digest and its content. */
  datatype Presented = Presented(agent: Option<string>, generatedAt: real, digest: nat, snapshot: Snapshot)

  /** The store still yields exactly this snapshot. */
  ghost predicate Current(e: Engine, l: Learned, p: Presented) {
    && p.digest == SnapshotDigest(e, p.agent, p.snapshot)
    && exists xs :: InWindow(e, l, p.agent, p.generatedAt, xs) && Exact(e, xs, p.snapshot)
  }

  method VerifySnapshot(e: Engine, store: InMemoryLearningStore, p: Presented) returns (ok: bool)
    requires Valid(store.d, store.Value()) && WindowCollisionless(e, store.Value(), p.agent, p.generatedAt)
    ensures ok <==> Current(e, store.Value(), p)
  {
    var trusted, xs := Analyze(e, store, p.agent, p.generatedAt);
    if trusted.None? {
      return false;
    }
    OnlySnapshot(e, store.Value(), p, xs, trusted.value);
    return SnapshotDigest(e, p.agent, trusted.value) == p.digest && trusted.value == p.snapshot;
  }

  lemma OnlySnapshot(e: Engine, l: Learned, p: Presented, xs: seq<Signal>, snap: Snapshot)
    requires InWindow(e, l, p.agent, p.generatedAt, xs) && Exact(e, xs, snap)
    ensures Current(e, l, p) <==> p.digest == SnapshotDigest(e, p.agent, snap) && p.snapshot == snap
  {
    if Current(e, l, p) {
      var ys :| InWindow(e, l, p.agent, p.generatedAt, ys) && Exact(e, ys, p.snapshot);
      AscendingUnique(SignalKey, xs, ys);
      SnapshotUnique(e, xs, snap, p.snapshot);
    }
  }

  method FindCandidate(candidates: seq<Candidate>, hash: nat) returns (r: Option<Candidate>)
    ensures r.Some? ==> r.value in candidates && r.value.hash == hash
    ensures r.None? ==> forall c :: c in candidates ==> c.hash != hash
  {
    for i := 0 to |candidates|
      invariant forall j :: 0 <= j < i ==> candidates[j].hash != hash
    {
      if candidates[i].hash == hash {
        return Some(candidates[i]);
      }
    }
    return None;
  }

  method ClockCheck(store: InMemoryLearningStore, now: real) returns (ok: bool)
    ensures ok <==> ClockIsCurrent(store.Value(), now)
  {
    ok := (forall id :: id in store.signals ==> store.signals[id].observedAt <= now)
          && (forall id :: id in store.approvals ==> store.approvals[id].approvedAt <= now);
  }

  /** What a proposal rests on: its evidence is stored, rebuilds it, and shapes its approval. */
  lemma ProposalIsSound(d: Digests, e: Engine, l: Learned, agent: string, now: real, xs: seq<Signal>, c: Candidate)
    requires Valid(d, l) && InWindow(e, l, Some(agent), now, xs) && c in CandidateSet(e, xs, BigGroups(e, xs))
    ensures Load(l, c.guidance.evidenceIds).Some?
    ensures CandidateFrom(e, Load(l, c.guidance.evidenceIds).value) == Some(c)
    ensures c.guidance.agentId == agent && c.guidance.evidenceIds != []
    ensures c.guidance.kind == Skill <==> c.skillId.Some?
  {
    var k :| k in BigGroups(e, xs) && CandidateOf(e, xs, k) == Some(c);
    var g := Group(e, xs, k);
    WindowIsListing(d, e, l, Some(agent), now, xs);
    GroupMembers(e, xs, k);
    ReconstructsFromEvidence(d, e, l, g);
    CandidateEvidence(e, g);
    var first := Sort(SignalKey, g)[0];
    assert first in g && first in Elements(xs);
    IdsOf(g, first.id);
  }

  /** Approval succeeds exactly for a verified reviewer, a clock not behind the store, a
      profile of the agent, a presented snapshot that is current if there is one, and a
      candidate the store proposes right now, unless the same review was recorded with other
      content; what it stores can be revalidated. */
  method Approve(
    m: Manager, store: InMemoryLearningStore, candidate: Candidate, reviewer: Reviewer, profile: BaseProfile,
    presented: Option<Presented>, now: real, verify: Verifier)
    returns (r: Option<ApprovalRecord>)
    requires Valid(store.d, store.Value())
    requires presented.Some? ==>
               WindowCollisionless(m.engine, store.Value(), presented.value.agent, presented.value.generatedAt)
    requires WindowCollisionless(m.engine, store.Value(), Some(candidate.guidance.agentId), now)
    modifies store
    ensures Valid(store.d, store.Value()) && Extends(old(store.Value()), store.Value())
    ensures r.None? ==> store.Value() == old(store.Value())
    ensures r.Some? <==>
            && verify(reviewer)
            && (forall id :: id in old(store.signals) ==> old(store.signals)[id].observedAt <= now)
            && (forall id :: id in old(store.approvals) ==> old(store.approvals)[id].approvedAt <= now)
            && profile.agentId == candidate.guidance.agentId
            && (presented.Some? ==> Current(m.engine, old(store.Value()), presented.value))
            && (exists c ::
                  && Proposed(m.engine, old(store.Value()), candidate.guidance.agentId, now, c)
                  && c.hash == candidate.hash && c.skillId == candidate.skillId
                  && c.guidance.(findingKind := candidate.guidance.findingKind) == candidate.guidance)
            && Recordable(store.d, m, old(store.Value()), candidate, reviewer, profile.fingerprint, now)
    ensures r.Some? ==> Records(r.value, candidate, reviewer, profile.fingerprint)
    ensures r.Some? ==>
              && r.value.reviewerId == reviewer.reviewerId && r.value.attestation == reviewer.attestation
              && r.value.fingerprint == profile.fingerprint && r.value.agentId == profile.agentId
              && r.value.key == reviewer.reviewerId + ":" + m.hex(candidate.hash) + ":" + m.hex(profile.fingerprint)
    ensures r.Some? ==>
              if r.value.key in old(store.approvalsByKey)
              then r.value == old(store.approvalsByKey)[r.value.key] && store.Value() == old(store.Value())
              else r.value.approvedAt == now && store.approvals == old(store.approvals)[r.value.id := r.value]
    ensures r.Some? ==> Trusted(m.engine, store.Value(), r.value, profile.agentId, verify)
    ensures r.Some? ==> r.value in Bound(store.Value(), profile)
  {
    if !verify(reviewer) {
      return None;
    }
    var current := ClockCheck(store, now);
    if !current {
      return None;
    }
    var found := FindOffer(m.engine, store, candidate, presented, now);
    if found.None? || profile.agentId != found.value.guidance.agentId {
      return None;
    }
    SameRecord(store.d, m, store.Value(), found.value, candidate, reviewer, profile.fingerprint, now);
    r := Record(m, store, found.value, reviewer, profile, now);
    assert r.Some? ==> Records(r.value, candidate, reviewer, profile.fingerprint);
  }

  /** What is recorded depends only on the fields that are compared. */
  lemma SameRecord(
    d: Digests, m: Manager, l: Learned, c: Candidate, c': Candidate, reviewer: Reviewer, fingerprint: nat, now: real)
    requires SameOffer(c, c')
    ensures Recordable(d, m, l, c, reviewer, fingerprint, now) <==>
            Recordable(d, m, l, c', reviewer, fingerprint, now)
  {
    assert FinalApproval(d, m, c, reviewer, fingerprint, now) == FinalApproval(d, m, c', reviewer, fingerprint, now);
  }

  /** The proposed candidate that was presented, if the store proposes it right now and the
      presented snapshot is current. */
  method FindOffer(
    e: Engine, store: InMemoryLearningStore, candidate: Candidate, presented: Option<Presented>, now: real)
    returns (found: Option<Candidate>)
    requires Valid(store.d, store.Value())
    requires presented.Some? ==>
               WindowCollisionless(e, store.Value(), presented.value.agent, presented.value.generatedAt)
    requires WindowCollisionless(e, store.Value(), Some(candidate.guidance.agentId), now)
    ensures found.Some? <==>
            && (presented.Some? ==> Current(e, store.Value(), presented.value))
            && (exists c :: SameOffer(c, candidate)
                            && Proposed(e, store.Value(), candidate.guidance.agentId, now, c))
    ensures found.Some? ==>
              && SameOffer(found.value, candidate) && Load(store.Value(), found.value.guidance.evidenceIds).Some?
              && CandidateFrom(e, Load(store.Value(), found.value.guidance.evidenceIds).value) == found
              && found.value.guidance.evidenceIds != []
              && (found.value.guidance.kind == Skill <==> found.value.skillId.Some?)
  {
    var agent := candidate.guidance.agentId;
    var snapshot, xs := Analyze(e, store, Some(agent), now);
    if snapshot.None? {
      return None;
    }
    if presented.Some? {
      var current := VerifySnapshot(e, store, presented.value);
      if !current {
        return None;
      }
    }
    found := FindCandidate(snapshot.value.candidates, candidate.hash);
    OnlyOffer(e, store.Value(), agent, now, xs, snapshot.value, candidate, found);
    if found.None? || !SameOffer(found.value, candidate) {
      return None;
    }
    assert found.value in Elements(snapshot.value.candidates);
    ProposalIsSound(store.d, e, store.Value(), agent, now, xs, found.value);
    var sound := Rebuilds(e, store, found.value);
    if !sound {
      return None;
    }
  }

  /** The last check of an approval: the candidate equals its reconstruction. */
  method Rebuilds(e: Engine, store: InMemoryLearningStore, c: Candidate) returns (ok: bool)
    ensures ok <==> Load(store.Value(), c.guidance.evidenceIds).Some?
                    && CandidateFrom(e, Load(store.Value(), c.guidance.evidenceIds).value) == Some(c)
  {
    var evidence := store.LoadSignals(c.guidance.evidenceIds);
    if evidence.None? {
      return false;
    }
    var ordered := RequireHomogeneousHumanGroup(e, evidence.value);
    if ordered.None? {
      return false;
    }
    assert ordered.value[0] in evidence.value;
    return MakeCandidate(e, ordered.value) == c;
  }

  method Record(
    m: Manager, store: InMemoryLearningStore, c: Candidate, reviewer: Reviewer, profile: BaseProfile, now: real)
    returns (r: Option<ApprovalRecord>)
    requires Valid(store.d, store.Value())
    requires c.guidance.agentId == profile.agentId && Load(store.Value(), c.guidance.evidenceIds).Some?
    requires CandidateFrom(m.engine, Load(store.Value(), c.guidance.evidenceIds).value) == Some(c)
    requires c.guidance.evidenceIds != [] && (c.guidance.kind == Skill <==> c.skillId.Some?)
    modifies store
    ensures Valid(store.d, store.Value()) && Extends(old(store.Value()), store.Value())
    ensures r.None? ==> store.Value() == old(store.Value())
    ensures r.Some? <==> Recordable(store.d, m, old(store.Value()), c, reviewer, profile.fingerprint, now)
    ensures r.Some? ==> Records(r.value, c, reviewer, profile.fingerprint)
    ensures r.Some? ==>
              r.value.key == reviewer.reviewerId + ":" + m.hex(c.hash) + ":" + m.hex(profile.fingerprint)
    ensures r.Some? ==>
              if r.value.key in old(store.approvalsByKey)
              then r.value == old(store.approvalsByKey)[r.value.key] && store.Value() == old(store.Value())
              else r.value.approvedAt == now && store.approvals == old(store.approvals)[r.value.id := r.value]
    ensures r.Some? ==> r.value in Bound(store.Value(), profile)
    ensures r.Some? ==> Revalidates(m.engine, store.Value(), r.value, profile.agentId)
  {
    r := store.AppendApproval(FinalApproval(store.d, m, c, reviewer, profile.fingerprint, now));
    if r.Some? {
      SameSemantic(r.value, FinalApproval(store.d, m, c, reviewer, profile.fingerprint, now));
      assert store.approvals[r.value.id] == r.value;
      assert Load(store.Value(), c.guidance.evidenceIds) == old(Load(store.Value(), c.guidance.evidenceIds));
    }
  }

  lemma SameSemantic(a: ApprovalRecord, b: ApprovalRecord)
    requires ApprovalSemantic(a) == ApprovalSemantic(b)
    ensures a == b.(id := a.id, approvedAt := a.approvedAt)
  {
  }

  /** The first candidate with the presented hash is the only one that can match it. */
  lemma OnlyOffer(
    e: Engine, l: Learned, agent: string, now: real, xs: seq<Signal>, snap: Snapshot, presented: Candidate,
    found: Option<Candidate>)
    requires InWindow(e, l, Some(agent), now, xs) && Exact(e, xs, snap)
    requires found.Some? ==> found.value in snap.candidates && found.value.hash == presented.hash
    requires found.None? ==> forall c :: c in snap.candidates ==> c.hash != presented.hash
    ensures (exists c :: SameOffer(c, presented) && Proposed(e, l, agent, now, c)) <==>
            found.Some? && SameOffer(found.value, presented)
  {
    forall c | SameOffer(c, presented) && Proposed(e, l, agent, now, c) ensures found == Some(c) {
      var ys :| InWindow(e, l, Some(agent), now, ys) && c in CandidateSet(e, ys, BigGroups(e, ys));
      AscendingUnique(SignalKey, xs, ys);
      assert c in Elements(snap.candidates);
      OneByHash(snap.candidates, c, found.value);
    }
    if found.Some? {
      assert found.value in Elements(snap.candidates);
    }
  }

  lemma OneByHash(candidates: seq<Candidate>, c: Candidate, c': Candidate)
    requires Ascending(CandidateKey, candidates) && c in candidates && c' in candidates && c.hash == c'.hash
    ensures c == c'
  {
  }

  /** Later appends never invalidate an approval. */
  lemma ApprovalSurvivesAppends(
    d: Digests, e: Engine, l: Learned, a: ApprovalRecord, agentId: string, appends: seq<Append>)
    requires Valid(d, l) && a in ApprovalsOf(l, agentId) && Revalidates(e, l, a, agentId)
    ensures a in ApprovalsOf(Grow(d, l, appends), agentId)
    ensures Revalidates(e, Grow(d, l, appends), a, agentId)
  {
    GrowOnlyExtends(d, l, appends);
    var l' := Grow(d, l, appends);
    assert l'.approvals[a.id] == a;
    LoadSurvives(l, l', a.evidenceIds);
  }

  lemma LoadSurvives(l: Learned, l': Learned, ids: seq<nat>)
    requires Extends(l, l') && Load(l, ids).Some?
    ensures Load(l', ids) == Load(l, ids)
  {
    assert forall id :: id in Unique(ids) ==> id in l'.signals && l'.signals[id] == l.signals[id];
    assert forall i :: 0 <= i < |Unique(ids)| ==> Unique(ids)[i] in Unique(ids);
    assert Load(l', ids).value == Load(l, ids).value;
  }

  // ---- Compilation ----

  datatype Section = Base(text: string) | RulesHeading | RuleText(text: string)
                   | SkillsHeading | SkillHeading(id: nat) | SkillText(text: string)

  /** The new instructions, and what the metadata of the profile says about them. */
  datatype Compiled = Compiled(
    rules: seq<ApprovalRecord>,
    skills: seq<ApprovalRecord>,
    sections: seq<Section>,
    instructions: string,
    baseFingerprint: nat,
    ruleHashes: seq<nat>,
    activeSkillIds: seq<Option<nat>>)

  /** A section as it is written into the instructions. */
  function Written(m: Manager, section: Section): string {
    match section
    case Base(text) => StripRight(text)
    case RulesHeading => "## Approved personalization rules"
    case RuleText(text) => "- " + text
    case SkillsHeading => "## Activated skills"
    case SkillHeading(id) => "### skill:" + m.hex(id)
    case SkillText(text) => text
  }

  function Joined(m: Manager, sections: seq<Section>): string {
    if sections == [] then ""
    else if |sections| == 1 then Written(m, sections[0])
    else Joined(m, sections[..|sections|-1]) + "\n\n" + Written(m, sections[|sections|-1])
  }

  function Compile(
    m: Manager, profile: BaseProfile, rules: seq<ApprovalRecord>, skills: seq<ApprovalRecord>): Compiled
  {
    var sections := Sections(profile, rules, skills);
    Compiled(
      rules, skills, sections, Joined(m, sections), profile.fingerprint,
      seq(|rules|, i requires 0 <= i < |rules| => rules[i].candidateHash),
      seq(|skills|, i requires 0 <= i < |skills| => skills[i].skillId))
  }

  /** Sorting by candidate digest keeps the order of approval ids among equals. */
  function ByCandidate(a: ApprovalRecord): Key {
    Key(a.candidateHash as real, a.id)
  }

  function RuleSections(rules: seq<ApprovalRecord>): seq<Section> {
    if rules == [] then [] else RuleSections(rules[..|rules|-1]) + [RuleText(rules[|rules|-1].text)]
  }

  function SkillSections(skills: seq<ApprovalRecord>): seq<Section> {
    if skills == [] then []
    else
      var last := skills[|skills|-1];
      SkillSections(skills[..|skills|-1]) +
      (if last.skillId.Some? then [SkillHeading(last.skillId.value)] else []) + [SkillText(last.text)]
  }

  function Sections(profile: BaseProfile, rules: seq<ApprovalRecord>, skills: seq<ApprovalRecord>): seq<Section> {
    [Base(profile.instructions)]
    + (if rules == [] then [] else [RulesHeading] + RuleSections(rules))
    + (if skills == [] then [] else [SkillsHeading] + SkillSections(skills))
  }

  /** The approvals of an agent for exactly this profile. */
  ghost function Bound(l: Learned, profile: BaseProfile): set<ApprovalRecord> {
    set a | a in ApprovalsOf(l, profile.agentId) && a.fingerprint == profile.fingerprint
  }

  ghost function RulesOf(l: Learned, profile: BaseProfile): set<ApprovalRecord> {
    set a | a in Bound(l, profile) && a.kind == Rule
  }

  ghost function SkillsOf(l: Learned, profile: BaseProfile, active: set<nat>): set<ApprovalRecord> {
    set a | a in Bound(l, profile) && a.kind == Skill && a.skillId.Some? && a.skillId.value in active
  }

  ghost predicate Trusted(e: Engine, l: Learned, a: ApprovalRecord, agentId: string, verify: Verifier) {
    verify(Reviewer(a.reviewerId, a.attestation)) && Revalidates(e, l, a, agentId)
  }

  method RevalidateApproval(
    e: Engine, store: InMemoryLearningStore, a: ApprovalRecord, agentId: string, verify: Verifier) returns (ok: bool)
    ensures ok <==> Trusted(e, store.Value(), a, agentId, verify)
  {
    if !verify(Reviewer(a.reviewerId, a.attestation)) || a.agentId != agentId {
      return false;
    }
    var evidence := store.LoadSignals(a.evidenceIds);
    if evidence.None? {
      return false;
    }
    var ordered := RequireHomogeneousHumanGroup(e, evidence.value);
    if ordered.None? {
      return false;
    }
    assert ordered.value[0] in evidence.value;
    return Certifies(MakeCandidate(e, ordered.value), a);
  }

  /** Listing an agent's approvals and loading them by id give the same records. */
  method ListAndLoad(store: InMemoryLearningStore, agentId: string)
    returns (listed: seq<ApprovalRecord>, loaded: Option<seq<ApprovalRecord>>)
    requires Valid(store.d, store.Value())
    ensures loaded == Some(listed) && Ascending(ApprovalKey, listed)
    ensures Elements(listed) == ApprovalsOf(store.Value(), agentId)
  {
    listed := store.ListApprovals(agentId);
    var ids := seq(|listed|, i requires 0 <= i < |listed| => listed[i].id);
    forall i | 0 <= i < |listed|
      ensures listed[i].id in store.approvals && store.approvals[listed[i].id] == listed[i]
    {
      assert listed[i] in Elements(listed);
    }
    forall i, j | 0 <= i < j < |ids| ensures ids[i] != ids[j] {
      assert Less(ApprovalKey(listed[i]), ApprovalKey(listed[j]));
    }
    UniqueOfDistinct(ids);
    loaded := store.LoadApprovals(ids);
    assert loaded.Some? && loaded.value == listed;
  }

  /** The approvals that go into the profile, each kind sorted by candidate digest. */
  method Choose(listed: seq<ApprovalRecord>, fingerprint: nat, active: set<nat>)
    returns (rules: seq<ApprovalRecord>, skills: seq<ApprovalRecord>, known: set<nat>)
    requires Ascending(ApprovalKey, listed)
    ensures Ascending(ByCandidate, rules)
    ensures forall a :: a in rules <==> a in listed && a.fingerprint == fingerprint && a.kind == Rule
    ensures Ascending(ByCandidate, skills)
    ensures forall a :: a in skills <==> a in listed && a.fingerprint == fingerprint && a.kind == Skill
                                         && a.skillId.Some? && a.skillId.value in active
    ensures forall id :: id in known <==>
              exists a :: a in listed && a.fingerprint == fingerprint && a.kind == Skill && a.skillId == Some(id)
  {
    rules, skills, known := [], [], {};
    for i := 0 to |listed|
      invariant Ascending(ByCandidate, rules) && Ascending(ByCandidate, skills)
      invariant forall a :: a in rules <==> a in listed[..i] && a.fingerprint == fingerprint && a.kind == Rule
      invariant forall a :: a in skills <==> a in listed[..i] && a.fingerprint == fingerprint && a.kind == Skill
                                             && a.skillId.Some? && a.skillId.value in active
      invariant forall id :: id in known <==> exists a :: a in listed[..i] && a.fingerprint == fingerprint
                                                          && a.kind == Skill && a.skillId == Some(id)
    {
      var a := listed[i];
      assert listed[..i+1] == listed[..i] + [a];
      assert forall x :: x in listed[..i] ==> ByCandidate(x) != ByCandidate(a);
      if a.fingerprint == fingerprint {
        if a.kind == Rule {
          InsertAscends(ByCandidate, a, rules);
          rules := Insert(ByCandidate, a, rules);
        } else if a.skillId.Some? {
          known := known + {a.skillId.value};
          if a.skillId.value in active {
            InsertAscends(ByCandidate, a, skills);
            skills := Insert(ByCandidate, a, skills);
          }
        }
      }
    }
    assert listed[..|listed|] == listed;
  }

  /** Compilation succeeds exactly when every approval of the agent can be trusted and every
      active skill is approved for the profile; it then adds all approved rules and the
      active approved skills, and nothing else. */
  method CompileProfile(
    m: Manager, store: InMemoryLearningStore, profile: BaseProfile, active: set<nat>, verify: Verifier)
    returns (r: Option<Compiled>)
    requires Valid(store.d, store.Value())
    ensures r.Some? <==>
            && (forall a :: a in ApprovalsOf(store.Value(), profile.agentId) ==>
                  Trusted(m.engine, store.Value(), a, profile.agentId, verify))
            && (forall id :: id in active ==>
                  exists a: ApprovalRecord ::
                    && a.id in store.approvals && store.approvals[a.id] == a && a.agentId == profile.agentId
                    && a.fingerprint == profile.fingerprint && a.kind == Skill && a.skillId == Some(id))
    ensures r.Some? ==>
              && Ascending(ByCandidate, r.value.rules) && Elements(r.value.rules) == RulesOf(store.Value(), profile)
              && Ascending(ByCandidate, r.value.skills)
              && Elements(r.value.skills) == SkillsOf(store.Value(), profile, active)
              && r.value == Compile(m, profile, r.value.rules, r.value.skills)
    ensures r.Some? ==>
              forall a :: a in r.value.rules <==>
                && a.id in store.approvals && store.approvals[a.id] == a && a.agentId == profile.agentId
                && a.fingerprint == profile.fingerprint && a.kind == Rule
    ensures r.Some? ==>
              forall a :: a in r.value.skills <==>
                && a.id in store.approvals && store.approvals[a.id] == a && a.agentId == profile.agentId
                && a.fingerprint == profile.fingerprint && a.kind == Skill
                && a.skillId.Some? && a.skillId.value in active
  {
    var listed, loaded := ListAndLoad(store, profile.agentId);
    if loaded != Some(listed) {
      return None;
    }
    ghost var all := ApprovalsOf(store.Value(), profile.agentId);
    assert forall a :: a in listed <==> a in all by {
      assert forall a :: a in listed <==> a in Elements(listed);
    }
    var trusted := RevalidateAll(m.engine, store, listed, profile.agentId, verify);
    if !trusted {
      return None;
    }
    var rules, skills, known := Choose(listed, profile.fingerprint, active);
    assert forall a :: a in all <==>
        a.id in store.approvals && store.approvals[a.id] == a && a.agentId == profile.agentId;
    if !(active <= known) {
      return None;
    }
    assert Elements(rules) == RulesOf(store.Value(), profile);
    assert Elements(skills) == SkillsOf(store.Value(), profile, active);
    var compiled := Assemble(m, profile, rules, skills);
    r := Some(compiled);
  }

  /** The list of sections, built up piece by piece, and their text. */
  method Assemble(m: Manager, profile: BaseProfile, rules: seq<ApprovalRecord>, skills: seq<ApprovalRecord>)
    returns (r: Compiled)
    ensures r == Compile(m, profile, rules, skills)
    ensures r.baseFingerprint == profile.fingerprint && r.rules == rules && r.skills == skills
    ensures |r.ruleHashes| == |rules| && forall i :: 0 <= i < |rules| ==> r.ruleHashes[i] == rules[i].candidateHash
    ensures |r.activeSkillIds| == |skills| && forall i :: 0 <= i < |skills| ==> r.activeSkillIds[i] == skills[i].skillId
  {
    var sections := [Base(profile.instructions)];
    if rules != [] {
      var added := [RulesHeading];
      for i := 0 to |rules|
        invariant added == [RulesHeading] + RuleSections(rules[..i])
      {
        assert rules[..i+1][..i] == rules[..i];
        added := added + [RuleText(rules[i].text)];
      }
      assert rules[..|rules|] == rules;
      sections := sections + added;
    }
    if skills != [] {
      var added := [SkillsHeading];
      for i := 0 to |skills|
        invariant added == [SkillsHeading] + SkillSections(skills[..i])
      {
        assert skills[..i+1][..i] == skills[..i];
        added := added + (if skills[i].skillId.Some? then [SkillHeading(skills[i].skillId.value)] else []);
        added := added + [SkillText(skills[i].text)];
      }
      assert skills[..|skills|] == skills;
      sections := sections + added;
    }
    assert sections == Sections(profile, rules, skills);
    r := Compile(m, profile, rules, skills).(sections := sections, instructions := Joined(m, sections));
  }

  method RevalidateAll(
    e: Engine, store: InMemoryLearningStore, listed: seq<ApprovalRecord>, agentId: string, verify: Verifier)
    returns (ok: bool)
    ensures ok <==> forall a :: a in listed ==> Trusted(e, store.Value(), a, agentId, verify)
  {
    for i := 0 to |listed|
      invariant forall j :: 0 <= j < i ==> Trusted(e, store.Value(), listed[j], agentId, verify)
    {
      ok := RevalidateApproval(e, store, listed[i], agentId, verify);
      if !ok {
        assert listed[i] in listed;
        return;
      }
    }
    return true;
  }

  /** Evidence for a text: at least two different stored signals, all human, of this agent,
      of one kind, saying the same thing, and one of them in exactly these words. */
  ghost predicate Backed(e: Engine, l: Learned, agentId: string, text: string, evidence: seq<Signal>) {
    && |evidence| >= 2 && (forall i, j :: 0 <= i < j < |evidence| ==> evidence[i].id != evidence[j].id)
    && (forall s :: s in evidence ==>
          && s.id in l.signals && l.signals[s.id] == s && Human(s.kind) && s.agentId == agentId
          && s.kind == evidence[0].kind && s.feedback.Some? && e.normalize(s.feedback.value) == e.normalize(text))
    && exists s :: s in evidence && s.feedback == Some(text)
  }

  lemma RevalidatedIsBacked(d: Digests, e: Engine, l: Learned, a: ApprovalRecord, agentId: string)
    requires Valid(d, l) && Revalidates(e, l, a, agentId)
    ensures Backed(e, l, agentId, a.text, Load(l, a.evidenceIds).value)
  {
    var evidence := Load(l, a.evidenceIds).value;
    var first := Sort(SignalKey, evidence)[0];
    assert first in evidence;
    forall s | s in evidence ensures s.id in l.signals && l.signals[s.id] == s && KeyOf(e, s) == KeyOf(e, evidence[0]) {
      var i :| 0 <= i < |evidence| && evidence[i] == s;
      assert Unique(a.evidenceIds)[i] in Unique(a.evidenceIds);
    }
  }

  lemma {:induction false} TextsOfRules(rules: seq<ApprovalRecord>, i: nat) returns (a: ApprovalRecord)
    requires i < |RuleSections(rules)|
    ensures a in rules && RuleSections(rules)[i] == RuleText(a.text)
  {
    if i == |RuleSections(rules)| - 1 {
      a := rules[|rules|-1];
    } else {
      a := TextsOfRules(rules[..|rules|-1], i);
    }
  }

  lemma {:induction false} TextsOfSkills(skills: seq<ApprovalRecord>, i: nat) returns (a: ApprovalRecord)
    requires i < |SkillSections(skills)|
    ensures a in skills
    ensures SkillSections(skills)[i] == SkillText(a.text) ||
            (a.skillId.Some? && SkillSections(skills)[i] == SkillHeading(a.skillId.value))
  {
    if i < |SkillSections(skills[..|skills|-1])| {
      a := TextsOfSkills(skills[..|skills|-1], i);
    } else {
      a := skills[|skills|-1];
    }
  }

  /** The approval that put a text into a compiled profile. */
  lemma TextHasApproval(profile: BaseProfile, compiled: Compiled, i: nat) returns (a: ApprovalRecord)
    requires compiled.sections == Sections(profile, compiled.rules, compiled.skills)
    requires i < |compiled.sections| && (compiled.sections[i].RuleText? || compiled.sections[i].SkillText?)
    ensures a in compiled.rules || a in compiled.skills
    ensures compiled.sections[i].text == a.text
  {
    var rules := if compiled.rules == [] then [] else [RulesHeading] + RuleSections(compiled.rules);
    if i < 1 + |rules| {
      a := TextsOfRules(compiled.rules, i - 2);
    } else {
      a := TextsOfSkills(compiled.skills, i - |rules| - 2);
    }
  }

  /** Every instruction a compiled profile gained was said by people, at least twice, about
      this agent; runtime signals never contribute a word. */
  lemma InstructionsHaveHumanEvidence(
    d: Digests, e: Engine, l: Learned, profile: BaseProfile, active: set<nat>, verify: Verifier,
    compiled: Compiled, i: nat)
    returns (evidence: seq<Signal>)
    requires Valid(d, l)
    requires forall a :: a in ApprovalsOf(l, profile.agentId) ==> Trusted(e, l, a, profile.agentId, verify)
    requires Elements(compiled.rules) == RulesOf(l, profile)
    requires Elements(compiled.skills) == SkillsOf(l, profile, active)
    requires compiled.sections == Sections(profile, compiled.rules, compiled.skills)
    requires i < |compiled.sections| && (compiled.sections[i].RuleText? || compiled.sections[i].SkillText?)
    ensures Backed(e, l, profile.agentId, compiled.sections[i].text, evidence)
  {
    var a := TextHasApproval(profile, compiled, i);
    assert a in Elements(compiled.rules) || a in Elements(compiled.skills);
    assert a in ApprovalsOf(l, profile.agentId);
    RevalidatedIsBacked(d, e, l, a, profile.agentId);
    evidence := Load(l, a.evidenceIds).value;
  }
}
