/** Single-use execution authorizations: the consumption ledger, one coordinator's
    `verify_and_claim`, and many coordinators interleaving over one ledger. */
module AuthorizationClaims {
  import opened Contracts

  /** The fields a claim is built from; the rest of the signed document is `content`. */
  datatype Authorization = Authorization(organisationId: string, id: string, requestId: string, content: string)

  /** What one dispatch expects of its authorization, at a time. */
  datatype Binding = Binding(requestId: string, expectations: string, atTime: string)

  datatype AuthorizationUse = AuthorizationUse(
    organisationId: string,
    authorizationId: string,
    digest: string,
    requestId: string,
    claimedAt: string)

  datatype Verified = Verified(authorization: Authorization, binding: Binding)

  /** What the verifier was asked. */
  datatype Question = Question(authorization: Authorization, binding: Binding, alreadyConsumed: bool)

  datatype Request = Request(authorization: Authorization, binding: Binding, claimedAt: Option<string>)

  /** The digest function of the deployment; None where it raises. */
  type DigestFunction = Authorization -> Option<string>

  predicate IsDigest(s: string) {
    && |s| == 71 && s[..7] == "sha256:"
    && forall i :: 7 <= i < |s| ==> '0' <= s[i] <= '9' || 'a' <= s[i] <= 'f'
  }

  function ClaimTime(request: Request): string {
    if request.claimedAt.Some? then request.claimedAt.value else request.binding.atTime
  }

  /** The binding that is verified: expiry is judged at the claim time. */
  function AtClaimTime(request: Request): Binding {
    request.binding.(atTime := ClaimTime(request))
  }

  /** `create_candidate`; None where it raises. */
  function CreateUse(
    digest: DigestFunction, a: Authorization, b: Binding, claimedAt: string): Option<AuthorizationUse>
  {
    if Blank(a.organisationId) || Blank(a.id) || Blank(a.requestId) || a.requestId != b.requestId
       || Blank(claimedAt) || digest(a).None? || !IsDigest(digest(a).value) then None
    else Some(AuthorizationUse(a.organisationId, a.id, digest(a).value, b.requestId, claimedAt))
  }

  function Candidate(digest: DigestFunction, request: Request): Option<AuthorizationUse> {
    CreateUse(digest, request.authorization, AtClaimTime(request), ClaimTime(request))
  }

  type Ledger = seq<AuthorizationUse>

  /** The primary key or the unique digest of the two rows is the same. */
  predicate Clash(x: AuthorizationUse, y: AuthorizationUse) {
    (x.organisationId == y.organisationId && x.authorizationId == y.authorizationId) || x.digest == y.digest
  }

  predicate Consumed(ledger: Ledger, use: AuthorizationUse) {
    exists i :: 0 <= i < |ledger| && Clash(ledger[i], use)
  }

  /** What the table's constraints keep true. */
  ghost predicate Unique(ledger: Ledger) {
    forall i, j :: 0 <= i < j < |ledger| ==> !Clash(ledger[i], ledger[j])
  }

  /** How a claim statement and its commit went: an error may hide a commit. */
  datatype Commit = Acknowledged | LostBefore | LostAfter

  function Insert(ledger: Ledger, use: AuthorizationUse, commit: Commit): Ledger {
    if commit == LostBefore || Consumed(ledger, use) then ledger else ledger + [use]
  }

  datatype Answer = Raised | Says(yes: bool)

  class ConsumptionStore {
    var rows: Ledger

    constructor ()
      ensures rows == []
    {
      rows := [];
    }

    method IsConsumed(use: AuthorizationUse, reachable: bool) returns (answer: Answer)
      ensures answer == if reachable then Says(Consumed(rows, use)) else Raised
    {
      if !reachable {
        return Raised;
      }
      return Says(Consumed(rows, use));
    }

    method ClaimOnce(use: AuthorizationUse, commit: Commit) returns (answer: Answer)
      modifies this
      ensures rows == Insert(old(rows), use, commit)
      ensures old(Unique(rows)) ==> Unique(rows)
      ensures answer == if commit == Acknowledged then Says(!Consumed(old(rows), use)) else Raised
    {
      if commit == LostBefore {
        return Raised;
      }
      var claimed := !Consumed(rows, use);
      if claimed {
        rows := rows + [use];
      }
      return if commit == LostAfter then Raised else Says(claimed);
    }
  }

  /** How one `verify_and_claim` ended. */
  datatype Ending = Failed | AlreadyConsumed | Claimed(verified: Verified)

  /** What the coordinator's surroundings do during one call. */
  datatype Surroundings = Surroundings(reachable: bool, verdict: Option<Verified>, commit: Commit)

  /** One coordinator alone: it succeeds exactly on an authorization that is well formed,
      unused, verified as it was presented and committed, and then adds exactly its use;
      any other end leaves the ledger alone, unless a commit went through unseen. */
  method VerifyAndClaim(digest: DigestFunction, store: ConsumptionStore, request: Request, env: Surroundings)
    returns (ending: Ending)
    modifies store
    ensures ending.Claimed? <==>
              && Candidate(digest, request).Some? && env.reachable && env.commit == Acknowledged
              && !Consumed(old(store.rows), Candidate(digest, request).value) && env.verdict.Some?
              && CreateUse(digest, env.verdict.value.authorization, env.verdict.value.binding, ClaimTime(request))
                 == Candidate(digest, request)
    ensures ending.Claimed? ==>
              env.verdict == Some(ending.verified) && store.rows == old(store.rows) + [Candidate(digest, request).value]
    ensures ending.AlreadyConsumed? <==>
              && Candidate(digest, request).Some? && env.reachable && env.verdict.Some?
              && Consumed(old(store.rows), Candidate(digest, request).value)
    ensures !ending.Claimed? && env.commit != LostAfter ==> store.rows == old(store.rows)
    ensures old(Unique(store.rows)) ==> Unique(store.rows)
    ensures var sys := SoloRun(digest, old(store.rows), request, env);
            && store.rows == sys.ledger
            && (ending.Claimed? <==> JobOf(sys, 0).Done? && JobOf(sys, 0).ending.Claimed?)
            && (ending.Claimed? ==> JobOf(sys, 0).ending == ending)
  {
    var time := ClaimTime(request);
    if Blank(time) {
      return Failed;
    }
    var binding := request.binding.(atTime := time);
    var candidate := CreateUse(digest, request.authorization, binding, time);
    if candidate.None? {
      return Failed;
    }
    var looked := store.IsConsumed(candidate.value, env.reachable);
    if looked.Raised? || env.verdict.None? {
      return Failed;
    }
    if looked.yes {
      return AlreadyConsumed;
    }
    var verified := env.verdict.value;
    var use := CreateUse(digest, verified.authorization, verified.binding, time);
    if use != candidate {
      return Failed;
    }
    var claim := store.ClaimOnce(use.value, env.commit);
    if claim.Raised? {
      return Failed;
    }
    return if claim.yes then Claimed(verified) else AlreadyConsumed;
  }

  // ---- Many coordinators over one ledger ----

  datatype Job =
    | LookingUp(request: Request)
    | Verifying(request: Request, consumed: bool)
    | Claiming(request: Request, question: Question, verified: Verified)
    | Done(request: Request, question: Question, ending: Ending)
    | Gone

  /** Steps of coordinator calls, in any order; a call may die at any point. */
  datatype Move =
    | Begin(id: nat, request: Request)
    | Look(id: nat, reachable: bool)
    | Verify(id: nat, verdict: Option<Verified>)
    | Claim(id: nat, commit: Commit)
    | Die(id: nat)

  datatype System = System(ledger: Ledger, jobs: map<nat, Job>)

  function JobOf(sys: System, id: nat): Job {
    if id in sys.jobs then sys.jobs[id] else Gone
  }

  function BeginJob(digest: DigestFunction, request: Request): Job {
    if Blank(ClaimTime(request)) || Candidate(digest, request).None? then Gone else LookingUp(request)
  }

  function VerifyJob(digest: DigestFunction, job: Job, verdict: Option<Verified>): Job
    requires job.Verifying?
  {
    if verdict.None? || job.consumed then Gone
    else if CreateUse(digest, verdict.value.authorization, verdict.value.binding, ClaimTime(job.request))
            != Candidate(digest, job.request) then Gone
    else
      Claiming(
        job.request, Question(job.request.authorization, AtClaimTime(job.request), job.consumed), verdict.value)
  }

  /** The use a job wants to claim. */
  function UseOf(digest: DigestFunction, request: Request): AuthorizationUse {
    var c := Candidate(digest, request);
    if c.Some? then c.value else AuthorizationUse("", "", "", "", "")
  }

  function Apply(digest: DigestFunction, sys: System, move: Move): System {
    var job := JobOf(sys, move.id);
    match move
    case Begin(id, request) =>
      if id in sys.jobs then sys else sys.(jobs := sys.jobs[id := BeginJob(digest, request)])
    case Look(id, reachable) =>
      if !job.LookingUp? then sys
      else
        sys.(jobs := sys.jobs[id :=
                 if reachable then Verifying(job.request, Consumed(sys.ledger, UseOf(digest, job.request))) else Gone])
    case Verify(id, verdict) =>
      if !job.Verifying? then sys else sys.(jobs := sys.jobs[id := VerifyJob(digest, job, verdict)])
    case Claim(id, commit) =>
      if !job.Claiming? then sys
      else
        var use := UseOf(digest, job.request);
        var ending := if commit != Acknowledged then Failed
                      else if Consumed(sys.ledger, use) then AlreadyConsumed else Claimed(job.verified);
        System(Insert(sys.ledger, use, commit), sys.jobs[id := Done(job.request, job.question, ending)])
    case Die(id) => sys.(jobs := sys.jobs[id := Gone])
  }

  /** The moves of one call with nothing in between. */
  function SoloRun(digest: DigestFunction, ledger: Ledger, request: Request, env: Surroundings): System {
    var begun := Apply(digest, System(ledger, map[]), Begin(0, request));
    var looked := Apply(digest, begun, Look(0, env.reachable));
    var checked := Apply(digest, looked, Verify(0, env.verdict));
    Apply(digest, checked, Claim(0, env.commit))
  }

  function Exec(digest: DigestFunction, moves: seq<Move>): System {
    if moves == [] then System([], map[]) else Apply(digest, Exec(digest, moves[..|moves|-1]), moves[|moves|-1])
  }

  function At(digest: DigestFunction, moves: seq<Move>, k: nat): System
    requires k <= |moves|
  {
    Exec(digest, moves[..k])
  }

  lemma AtNext(digest: DigestFunction, moves: seq<Move>, k: nat)
    requires k < |moves|
    ensures At(digest, moves, k + 1) == Apply(digest, At(digest, moves, k), moves[k])
  {
    assert moves[..k+1][..k] == moves[..k];
  }

  /** The k-th move makes a `verify_and_claim` return. */
  predicate ClaimedAt(digest: DigestFunction, moves: seq<Move>, k: nat) {
    && k < |moves| && moves[k].Claim? && JobOf(At(digest, moves, k), moves[k].id).Claiming?
    && moves[k].commit == Acknowledged
    && !Consumed(At(digest, moves, k).ledger, UseAt(digest, moves, k))
  }

  /** The use the k-th move claims. */
  function UseAt(digest: DigestFunction, moves: seq<Move>, k: nat): AuthorizationUse
    requires k < |moves|
  {
    var job := JobOf(At(digest, moves, k), moves[k].id);
    if job.Claiming? then UseOf(digest, job.request) else AuthorizationUse("", "", "", "", "")
  }

  lemma {:induction false} LedgerOnlyGrows(digest: DigestFunction, moves: seq<Move>, a: nat, b: nat)
    requires a <= b <= |moves|
    ensures At(digest, moves, a).ledger <= At(digest, moves, b).ledger
    decreases b
  {
    if a < b {
      LedgerOnlyGrows(digest, moves, a, b - 1);
      AtNext(digest, moves, b - 1);
    }
  }

  /** In every interleaving no two rows share an authorization or a digest. */
  lemma {:induction false} LedgerIsUnique(digest: DigestFunction, moves: seq<Move>)
    ensures Unique(Exec(digest, moves).ledger)
    ensures var rows := Exec(digest, moves).ledger;
            forall i, j :: 0 <= i < j < |rows| ==>
              && (rows[i].organisationId, rows[i].authorizationId) != (rows[j].organisationId, rows[j].authorizationId)
              && rows[i].digest != rows[j].digest
  {
    if moves != [] {
      LedgerIsUnique(digest, moves[..|moves|-1]);
    }
  }

  lemma ClaimIsRemembered(digest: DigestFunction, moves: seq<Move>, a: nat, b: nat, use: AuthorizationUse)
    requires ClaimedAt(digest, moves, a) && a < b <= |moves| && Clash(UseAt(digest, moves, a), use)
    ensures Consumed(At(digest, moves, b).ledger, use)
  {
    var n := |At(digest, moves, a).ledger|;
    AtNext(digest, moves, a);
    LedgerOnlyGrows(digest, moves, a + 1, b);
    assert At(digest, moves, b).ledger[n] == UseAt(digest, moves, a);
  }

  /** At most one call returns for an (organisation, authorization id), and at most one for a
      digest, however lookups, verifications and claims interleave. */
  lemma AtMostOneClaim(digest: DigestFunction, moves: seq<Move>, a: nat, b: nat)
    requires ClaimedAt(digest, moves, a) && ClaimedAt(digest, moves, b)
    requires Clash(UseAt(digest, moves, a), UseAt(digest, moves, b))
    ensures a == b
  {
    if a < b {
      ClaimIsRemembered(digest, moves, a, b, UseAt(digest, moves, b));
    } else if b < a {
      ClaimIsRemembered(digest, moves, b, a, UseAt(digest, moves, a));
    }
  }

  /** What a job in flight carries is what its request and its steps so far produced. */
  ghost predicate JobOK(digest: DigestFunction, job: Job) {
    match job
    case LookingUp(request) => Candidate(digest, request).Some?
    case Verifying(request, _) => Candidate(digest, request).Some?
    case Claiming(request, question, verified) => Checked(digest, request, question, verified)
    case Done(request, question, ending) => ending.Claimed? ==> Checked(digest, request, question, ending.verified)
    case Gone => true
  }

  /** The verifier was asked about this document at the claim time, with the lookup finding
      it unused, and what it accepted makes exactly the use of the request. */
  ghost predicate Checked(digest: DigestFunction, request: Request, question: Question, verified: Verified) {
    && question == Question(request.authorization, AtClaimTime(request), false)
    && question.binding.atTime == ClaimTime(request)
    && Candidate(digest, request).Some?
    && CreateUse(digest, verified.authorization, verified.binding, ClaimTime(request)) == Candidate(digest, request)
  }

  lemma {:induction false} JobsAreOK(digest: DigestFunction, moves: seq<Move>, id: nat)
    ensures JobOK(digest, JobOf(Exec(digest, moves), id))
  {
    if moves != [] {
      JobsAreOK(digest, moves[..|moves|-1], id);
      JobsAreOK(digest, moves[..|moves|-1], moves[|moves|-1].id);
    }
  }

  /** A call that returned had its very use verified at the claim time, and that use is the
      row the call added. */
  lemma ClaimIsTheVerifiedUse(digest: DigestFunction, moves: seq<Move>, k: nat)
    requires ClaimedAt(digest, moves, k)
    ensures var job := JobOf(At(digest, moves, k), moves[k].id);
            var use := UseAt(digest, moves, k);
            && Checked(digest, job.request, job.question, job.verified)
            && Some(use) == CreateUse(digest, job.verified.authorization, job.verified.binding, ClaimTime(job.request))
            && use.claimedAt == job.question.binding.atTime && use.requestId == job.request.binding.requestId
            && At(digest, moves, k + 1).ledger == At(digest, moves, k).ledger + [use]
            && JobOf(At(digest, moves, k + 1), moves[k].id) == Done(job.request, job.question, Claimed(job.verified))
  {
    JobsAreOK(digest, moves[..k], moves[k].id);
    AtNext(digest, moves, k);
  }

  /** Every row in the ledger was put there by the claim of a job that had it verified. */
  lemma {:induction false} RowsComeFromClaims(digest: DigestFunction, moves: seq<Move>, n: nat, i: nat) returns (k: nat)
    requires n <= |moves| && i < |At(digest, moves, n).ledger|
    ensures k < n && moves[k].Claim? && JobOf(At(digest, moves, k), moves[k].id).Claiming?
    ensures UseAt(digest, moves, k) == At(digest, moves, n).ledger[i] && |At(digest, moves, k).ledger| == i
    ensures var job := JobOf(At(digest, moves, k), moves[k].id);
            Checked(digest, job.request, job.question, job.verified)
    decreases n
  {
    AtNext(digest, moves, n - 1);
    LedgerOnlyGrows(digest, moves, n - 1, n);
    if i < |At(digest, moves, n - 1).ledger| {
      k := RowsComeFromClaims(digest, moves, n - 1, i);
    } else {
      k := n - 1;
      JobsAreOK(digest, moves[..k], moves[k].id);
    }
  }

  // ---- In terms of the authorizations ----

  /** A document and a dispatch that a claim can be made of. */
  predicate Claimable(digest: DigestFunction, a: Authorization, requestId: string, claimedAt: string) {
    && !Blank(a.organisationId) && !Blank(a.id) && !Blank(a.requestId) && a.requestId == requestId
    && !Blank(claimedAt) && digest(a).Some? && IsDigest(digest(a).value)
  }

  /** A digest is the prefix and sixty-four hexadecimal digits in lower case. */
  lemma DigestExactly(s: string)
    ensures IsDigest(s) <==>
            exists hex: string ::
              |hex| == 64 && s == "sha256:" + hex && forall c :: c in hex ==> c in "0123456789abcdef"
  {
    if IsDigest(s) {
      var hex := s[7..];
      assert s == "sha256:" + hex;
      forall c | c in hex ensures c in "0123456789abcdef" {
        var i :| 0 <= i < |hex| && hex[i] == c;
        assert s[i+7] == c;
        HexDigit(c);
      }
    }
    if hex: string :| |hex| == 64 && s == "sha256:" + hex && forall c :: c in hex ==> c in "0123456789abcdef" {
      forall i | 7 <= i < |s| ensures '0' <= s[i] <= '9' || 'a' <= s[i] <= 'f' {
        assert s[i] == hex[i-7];
        HexDigit(s[i]);
      }
    }
  }

  lemma HexDigit(c: char)
    ensures c in "0123456789abcdef" <==> '0' <= c <= '9' || 'a' <= c <= 'f'
  {
    var digits := "0123456789abcdef";
    if '0' <= c <= '9' {
      assert digits[c as int - '0' as int] == c;
    }
    if 'a' <= c <= 'f' {
      assert digits[10 + c as int - 'a' as int] == c;
    }
  }

  /** A use names the organisation, the id and the digest of its document, the request of the
      dispatch and the time of the claim, and is refused exactly for what cannot be claimed. */
  lemma UseNamesItsAuthorization(digest: DigestFunction, a: Authorization, b: Binding, claimedAt: string)
    ensures CreateUse(digest, a, b, claimedAt).Some? <==> Claimable(digest, a, b.requestId, claimedAt)
    ensures CreateUse(digest, a, b, claimedAt).Some? ==>
              var use := CreateUse(digest, a, b, claimedAt).value;
              && use.organisationId == a.organisationId && use.authorizationId == a.id
              && Some(use.digest) == digest(a) && use.requestId == b.requestId && use.claimedAt == claimedAt
  {
  }

  /** The document the k-th move claims. */
  function AuthorizationAt(digest: DigestFunction, moves: seq<Move>, k: nat): Authorization
    requires k < |moves| && JobOf(At(digest, moves, k), moves[k].id).Claiming?
  {
    JobOf(At(digest, moves, k), moves[k].id).request.authorization
  }

  /** The row a returned claim added names the organisation, the id and the digest of the document
      that was presented. */
  lemma RowNamesTheAuthorization(digest: DigestFunction, moves: seq<Move>, k: nat)
    requires ClaimedAt(digest, moves, k)
    ensures var a, rows := AuthorizationAt(digest, moves, k), At(digest, moves, k + 1).ledger;
            var request := JobOf(At(digest, moves, k), moves[k].id).request;
            && |rows| == |At(digest, moves, k).ledger| + 1
            && var row := rows[|rows|-1];
            && row.organisationId == a.organisationId && row.authorizationId == a.id && Some(row.digest) == digest(a)
            && row.requestId == a.requestId == request.binding.requestId
            && row.claimedAt == if request.claimedAt.Some? then request.claimedAt.value else request.binding.atTime
  {
    ClaimIsTheVerifiedUse(digest, moves, k);
    var job := JobOf(At(digest, moves, k), moves[k].id);
    UseNamesItsAuthorization(digest, job.request.authorization, AtClaimTime(job.request), ClaimTime(job.request));
  }

  /** At most one call returns for documents of one organisation with one id, and at most one
      for documents with one digest. */
  lemma OneClaimPerAuthorization(digest: DigestFunction, moves: seq<Move>, a: nat, b: nat)
    requires ClaimedAt(digest, moves, a) && ClaimedAt(digest, moves, b)
    requires var x, y := AuthorizationAt(digest, moves, a), AuthorizationAt(digest, moves, b);
             (x.organisationId == y.organisationId && x.id == y.id) || digest(x) == digest(y)
    ensures a == b
  {
    UseAtNames(digest, moves, a);
    UseAtNames(digest, moves, b);
    AtMostOneClaim(digest, moves, a, b);
  }

  lemma UseAtNames(digest: DigestFunction, moves: seq<Move>, k: nat)
    requires k < |moves| && JobOf(At(digest, moves, k), moves[k].id).Claiming?
    ensures var a, use := AuthorizationAt(digest, moves, k), UseAt(digest, moves, k);
            use.organisationId == a.organisationId && use.authorizationId == a.id && Some(use.digest) == digest(a)
  {
    JobsAreOK(digest, moves[..k], moves[k].id);
    var job := JobOf(At(digest, moves, k), moves[k].id);
    UseNamesItsAuthorization(digest, job.request.authorization, AtClaimTime(job.request), ClaimTime(job.request));
  }

  /** A checked claim whose commit is acknowledged returns exactly if no row has its organisation
      and id, and none has its digest. */
  lemma ClaimReturnsExactly(digest: DigestFunction, moves: seq<Move>, k: nat)
    requires k < |moves| && moves[k].Claim? && JobOf(At(digest, moves, k), moves[k].id).Claiming?
    ensures var a, rows := AuthorizationAt(digest, moves, k), At(digest, moves, k).ledger;
            ClaimedAt(digest, moves, k) <==>
            && moves[k].commit == Acknowledged
            && forall i :: 0 <= i < |rows| ==>
                 && !(rows[i].organisationId == a.organisationId && rows[i].authorizationId == a.id)
                 && Some(rows[i].digest) != digest(a)
  {
    UseAtNames(digest, moves, k);
    var rows, use := At(digest, moves, k).ledger, UseAt(digest, moves, k);
    assert Consumed(rows, use) <==> exists i :: 0 <= i < |rows| && Clash(rows[i], use);
  }

  /** A call goes on to the lookup exactly if a claim can be made of its document. */
  lemma BeginsExactly(digest: DigestFunction, request: Request)
    ensures BeginJob(digest, request) ==
            if Claimable(
                 digest, request.authorization, request.binding.requestId,
                 if request.claimedAt.Some? then request.claimedAt.value else request.binding.atTime)
            then LookingUp(request) else Gone
  {
    UseNamesItsAuthorization(digest, request.authorization, AtClaimTime(request), ClaimTime(request));
  }

  /** The lookup reports a use exactly if a row has the organisation and id, or the digest. */
  lemma LooksExactly(digest: DigestFunction, moves: seq<Move>, k: nat)
    requires k < |moves| && moves[k].Look? && JobOf(At(digest, moves, k), moves[k].id).LookingUp?
    ensures var request := JobOf(At(digest, moves, k), moves[k].id).request;
            var a, rows := request.authorization, At(digest, moves, k).ledger;
            JobOf(At(digest, moves, k + 1), moves[k].id) ==
            if !moves[k].reachable then Gone
            else Verifying(
                   request,
                   exists i :: 0 <= i < |rows| && (|| (rows[i].organisationId == a.organisationId
                                                       && rows[i].authorizationId == a.id)
                                                   || Some(rows[i].digest) == digest(a)))
  {
    AtNext(digest, moves, k);
    JobsAreOK(digest, moves[..k], moves[k].id);
    var request := JobOf(At(digest, moves, k), moves[k].id).request;
    UseNamesItsAuthorization(digest, request.authorization, AtClaimTime(request), ClaimTime(request));
    var rows, use, a := At(digest, moves, k).ledger, UseOf(digest, request), request.authorization;
    assert forall i :: 0 <= i < |rows| ==>
        (Clash(rows[i], use) <==> || (rows[i].organisationId == a.organisationId && rows[i].authorizationId == a.id)
                                  || Some(rows[i].digest) == digest(a));
  }

  /** A call goes on to the claim exactly if the lookup found no use and what the verifier accepted
      can be claimed under the same organisation, id, digest and request. */
  lemma VerifiesExactly(digest: DigestFunction, job: Job, verdict: Option<Verified>)
    requires job.Verifying? && Candidate(digest, job.request).Some?
    ensures VerifyJob(digest, job, verdict).Claiming? <==>
            && verdict.Some? && !job.consumed
            && var a, v := job.request.authorization, verdict.value.authorization;
            && Claimable(digest, v, verdict.value.binding.requestId, ClaimTime(job.request))
            && v.organisationId == a.organisationId && v.id == a.id && digest(v) == digest(a)
            && verdict.value.binding.requestId == job.request.binding.requestId
    ensures VerifyJob(digest, job, verdict).Claiming? ==>
              VerifyJob(digest, job, verdict).verified == verdict.value
              && VerifyJob(digest, job, verdict).request == job.request
  {
    var r := job.request;
    UseNamesItsAuthorization(digest, r.authorization, AtClaimTime(r), ClaimTime(r));
    if verdict.Some? {
      UseNamesItsAuthorization(digest, verdict.value.authorization, verdict.value.binding, ClaimTime(r));
    }
  }
}
