/** Do gateway decisions agree across model routes? Runs are compared case by case. */
module RouteInvariance {
  import opened Contracts

  datatype Run = Run(
    caseId: string,
    category: string,
    modelRoute: string,
    success: bool,
    safetyViolation: bool,
    unauthorized: bool,
    approvalBypass: bool,
    selectionCorrect: Option<bool>,
    argumentsCorrect: Option<bool>,
    groundingCorrect: Option<bool>,
    duplicates: int,
    expectedDuplicates: int,
    modelTurns: nat,
    usageRecords: nat,
    intentHash: Option<string>,
    decision: Option<string>,
    expectIntent: bool)

  predicate Given(text: Option<string>) {
    text.Some? && text.value != ""
  }

  /** The run produced an intent and a decision on it. */
  predicate Decided(run: Run) {
    Given(run.intentHash) && Given(run.decision)
  }

  datatype Verdict = Agreement | Divergence | Incomplete | NotApplicable

  datatype Assessment = Assessment(divergence: nat, incomplete: nat, notApplicable: nat)

  function RouteList(cohort: seq<Run>): seq<string> {
    seq(|cohort|, i requires 0 <= i < |cohort| => cohort[i].modelRoute)
  }

  function Routes(cohort: seq<Run>): multiset<string> {
    multiset(RouteList(cohort))
  }

  /** The runs of one case, in order. */
  function Cohort(runs: seq<Run>, c: string): seq<Run> {
    if runs == [] then []
    else Cohort(runs[..|runs|-1], c) + if runs[|runs|-1].caseId == c then [runs[|runs|-1]] else []
  }

  /** Every two runs of the cohort agree on what was asked for and on what was decided. */
  ghost predicate Agrees(cohort: seq<Run>) {
    forall x, y :: x in cohort && y in cohort ==> x.intentHash == y.intentHash && x.decision == y.decision
  }

  ghost predicate OneIntent(cohort: seq<Run>) {
    forall x, y :: x in cohort && y in cohort ==> x.intentHash == y.intentHash
  }

  /** What the verdict on a cohort means. */
  ghost predicate Means(expected: multiset<string>, cohort: seq<Run>, v: Verdict) {
    var complete := Routes(cohort) == expected && forall x :: x in cohort ==> Decided(x);
    match v
    case Agreement => complete && Agrees(cohort)
    case Divergence => complete && OneIntent(cohort) && !Agrees(cohort)
    case NotApplicable =>
      Routes(cohort) == expected && forall x :: x in cohort ==> !Decided(x) && !x.expectIntent
    case Incomplete =>
      || Routes(cohort) != expected
      || (complete && !OneIntent(cohort))
      || (exists x :: x in cohort && !Decided(x) && exists y :: y in cohort && (Decided(y) || y.expectIntent))
  }

  function DecidedCount(cohort: seq<Run>): nat {
    if cohort == [] then 0 else DecidedCount(cohort[..|cohort|-1]) + if Decided(cohort[|cohort|-1]) then 1 else 0
  }

  predicate Wanted(cohort: seq<Run>) {
    cohort != [] && (Wanted(cohort[..|cohort|-1]) || cohort[|cohort|-1].expectIntent)
  }

  function Hashes(cohort: seq<Run>): set<Option<string>> {
    if cohort == [] then {}
    else Hashes(cohort[..|cohort|-1]) + if Decided(cohort[|cohort|-1]) then {cohort[|cohort|-1].intentHash} else {}
  }

  function Decisions(cohort: seq<Run>): set<Option<string>> {
    if cohort == [] then {}
    else Decisions(cohort[..|cohort|-1]) + if Decided(cohort[|cohort|-1]) then {cohort[|cohort|-1].decision} else {}
  }

  /** The verdict by counts and sets, as the comparison finds it. */
  function VerdictOf(expected: multiset<string>, cohort: seq<Run>): Verdict {
    if Routes(cohort) != expected then Incomplete
    else if DecidedCount(cohort) == 0 then if Wanted(cohort) then Incomplete else NotApplicable
    else if DecidedCount(cohort) < |cohort| || |Hashes(cohort)| > 1 then Incomplete
    else if |Decisions(cohort)| > 1 then Divergence else Agreement
  }

  /** The comparison within one cohort. */
  method Compare(expected: multiset<string>, cohort: seq<Run>) returns (v: Verdict)
    requires cohort != []
    ensures v == VerdictOf(expected, cohort)
  {
    var routes := CountRoutes(cohort);
    var hashes, decisions, present, missing, wanted := Scan(cohort);
    CountMeaning(cohort);
    if routes != expected {
      return Incomplete;
    }
    if present == 0 {
      return if missing > 0 && !wanted then NotApplicable else Incomplete;
    }
    if missing > 0 {
      return Incomplete;
    }
    if |hashes| > 1 {
      return Incomplete;
    }
    if |decisions| > 1 {
      return Divergence;
    }
    return Agreement;
  }

  method CountRoutes(cohort: seq<Run>) returns (routes: multiset<string>)
    ensures routes == Routes(cohort)
  {
    routes := multiset{};
    for i := 0 to |cohort|
      invariant routes == Routes(cohort[..i])
    {
      assert RouteList(cohort[..i+1]) == RouteList(cohort[..i]) + [cohort[i].modelRoute];
      routes := routes + multiset{cohort[i].modelRoute};
    }
    assert cohort[..|cohort|] == cohort;
  }

  /** The two lists and the two sets of the comparison, in one pass. */
  method Scan(cohort: seq<Run>) returns (
      hashes: set<Option<string>>, decisions: set<Option<string>>, present: nat, missing: nat, wanted: bool)
    ensures hashes == Hashes(cohort) && decisions == Decisions(cohort)
    ensures present == DecidedCount(cohort) && missing == |cohort| - present && wanted == Wanted(cohort)
  {
    hashes, decisions, present, missing, wanted := {}, {}, 0, 0, false;
    for i := 0 to |cohort|
      invariant hashes == Hashes(cohort[..i]) && decisions == Decisions(cohort[..i])
      invariant present == DecidedCount(cohort[..i]) && missing == i - present && wanted == Wanted(cohort[..i])
    {
      var run := cohort[i];
      assert cohort[..i+1][..i] == cohort[..i];
      wanted := wanted || run.expectIntent;
      if Decided(run) {
        present, hashes, decisions := present + 1, hashes + {run.intentHash}, decisions + {run.decision};
      } else {
        missing := missing + 1;
      }
    }
    assert cohort[..|cohort|] == cohort;
  }

  lemma {:induction false} CountMeaning(cohort: seq<Run>)
    ensures DecidedCount(cohort) <= |cohort|
    ensures DecidedCount(cohort) == |cohort| <==> forall i :: 0 <= i < |cohort| ==> Decided(cohort[i])
    ensures DecidedCount(cohort) == 0 <==> forall i :: 0 <= i < |cohort| ==> !Decided(cohort[i])
    ensures Wanted(cohort) <==> exists i :: 0 <= i < |cohort| && cohort[i].expectIntent
  {
    if cohort != [] {
      var before, last := cohort[..|cohort|-1], cohort[|cohort|-1];
      CountMeaning(before);
      assert forall i :: 0 <= i < |cohort| ==> cohort[i] == if i < |before| then before[i] else last;
      assert forall i :: 0 <= i < |before| ==> before[i] == cohort[i];
    }
  }

  lemma {:induction false} Collected(cohort: seq<Run>, i: nat)
    requires i < |cohort| && Decided(cohort[i])
    ensures cohort[i].intentHash in Hashes(cohort) && cohort[i].decision in Decisions(cohort)
  {
    if i < |cohort| - 1 {
      Collected(cohort[..|cohort|-1], i);
    }
  }

  lemma {:induction false} HashFrom(cohort: seq<Run>, h: Option<string>) returns (i: nat)
    requires h in Hashes(cohort)
    ensures i < |cohort| && cohort[i].intentHash == h
  {
    i := |cohort| - 1;
    if cohort[i].intentHash != h {
      i := HashFrom(cohort[..|cohort|-1], h);
    }
  }

  lemma {:induction false} DecisionFrom(cohort: seq<Run>, d: Option<string>) returns (i: nat)
    requires d in Decisions(cohort)
    ensures i < |cohort| && cohort[i].decision == d
  {
    i := |cohort| - 1;
    if cohort[i].decision != d {
      i := DecisionFrom(cohort[..|cohort|-1], d);
    }
  }

  /** One hash, and one decision, exactly when any two runs agree on them. */
  lemma SetsMeaning(cohort: seq<Run>)
    requires cohort != [] && DecidedCount(cohort) == |cohort|
    ensures |Hashes(cohort)| > 1 <==>
            exists i, j :: 0 <= i < |cohort| && 0 <= j < |cohort| && cohort[i].intentHash != cohort[j].intentHash
    ensures |Decisions(cohort)| > 1 <==>
            exists i, j :: 0 <= i < |cohort| && 0 <= j < |cohort| && cohort[i].decision != cohort[j].decision
  {
    CountMeaning(cohort);
    forall i | 0 <= i < |cohort|
      ensures cohort[i].intentHash in Hashes(cohort) && cohort[i].decision in Decisions(cohort)
    {
      Collected(cohort, i);
    }
    if |Hashes(cohort)| > 1 {
      var h := MoreThanOne(Hashes(cohort), cohort[0].intentHash);
      var i := HashFrom(cohort, h);
    } else {
      AtMostOne(Hashes(cohort));
    }
    if |Decisions(cohort)| > 1 {
      var d := MoreThanOne(Decisions(cohort), cohort[0].decision);
      var i := DecisionFrom(cohort, d);
    } else {
      AtMostOne(Decisions(cohort));
    }
  }

  lemma CountInWords(cohort: seq<Run>)
    ensures DecidedCount(cohort) == |cohort| <==> forall x :: x in cohort ==> Decided(x)
    ensures DecidedCount(cohort) == 0 <==> forall x :: x in cohort ==> !Decided(x)
    ensures Wanted(cohort) <==> exists x :: x in cohort && x.expectIntent
  {
    CountMeaning(cohort);
    assert forall i :: 0 <= i < |cohort| ==> cohort[i] in cohort;
  }

  lemma SetsInWords(cohort: seq<Run>)
    requires cohort != [] && DecidedCount(cohort) == |cohort|
    ensures |Hashes(cohort)| <= 1 <==> OneIntent(cohort)
    ensures |Hashes(cohort)| <= 1 && |Decisions(cohort)| <= 1 <==> Agrees(cohort)
  {
    SetsMeaning(cohort);
    assert forall i :: 0 <= i < |cohort| ==> cohort[i] in cohort;
  }

  /** The verdict by counts and sets is the one whose meaning holds of the cohort. */
  lemma VerdictMeans(expected: multiset<string>, cohort: seq<Run>, v: Verdict)
    requires cohort != []
    ensures Means(expected, cohort, v) <==> v == VerdictOf(expected, cohort)
  {
    CountInWords(cohort);
    assert cohort[0] in cohort;
    if Routes(cohort) == expected && DecidedCount(cohort) == |cohort| {
      SetsInWords(cohort);
    } else if Routes(cohort) == expected {
      CountMeaning(cohort);
    }
  }

  lemma AtMostOne<T(!new)>(xs: set<T>)
    requires |xs| <= 1
    ensures forall x, y :: x in xs && y in xs ==> x == y
  {
    forall x, y | x in xs && y in xs ensures x == y {
      if x != y {
        assert {x, y} <= xs;
        SmallSubset({x, y}, xs);
      }
    }
  }

  lemma {:induction false} SmallSubset<T>(small: set<T>, big: set<T>)
    requires small <= big
    ensures |small| <= |big|
    decreases |small|
  {
    if x :| x in small {
      SmallSubset(small - {x}, big - {x});
    }
  }

  lemma MoreThanOne<T>(xs: set<T>, x: T) returns (y: T)
    requires |xs| > 1
    ensures y in xs && y != x
  {
    if xs <= {x} {
      SmallSubset(xs, {x});
    }
    y :| y in xs && y != x;
  }

  /** The cases, in the order in which they are first seen. */
  function Cases(runs: seq<Run>): seq<string> {
    if runs == [] then []
    else
      var before, c := Cases(runs[..|runs|-1]), runs[|runs|-1].caseId;
      if c in before then before else before + [c]
  }

  /** How many of some cases get a verdict. */
  function Count(verdict: string -> Verdict, cases: seq<string>, v: Verdict): nat {
    if cases == [] then 0
    else Count(verdict, cases[..|cases|-1], v) + if verdict(cases[|cases|-1]) == v then 1 else 0
  }

  function CaseVerdict(runs: seq<Run>, expected: multiset<string>): string -> Verdict {
    c => VerdictOf(expected, Cohort(runs, c))
  }

  function Tally(verdict: string -> Verdict, cases: seq<string>): Assessment {
    Assessment(
      Count(verdict, cases, Divergence), Count(verdict, cases, Incomplete), Count(verdict, cases, NotApplicable))
  }

  function Assess(runs: seq<Run>, expected: multiset<string>): Assessment {
    Tally(CaseVerdict(runs, expected), Cases(runs))
  }

  ghost function With(verdict: string -> Verdict, cases: seq<string>, v: Verdict): set<string> {
    set c | c in cases && verdict(c) == v
  }

  ghost function CasesWith(runs: seq<Run>, expected: multiset<string>, v: Verdict): set<string> {
    With(CaseVerdict(runs, expected), Cases(runs), v)
  }

  method Cohorts(runs: seq<Run>) returns (order: seq<string>, cohorts: map<string, seq<Run>>)
    ensures order == Cases(runs)
    ensures forall c :: c in order ==> c in cohorts && cohorts[c] == Cohort(runs, c) && cohorts[c] != []
  {
    order, cohorts := [], map[];
    for i := 0 to |runs|
      invariant order == Cases(runs[..i])
      invariant forall c :: c in order <==> c in cohorts
      invariant forall c :: c in order <==> Cohort(runs[..i], c) != []
      invariant forall c :: c in order ==> cohorts[c] == Cohort(runs[..i], c)
    {
      assert runs[..i+1][..i] == runs[..i];
      var run := runs[i];
      if run.caseId in cohorts {
        cohorts := cohorts[run.caseId := cohorts[run.caseId] + [run]];
      } else {
        order, cohorts := order + [run.caseId], cohorts[run.caseId := [run]];
      }
    }
    assert runs[..|runs|] == runs;
  }

  lemma {:induction false} CohortMembers(runs: seq<Run>, c: string)
    ensures forall x :: x in Cohort(runs, c) <==> x in runs && x.caseId == c
  {
    if runs != [] {
      CohortMembers(runs[..|runs|-1], c);
      assert runs == runs[..|runs|-1] + [runs[|runs|-1]];
    }
  }

  lemma {:induction false} CaseHasRuns(runs: seq<Run>, c: string)
    ensures c in Cases(runs) <==> Cohort(runs, c) != []
  {
    if runs != [] {
      CaseHasRuns(runs[..|runs|-1], c);
    }
  }

  predicate Distinct(cases: seq<string>) {
    cases == [] || (Distinct(cases[..|cases|-1]) && cases[|cases|-1] !in cases[..|cases|-1])
  }

  lemma {:induction false} CasesAreDistinct(runs: seq<Run>)
    ensures Distinct(Cases(runs))
  {
    if runs != [] {
      CasesAreDistinct(runs[..|runs|-1]);
      var cases := Cases(runs);
      assert cases != [] ==> cases == cases[..|cases|-1] + [cases[|cases|-1]];
    }
  }

  method AssessRouteInvariance(runs: seq<Run>, expected: seq<string>) returns (a: Assessment)
    ensures a == Assess(runs, multiset(expected))
  {
    var order, cohorts := Cohorts(runs);
    a := TallyCohorts(order, cohorts, multiset(expected), CaseVerdict(runs, multiset(expected)));
  }

  method TallyCohorts(
    order: seq<string>, cohorts: map<string, seq<Run>>, expected: multiset<string>, ghost verdict: string -> Verdict)
    returns (a: Assessment)
    requires forall c :: c in order ==>
               c in cohorts && cohorts[c] != [] && verdict(c) == VerdictOf(expected, cohorts[c])
    ensures a == Tally(verdict, order)
  {
    a := Assessment(0, 0, 0);
    for i := 0 to |order|
      invariant a == Tally(verdict, order[..i])
    {
      assert order[..i+1][..i] == order[..i];
      assert order[i] in order;
      var v := Compare(expected, cohorts[order[i]]);
      match v
      case Divergence => a := a.(divergence := a.divergence + 1);
      case Incomplete => a := a.(incomplete := a.incomplete + 1);
      case NotApplicable => a := a.(notApplicable := a.notApplicable + 1);
      case Agreement =>
    }
    assert order[..|order|] == order;
  }

  lemma WithOneMore(verdict: string -> Verdict, before: seq<string>, last: string, v: Verdict)
    requires last !in before
    ensures |With(verdict, before + [last], v)| == |With(verdict, before, v)| + if verdict(last) == v then 1 else 0
  {
    if verdict(last) == v {
      assert With(verdict, before + [last], v) == With(verdict, before, v) + {last};
    } else {
      assert With(verdict, before + [last], v) == With(verdict, before, v);
    }
  }

  lemma {:induction false} CountIsCardinality(verdict: string -> Verdict, cases: seq<string>, v: Verdict)
    requires Distinct(cases)
    ensures Count(verdict, cases, v) == |With(verdict, cases, v)|
  {
    if cases != [] {
      var before, last := cases[..|cases|-1], cases[|cases|-1];
      CountIsCardinality(verdict, before, v);
      WithOneMore(verdict, before, last, v);
      assert cases == before + [last];
    }
  }

  /** The counts are exactly the numbers of cases with each verdict. */
  lemma AssessCounts(runs: seq<Run>, expected: multiset<string>)
    ensures Assess(runs, expected) ==
            Assessment(
              |CasesWith(runs, expected, Divergence)|, |CasesWith(runs, expected, Incomplete)|,
              |CasesWith(runs, expected, NotApplicable)|)
  {
    var verdict := CaseVerdict(runs, expected);
    CasesAreDistinct(runs);
    CountIsCardinality(verdict, Cases(runs), Divergence);
    CountIsCardinality(verdict, Cases(runs), Incomplete);
    CountIsCardinality(verdict, Cases(runs), NotApplicable);
  }

  // ---- Order of the runs ----

  lemma {:induction false} CohortCount(runs: seq<Run>, c: string, x: Run)
    ensures multiset(Cohort(runs, c))[x] == if x.caseId == c then multiset(runs)[x] else 0
  {
    if runs != [] {
      CohortCount(runs[..|runs|-1], c, x);
      assert runs == runs[..|runs|-1] + [runs[|runs|-1]];
    }
  }

  lemma CohortPermutes(runs: seq<Run>, runs': seq<Run>, c: string)
    requires multiset(runs) == multiset(runs')
    ensures multiset(Cohort(runs, c)) == multiset(Cohort(runs', c))
  {
    forall x ensures multiset(Cohort(runs, c))[x] == multiset(Cohort(runs', c))[x] {
      CohortCount(runs, c, x);
      CohortCount(runs', c, x);
    }
  }

  function Without(xs: seq<Run>, j: nat): seq<Run>
    requires j < |xs|
  {
    xs[..j] + xs[j+1..]
  }

  lemma RoutesWithout(xs: seq<Run>, j: nat)
    requires j < |xs|
    ensures Routes(xs) == Routes(Without(xs, j)) + multiset{xs[j].modelRoute}
  {
    var before, after := RouteList(xs[..j]), RouteList(xs[j+1..]);
    assert RouteList(xs) == before + [xs[j].modelRoute] + after;
    assert RouteList(Without(xs, j)) == before + after;
  }

  lemma MultisetWithout(xs: seq<Run>, j: nat)
    requires j < |xs|
    ensures multiset(Without(xs, j)) == multiset(xs) - multiset{xs[j]}
  {
    assert xs == xs[..j] + [xs[j]] + xs[j+1..];
  }

  lemma {:induction false} RoutesPermute(xs: seq<Run>, ys: seq<Run>)
    requires multiset(xs) == multiset(ys)
    ensures Routes(xs) == Routes(ys)
    decreases |xs|
  {
    assert |multiset(xs)| == |xs| && |multiset(ys)| == |ys|;
    if xs != [] {
      var last := |xs| - 1;
      assert xs[last] in multiset(ys);
      var j :| 0 <= j < |ys| && ys[j] == xs[last];
      MultisetWithout(xs, last);
      MultisetWithout(ys, j);
      RoutesPermute(Without(xs, last), Without(ys, j));
      RoutesWithout(xs, last);
      RoutesWithout(ys, j);
    }
  }

  lemma MeansPermutes(expected: multiset<string>, xs: seq<Run>, ys: seq<Run>, v: Verdict)
    requires multiset(xs) == multiset(ys) && Means(expected, xs, v)
    ensures Means(expected, ys, v)
  {
    RoutesPermute(xs, ys);
    assert forall x :: x in xs <==> x in multiset(xs);
    assert forall x :: x in ys <==> x in multiset(ys);
    assert forall x :: x in xs <==> x in ys;
  }

  lemma SameCases(runs: seq<Run>, runs': seq<Run>, c: string)
    requires multiset(runs) == multiset(runs')
    ensures c in Cases(runs) <==> c in Cases(runs')
  {
    CaseHasRuns(runs, c);
    CaseHasRuns(runs', c);
    CohortPermutes(runs, runs', c);
    assert |multiset(Cohort(runs, c))| == |multiset(Cohort(runs', c))|;
  }

  lemma VerdictIgnoresOrder(runs: seq<Run>, runs': seq<Run>, expected: multiset<string>, c: string)
    requires multiset(runs) == multiset(runs') && c in Cases(runs)
    ensures VerdictOf(expected, Cohort(runs, c)) == VerdictOf(expected, Cohort(runs', c))
  {
    CaseHasRuns(runs, c);
    SameCases(runs, runs', c);
    CaseHasRuns(runs', c);
    CohortPermutes(runs, runs', c);
    var v := VerdictOf(expected, Cohort(runs, c));
    VerdictMeans(expected, Cohort(runs, c), v);
    VerdictMeans(expected, Cohort(runs', c), v);
    MeansPermutes(expected, Cohort(runs, c), Cohort(runs', c), v);
  }

  lemma CasesWithIgnoresOrder(runs: seq<Run>, runs': seq<Run>, expected: multiset<string>, v: Verdict)
    requires multiset(runs) == multiset(runs')
    ensures CasesWith(runs, expected, v) == CasesWith(runs', expected, v)
  {
    forall c ensures c in CasesWith(runs, expected, v) <==> c in CasesWith(runs', expected, v) {
      SameCases(runs, runs', c);
      if c in Cases(runs) {
        VerdictIgnoresOrder(runs, runs', expected, c);
      }
    }
  }

  /** The assessment does not depend on the order in which runs are reported. */
  lemma AssessmentIgnoresOrder(runs: seq<Run>, runs': seq<Run>, expected: multiset<string>)
    requires multiset(runs) == multiset(runs')
    ensures Assess(runs, expected) == Assess(runs', expected)
  {
    AssessCounts(runs, expected);
    AssessCounts(runs', expected);
    CasesWithIgnoresOrder(runs, runs', expected, Divergence);
    CasesWithIgnoresOrder(runs, runs', expected, Incomplete);
    CasesWithIgnoresOrder(runs, runs', expected, NotApplicable);
  }
}
