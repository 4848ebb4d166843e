/** Exactly when the order of appends shows in the insights: not every clash of idempotency
    keys does, only one that changes a group of at least the threshold in the window. */
module SnapshotOrder {
  import opened Contracts
  import opened Sorting
  import opened LearningStore
  import opened Insights

  /** One genuine signal for every idempotency key. */
  ghost predicate Choice(d: Digests, ss: seq<Signal>, chosen: set<Signal>) {
    && (forall s :: s in chosen ==> s in ss && Genuine(d, s))
    && (forall s :: s in ss && Genuine(d, s) ==> exists t :: t in chosen && t.key == s.key)
    && (forall s, t :: s in chosen && t in chosen && s.key == t.key ==> s == t)
  }

  ghost function Stored(l: Learned): set<Signal> {
    set id | id in l.signals :: l.signals[id]
  }

  // ---- What the append orders can leave behind ----

  lemma StoredByKey(d: Digests, l: Learned, s: Signal)
    requires Valid(d, l)
    ensures s in Stored(l) <==> s.key in l.signalsByKey && l.signalsByKey[s.key] == s
  {
  }

  lemma SameNames(d: Digests, ss: seq<Signal>, p: seq<Signal>)
    requires multiset(p) == multiset(ss) && OneSignalPerName(d, ss)
    ensures OneSignalPerName(d, p) && forall s :: s in p <==> s in ss
  {
    SameElements(p, ss);
    assert forall s :: s in p <==> s in Elements(p);
    assert forall s :: s in ss <==> s in Elements(ss);
  }

  /** Every order of appends leaves one signal for every key. */
  lemma StoreIsChoice(d: Digests, ss: seq<Signal>, p: seq<Signal>)
    requires multiset(p) == multiset(ss) && OneSignalPerName(d, ss)
    ensures Choice(d, ss, Stored(AppendAll(d, p)))
  {
    var l := AppendAll(d, p);
    SameNames(d, ss, p);
    StoredWasAppended(d, p);
    forall s | s in ss && Genuine(d, s) ensures exists t :: t in Stored(l) && t.key == s.key {
      FirstAppendWins(d, p, s.key);
      StoredByKey(d, l, l.signalsByKey[s.key]);
    }
    forall s, t | s in Stored(l) && t in Stored(l) && s.key == t.key ensures s == t {
      StoredByKey(d, l, s);
      StoredByKey(d, l, t);
    }
  }

  ghost function Keep(ss: seq<Signal>, chosen: set<Signal>, wanted: bool): seq<Signal> {
    if ss == [] then []
    else
      var before, last := Keep(ss[..|ss|-1], chosen, wanted), ss[|ss|-1];
      if (last in chosen) == wanted then before + [last] else before
  }

  lemma {:induction false} KeepSplits(ss: seq<Signal>, chosen: set<Signal>)
    ensures multiset(Keep(ss, chosen, true) + Keep(ss, chosen, false)) == multiset(ss)
  {
    if ss != [] {
      var before, last := ss[..|ss|-1], ss[|ss|-1];
      KeepSplits(before, chosen);
      assert ss == before + [last];
    }
  }

  lemma {:induction false} KeepMembers(ss: seq<Signal>, chosen: set<Signal>, s: Signal)
    ensures s in Keep(ss, chosen, true) <==> s in ss && s in chosen
  {
    if ss != [] {
      KeepMembers(ss[..|ss|-1], chosen, s);
      assert ss == ss[..|ss|-1] + [ss[|ss|-1]];
    }
  }

  lemma {:induction false} FirstStaysFirst(d: Digests, front: seq<Signal>, back: seq<Signal>, key: string)
    requires FirstWith(d, front, key).Some?
    ensures FirstWith(d, front + back, key) == FirstWith(d, front, key)
  {
    if back == [] {
      assert front + back == front;
    } else {
      FirstStaysFirst(d, front, back[..|back|-1], key);
      assert (front + back)[..|front + back|-1] == front + back[..|back|-1];
    }
  }

  /** Every choice is left behind by some order of appends: the chosen signals first. */
  lemma ChoiceIsStored(d: Digests, ss: seq<Signal>, chosen: set<Signal>) returns (p: seq<Signal>)
    requires OneSignalPerName(d, ss) && Choice(d, ss, chosen)
    ensures multiset(p) == multiset(ss) && Stored(AppendAll(d, p)) == chosen
  {
    var front := Keep(ss, chosen, true);
    p := front + Keep(ss, chosen, false);
    KeepSplits(ss, chosen);
    SameNames(d, ss, p);
    StoreIsChoice(d, ss, p);
    StoredWasAppended(d, p);
    forall t | t in chosen ensures t in Stored(AppendAll(d, p)) {
      ChosenIsFirst(d, ss, chosen, t);
      FirstStaysFirst(d, front, Keep(ss, chosen, false), t.key);
      FirstAppendWins(d, p, t.key);
      StoredByKey(d, AppendAll(d, p), t);
    }
    forall s | s in Stored(AppendAll(d, p)) ensures s in chosen {
      var t :| t in chosen && t.key == s.key;
    }
  }

  lemma ChosenIsFirst(d: Digests, ss: seq<Signal>, chosen: set<Signal>, t: Signal)
    requires Choice(d, ss, chosen) && t in chosen
    ensures FirstWith(d, Keep(ss, chosen, true), t.key) == Some(t)
  {
    var first := FirstWith(d, Keep(ss, chosen, true), t.key);
    KeepMembers(ss, chosen, t);
    if first.Some? {
      KeepMembers(ss, chosen, first.value);
    }
  }

  // ---- When two listings give the same snapshot ----

  /** The same groups reach the threshold, with the same signals. */
  ghost predicate SameBigGroups(e: Engine, xs: seq<Signal>, ys: seq<Signal>) {
    && BigGroups(e, xs) == BigGroups(e, ys)
    && forall k :: k in BigGroups(e, xs) ==> Group(e, xs, k) == Group(e, ys, k)
  }

  lemma SameGroupsSameSnapshot(e: Engine, xs: seq<Signal>, ys: seq<Signal>, x: Snapshot, y: Snapshot)
    requires Exact(e, xs, x) && Exact(e, ys, y) && SameBigGroups(e, xs, ys)
    ensures x == y
  {
    var keys := BigGroups(e, xs);
    forall k | k in keys
      ensures CandidateOf(e, xs, k) == CandidateOf(e, ys, k) && FindingAbout(e, xs, k) == FindingAbout(e, ys, k)
    {
      assert Group(e, xs, k) == Group(e, ys, k);
    }
    assert CandidateSet(e, xs, keys) == CandidateSet(e, ys, keys);
    assert FindingSet(e, xs, keys) == FindingSet(e, ys, keys);
    AscendingUnique(CandidateKey, x.candidates, y.candidates);
    AscendingUnique(FindingKey, x.findings, y.findings);
  }

  /** Ids name the same signals in both listings. */
  ghost predicate SharedNames(xs: seq<Signal>, ys: seq<Signal>) {
    forall s, t :: s in xs && t in ys && s.id == t.id ==> s == t
  }

  lemma SameIdsSameGroup(e: Engine, xs: seq<Signal>, ys: seq<Signal>, k: GroupKey)
    requires Listing(xs) && Listing(ys) && SharedNames(xs, ys)
    requires SortedIds(Group(e, xs, k)) == SortedIds(Group(e, ys, k))
    ensures Group(e, xs, k) == Group(e, ys, k)
  {
    var g, h := Group(e, xs, k), Group(e, ys, k);
    GroupMembers(e, xs, k);
    GroupMembers(e, ys, k);
    forall s ensures s in g <==> s in h {
      IdsOf(g, s.id);
      IdsOf(h, s.id);
    }
    assert Elements(g) == Elements(h);
    GroupAscends(e, xs, k);
    GroupAscends(e, ys, k);
    AscendingUnique(SignalKey, g, h);
  }

  lemma FoundInBoth(e: Engine, xs: seq<Signal>, ys: seq<Signal>, x: Snapshot, y: Snapshot, k: GroupKey)
    requires Listing(xs) && Listing(ys) && SharedNames(xs, ys) && Exact(e, xs, x) && Exact(e, ys, y)
    requires x.findings == y.findings && k in BigGroups(e, xs)
    ensures k in BigGroups(e, ys) && Group(e, xs, k) == Group(e, ys, k)
  {
    BigGroupKeys(e, xs, k);
    var f := FindingAbout(e, xs, k).value;
    assert f in FindingSet(e, xs, BigGroups(e, xs));
    assert f in Elements(x.findings);
    assert f in FindingSet(e, ys, BigGroups(e, ys));
    var k' :| k' in BigGroups(e, ys) && FindingAbout(e, ys, k') == Some(f);
    assert k' == k;
    SameIdsSameGroup(e, xs, ys, k);
  }

  /** Two listings give the same snapshot exactly if the same groups reach the threshold with
      the same signals. */
  lemma SameSnapshotExactly(e: Engine, xs: seq<Signal>, ys: seq<Signal>, x: Snapshot, y: Snapshot)
    requires Listing(xs) && Listing(ys) && SharedNames(xs, ys) && Exact(e, xs, x) && Exact(e, ys, y)
    ensures x == y <==> SameBigGroups(e, xs, ys)
  {
    if x == y {
      forall k ensures k in BigGroups(e, xs) <==> k in BigGroups(e, ys)
        ensures k in BigGroups(e, xs) ==> Group(e, xs, k) == Group(e, ys, k)
      {
        if k in BigGroups(e, xs) {
          FoundInBoth(e, xs, ys, x, y, k);
        } else if k in BigGroups(e, ys) {
          FoundInBoth(e, ys, xs, y, x, k);
        }
      }
    }
    if SameBigGroups(e, xs, ys) {
      SameGroupsSameSnapshot(e, xs, ys, x, y);
    }
  }

  /** Every listing without collisions has its snapshot. */
  lemma {:induction false} CoverGroups(e: Engine, xs: seq<Signal>, keys: set<GroupKey>) returns (snap: Snapshot)
    requires Listing(xs) && Collisionless(e, xs) && keys <= BigGroups(e, xs)
    ensures Covers(e, xs, keys, snap)
    decreases |keys|
  {
    snap := Snapshot([], []);
    if keys == {} {
      assert CandidateSet(e, xs, keys) == {} && FindingSet(e, xs, keys) == {};
    } else {
      var k :| k in keys;
      snap := CoverGroups(e, xs, keys - {k});
      snap := CoverOneMore(e, xs, keys - {k}, k, snap);
      assert keys - {k} + {k} == keys;
    }
  }

  lemma CoverOneMore(e: Engine, xs: seq<Signal>, keys: set<GroupKey>, k: GroupKey, snap: Snapshot)
    returns (snap': Snapshot)
    requires Listing(xs) && Collisionless(e, xs) && k !in keys && keys + {k} <= BigGroups(e, xs)
    requires Covers(e, xs, keys, snap)
    ensures Covers(e, xs, keys + {k}, snap')
  {
    BigGroupKeys(e, xs, k);
    forall x | x in keys ensures |Group(e, xs, x)| >= Threshold(e) {
      BigGroupKeys(e, xs, x);
    }
    OneMoreGroup(e, xs, keys, k);
    CandidatesGrow(e, xs, keys, k);
    FindingsGrow(e, xs, keys, k);
    var f := FindingAbout(e, xs, k).value;
    InsertNew(FindingKey, f, snap.findings);
    var candidates := snap.candidates;
    if k.HumanGroup? {
      InsertNew(CandidateKey, CandidateOf(e, xs, k).value, snap.candidates);
      candidates := Insert(CandidateKey, CandidateOf(e, xs, k).value, snap.candidates);
    }
    snap' := Snapshot(Insert(FindingKey, f, snap.findings), candidates);
  }

  // ---- Exactly ----

  /** The window over a choice, as the store would list it. */
  ghost predicate WindowOf(e: Engine, chosen: set<Signal>, agent: Option<string>, now: real, xs: seq<Signal>) {
    && Ascending(SignalKey, xs)
    && Elements(xs) == set s | s in chosen && InBounds(s, agent, Some(WindowStart(e, now)), Some(now))
  }

  lemma WindowOfStore(e: Engine, l: Learned, agent: Option<string>, now: real, xs: seq<Signal>)
    ensures InWindow(e, l, agent, now, xs) <==> WindowOf(e, Stored(l), agent, now, xs)
  {
    assert Selected(l, agent, Some(WindowStart(e, now)), Some(now))
        == set s | s in Stored(l) && InBounds(s, agent, Some(WindowStart(e, now)), Some(now));
  }

  /** What an analysis finds after these appends. */
  ghost predicate Yields(d: Digests, e: Engine, p: seq<Signal>, agent: Option<string>, now: real, x: Snapshot) {
    exists xs :: InWindow(e, AppendAll(d, p), agent, now, xs) && Exact(e, xs, x)
  }

  /** All append orders of the signals yield the same snapshot. */
  ghost predicate SnapshotIndependent(d: Digests, e: Engine, ss: seq<Signal>, agent: Option<string>, now: real) {
    forall p, q, x, y ::
      (&& multiset(p) == multiset(ss) && multiset(q) == multiset(ss)
       && Yields(d, e, p, agent, now, x) && Yields(d, e, q, agent, now, y)) ==> x == y
  }

  /** Whichever signal of each key is kept, the same groups reach the threshold in the window,
      with the same signals. */
  ghost predicate ChoicesAgree(d: Digests, e: Engine, ss: seq<Signal>, agent: Option<string>, now: real) {
    forall c, c', xs, ys ::
      Choice(d, ss, c) && Choice(d, ss, c') && WindowOf(e, c, agent, now, xs) && WindowOf(e, c', agent, now, ys) ==>
        SameBigGroups(e, xs, ys)
  }

  /** No window over a choice has a digest collision among the groups it reports. */
  ghost predicate ChoicesCollisionless(d: Digests, e: Engine, ss: seq<Signal>, agent: Option<string>, now: real) {
    forall c, xs :: Choice(d, ss, c) && WindowOf(e, c, agent, now, xs) ==> Collisionless(e, xs)
  }

  lemma ChoiceWindowIsListing(
    d: Digests, e: Engine, ss: seq<Signal>, c: set<Signal>, agent: Option<string>, now: real, xs: seq<Signal>)
    requires OneSignalPerName(d, ss) && Choice(d, ss, c) && WindowOf(e, c, agent, now, xs)
    ensures Listing(xs) && forall s :: s in xs ==> s in ss && Genuine(d, s)
  {
    forall s | s in xs ensures s in ss && Genuine(d, s) {
      assert s in Elements(xs);
    }
  }

  lemma OrdersAgree(
    d: Digests, e: Engine, ss: seq<Signal>, agent: Option<string>, now: real, p: seq<Signal>, q: seq<Signal>,
    x: Snapshot, y: Snapshot)
    requires OneSignalPerName(d, ss) && ChoicesAgree(d, e, ss, agent, now)
    requires multiset(p) == multiset(ss) && multiset(q) == multiset(ss)
    requires Yields(d, e, p, agent, now, x) && Yields(d, e, q, agent, now, y)
    ensures x == y
  {
    var xs :| InWindow(e, AppendAll(d, p), agent, now, xs) && Exact(e, xs, x);
    var ys :| InWindow(e, AppendAll(d, q), agent, now, ys) && Exact(e, ys, y);
    var c, c' := Stored(AppendAll(d, p)), Stored(AppendAll(d, q));
    StoreIsChoice(d, ss, p);
    StoreIsChoice(d, ss, q);
    WindowOfStore(e, AppendAll(d, p), agent, now, xs);
    WindowOfStore(e, AppendAll(d, q), agent, now, ys);
    ChoiceWindowIsListing(d, e, ss, c, agent, now, xs);
    ChoiceWindowIsListing(d, e, ss, c', agent, now, ys);
    assert SameBigGroups(e, xs, ys);
    SameSnapshotExactly(e, xs, ys, x, y);
  }

  lemma ChoiceYields(
    d: Digests, e: Engine, ss: seq<Signal>, agent: Option<string>, now: real, c: set<Signal>, xs: seq<Signal>)
    returns (p: seq<Signal>, x: Snapshot)
    requires OneSignalPerName(d, ss) && Choice(d, ss, c) && WindowOf(e, c, agent, now, xs)
    requires ChoicesCollisionless(d, e, ss, agent, now)
    ensures multiset(p) == multiset(ss) && Exact(e, xs, x) && Yields(d, e, p, agent, now, x)
  {
    p := ChoiceIsStored(d, ss, c);
    WindowOfStore(e, AppendAll(d, p), agent, now, xs);
    ChoiceWindowIsListing(d, e, ss, c, agent, now, xs);
    x := CoverGroups(e, xs, BigGroups(e, xs));
  }

  lemma ChoicesMustAgree(
    d: Digests, e: Engine, ss: seq<Signal>, agent: Option<string>, now: real,
    c: set<Signal>, c': set<Signal>, xs: seq<Signal>, ys: seq<Signal>)
    requires OneSignalPerName(d, ss) && ChoicesCollisionless(d, e, ss, agent, now)
    requires SnapshotIndependent(d, e, ss, agent, now)
    requires Choice(d, ss, c) && Choice(d, ss, c')
    requires WindowOf(e, c, agent, now, xs) && WindowOf(e, c', agent, now, ys)
    ensures SameBigGroups(e, xs, ys)
  {
    var p, x := ChoiceYields(d, e, ss, agent, now, c, xs);
    var q, y := ChoiceYields(d, e, ss, agent, now, c', ys);
    assert x == y;
    ChoiceWindowIsListing(d, e, ss, c, agent, now, xs);
    ChoiceWindowIsListing(d, e, ss, c', agent, now, ys);
    SameSnapshotExactly(e, xs, ys, x, y);
  }

  /** All append orders yield the same findings and candidates exactly if, whichever signal of
      each idempotency key is kept, the same groups reach the threshold in the window with the
      same signals. */
  lemma SnapshotOrderExactly(d: Digests, e: Engine, ss: seq<Signal>, agent: Option<string>, now: real)
    requires OneSignalPerName(d, ss) && ChoicesCollisionless(d, e, ss, agent, now)
    ensures SnapshotIndependent(d, e, ss, agent, now) <==> ChoicesAgree(d, e, ss, agent, now)
  {
    if ChoicesAgree(d, e, ss, agent, now) {
      forall p, q, x, y |
        multiset(p) == multiset(ss) && multiset(q) == multiset(ss)
        && Yields(d, e, p, agent, now, x) && Yields(d, e, q, agent, now, y)
        ensures x == y
      {
        OrdersAgree(d, e, ss, agent, now, p, q, x, y);
      }
    }
    if SnapshotIndependent(d, e, ss, agent, now) {
      forall c, c', xs, ys |
        Choice(d, ss, c) && Choice(d, ss, c') && WindowOf(e, c, agent, now, xs) && WindowOf(e, c', agent, now, ys)
        ensures SameBigGroups(e, xs, ys)
      {
        ChoicesMustAgree(d, e, ss, agent, now, c, c', xs, ys);
      }
    }
  }
}
