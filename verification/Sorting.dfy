/** Sorting by a two-part key, as the source sorts by time or kind and then by digest. A
    digest has fixed length, so its order is the order of the number it spells. */
module Sorting {

  datatype Key = Key(rank: real, id: nat)

  predicate Less(a: Key, b: Key) {
    a.rank < b.rank || (a.rank == b.rank && a.id < b.id)
  }

  ghost predicate Ascending<T>(key: T -> Key, xs: seq<T>) {
    forall i, j :: 0 <= i < j < |xs| ==> Less(key(xs[i]), key(xs[j]))
  }

  ghost function Elements<T>(xs: seq<T>): set<T> {
    set x | x in xs
  }

  /** No two elements have the same key. */
  ghost predicate DistinctKeys<T(!new)>(key: T -> Key, xs: set<T>) {
    forall x, y :: x in xs && y in xs && key(x) == key(y) ==> x == y
  }

  /** Puts an element at its place in an ascending sequence. */
  function Insert<T(!new)>(key: T -> Key, x: T, xs: seq<T>): (r: seq<T>)
    ensures |r| == |xs| + 1 && forall y :: y in r <==> y == x || y in xs
  {
    if xs == [] || Less(key(x), key(xs[0])) then [x] + xs else [xs[0]] + Insert(key, x, xs[1..])
  }

  lemma {:induction false} InsertAscends<T(!new)>(key: T -> Key, x: T, xs: seq<T>)
    requires Ascending(key, xs) && forall y :: y in xs ==> key(y) != key(x)
    ensures Ascending(key, Insert(key, x, xs))
  {
    if xs != [] && !Less(key(x), key(xs[0])) {
      InsertAscends(key, x, xs[1..]);
      var rest := Insert(key, x, xs[1..]);
      forall j | 0 <= j < |rest| ensures Less(key(xs[0]), key(rest[j])) {
        assert rest[j] in rest;
        if rest[j] != x {
          assert rest[j] in xs[1..];
        }
      }
    }
  }

  lemma InsertNew<T(!new)>(key: T -> Key, x: T, xs: seq<T>)
    requires Ascending(key, xs) && forall y :: y in Elements(xs) ==> key(y) != key(x)
    ensures Ascending(key, Insert(key, x, xs)) && Elements(Insert(key, x, xs)) == Elements(xs) + {x}
  {
    assert forall y :: y in xs ==> y in Elements(xs);
    InsertAscends(key, x, xs);
  }

  function Sort<T(!new)>(key: T -> Key, xs: seq<T>): (r: seq<T>)
    ensures |r| == |xs| && forall y :: y in r <==> y in xs
  {
    if xs == [] then [] else Insert(key, xs[0], Sort(key, xs[1..]))
  }

  ghost predicate NoDuplicates<T>(xs: seq<T>) {
    forall i, j :: 0 <= i < j < |xs| ==> xs[i] != xs[j]
  }

  lemma {:induction false} SortAscends<T(!new)>(key: T -> Key, xs: seq<T>)
    requires NoDuplicates(xs) && DistinctKeys(key, Elements(xs))
    ensures Ascending(key, Sort(key, xs))
  {
    if xs != [] {
      assert forall y :: y in xs[1..] ==> y in Elements(xs) && y != xs[0];
      assert Elements(xs[1..]) <= Elements(xs);
      SortAscends(key, xs[1..]);
      assert xs[0] in Elements(xs);
      InsertAscends(key, xs[0], Sort(key, xs[1..]));
    }
  }

  /** An ascending sequence is determined by its elements. */
  lemma {:induction false} AscendingUnique<T(!new)>(key: T -> Key, xs: seq<T>, ys: seq<T>)
    requires Ascending(key, xs) && Ascending(key, ys) && Elements(xs) == Elements(ys)
    ensures xs == ys
  {
    NoElements(xs);
    NoElements(ys);
    if xs != [] {
      SameFirst(key, xs, ys);
      assert Elements(xs[1..]) == Elements(xs) - {xs[0]};
      assert Elements(ys[1..]) == Elements(ys) - {ys[0]};
      AscendingUnique(key, xs[1..], ys[1..]);
      assert xs == [xs[0]] + xs[1..] && ys == [ys[0]] + ys[1..];
    }
  }

  lemma NoElements<T>(xs: seq<T>)
    ensures Elements(xs) == {} <==> xs == []
  {
    if xs != [] {
      assert xs[0] in Elements(xs);
    }
  }

  lemma SameFirst<T>(key: T -> Key, xs: seq<T>, ys: seq<T>)
    requires Ascending(key, xs) && Ascending(key, ys) && Elements(xs) == Elements(ys) && xs != [] && ys != []
    ensures xs[0] == ys[0]
  {
    assert xs[0] in Elements(ys) && ys[0] in Elements(xs);
  }

  lemma AscendingNoDuplicates<T>(key: T -> Key, xs: seq<T>)
    requires Ascending(key, xs)
    ensures NoDuplicates(xs)
  {
  }

  lemma SortKeepsElements<T(!new)>(key: T -> Key, xs: seq<T>)
    ensures Elements(Sort(key, xs)) == Elements(xs)
  {
    assert forall y :: y in Sort(key, xs) <==> y in Elements(xs);
  }

  /** Two orders of the same elements sort to the same sequence. */
  lemma SortDependsOnElements<T(!new)>(key: T -> Key, xs: seq<T>, ys: seq<T>)
    requires NoDuplicates(xs) && NoDuplicates(ys) && Elements(xs) == Elements(ys)
    requires DistinctKeys(key, Elements(xs))
    ensures Sort(key, xs) == Sort(key, ys)
  {
    SortAscends(key, xs);
    SortAscends(key, ys);
    SortKeepsElements(key, xs);
    SortKeepsElements(key, ys);
    AscendingUnique(key, Sort(key, xs), Sort(key, ys));
  }
}
