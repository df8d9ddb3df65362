/** List helpers shared by the services: the `filter(e => e !== x)` both
    stores use to drop entries, and duplicate-freedom. */
module Sequences {

  /** `xs.filter(e => e !== removed)`: every occurrence dropped, the rest kept in order. */
  function RemoveAll<T(==)>(xs: seq<T>, removed: T): seq<T>
  {
    if xs == [] then []
    else (if xs[0] == removed then [] else [xs[0]]) + RemoveAll(xs[1..], removed)
  }

  predicate NoDuplicates<T(==)>(xs: seq<T>)
  {
    forall i, j :: 0 <= i < j < |xs| ==> xs[i] != xs[j]
  }

  /** What is left is exactly what was there, less the removed entry. */
  lemma {:induction false} RemoveAllMembers<T>(xs: seq<T>, removed: T, y: T)
    ensures y in RemoveAll(xs, removed) <==> y in xs && y != removed
  {
    if xs != [] {
      RemoveAllMembers(xs[1..], removed, y);
      assert xs == [xs[0]] + xs[1..];
    }
  }

  /** Filtering distributes over concatenation: the kept entries stay in order. */
  lemma {:induction false} RemoveAllAppend<T>(xs: seq<T>, ys: seq<T>, removed: T)
    ensures RemoveAll(xs + ys, removed) == RemoveAll(xs, removed) + RemoveAll(ys, removed)
  {
    if xs == [] {
      assert xs + ys == ys;
    } else {
      assert (xs + ys)[1..] == xs[1..] + ys;
      RemoveAllAppend(xs[1..], ys, removed);
    }
  }

  /** Filtering out an entry that is not listed changes nothing. */
  lemma {:induction false} RemoveAllAbsent<T>(xs: seq<T>, removed: T)
    requires removed !in xs
    ensures RemoveAll(xs, removed) == xs
  {
    if xs != [] {
      RemoveAllAbsent(xs[1..], removed);
      assert xs == [xs[0]] + xs[1..];
    }
  }

  /** Filtering keeps a list free of duplicates. */
  lemma {:induction false} RemoveAllNoDuplicates<T>(xs: seq<T>, removed: T)
    requires NoDuplicates(xs)
    ensures NoDuplicates(RemoveAll(xs, removed))
  {
    if xs != [] {
      RemoveAllNoDuplicates(xs[1..], removed);
      RemoveAllMembers(xs[1..], removed, xs[0]);
      var rest := RemoveAll(xs[1..], removed);
      assert xs[0] !in rest;
      if xs[0] != removed {
        assert RemoveAll(xs, removed) == [xs[0]] + rest;
        forall i, j | 0 <= i < j < |[xs[0]] + rest|
          ensures ([xs[0]] + rest)[i] != ([xs[0]] + rest)[j]
        {
          if i == 0 {
            assert ([xs[0]] + rest)[j] == rest[j - 1];
          }
        }
      }
    }
  }
}
