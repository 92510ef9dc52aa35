/**
 * `Array.prototype.sort((a, b) => key(b) - key(a))`: the engine's sort is
 * stable, so its result is fixed: non-increasing keys, and elements with
 * equal keys in their original order. `SortDesc` is that result, built by
 * insertion.
 */
module Sorting {
  import opened Lists

  predicate SortedDesc<T>(s: seq<T>, key: T -> real)
  {
    forall i, j :: 0 <= i < j < |s| ==> key(s[i]) >= key(s[j])
  }

  /** `x` placed right after the last element whose key is at least its own. */
  function Insert<T>(r: seq<T>, x: T, key: T -> real): (o: seq<T>)
    ensures |o| == |r| + 1
  {
    if r == [] then [x]
    else if key(r[|r| - 1]) >= key(x) then r + [x]
    else Insert(r[..|r| - 1], x, key) + [r[|r| - 1]]
  }

  function SortDesc<T>(s: seq<T>, key: T -> real): (r: seq<T>)
    ensures |r| == |s|
  {
    if s == [] then [] else Insert(SortDesc(s[..|s| - 1], key), s[|s| - 1], key)
  }

  lemma {:induction false} InsertPermutes<T>(r: seq<T>, x: T, key: T -> real)
    ensures multiset(Insert(r, x, key)) == multiset(r) + multiset{x}
  {
    if r != [] && key(r[|r| - 1]) < key(x) {
      InsertPermutes(r[..|r| - 1], x, key);
      assert r == r[..|r| - 1] + [r[|r| - 1]];
    }
  }

  lemma {:induction false} InsertSorted<T>(r: seq<T>, x: T, key: T -> real)
    requires SortedDesc(r, key)
    ensures SortedDesc(Insert(r, x, key), key)
  {
    if r != [] && key(r[|r| - 1]) < key(x) {
      var front, last := r[..|r| - 1], r[|r| - 1];
      InsertSorted(front, x, key);
      InsertPermutes(front, x, key);
      var ins := Insert(front, x, key);
      forall i | 0 <= i < |ins|
        ensures key(ins[i]) >= key(last)
      {
        assert ins[i] in multiset(ins);
        if ins[i] != x {
          assert ins[i] in multiset(front);
          var j :| 0 <= j < |front| && front[j] == ins[i];
          assert r[j] == front[j];
        }
      }
    }
  }

  /** A selection of mutually tied elements: whatever `p` keeps has one key. */
  ghost predicate Tied<T(!new)>(p: T -> bool, key: T -> real)
  {
    forall a, b :: p(a) && p(b) ==> key(a) == key(b)
  }

  lemma {:induction false} InsertStable<T(!new)>(r: seq<T>, x: T, key: T -> real, p: T -> bool)
    requires Tied(p, key)
    ensures Filter(Insert(r, x, key), p) == Filter(r, p) + (if p(x) then [x] else [])
  {
    if r == [] {
      FilterAppend([], x, p);
    } else if key(r[|r| - 1]) >= key(x) {
      FilterAppend(r, x, p);
    } else {
      var front, last := r[..|r| - 1], r[|r| - 1];
      InsertStable(front, x, key, p);
      FilterAppend(Insert(front, x, key), last, p);
      assert p(x) ==> !p(last);
    }
  }

  /**
   * The sorted sequence is a permutation of the input in non-increasing key
   * order, and elements with equal keys keep their relative order.
   */
  lemma SortDescSpec<T(!new)>(s: seq<T>, key: T -> real, p: T -> bool)
    requires Tied(p, key)
    ensures SortedDesc(SortDesc(s, key), key)
    ensures multiset(SortDesc(s, key)) == multiset(s)
    ensures Filter(SortDesc(s, key), p) == Filter(s, p)
  {
    SortDescSorted(s, key);
    SortDescPermutes(s, key);
    SortDescStable(s, key, p);
  }

  lemma {:induction false} SortDescSorted<T>(s: seq<T>, key: T -> real)
    ensures SortedDesc(SortDesc(s, key), key)
  {
    if s != [] {
      SortDescSorted(s[..|s| - 1], key);
      InsertSorted(SortDesc(s[..|s| - 1], key), s[|s| - 1], key);
    }
  }

  lemma {:induction false} SortDescPermutes<T>(s: seq<T>, key: T -> real)
    ensures multiset(SortDesc(s, key)) == multiset(s)
  {
    if s != [] {
      var front, last := s[..|s| - 1], s[|s| - 1];
      SortDescPermutes(front, key);
      InsertPermutes(SortDesc(front, key), last, key);
      assert s == front + [last];
    }
  }

  lemma {:induction false} SortDescStable<T(!new)>(s: seq<T>, key: T -> real, p: T -> bool)
    requires Tied(p, key)
    ensures Filter(SortDesc(s, key), p) == Filter(s, p)
  {
    if s != [] {
      var front, last := s[..|s| - 1], s[|s| - 1];
      SortDescStable(front, key, p);
      InsertStable(SortDesc(front, key), last, key, p);
      FilterAppend(front, last, p);
      assert s == front + [last];
    }
  }
}
