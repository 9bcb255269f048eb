/** Sorting systems by a string key: Python's
    `sorted(systems, key=lambda s: s.value)` and Ruby's `sort_by(&:to_s)`,
    both with `Systems.Value` as the key. Modelled as an insertion sort;
    only its result matters. */
module Sorting {
  import opened Systems
  import opened Strings

  predicate KeyLe(key: System -> string, a: System, b: System) {
    LexLe(key(a), key(b))
  }

  /** Every earlier element's key is at most every later one's. */
  ghost predicate SortedBy(key: System -> string, xs: seq<System>) {
    forall i, j :: 0 <= i < j < |xs| ==> KeyLe(key, xs[i], xs[j])
  }

  /** `x` placed before the first element whose key is not below its own. */
  function Insert(key: System -> string, x: System, xs: seq<System>): seq<System> {
    if xs == [] then [x]
    else if KeyLe(key, x, xs[0]) then [x] + xs
    else [xs[0]] + Insert(key, x, xs[1..])
  }

  /** Inserting adds `x` and keeps everything else. */
  lemma {:induction false} InsertPermutes(key: System -> string, x: System, xs: seq<System>)
    ensures multiset(Insert(key, x, xs)) == multiset(xs) + multiset{x}
  {
    if xs != [] && !KeyLe(key, x, xs[0]) {
      InsertPermutes(key, x, xs[1..]);
      assert xs == [xs[0]] + xs[1..];
    }
  }

  /** A sorted list stays sorted under an element whose key is at most all
      of its keys. */
  lemma ConsSorted(key: System -> string, y: System, ys: seq<System>)
    requires SortedBy(key, ys)
    requires forall k :: 0 <= k < |ys| ==> KeyLe(key, y, ys[k])
    ensures SortedBy(key, [y] + ys)
  {
    var r := [y] + ys;
    forall i, j | 0 <= i < j < |r| ensures KeyLe(key, r[i], r[j]) {
      if i == 0 {
        assert r[j] == ys[j - 1];
      } else {
        assert r[i] == ys[i - 1] && r[j] == ys[j - 1];
      }
    }
  }

  /** The tail of a sorted list is sorted, and its head's key is at most
      every key in it. */
  lemma SortedTail(key: System -> string, xs: seq<System>)
    requires xs != [] && SortedBy(key, xs)
    ensures SortedBy(key, xs[1..])
    ensures forall k :: 0 <= k < |xs[1..]| ==> KeyLe(key, xs[0], xs[1..][k])
  {
    var tail := xs[1..];
    forall i, j | 0 <= i < j < |tail| ensures KeyLe(key, tail[i], tail[j]) {
      assert tail[i] == xs[i + 1] && tail[j] == xs[j + 1];
    }
    forall k | 0 <= k < |tail| ensures KeyLe(key, xs[0], tail[k]) {
      assert tail[k] == xs[k + 1];
    }
  }

  lemma {:induction false} InsertSorted(key: System -> string, x: System, xs: seq<System>)
    requires SortedBy(key, xs)
    ensures SortedBy(key, Insert(key, x, xs))
  {
    if xs == [] {
    } else if KeyLe(key, x, xs[0]) {
      forall k | 0 <= k < |xs| ensures KeyLe(key, x, xs[k]) {
        if k > 0 {
          LexLeTransitive(key(x), key(xs[0]), key(xs[k]));
        }
      }
      ConsSorted(key, x, xs);
    } else {
      LexLeTotal(key(x), key(xs[0]));
      var tail := xs[1..];
      SortedTail(key, xs);
      InsertSorted(key, x, tail);
      InsertPermutes(key, x, tail);
      var ins := Insert(key, x, tail);
      forall k | 0 <= k < |ins| ensures KeyLe(key, xs[0], ins[k]) {
        assert ins[k] in multiset(ins);
        if ins[k] != x {
          assert ins[k] in multiset(tail);
          var j :| 0 <= j < |tail| && tail[j] == ins[k];
        }
      }
      ConsSorted(key, xs[0], ins);
    }
  }

  /** The systems ordered by key. */
  function SortBy(key: System -> string, xs: seq<System>): seq<System> {
    if xs == [] then [] else Insert(key, xs[0], SortBy(key, xs[1..]))
  }

  /** The sorted list is ordered by key and is a permutation of the input. */
  lemma {:induction false} SortBySorted(key: System -> string, xs: seq<System>)
    ensures SortedBy(key, SortBy(key, xs))
    ensures multiset(SortBy(key, xs)) == multiset(xs)
  {
    if xs != [] {
      SortBySorted(key, xs[1..]);
      InsertSorted(key, xs[0], SortBy(key, xs[1..]));
      InsertPermutes(key, xs[0], SortBy(key, xs[1..]));
      assert xs == [xs[0]] + xs[1..];
    }
  }
}
