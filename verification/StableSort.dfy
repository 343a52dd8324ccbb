module Options {
  datatype Option<+T> = None | Some(value: T)
}

module Extrema {
  function Max(a: real, b: real): real { if a >= b then a else b }
  function Min(a: real, b: real): real { if a <= b then a else b }
}

/** The library facts the scheduler and the sweep line lean on: a stable sort by a pair-valued key
    (Python's `sorted(..., key=...)` and `list.sort()` on pairs), and how it commutes with filtering. */
module StableSort {
  import opened Options

  type Key = (real, real)

  predicate LexLe(a: Key, b: Key) {
    a.0 < b.0 || (a.0 == b.0 && a.1 <= b.1)
  }

  /** Inserts `x` in front of every element whose key is not smaller. */
  function Insert<T>(x: T, xs: seq<T>, key: T -> Key): seq<T> {
    if |xs| == 0 || LexLe(key(x), key(xs[0])) then [x] + xs
    else [xs[0]] + Insert(x, xs[1..], key)
  }

  /** Insertion sort; equal keys keep their order. */
  function Sort<T>(xs: seq<T>, key: T -> Key): seq<T> {
    if |xs| == 0 then [] else Insert(xs[0], Sort(xs[1..], key), key)
  }

  function Filter<T>(xs: seq<T>, p: T -> bool): seq<T> {
    if |xs| == 0 then []
    else if p(xs[0]) then [xs[0]] + Filter(xs[1..], p)
    else Filter(xs[1..], p)
  }

  function FirstWhere<T>(xs: seq<T>, p: T -> bool): Option<T> {
    if |xs| == 0 then None
    else if p(xs[0]) then Some(xs[0])
    else FirstWhere(xs[1..], p)
  }

  predicate Sorted<T>(xs: seq<T>, key: T -> Key) {
    forall i, j :: 0 <= i < j < |xs| ==> LexLe(key(xs[i]), key(xs[j]))
  }

  predicate NoDup<T(==)>(xs: seq<T>) {
    forall i, j :: 0 <= i < j < |xs| ==> xs[i] != xs[j]
  }

  lemma {:induction false} InsertElements<T(!new)>(x: T, xs: seq<T>, key: T -> Key)
    ensures multiset(Insert(x, xs, key)) == multiset{x} + multiset(xs)
    ensures |Insert(x, xs, key)| == |xs| + 1
  {
    if |xs| > 0 && !LexLe(key(x), key(xs[0])) {
      InsertElements(x, xs[1..], key);
      assert xs == [xs[0]] + xs[1..];
    }
  }

  lemma {:induction false} SortElements<T(!new)>(xs: seq<T>, key: T -> Key)
    ensures multiset(Sort(xs, key)) == multiset(xs)
    ensures |Sort(xs, key)| == |xs|
  {
    if |xs| > 0 {
      SortElements(xs[1..], key);
      InsertElements(xs[0], Sort(xs[1..], key), key);
      assert xs == [xs[0]] + xs[1..];
    }
  }

  lemma SortMembers<T(!new)>(xs: seq<T>, key: T -> Key)
    ensures forall x :: x in Sort(xs, key) <==> x in xs
  {
    SortElements(xs, key);
    forall x ensures x in Sort(xs, key) <==> x in xs {
      assert x in Sort(xs, key) <==> x in multiset(Sort(xs, key));
      assert x in xs <==> x in multiset(xs);
    }
  }

  lemma {:induction false} InsertSorted<T(!new)>(x: T, xs: seq<T>, key: T -> Key)
    requires Sorted(xs, key)
    ensures Sorted(Insert(x, xs, key), key)
  {
    if |xs| > 0 && !LexLe(key(x), key(xs[0])) {
      InsertSorted(x, xs[1..], key);
      InsertElements(x, xs[1..], key);
      var rest := Insert(x, xs[1..], key);
      forall j | 0 <= j < |rest| ensures LexLe(key(xs[0]), key(rest[j])) {
        assert rest[j] in multiset(rest);
        assert rest[j] == x || rest[j] in xs[1..];
      }
    }
  }

  lemma {:induction false} SortSorted<T(!new)>(xs: seq<T>, key: T -> Key)
    ensures Sorted(Sort(xs, key), key)
  {
    if |xs| > 0 {
      SortSorted(xs[1..], key);
      InsertSorted(xs[0], Sort(xs[1..], key), key);
    }
  }

  /** A sequence already in key order is left alone. */
  lemma {:induction false} SortOfSorted<T(!new)>(xs: seq<T>, key: T -> Key)
    requires Sorted(xs, key)
    ensures Sort(xs, key) == xs
  {
    if |xs| > 0 {
      SortOfSorted(xs[1..], key);
      assert |xs| > 1 ==> LexLe(key(xs[0]), key(xs[1]));
    }
  }

  /** Only the comparisons matter: two keys that compare alike sort alike. */
  lemma {:induction false} SortCongruence<T(!new)>(xs: seq<T>, k1: T -> Key, k2: T -> Key)
    requires forall x, y :: x in xs && y in xs ==> (LexLe(k1(x), k1(y)) <==> LexLe(k2(x), k2(y)))
    ensures Sort(xs, k1) == Sort(xs, k2)
  {
    if |xs| > 0 {
      SortCongruence(xs[1..], k1, k2);
      SortMembers(xs[1..], k1);
      assert xs == [xs[0]] + xs[1..];
      forall y | y in Sort(xs[1..], k1) ensures y in xs {
        assert y in xs[1..];
      }
      InsertCongruence(xs[0], Sort(xs[1..], k1), k1, k2);
    }
  }

  lemma {:induction false} InsertCongruence<T(!new)>(x: T, xs: seq<T>, k1: T -> Key, k2: T -> Key)
    requires forall y :: y in xs ==> (LexLe(k1(x), k1(y)) <==> LexLe(k2(x), k2(y)))
    ensures Insert(x, xs, k1) == Insert(x, xs, k2)
  {
    if |xs| > 0 {
      InsertCongruence(x, xs[1..], k1, k2);
    }
  }

  lemma {:induction false} FilterMembers<T(!new)>(xs: seq<T>, p: T -> bool)
    ensures forall x :: x in Filter(xs, p) <==> x in xs && p(x)
    ensures |Filter(xs, p)| <= |xs|
  {
    if |xs| > 0 {
      FilterMembers(xs[1..], p);
      assert xs == [xs[0]] + xs[1..];
    }
  }

  lemma {:induction false} FilterAppend<T(!new)>(xs: seq<T>, ys: seq<T>, p: T -> bool)
    ensures Filter(xs + ys, p) == Filter(xs, p) + Filter(ys, p)
  {
    if |xs| == 0 {
      assert xs + ys == ys;
    } else {
      FilterAppend(xs[1..], ys, p);
      assert (xs + ys)[1..] == xs[1..] + ys;
    }
  }

  lemma {:induction false} FilterNone<T(!new)>(xs: seq<T>, p: T -> bool)
    requires forall x :: x in xs ==> !p(x)
    ensures Filter(xs, p) == []
  {
    if |xs| > 0 {
      FilterNone(xs[1..], p);
    }
  }

  lemma {:induction false} FilterAll<T(!new)>(xs: seq<T>, p: T -> bool)
    requires forall x :: x in xs ==> p(x)
    ensures Filter(xs, p) == xs
  {
    if |xs| > 0 {
      FilterAll(xs[1..], p);
    }
  }

  lemma {:induction false} FilterInsert<T(!new)>(x: T, xs: seq<T>, key: T -> Key, p: T -> bool)
    requires Sorted(xs, key)
    ensures Filter(Insert(x, xs, key), p) == if p(x) then Insert(x, Filter(xs, p), key) else Filter(xs, p)
  {
    if |xs| == 0 {
    } else if LexLe(key(x), key(xs[0])) {
      FilterMembers(xs, p);
      var fs := Filter(xs, p);
      if |fs| > 0 {
        assert fs[0] in fs;
        assert fs[0] in xs;
        assert LexLe(key(xs[0]), key(fs[0]));
      }
      assert ([x] + xs)[1..] == xs;
    } else {
      FilterInsert(x, xs[1..], key, p);
      var rest := Insert(x, xs[1..], key);
      assert ([xs[0]] + rest)[1..] == rest;
    }
  }

  /** A stable sort commutes with filtering. */
  lemma {:induction false} SortFilter<T(!new)>(xs: seq<T>, key: T -> Key, p: T -> bool)
    ensures Filter(Sort(xs, key), p) == Sort(Filter(xs, p), key)
  {
    if |xs| > 0 {
      SortFilter(xs[1..], key, p);
      SortSorted(xs[1..], key);
      FilterInsert(xs[0], Sort(xs[1..], key), key, p);
    }
  }

  lemma {:induction false} FirstWhereProps<T(!new)>(xs: seq<T>, p: T -> bool)
    ensures FirstWhere(xs, p).None? <==> forall x :: x in xs ==> !p(x)
    ensures FirstWhere(xs, p).Some? ==> FirstWhere(xs, p).value in xs && p(FirstWhere(xs, p).value)
  {
    if |xs| > 0 {
      FirstWhereProps(xs[1..], p);
      assert xs == [xs[0]] + xs[1..];
    }
  }

  /** In a sorted list, the first element with `p` has the least key of all that have it. */
  lemma {:induction false} FirstWhereLeast<T(!new)>(xs: seq<T>, key: T -> Key, p: T -> bool, x: T)
    requires Sorted(xs, key) && x in xs && p(x)
    ensures FirstWhere(xs, p).Some? && LexLe(key(FirstWhere(xs, p).value), key(x))
  {
    if !p(xs[0]) {
      assert x in xs[1..];
      FirstWhereLeast(xs[1..], key, p, x);
    }
  }

  lemma {:induction false} FirstWhereFilter<T(!new)>(xs: seq<T>, p: T -> bool, q: T -> bool)
    requires FirstWhere(xs, q).Some? ==> p(FirstWhere(xs, q).value)
    ensures FirstWhere(Filter(xs, p), q) == FirstWhere(xs, q)
  {
    if |xs| > 0 && !q(xs[0]) {
      FirstWhereFilter(xs[1..], p, q);
    }
  }

  lemma {:induction false} FirstWhereCongruence<T(!new)>(xs: seq<T>, p: T -> bool, q: T -> bool)
    requires forall x :: x in xs ==> p(x) == q(x)
    ensures FirstWhere(xs, p) == FirstWhere(xs, q)
  {
    if |xs| > 0 {
      FirstWhereCongruence(xs[1..], p, q);
    }
  }

  function Except<T(==)>(x: T): T -> bool {
    (y: T) => y != x
  }

  lemma {:induction false} FilterNoDup<T(!new)>(xs: seq<T>, p: T -> bool)
    requires NoDup(xs)
    ensures NoDup(Filter(xs, p))
  {
    if |xs| > 0 {
      FilterNoDup(xs[1..], p);
      FilterMembers(xs[1..], p);
      var fs := Filter(xs[1..], p);
      forall j | 0 <= j < |fs| ensures fs[j] != xs[0] {
        assert fs[j] in fs;
        var k :| 0 <= k < |xs[1..]| && xs[1..][k] == fs[j];
        assert xs[k + 1] == fs[j];
      }
    }
  }

  /** Dropping one element of a list without repetitions. */
  lemma {:induction false} FilterOut<T(!new)>(xs: seq<T>, i: nat)
    requires NoDup(xs) && i < |xs|
    ensures Filter(xs, Except(xs[i])) == xs[..i] + xs[i + 1..]
  {
    var p, left, right := Except(xs[i]), xs[..i], xs[i + 1..];
    forall x | x in left ensures p(x) {
      var k :| 0 <= k < i && xs[k] == x;
    }
    forall x | x in right ensures p(x) {
      var k :| i < k < |xs| && xs[k] == x;
    }
    FilterDrop(left, right, xs[i], p);
    assert xs == left + ([xs[i]] + right);
  }

  lemma FilterDrop<T(!new)>(left: seq<T>, right: seq<T>, x: T, p: T -> bool)
    requires (forall y :: y in left || y in right ==> p(y)) && !p(x)
    ensures Filter(left + ([x] + right), p) == left + right
  {
    FilterAppend(left, [x] + right, p);
    assert ([x] + right)[1..] == right;
    FilterAll(left, p);
    FilterAll(right, p);
  }

  lemma {:induction false} FilterSwap<T(!new)>(xs: seq<T>, p: T -> bool, q: T -> bool)
    ensures Filter(Filter(xs, p), q) == Filter(Filter(xs, q), p)
  {
    if |xs| > 0 {
      FilterSwap(xs[1..], p, q);
    }
  }

  /** Filtering by `p` first makes no difference to a filter that lets only elements with `p` through. */
  lemma {:induction false} FilterTwice<T(!new)>(xs: seq<T>, p: T -> bool, q: T -> bool)
    requires forall x :: x in xs && q(x) ==> p(x)
    ensures Filter(Filter(xs, p), q) == Filter(xs, q)
  {
    if |xs| > 0 {
      FilterTwice(xs[1..], p, q);
    }
  }
}
