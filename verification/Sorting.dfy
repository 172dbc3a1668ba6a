// list.sort as the service uses it: a stable sort, in the order `le` (le(x, y): x may come first).
module Sorting {

  ghost predicate TotalPreorder<T(!new)>(le: (T, T) -> bool) {
    && (forall x, y :: le(x, y) || le(y, x))
    && (forall x, y, z :: le(x, y) && le(y, z) ==> le(x, z))
  }

  ghost predicate Sorted<T(!new)>(xs: seq<T>, le: (T, T) -> bool) {
    forall i, j :: 0 <= i < j < |xs| ==> le(xs[i], xs[j])
  }

  // x goes before the first element it may precede, so it stays ahead of its equals.
  function Insert<T>(x: T, ys: seq<T>, le: (T, T) -> bool): (r: seq<T>)
    ensures |r| == |ys| + 1
  {
    if ys == [] || le(x, ys[0]) then [x] + ys else [ys[0]] + Insert(x, ys[1..], le)
  }

  function Sort<T>(xs: seq<T>, le: (T, T) -> bool): (r: seq<T>)
    ensures |r| == |xs|
  {
    if xs == [] then [] else Insert(xs[0], Sort(xs[1..], le), le)
  }

  // key order, largest first
  function Desc<T>(key: T -> real): (T, T) -> bool {
    (x, y) => key(x) >= key(y)
  }

  lemma {:induction false} InsertPermutes<T>(x: T, ys: seq<T>, le: (T, T) -> bool)
    ensures multiset(Insert(x, ys, le)) == multiset{x} + multiset(ys)
  {
    if ys != [] && !le(x, ys[0]) {
      InsertPermutes(x, ys[1..], le);
      assert ys == [ys[0]] + ys[1..];
    }
  }

  lemma {:induction false} SortPermutes<T>(xs: seq<T>, le: (T, T) -> bool)
    ensures multiset(Sort(xs, le)) == multiset(xs)
  {
    if xs != [] {
      SortPermutes(xs[1..], le);
      InsertPermutes(xs[0], Sort(xs[1..], le), le);
      assert xs == [xs[0]] + xs[1..];
    }
  }

  lemma SortMembers<T>(xs: seq<T>, le: (T, T) -> bool)
    ensures forall x :: x in Sort(xs, le) <==> x in xs
  {
    SortPermutes(xs, le);
    forall x ensures x in Sort(xs, le) <==> x in xs {
      assert x in Sort(xs, le) <==> x in multiset(Sort(xs, le));
    }
  }

  lemma {:induction false} InsertSorted<T(!new)>(x: T, ys: seq<T>, le: (T, T) -> bool)
    requires TotalPreorder(le) && Sorted(ys, le)
    ensures Sorted(Insert(x, ys, le), le)
  {
    if ys != [] && !le(x, ys[0]) {
      InsertSorted(x, ys[1..], le);
      var rest := Insert(x, ys[1..], le);
      InsertPermutes(x, ys[1..], le);
      forall j | 0 <= j < |rest| ensures le(ys[0], rest[j]) {
        assert rest[j] in multiset(rest);
        assert rest[j] == x || rest[j] in ys[1..];
      }
    }
  }

  lemma {:induction false} SortSorted<T(!new)>(xs: seq<T>, le: (T, T) -> bool)
    requires TotalPreorder(le)
    ensures Sorted(Sort(xs, le), le)
  {
    if xs != [] {
      SortSorted(xs[1..], le);
      InsertSorted(xs[0], Sort(xs[1..], le), le);
    }
  }

  // Sorting a sorted list changes nothing.
  lemma {:induction false} SortFixed<T(!new)>(xs: seq<T>, le: (T, T) -> bool)
    requires Sorted(xs, le)
    ensures Sort(xs, le) == xs
  {
    if xs != [] {
      SortFixed(xs[1..], le);
    }
  }

  // ----- sorting by a key, largest first -----

  // xs.sort(key=key, reverse=True)
  function ByKey<T>(xs: seq<T>, key: T -> real): seq<T> { Sort(xs, Desc(key)) }

  lemma DescIsOrder<T(!new)>(key: T -> real)
    ensures TotalPreorder(Desc(key))
  {
  }

  // Keys never increase, and nothing is lost or made up.
  lemma ByKeySorts<T(!new)>(xs: seq<T>, key: T -> real)
    ensures forall i, j :: 0 <= i < j < |xs| ==> key(ByKey(xs, key)[i]) >= key(ByKey(xs, key)[j])
    ensures multiset(ByKey(xs, key)) == multiset(xs)
    ensures forall x :: x in ByKey(xs, key) <==> x in xs
  {
    var le := Desc(key);
    DescIsOrder(key);
    SortSorted(xs, le);
    SortPermutes(xs, le);
    SortMembers(xs, le);
    hide Sort;
    forall i, j | 0 <= i < j < |xs| ensures key(ByKey(xs, key)[i]) >= key(ByKey(xs, key)[j]) {
      assert le(ByKey(xs, key)[i], ByKey(xs, key)[j]);
    }
  }

  // ----- elements that compare equal keep their order -----

  function Filter<T>(xs: seq<T>, q: T -> bool): seq<T> {
    if xs == [] then [] else (if q(xs[0]) then [xs[0]] else []) + Filter(xs[1..], q)
  }

  lemma FilterCons<T>(x: T, ys: seq<T>, q: T -> bool)
    ensures Filter([x] + ys, q) == (if q(x) then [x] else []) + Filter(ys, q)
  {
    assert ([x] + ys)[1..] == ys;
  }

  lemma {:induction false} InsertStable<T(!new)>(x: T, ys: seq<T>, le: (T, T) -> bool, q: T -> bool)
    requires forall y :: y in ys && q(x) && q(y) ==> le(x, y)
    ensures Filter(Insert(x, ys, le), q) == (if q(x) then [x] else []) + Filter(ys, q)
  {
    if ys == [] || le(x, ys[0]) {
      FilterCons(x, ys, q);
    } else {
      var y, rest := ys[0], ys[1..];
      assert ys == [y] + rest && y in ys;
      InsertStable(x, rest, le, q);
      FilterCons(y, Insert(x, rest, le), q);
      FilterCons(y, rest, q);
      hide Filter;
      assert Insert(x, ys, le) == [y] + Insert(x, rest, le);
    }
  }

  lemma {:induction false} SortStable<T(!new)>(xs: seq<T>, le: (T, T) -> bool, q: T -> bool)
    requires forall x, y :: x in xs && y in xs && q(x) && q(y) ==> le(x, y)
    ensures Filter(Sort(xs, le), q) == Filter(xs, q)
  {
    if xs != [] {
      SortStable(xs[1..], le, q);
      SortMembers(xs[1..], le);
      InsertStable(xs[0], Sort(xs[1..], le), le, q);
      hide Insert;
    }
  }

  function Tied<T>(key: T -> real, v: real): T -> bool {
    x => key(x) == v
  }

  // Elements with the same key stay in the order they had.
  lemma TiesKeepOrder<T(!new)>(xs: seq<T>, key: T -> real, v: real)
    ensures Filter(ByKey(xs, key), Tied(key, v)) == Filter(xs, Tied(key, v))
  {
    hide Filter, Sort;
    SortStable(xs, Desc(key), Tied(key, v));
  }

  // Cutting a list cuts what is filtered from it.
  lemma {:induction false} FilterPrefix<T>(xs: seq<T>, n: nat, q: T -> bool)
    requires n <= |xs|
    ensures Filter(xs[..n], q) <= Filter(xs, q)
  {
    if n > 0 {
      FilterPrefix(xs[1..], n - 1, q);
      assert xs[..n][1..] == xs[1..][..n - 1];
    }
  }

  function Map<S, T>(xs: seq<S>, f: S -> T): (r: seq<T>)
    ensures |r| == |xs| && forall i :: 0 <= i < |xs| ==> r[i] == f(xs[i])
  {
    seq(|xs|, i requires 0 <= i < |xs| => f(xs[i]))
  }

  lemma {:induction false} InsertMap<S(!new), T(!new)>(x: S, ys: seq<S>, f: S -> T, le: (S, S) -> bool,
      le': (T, T) -> bool)
    requires forall y :: y in ys ==> (le(x, y) <==> le'(f(x), f(y)))
    ensures Map(Insert(x, ys, le), f) == Insert(f(x), Map(ys, f), le')
  {
    if ys == [] || le(x, ys[0]) {
      assert Map([x] + ys, f) == [f(x)] + Map(ys, f);
    } else {
      InsertMap(x, ys[1..], f, le, le');
      assert Map(ys, f)[1..] == Map(ys[1..], f);
      assert Map([ys[0]] + Insert(x, ys[1..], le), f) == [f(ys[0])] + Map(Insert(x, ys[1..], le), f);
    }
  }

  // Sorting commutes with any map that keeps the order: only the order matters, not the keys.
  lemma {:induction false} SortMap<S(!new), T(!new)>(xs: seq<S>, f: S -> T, le: (S, S) -> bool, le': (T, T) -> bool)
    requires forall x, y :: x in xs && y in xs ==> (le(x, y) <==> le'(f(x), f(y)))
    ensures Map(Sort(xs, le), f) == Sort(Map(xs, f), le')
  {
    if xs != [] {
      SortMap(xs[1..], f, le, le');
      assert Map(xs, f)[1..] == Map(xs[1..], f);
      SortMembers(xs[1..], le);
      InsertMap(xs[0], Sort(xs[1..], le), f, le, le');
    }
  }
}
